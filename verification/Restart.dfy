/** Starting the daemon again from a saved session. */
module Restart {
  import opened Model
  import opened Control
  import opened Registry
  import opened Scheduling
  import opened Invariants
  import Actor
  import Decimal
  import Promises
  import Sequential
  import Sessions
  import Store

  // ---------------------------------------------------------------- file priorities

  predicate IsIndex(key: string) {
    Decimal.Parse(key).Some? && Decimal.Parse(key).value >= 0
  }

  // A reading of the saved priorities. Different keys can name one index, as
  // "1" and "+1" do; which of them wins depends on the order of the map.
  ghost predicate IsReading(saved: map<string, FilePriority>, r: map<nat, FilePriority>) {
    && (forall key | key in saved && IsIndex(key) :: Decimal.Parse(key).value in r)
    && (forall i | i in r :: exists key :: key in saved && IsIndex(key) && Decimal.Parse(key).value == i && r[i] == saved[key])
  }

  method FilePriorities(saved: map<string, FilePriority>) returns (result: map<nat, FilePriority>)
    ensures IsReading(saved, result)
  {
    result := map[];
    var rest := saved.Keys;
    while rest != {}
      invariant rest <= saved.Keys
      invariant forall key | key in saved.Keys - rest && IsIndex(key) :: Decimal.Parse(key).value in result
      invariant forall i | i in result ::
                  exists key :: key in saved && IsIndex(key) && Decimal.Parse(key).value == i && result[i] == saved[key]
    {
      var key :| key in rest;
      var parsed := Decimal.Parse(key);
      if parsed.Some? && parsed.value >= 0 {
        result := result[parsed.value := saved[key]];
      }
      rest := rest - {key};
    }
  }

  function SavedPriorities(r: Record): map<string, FilePriority> {
    if r.filePriorities.Some? then r.filePriorities.value else map[]
  }

  // Every key is what Itoa writes for some index.
  ghost predicate Canonical(saved: map<string, FilePriority>) {
    forall key | key in saved :: IsIndex(key) && key == Decimal.Format(Decimal.Parse(key).value)
  }

  // The priorities come back under the very indexes they were set for.
  lemma CanonicalRoundTrip(saved: map<string, FilePriority>, r: map<nat, FilePriority>)
    requires Canonical(saved) && IsReading(saved, r)
    ensures forall i: nat | i <= Decimal.MaxInt ::
              (i in r <==> Decimal.Format(i) in saved) && (i in r ==> r[i] == saved[Decimal.Format(i)])
  {
    forall i: nat | i <= Decimal.MaxInt
      ensures (i in r <==> Decimal.Format(i) in saved) && (i in r ==> r[i] == saved[Decimal.Format(i)])
    {
      Decimal.ParseFormat(i);
    }
  }

  ghost predicate CanonicalSession(s: Session) {
    forall id | id in Records(s) && Records(s)[id].filePriorities.Some? :: Canonical(Records(s)[id].filePriorities.value)
  }

  lemma CanonicalInsert(saved: map<string, FilePriority>, index: int, p: FilePriority)
    requires Canonical(saved) && 0 <= index <= Decimal.MaxInt
    ensures Canonical(saved[Decimal.Format(index) := p])
  {
    Decimal.ParseFormat(index);
  }

  lemma PriorityKeepsCanonical(s: Session, id: TorrentID, index: int, p: FilePriority)
    requires CanonicalSession(s) && id in Records(s) && 0 <= index <= Decimal.MaxInt
    ensures CanonicalSession(Sessions.WithPriorityIn(s, id, index, p))
  {
    hide Decimal.Format, Decimal.Parse, Canonical;
    assert Canonical(SavedPriorities(Records(s)[id])) by {
      CanonicalNone();
    }
    CanonicalInsert(SavedPriorities(Records(s)[id]), index, p);
  }

  lemma CanonicalNone()
    ensures Canonical(map[])
  {
  }

  // Setting a priority keeps the keys canonical: the request's index is a
  // non-negative machine integer.
  lemma SetPriorityKeepsCanonical(st: State, id: TorrentID, index: int, p: FilePriority, f: Store.Fault)
    requires Store.Valid(st.session) && CanonicalSession(st.session) && 0 <= index <= Decimal.MaxInt
    ensures CanonicalSession(SetFilePriorityOf(st, id, index, p, f).0.session)
  {
    hide CanonicalSession, SetFilePriorityOf, UpdateFilePriority, WithFilePriority, Sessions.WithPriorityIn;
    Promises.PriorityShape(st, id, index, p, f);
    if id in Records(st.session) {
      var e1 := Registry.SetFilePriority(st.engine, id, index, p).0;
      Sessions.UpdateFilePriorityEffect(st.(engine := e1), id, index, p, f);
      PriorityKeepsCanonical(st.session, id, index, p);
    }
  }

  // ---------------------------------------------------------------- restoring

  // What the library answers for a record, and the reading of its priorities.
  datatype Answer = Answer(reply: AddReply, priorities: map<nat, FilePriority>)

  // What the actor gets: the engine's snapshot, or an error under the record's name.
  function Presented(id: TorrentID, r: Record, t: Option<Snapshot>): Snapshot {
    if t.Some? then t.value.(addedAt := r.addedAt) else Snapshot(id, r.name, Error, 0.0, false, r.addedAt, true)
  }

  ghost function RestoreEngine(e: EngineState, id: TorrentID, r: Record, a: Answer): (EngineState, Option<Snapshot>) {
    var paused := r.desired == Paused;
    var (e1, result) := Registry.Add(e, AddInput(paused, r.source, r.savePath, r.sequential, a.priorities), a.reply);
    if result.Failed? || result.id != id then (e1, None)
    else
      var (e2, ok) := if paused then SetPaused(e1, id, true) else (e1, true);
      if ok then TakeSnapshot(e2, id) else (e2, None)
  }

  ghost function RestoreOne(st: State, id: TorrentID, r: Record, a: Answer): State {
    var (e, t) := RestoreEngine(st.engine, id, r, a);
    st.(engine := e, board := Actor.Put(st.board, Presented(id, r, t)))
  }

  ghost function Restore(st: State, ids: seq<TorrentID>, answers: map<TorrentID, Answer>): State
    decreases |ids|
  {
    if ids == [] then st
    else if ids[0] !in Records(st.session) || ids[0] !in answers then Restore(st, ids[1..], answers)
    else Restore(RestoreOne(st, ids[0], Records(st.session)[ids[0]], answers[ids[0]]), ids[1..], answers)
  }

  // The answers to these records: the library's replies and some reading of
  // the saved priorities.
  ghost predicate Answered(s: Session, replies: map<TorrentID, AddReply>, answers: map<TorrentID, Answer>, ids: seq<TorrentID>) {
    && answers.Keys == Elements(ids)
    && forall id | id in answers ::
         && id in replies && id in Records(s) && answers[id].reply == replies[id]
         && IsReading(SavedPriorities(Records(s)[id]), answers[id].priorities)
  }

  lemma AnsweredOneMore(s: Session, replies: map<TorrentID, AddReply>, answers: map<TorrentID, Answer>, ids: seq<TorrentID>, id: TorrentID, a: Answer)
    requires Answered(s, replies, answers, ids) && id in replies && id in Records(s) && a.reply == replies[id]
    requires IsReading(SavedPriorities(Records(s)[id]), a.priorities)
    ensures Answered(s, replies, answers[id := a], ids + [id])
  {
  }

  // One more record, with the answer it gets.
  lemma {:induction false} RestoreOneMore(st: State, ids: seq<TorrentID>, answers: map<TorrentID, Answer>, id: TorrentID, a: Answer)
    requires id !in ids && id in Records(st.session)
    ensures Restore(st, ids + [id], answers[id := a])
            == RestoreOne(Restore(st, ids, answers), id, Records(st.session)[id], a)
    decreases |ids|
  {
    if ids == [] {
      assert (ids + [id])[1..] == [];
    } else {
      assert (ids + [id])[1..] == ids[1..] + [id];
      var next := if ids[0] !in Records(st.session) || ids[0] !in answers then st
                  else RestoreOne(st, ids[0], Records(st.session)[ids[0]], answers[ids[0]]);
      RestoreOneMore(next, ids[1..], answers, id, a);
    }
  }

  // One turn of the loop over the order.
  lemma RestoreTurn(start: State, now: State, replies: map<TorrentID, AddReply>, answers: map<TorrentID, Answer>, i: nat, a: Answer)
    requires Store.Valid(start.session) && replies.Keys == Records(start.session).Keys && i < |Ids(start.session)|
    requires now == Restore(start, Ids(start.session)[..i], answers)
    requires Answered(start.session, replies, answers, Ids(start.session)[..i])
    requires var id := Ids(start.session)[i];
             id in replies && a.reply == replies[id] && IsReading(SavedPriorities(Records(start.session)[id]), a.priorities)
    ensures var id := Ids(start.session)[i];
            && Answered(start.session, replies, answers[id := a], Ids(start.session)[..i + 1])
            && RestoreOne(now, id, Records(start.session)[id], a) == Restore(start, Ids(start.session)[..i + 1], answers[id := a])
  {
    var order := Ids(start.session);
    TakeOneMore(order, i);
    RestoreOneMore(start, order[..i], answers, order[i], a);
    AnsweredOneMore(start.session, replies, answers, order[..i], order[i], a);
  }

  // A daemon that has loaded its session and started nothing.
  function Loaded(config: Config, session: Session, disk: Store.Disk): State {
    State(config, session, disk, Actor.Board(map[], []), map[], Empty)
  }

  // Every record gets an answer, and new handles have no boosts.
  ghost predicate Answerable(s: Session, answers: map<TorrentID, Answer>) {
    && answers.Keys == Records(s).Keys
    && forall id | id in answers ::
         && (answers[id].reply.Accepted? ==> answers[id].reply.handle.own == map[])
         && IsReading(SavedPriorities(Records(s)[id]), answers[id].priorities)
  }

  // And the library names the torrents by the ids they were saved under. A source
  // that was replaced since yields another one.
  ghost predicate Matching(s: Session, answers: map<TorrentID, Answer>) {
    Answerable(s, answers) && forall id | id in answers && answers[id].reply.Accepted? :: answers[id].reply.id == id
  }

  // The library names a torrent by this id for one of the records.
  ghost predicate NamedBy(ids: seq<TorrentID>, answers: map<TorrentID, Answer>, x: TorrentID) {
    exists id :: id in ids && id in answers && answers[id].reply.Accepted? && answers[id].reply.id == x
  }

  // The handle the library gave, but for its number and the boosts.
  ghost predicate SameHandle(given: Sequential.Handle, h: Sequential.Handle) {
    h == given.(serial := h.serial, own := h.own)
  }

  // What the actor shows of a torrent that did not come back.
  ghost predicate ShownAsFailed(b: Snapshot, r: Record) {
    b.error && b.name == r.name && b.addedAt == r.addedAt && b.progress == 0.0
  }

  // A torrent as its record says, in engine and actor.
  ghost predicate RestoredAs(st: State, id: TorrentID, r: Record, a: Answer) {
    && id in st.board.torrents && st.board.torrents[id].id == id
    && (id in st.engine.torrents <==> a.reply.Accepted?)
    && (id in st.engine.torrents <==> id in st.engine.live)
    && (id in st.engine.torrents ==>
          var e := st.engine.torrents[id];
          && e.paused == (r.desired == Paused) && e.sequential == r.sequential
          && e.filePriorities == a.priorities && e.savePath == r.savePath && e.source == r.source && e.addedAt == a.reply.now
          && SameHandle(a.reply.handle, e.torrent)
          && st.board.torrents[id].sequential == r.sequential
          && st.board.torrents[id].addedAt == r.addedAt
          && (st.board.torrents[id].state == Paused <==> r.desired == Paused))
    && (id in st.engine.torrents ==> st.board.torrents[id].name == a.reply.handle.name && !st.board.torrents[id].error)
    && (id !in st.engine.torrents ==> ShownAsFailed(st.board.torrents[id], r) && st.board.torrents[id].state == Error)
  }

  // The restoration stands before record k.
  ghost predicate Restoring(st0: State, st: State, answers: map<TorrentID, Answer>, k: nat) {
    var ids := Ids(st0.session);
    && k <= |ids|
    && st == st0.(engine := st.engine, board := st.board)
    && st.board.order == ids[..k] && Actor.Consistent(st.board)
    && GoodEngine(st.engine)
    && (forall id | id in ids[..k] :: id in Records(st0.session) && id in answers
                                      && RestoredAs(st, id, Records(st0.session)[id], answers[id]))
    && (forall id | id !in ids[..k] :: id !in st.engine.torrents && id !in st.engine.live)
  }

  // The entry an accepted torrent gets, before its snapshot is taken.
  lemma RestoreAddEffect(e: EngineState, id: TorrentID, r: Record, a: Answer, x: TorrentID)
    requires GoodEngine(e) && id !in e.live && id !in e.torrents && r.savePath != ""
    requires a.reply.Accepted? && a.reply.handle.own == map[] && a.reply.id == id
    ensures var input := AddInput(r.desired == Paused, r.source, r.savePath, r.sequential, a.priorities);
            var (e1, result) := Registry.Add(e, input, a.reply);
            && result == Created(id) && GoodEngine(e1)
            && (x != id ==> SameFlags(e, e1, x) && (x in e.torrents ==> e1.torrents[x] == e.torrents[x]))
            && id in e1.torrents && id in e1.live
            && e1.torrents[id].paused == (r.desired == Paused) && e1.torrents[id].sequential == r.sequential
            && e1.torrents[id].filePriorities == a.priorities && e1.torrents[id].savePath == r.savePath
            && e1.torrents[id].source == r.source && e1.torrents[id].addedAt == a.reply.now
            && SameHandle(a.reply.handle, e1.torrents[id].torrent)
  {
    AddKeepsGood(e, AddInput(r.desired == Paused, r.source, r.savePath, r.sequential, a.priorities), a.reply);
  }

  // Pausing a torrent that was added paused, and taking its snapshot, keep it so.
  lemma RestoreSnapshotEffect(e: EngineState, id: TorrentID, x: TorrentID)
    requires GoodEngine(e) && id in e.torrents
    ensures var (e', t) := TakeSnapshot(e, id);
            && GoodEngine(e') && t.Some? && id in e'.torrents && e'.live == e.live
            && t.value == SnapshotOf(id, e'.torrents[id])
            && SameSettings(e.torrents[id], e'.torrents[id]) && e'.torrents[id].paused == e.torrents[id].paused
            && (x != id ==> SameFlags(e, e', x) && (x in e.torrents ==> e'.torrents[x] == e.torrents[x]))
  {
    SnapshotKeepsGood(e, id);
  }

  lemma PauseAgain(e: EngineState, id: TorrentID)
    requires id in e.torrents && e.torrents[id].paused
    ensures SetPaused(e, id, true) == (e, true)
  {
    assert e.torrents[id := e.torrents[id]] == e.torrents;
  }

  lemma RestoreEngineEffect(e: EngineState, id: TorrentID, r: Record, a: Answer, x: TorrentID)
    requires GoodEngine(e) && id !in e.live && id !in e.torrents && r.savePath != ""
    requires a.reply.Accepted? ==> a.reply.handle.own == map[] && a.reply.id == id
    ensures var (e', t) := RestoreEngine(e, id, r, a);
            && GoodEngine(e')
            && (x != id ==> SameFlags(e, e', x) && (x in e.torrents ==> e'.torrents[x] == e.torrents[x]))
            && (id in e'.torrents <==> a.reply.Accepted?) && (id in e'.live <==> a.reply.Accepted?)
            && (t.Some? <==> a.reply.Accepted?)
            && (t.Some? ==>
                  && e'.torrents[id].paused == (r.desired == Paused) && e'.torrents[id].sequential == r.sequential
                  && e'.torrents[id].filePriorities == a.priorities && e'.torrents[id].savePath == r.savePath
                  && e'.torrents[id].source == r.source && e'.torrents[id].addedAt == a.reply.now
                  && SameHandle(a.reply.handle, e'.torrents[id].torrent)
                  && t.value == SnapshotOf(id, e'.torrents[id]))
  {
    if a.reply.Accepted? {
      var e1 := Registry.Add(e, AddInput(r.desired == Paused, r.source, r.savePath, r.sequential, a.priorities), a.reply).0;
      RestoreAddEffect(e, id, r, a, x);
      RestoreSnapshotEffect(e1, id, x);
      if r.desired == Paused {
        PauseAgain(e1, id);
      }
      assert RestoreEngine(e, id, r, a) == TakeSnapshot(e1, id);
    }
  }

  lemma RestoreOneEffect(st: State, id: TorrentID, r: Record, a: Answer, x: TorrentID)
    requires GoodEngine(st.engine) && id !in st.engine.live && id !in st.engine.torrents && r.savePath != ""
    requires a.reply.Accepted? ==> a.reply.handle.own == map[] && a.reply.id == id
    ensures var st' := RestoreOne(st, id, r, a);
            && GoodEngine(st'.engine) && RestoredAs(st', id, r, a)
            && Presented(id, r, RestoreEngine(st.engine, id, r, a).1).id == id
            && (x != id ==> SameFlags(st.engine, st'.engine, x)
                            && (x in st.engine.torrents ==> st'.engine.torrents[x] == st.engine.torrents[x]))
  {
    hide RestoreEngine, GoodEngine;
    RestoreEngineEffect(st.engine, id, r, a, x);
  }

  lemma RestoredStays(st: State, st': State, t: Snapshot, x: TorrentID, r: Record, a: Answer)
    requires RestoredAs(st, x, r, a) && x != t.id
    requires SameFlags(st.engine, st'.engine, x) && (x in st.engine.torrents ==> st'.engine.torrents[x] == st.engine.torrents[x])
    requires st'.board == Actor.Put(st.board, t)
    ensures RestoredAs(st', x, r, a)
  {
  }

  lemma RestoringStep(st0: State, st: State, answers: map<TorrentID, Answer>, k: nat)
    requires Store.Valid(st0.session) && Matching(st0.session, answers)
    requires Restoring(st0, st, answers, k) && k < |Ids(st0.session)|
    ensures var id := Ids(st0.session)[k];
            && id in Records(st0.session) && id in answers
            && Restoring(st0, RestoreOne(st, id, Records(st0.session)[id], answers[id]), answers, k + 1)
  {
    hide RestoreEngine, RestoredAs, GoodEngine, IsReading;
    var ids := Ids(st0.session);
    var id := ids[k];
    assert id in ids && id !in ids[..k] && ids[..k + 1] == ids[..k] + [id];
    Sessions.InOrder(st0.session, id);
    var r, a := Records(st0.session)[id], answers[id];
    var st' := RestoreOne(st, id, r, a);
    var t := Presented(id, r, RestoreEngine(st.engine, id, r, a).1);
    RestoreOneEffect(st, id, r, a, id);
    Actor.PutKeepsConsistent(st.board, t);
    assert id in st.board.torrents <==> id in Elements(st.board.order);
    forall x | x in ids[..k + 1]
      ensures x in Records(st0.session) && x in answers && RestoredAs(st', x, Records(st0.session)[x], answers[x])
    {
      if x != id {
        assert x in ids[..k];
        RestoreOneEffect(st, id, r, a, x);
        RestoredStays(st, st', t, x, Records(st0.session)[x], answers[x]);
      }
    }
    forall x | x !in ids[..k + 1] ensures x !in st'.engine.torrents && x !in st'.engine.live {
      RestoreOneEffect(st, id, r, a, x);
    }
  }

  lemma {:induction false} RestoringFinishes(st0: State, st: State, answers: map<TorrentID, Answer>, k: nat)
    requires Store.Valid(st0.session) && Matching(st0.session, answers) && Restoring(st0, st, answers, k)
    ensures Restoring(st0, Restore(st, Ids(st0.session)[k..], answers), answers, |Ids(st0.session)|)
    decreases |Ids(st0.session)| - k
  {
    var ids := Ids(st0.session);
    if k < |ids| {
      RestoringStep(st0, st, answers, k);
      assert ids[k..][0] == ids[k] && ids[k..][1..] == ids[k + 1..];
      RestoringFinishes(st0, RestoreOne(st, ids[k], Records(st0.session)[ids[k]], answers[ids[k]]), answers, k + 1);
    }
  }

  // A restart re-creates the order, and for every torrent the library accepts
  // the run state, the sequential flag and the file priorities of its record.
  lemma RestartRecreates(config: Config, session: Session, disk: Store.Disk, answers: map<TorrentID, Answer>)
    requires Store.Valid(session) && Matching(session, answers)
    ensures var st := Restore(Loaded(config, session, disk), Ids(session), answers);
            && st.session == session && st.disk == disk && st.board.order == Ids(session)
            && (forall id | id in Records(session) :: RestoredAs(st, id, Records(session)[id], answers[id]))
  {
    var st0 := Loaded(config, session, disk);
    assert Ids(session)[..0] == [] && Ids(session)[0..] == Ids(session);
    RestoringFinishes(st0, st0, answers, 0);
    assert Ids(session)[..|Ids(session)|] == Ids(session);
    forall id | id in Records(session) ensures id in Ids(session) {
      Sessions.InOrder(session, id);
    }
  }

  // The same, as the state the restoration ends in.
  lemma RestoreEnds(config: Config, session: Session, disk: Store.Disk, answers: map<TorrentID, Answer>)
    requires Store.Valid(session) && Matching(session, answers)
    ensures var st := Restore(Loaded(config, session, disk), Ids(session), answers);
            && st == Loaded(config, session, disk).(engine := st.engine, board := st.board)
            && Restoring(st, st, answers, |Ids(session)|)
  {
    hide Matching, Store.Valid, RestoredAs, GoodEngine;
    var st0 := Loaded(config, session, disk);
    assert Ids(session)[0..] == Ids(session);
    RestoringStarts(config, session, disk, answers);
    RestoringFinishes(st0, st0, answers, 0);
  }

  lemma RestoringStarts(config: Config, session: Session, disk: Store.Disk, answers: map<TorrentID, Answer>)
    ensures Restoring(Loaded(config, session, disk), Loaded(config, session, disk), answers, 0)
  {
    assert Ids(session)[..0] == [];
  }

  // ---------------------------------------------------------------- whatever the library names them

  ghost predicate JustLive(e: EngineState) {
    forall x :: x in e.torrents <==> x in e.live
  }

  // A record whose source yields another torrent is shown with its error, even if
  // the engine has a torrent under the id of the record.
  lemma MisnamedIsShownAsFailed(st: State, id: TorrentID, r: Record, a: Answer)
    requires a.reply.Accepted? && a.reply.id != id
    ensures var st' := RestoreOne(st, id, r, a);
            && id in st'.board.torrents && ShownAsFailed(st'.board.torrents[id], r) && st'.board.torrents[id].state == Error
            && (id in st'.engine.torrents <==> id in st.engine.torrents)
            && (id in st.engine.torrents ==> st'.engine.torrents[id] == st.engine.torrents[id])
  {
  }

  // One record restored, under whatever id: the engine gets at most the torrent
  // the library names, and what is not in the engine is shown as an error.
  lemma RestoreAnyEngine(e: EngineState, id: TorrentID, r: Record, a: Answer)
    requires GoodEngine(e) && JustLive(e) && r.savePath != "" && (a.reply.Accepted? ==> a.reply.handle.own == map[])
    ensures var (e', t) := RestoreEngine(e, id, r, a);
            && GoodEngine(e') && JustLive(e')
            && (forall x :: x in e'.torrents <==> x in e.torrents || (a.reply.Accepted? && x == a.reply.id))
            && (t.Some? ==> id in e'.torrents && t.value.id == id)
  {
    hide Registry.Add, SetPaused, TakeSnapshot, GoodEngine, JustLive;
    var paused := r.desired == Paused;
    var input := AddInput(paused, r.source, r.savePath, r.sequential, a.priorities);
    AddKeepsGood(e, input, a.reply);
    AddNames(e, input, a.reply);
    RestoreAfterAdd(Registry.Add(e, input, a.reply).0, id, paused);
  }

  lemma AddNames(e: EngineState, input: AddInput, reply: AddReply)
    requires JustLive(e) && input.savePath != ""
    ensures var (e1, result) := Registry.Add(e, input, reply);
            && JustLive(e1) && (forall x :: x in e1.torrents <==> x in e.torrents || (reply.Accepted? && x == reply.id))
            && (!result.Failed? ==> result.id in e1.torrents)
  {
  }

  // Pausing and taking a snapshot keep the torrents.
  lemma RestoreAfterAdd(e: EngineState, id: TorrentID, paused: bool)
    requires GoodEngine(e) && JustLive(e)
    ensures var (e2, ok) := if paused then SetPaused(e, id, true) else (e, true);
            var (e', t) := if ok then TakeSnapshot(e2, id) else (e2, None);
            && GoodEngine(e') && JustLive(e') && e'.torrents.Keys == e.torrents.Keys
            && (t.Some? ==> id in e'.torrents && t.value.id == id)
  {
    hide GoodEngine, GoodEntry;
    SetPausedKeepsGood(e, id, true);
    SnapshotKeepsGood(e, id);
    SnapshotKeepsGood(SetPaused(e, id, true).0, id);
  }

  // The restoration stands before record k, under whatever ids.
  ghost predicate Coming(st0: State, st: State, answers: map<TorrentID, Answer>, k: nat) {
    var ids := Ids(st0.session);
    && k <= |ids|
    && st == st0.(engine := st.engine, board := st.board)
    && st.board.order == ids[..k] && Actor.Consistent(st.board)
    && GoodEngine(st.engine) && JustLive(st.engine)
    && (forall x :: x in st.engine.torrents <==> NamedBy(ids[..k], answers, x))
    && (forall x | x in st.board.torrents && x !in st.engine.torrents ::
          && st.board.torrents[x].state == Error
          && x in Records(st0.session) && ShownAsFailed(st.board.torrents[x], Records(st0.session)[x]))
  }

  lemma NamedByOneMore(ids: seq<TorrentID>, k: nat, answers: map<TorrentID, Answer>, x: TorrentID)
    requires k < |ids| && ids[k] in answers
    ensures var a := answers[ids[k]];
            NamedBy(ids[..k + 1], answers, x) <==> NamedBy(ids[..k], answers, x) || (a.reply.Accepted? && x == a.reply.id)
  {
    assert ids[..k + 1] == ids[..k] + [ids[k]];
    if id :| id in ids[..k] && id in answers && answers[id].reply.Accepted? && answers[id].reply.id == x {
      assert id in ids[..k + 1];
    }
    assert ids[k] in ids[..k + 1];
  }

  lemma ComingStep(st0: State, st: State, answers: map<TorrentID, Answer>, k: nat)
    requires Store.Valid(st0.session) && Answerable(st0.session, answers)
    requires Coming(st0, st, answers, k) && k < |Ids(st0.session)|
    ensures var id := Ids(st0.session)[k];
            && id in Records(st0.session) && id in answers
            && Coming(st0, RestoreOne(st, id, Records(st0.session)[id], answers[id]), answers, k + 1)
  {
    hide RestoreEngine, NamedBy, GoodEngine, IsReading;
    var ids := Ids(st0.session);
    var id := ids[k];
    assert id !in ids[..k] && ids[..k + 1] == ids[..k] + [id];
    Sessions.InOrder(st0.session, id);
    var r, a := Records(st0.session)[id], answers[id];
    var t := Presented(id, r, RestoreEngine(st.engine, id, r, a).1);
    RestoreAnyEngine(st.engine, id, r, a);
    Actor.PutKeepsConsistent(st.board, t);
    assert id in st.board.torrents <==> id in Elements(st.board.order);
    var st' := RestoreOne(st, id, r, a);
    forall x ensures x in st'.engine.torrents <==> NamedBy(ids[..k + 1], answers, x) {
      NamedByOneMore(ids, k, answers, x);
      assert x in st.engine.torrents <==> NamedBy(ids[..k], answers, x);
    }
  }

  lemma {:induction false} ComingFinishes(st0: State, st: State, answers: map<TorrentID, Answer>, k: nat)
    requires Store.Valid(st0.session) && Answerable(st0.session, answers) && Coming(st0, st, answers, k)
    ensures Coming(st0, Restore(st, Ids(st0.session)[k..], answers), answers, |Ids(st0.session)|)
    decreases |Ids(st0.session)| - k
  {
    hide Store.Valid, Answerable, Coming, RestoreOne;
    var ids := Ids(st0.session);
    if k < |ids| {
      ComingStep(st0, st, answers, k);
      assert ids[k..][0] == ids[k] && ids[k..][1..] == ids[k + 1..];
      ComingSession(st0, st, answers, k);
      ComingFinishes(st0, RestoreOne(st, ids[k], Records(st0.session)[ids[k]], answers[ids[k]]), answers, k + 1);
    } else {
      ComingSession(st0, st, answers, k);
      assert ids[k..] == [];
    }
  }

  lemma ComingSession(st0: State, st: State, answers: map<TorrentID, Answer>, k: nat)
    requires Coming(st0, st, answers, k)
    ensures st.session == st0.session && k <= |Ids(st0.session)|
  {
  }

  lemma ComingStarts(config: Config, session: Session, disk: Store.Disk, answers: map<TorrentID, Answer>)
    ensures Coming(Loaded(config, session, disk), Loaded(config, session, disk), answers, 0)
  {
    assert Ids(session)[..0] == [];
  }

  // What every restoration ends in.
  lemma RestoreAnyEnds(config: Config, session: Session, disk: Store.Disk, answers: map<TorrentID, Answer>)
    requires Store.Valid(session) && Answerable(session, answers)
    ensures var st := Restore(Loaded(config, session, disk), Ids(session), answers);
            && st == Loaded(config, session, disk).(engine := st.engine, board := st.board)
            && Core(st) && SameOrder(st) && CacheSound(st)
            && (forall x :: x in st.engine.torrents <==> NamedBy(Ids(session), answers, x))
            && (forall x :: x in st.engine.live <==> NamedBy(Ids(session), answers, x))
            && (forall x :: NoFalsePauseAt(st, x))
            && (forall x | x in st.board.torrents && x !in st.engine.torrents ::
                  x in Records(session) && ShownAsFailed(st.board.torrents[x], Records(session)[x]))
  {
    hide Answerable, NamedBy, GoodEngine, Restore, RestoreOne;
    var st0 := Loaded(config, session, disk);
    var st := Restore(st0, Ids(session), answers);
    assert Ids(session)[0..] == Ids(session);
    ComingStarts(config, session, disk, answers);
    ComingFinishes(st0, st0, answers, 0);
    assert Ids(session)[..|Ids(session)|] == Ids(session);
    assert Records(session).Keys == Elements(st.board.order);
  }

  // The records and the ids the library gives them.
  ghost predicate AllRecorded(session: Session, answers: map<TorrentID, Answer>) {
    forall id | id in answers && answers[id].reply.Accepted? :: answers[id].reply.id in Records(session)
  }

  lemma NamedAreRecorded(session: Session, answers: map<TorrentID, Answer>)
    requires Store.Valid(session) && answers.Keys == Records(session).Keys
    ensures AllRecorded(session, answers) <==> forall x :: NamedBy(Ids(session), answers, x) ==> x in Records(session)
  {
    if forall x :: NamedBy(Ids(session), answers, x) ==> x in Records(session) {
      forall id | id in answers && answers[id].reply.Accepted? ensures answers[id].reply.id in Records(session) {
        assert id in answers.Keys;
        Sessions.InOrder(session, id);
        assert NamedBy(Ids(session), answers, answers[id].reply.id);
      }
    }
  }

  // After the startup pass the daemon is sound, whatever the disk looks like and
  // whatever ids the library gives the torrents. Every torrent the library has is
  // in the session exactly if all these ids are.
  lemma StartupEstablishes(config: Config, session: Session, disk: Store.Disk, answers: map<TorrentID, Answer>)
    requires Store.Valid(session) && Answerable(session, answers)
    ensures var st := Reconcile(Restore(Loaded(config, session, disk), Ids(session), answers));
            && Core(st) && CacheSound(st) && PausesShown(st) && SameOrder(st) && Promises.Obeys(st)
            && st.config == config && st.session == session && st.disk == disk
            && (NoOrphans(st) <==> AllRecorded(session, answers))
            && (forall x :: x in st.engine.torrents <==> NamedBy(Ids(session), answers, x))
            && (forall x | x in Records(session) && x !in st.engine.torrents ::
                  x in st.board.torrents && ShownAsFailed(st.board.torrents[x], Records(session)[x]))
  {
    hide Core, Reconcile, Restore, Answerable, Store.Valid, NamedBy, AllRecorded, Outcome, Untouched, NoFalsePauseAt;
    var st := Restore(Loaded(config, session, disk), Ids(session), answers);
    RestoreAnyEnds(config, session, disk, answers);
    CoreMeans(st);
    ReconcileKeepsCore(st);
    PassEnforcesPolicy(st);
    AnswerableKeys(session, answers);
    NamedAreRecorded(session, answers);
    forall x ensures PausedAt(Reconcile(st), x) && Promises.ObeysAt(Reconcile(st), x) {
      ReconcileAt(st, x);
      Promises.PassPausesThePaused(st, x);
    }
    forall x ensures x in Reconcile(st).engine.torrents <==> NamedBy(Ids(session), answers, x) {
      assert x in Reconcile(st).engine.torrents.Keys <==> x in st.engine.torrents.Keys;
    }
    forall x | x in Records(session) && x !in Reconcile(st).engine.torrents
      ensures x in Reconcile(st).board.torrents && ShownAsFailed(Reconcile(st).board.torrents[x], Records(session)[x])
    {
      assert x in Reconcile(st).engine.torrents.Keys <==> x in st.engine.torrents.Keys;
      assert x in Records(st.session).Keys;
      PassShowsAbsent(st, x);
    }
  }

  lemma AnswerableKeys(session: Session, answers: map<TorrentID, Answer>)
    requires Answerable(session, answers)
    ensures answers.Keys == Records(session).Keys
  {
  }

  // Where the ids match, the flags of sequential mode agree as well.
  lemma StartupAgrees(config: Config, session: Session, disk: Store.Disk, answers: map<TorrentID, Answer>)
    requires Store.Valid(session) && Matching(session, answers)
    ensures var st := Reconcile(Restore(Loaded(config, session, disk), Ids(session), answers));
            SequentialAgrees(st) && NoOrphans(st)
  {
    hide Core, Reconcile, Restore, Restoring, Store.Valid, Answerable;
    var st := Restore(Loaded(config, session, disk), Ids(session), answers);
    RestoreEnds(config, session, disk, answers);
    RestoreAnyEnds(config, session, disk, answers);
    StartupEstablishes(config, session, disk, answers);
    AnswerableKeys(session, answers);
    forall x ensures SequentialAt(Reconcile(st), x) {
      RestoredAt(st, answers, x);
      ReconcileKeepsSequential(st, x);
    }
  }

  lemma RestoredAt(st: State, answers: map<TorrentID, Answer>, x: TorrentID)
    requires Store.Valid(st.session) && Restoring(st, st, answers, |Ids(st.session)|)
    ensures SequentialAt(st, x)
  {
    assert Ids(st.session)[..|Ids(st.session)|] == Ids(st.session);
    Sessions.InOrder(st.session, x);
    if x in Ids(st.session) {
      assert RestoredAs(st, x, Records(st.session)[x], answers[x]);
    }
  }

  // A daemon that stops after any run and starts again shows the torrents in
  // the same order and, where the library accepts a torrent the engine had,
  // gives it back its sequential mode; paused ones come back paused.
  lemma RestartAfterRun(st: State, answers: map<TorrentID, Answer>)
    requires Core(st) && SequentialAgrees(st) && SameOrder(st) && Promises.Obeys(st)
    requires Store.Mirrors(st.disk, st.session) && st.disk.primary.Some? && Matching(st.session, answers)
    ensures Store.Load(st.disk, Store.NoFault) == (st.disk, Some(st.session))
    ensures var st' := Restore(Loaded(st.config, st.session, st.disk), Ids(st.session), answers);
            && st'.board.order == st.board.order
            && forall id | id in Records(st.session) && id in st.engine.torrents && id in st'.engine.torrents ::
                 && id in st.board.torrents && id in st'.board.torrents
                 && st'.engine.torrents[id].sequential == st.engine.torrents[id].sequential
                 && st'.board.torrents[id].sequential == st.board.torrents[id].sequential
                 && (st'.engine.torrents[id].paused && id in st.engine.live ==> st.engine.torrents[id].paused)
  {
    hide Core, Restore, Store.Load, Store.Valid, Store.Mirrors;
    CoreMeans(st);
    Store.LoadAfterRun(st.disk, st.session);
    RestartRecreates(st.config, st.session, st.disk, answers);
    var st' := Restore(Loaded(st.config, st.session, st.disk), Ids(st.session), answers);
    forall id | id in Records(st.session) && id in st.engine.torrents && id in st'.engine.torrents
      ensures st'.engine.torrents[id].sequential == st.engine.torrents[id].sequential
      ensures id in st'.board.torrents && id in st.board.torrents
      ensures st'.board.torrents[id].sequential == st.board.torrents[id].sequential
      ensures st'.engine.torrents[id].paused && id in st.engine.live ==> st.engine.torrents[id].paused
    {
      assert RestoredAs(st', id, Records(st.session)[id], answers[id]);
      assert SequentialAt(st, id) && Promises.ObeysAt(st, id);
    }
  }

  // A torrent of the session after the startup pass.
  lemma StartedHas(config: Config, session: Session, disk: Store.Disk, answers: map<TorrentID, Answer>, id: TorrentID)
    requires Store.Valid(session) && Matching(session, answers) && id in Records(session)
    ensures var st := Reconcile(Restore(Loaded(config, session, disk), Ids(session), answers));
            && st.config == config && id in st.board.torrents
            && (id in st.engine.torrents <==> answers[id].reply.Accepted?)
            && (id in st.engine.live <==> answers[id].reply.Accepted?)
            && (answers[id].reply.Accepted? ==>
                  && SameHandle(answers[id].reply.handle, st.engine.torrents[id].torrent)
                  && id in st.scheduled
                  && st.board.torrents[id].progress == SnapshotOf(id, st.engine.torrents[id]).progress)
            && (!answers[id].reply.Accepted? ==> id !in st.scheduled)
  {
    hide Core, Reconcile, Restore, Restoring, Store.Valid;
    var st := Restore(Loaded(config, session, disk), Ids(session), answers);
    RestartRecreates(config, session, disk, answers);
    RestoreAnyEnds(config, session, disk, answers);
    assert RestoredAs(st, id, Records(session)[id], answers[id]);
    PassShows(st, id);
    if answers[id].reply.Accepted? {
      PassKeepsSettings(st, id);
    }
  }

  // The first pass shows a restored torrent as added at the time of the restart:
  // the engine does not get the time of the record, which the actor showed till then.
  lemma StartupForgetsTimeAdded(config: Config, session: Session, disk: Store.Disk, answers: map<TorrentID, Answer>, id: TorrentID)
    requires Store.Valid(session) && Matching(session, answers) && id in Records(session) && answers[id].reply.Accepted?
    ensures var st := Restore(Loaded(config, session, disk), Ids(session), answers);
            && id in st.board.torrents && st.board.torrents[id].addedAt == Records(session)[id].addedAt
            && id in Reconcile(st).board.torrents && Reconcile(st).board.torrents[id].addedAt == answers[id].reply.now
            && Reconcile(st).session == session
  {
    hide Core, Reconcile, Restore, Restoring, Store.Valid;
    var st := Restore(Loaded(config, session, disk), Ids(session), answers);
    RestartRecreates(config, session, disk, answers);
    RestoreAnyEnds(config, session, disk, answers);
    CoreMeans(st);
    assert RestoredAs(st, id, Records(session)[id], answers[id]);
    PassShows(st, id);
    PassShowsEntry(st, id);
  }

  // The pass takes up every recorded torrent the engine has.
  lemma PassShows(st: State, id: TorrentID)
    requires Core(st) && CacheSound(st) && id in st.board.torrents && id in Records(st.session)
    ensures SameFrame(st, Reconcile(st)) && id in Reconcile(st).board.torrents
    ensures id in Reconcile(st).engine.torrents <==> id in st.engine.torrents
    ensures id !in st.engine.torrents ==> SameScheduled(st, Reconcile(st), id)
    ensures id in st.engine.torrents ==>
              && id in Reconcile(st).scheduled
              && Reconcile(st).board.torrents[id].progress == SnapshotOf(id, Reconcile(st).engine.torrents[id]).progress
  {
    hide Reconcile, Turned, Full, CacheSound;
    CoreMeans(st);
    PassEnforcesPolicy(st);
    assert Outcome(st, Reconcile(st), id);
    assert id in Reconcile(st).engine.torrents.Keys <==> id in st.engine.torrents.Keys;
  }

  // The session of the disk after a load, and whether they agree.
  lemma LoadedDisk(disk: Store.Disk, f: Store.Fault)
    requires Store.Load(disk, f).1.Some?
    ensures var (disk', loaded) := Store.Load(disk, f);
            && Store.Valid(loaded.value)
            && (disk.primary.None? ==> loaded.value.order == Some([]) && loaded.value.torrents == Some(map[]))
            && (disk.primary.Some? && disk.primary.value.Encoded? ==> loaded.value == disk.primary.value.session)
            && (disk.primary == Some(Store.Corrupt) ==> disk.backup == Some(Store.Encoded(loaded.value)) && disk' == disk)
            && (disk.primary != Some(Store.Corrupt) ==> Store.Mirrors(disk', loaded.value))
            && (disk.primary == Some(Store.Corrupt) ==> Store.Committed(disk').None?)
  {
    assert Store.Valid(DefaultSession);
  }

  // From any start that loads a session, be it from the primary file, from the
  // backup or the default one, whatever ids the library gives the torrents, over
  // every run of commands, passes and library events and with every combination
  // of save failures. Each promise holds for as long as every step meets its own
  // condition. The disk agrees with memory from the start, or, after a load from
  // the backup of a corrupt primary file, from the first command that saves.
  lemma EveryRunFromStartup(config: Config, disk: Store.Disk, f: Store.Fault, answers: map<TorrentID, Answer>, commands: seq<Command>)
    requires Store.Load(disk, f).1.Some? && Answerable(Store.Load(disk, f).1.value, answers)
    requires forall i | 0 <= i < |commands| :: Plausible(commands[i])
    ensures var (disk', loaded) := Store.Load(disk, f);
            var start := Reconcile(Restore(Loaded(config, loaded.value, disk'), Ids(loaded.value), answers));
            && (disk.primary.None? ==> start.session.order == Some([]) && start.session.torrents == Some(map[]))
            && (disk.primary.Some? && disk.primary.value.Encoded? ==> start.session == disk.primary.value.session)
            && (disk.primary == Some(Store.Corrupt) ==> disk.backup == Some(Store.Encoded(start.session)) && start.disk == disk)
            && start.board.order == Ids(start.session)
            && CacheSound(start) && PausesShown(start) && SameOrder(start) && Promises.Obeys(start)
            && (NoOrphans(start) <==> AllRecorded(loaded.value, answers))
            && (Matching(loaded.value, answers) ==> SequentialAgrees(start) && NoOrphans(start))
            && (if disk.primary == Some(Store.Corrupt) then Store.Committed(start.disk).None?
                else Store.Mirrors(start.disk, start.session))
            && Promises.KeepsPromises(start, commands, Play(start, commands))
            && Promises.KeepsDisk(start, commands, Play(start, commands))
  {
    hide Core, Reconcile, Restore, Answerable, Store.Load, Store.Valid, Store.Mirrors, Store.Committed, Plausible, Play;
    hide Promises.KeepsPromises, Promises.KeepsDisk, CacheSound, PausesShown, Promises.Obeys, NoOrphans, AllRecorded, SequentialAgrees;
    var (disk', loaded) := Store.Load(disk, f);
    LoadedDisk(disk, f);
    StartupEstablishes(config, loaded.value, disk', answers);
    if Matching(loaded.value, answers) {
      StartupAgrees(config, loaded.value, disk', answers);
    }
    var start := Reconcile(Restore(Loaded(config, loaded.value, disk'), Ids(loaded.value), answers));
    Promises.EveryRun(start, commands);
    Promises.EveryRunKeepsDisk(start, commands);
  }

  // ---------------------------------------------------------------- torrents that did not come back

  // A torrent that did not come back, because the library refused it or gave it
  // another id, is in the session only. No removal takes it out: each one fails,
  // and gives the session back if the save that rolls back succeeds.
  lemma UnrestoredCannotBeRemoved(config: Config, session: Session, disk: Store.Disk, answers: map<TorrentID, Answer>,
      id: TorrentID, deleteData: bool, o: RemoveOutcome, f: Store.Fault, g: Store.Fault)
    requires Store.Valid(session) && Answerable(session, answers) && !NamedBy(Ids(session), answers, id)
    ensures var start := Reconcile(Restore(Loaded(config, session, disk), Ids(session), answers));
            var (st', ok) := RemoveCommand(start, id, deleteData, o, f, g);
            && !ok && st'.board == start.board && st'.engine.torrents.Keys == start.engine.torrents.Keys
            && (g == Store.NoFault ==> st'.session == session)
  {
    hide Core, Reconcile, Restore, RemoveCommand, Answerable, NamedBy;
    StartupEstablishes(config, session, disk, answers);
    RemoveIsAllOrNothing(Reconcile(Restore(Loaded(config, session, disk), Ids(session), answers)), id, deleteData, o, f, g);
  }

  // A torrent the library gives an id that no record has: it runs or not as the
  // record says that named it, but the actor does not show it. So no command
  // reaches it, and no pass changes it.
  lemma MisnamedIsOutOfReach(config: Config, session: Session, disk: Store.Disk, answers: map<TorrentID, Answer>, x: TorrentID)
    requires Store.Valid(session) && Answerable(session, answers)
    requires NamedBy(Ids(session), answers, x) && x !in Records(session)
    ensures var start := Reconcile(Restore(Loaded(config, session, disk), Ids(session), answers));
            && x in start.engine.live && x !in start.board.torrents
            && (forall c: Command | !c.AddTorrent? && !c.Tick? && !c.Library? && !c.GotInfo? && c.id == x :: Perform(start, c) == start)
            && Untouched(start, Reconcile(start), x)
  {
    hide Core, Reconcile, Restore, Answerable, NamedBy, Perform, CacheSound, Outcome, Untouched;
    var st := Restore(Loaded(config, session, disk), Ids(session), answers);
    var start := Reconcile(st);
    StartupEstablishes(config, session, disk, answers);
    RestoreAnyEnds(config, session, disk, answers);
    CoreMeans(st);
    CoreMeans(start);
    PassEnforcesPolicy(st);
    assert x in st.engine.live;
    Sessions.InOrder(session, x);
    assert x in start.board.torrents <==> x in Elements(start.board.order);
    forall c: Command | !c.AddTorrent? && !c.Tick? && !c.Library? && !c.GotInfo? && c.id == x ensures Perform(start, c) == start {
      Promises.OrphanRefusesCommands(start, c);
    }
    Promises.OrphanIsPassedOver(start, x);
  }

  // ---------------------------------------------------------------- priorities over runs

  // The request's guard: an index is a machine integer and not negative.
  predicate Guarded(c: Command) {
    c.SetPriority? ==> 0 <= c.index <= Decimal.MaxInt
  }

  ghost predicate SavedFrom(a: Session, b: Session) {
    forall id | id in Records(b) && Records(b)[id].filePriorities.Some? ::
      id in Records(a) && Records(a)[id].filePriorities == Records(b)[id].filePriorities
  }

  lemma SavedFromSame(s: Session)
    ensures SavedFrom(s, s)
  {
  }

  lemma SavedFromCanonical(a: Session, b: Session)
    requires SavedFrom(a, b) && CanonicalSession(a)
    ensures CanonicalSession(b)
  {
  }

  lemma PublishKeepsSaved(st: State, id: TorrentID, p: AddParams, t: Snapshot, f: Store.Fault, undo: RemoveOutcome)
    requires Store.Valid(st.session)
    ensures SavedFrom(st.session, Publish(st, id, p, t, f, undo).0.session)
  {
    Sessions.RecordTorrentEffect(st, id, p, t, f);
    if RecordTorrent(st, id, p, t, f).1 {
      Sessions.RecordTorrentContents(st, id, p, t, f);
    }
  }

  lemma AddKeepsSaved(st: State, p: AddParams, reply: AddReply, cut: bool, f: Store.Fault, undo: RemoveOutcome)
    requires Core(st)
    ensures SavedFrom(st.session, AddCommand(st, p, reply, cut, f, undo).0.session)
  {
    hide Publish;
    var params := Completed(st.config, p);
    var (e1, r) := Registry.Add(st.engine, InputOf(params), reply);
    if !r.Failed? && !cut {
      var (e2, t) := TakeSnapshot(e1, r.id);
      if t.Some? {
        PublishKeepsSaved(st.(engine := e2), r.id, params, t.value, f, undo);
      }
    }
  }

  lemma SetDesiredKeepsSaved(st: State, id: TorrentID, paused: bool, f: Store.Fault)
    requires Core(st)
    ensures SavedFrom(st.session, SetDesired(st, id, paused, f).0.session)
  {
    hide SetDesired;
    SetDesiredEffect(st, id, paused, f);
  }

  lemma SetSequentialKeepsSaved(st: State, id: TorrentID, enabled: bool, f: Store.Fault)
    requires Core(st)
    ensures SavedFrom(st.session, SetSequentialFlag(st, id, enabled, f).0.session)
  {
    hide SetSequentialFlag;
    SetSequentialEffect(st, id, enabled, f);
  }

  lemma RemoveKeepsSaved(st: State, id: TorrentID, deleteData: bool, o: RemoveOutcome, f: Store.Fault, g: Store.Fault)
    requires Core(st)
    ensures SavedFrom(st.session, RemoveCommand(st, id, deleteData, o, f, g).0.session)
  {
    RemoveIsAllOrNothing(st, id, deleteData, o, f, g);
  }

  lemma MoveKeepsSaved(st: State, id: TorrentID, offset: int, f: Store.Fault, g: Store.Fault)
    requires Core(st)
    ensures SavedFrom(st.session, MoveCommand(st, id, offset, f, g).0.session)
  {
    MoveEffect(st, id, offset, f, g);
  }

  // No other command writes file priorities.
  lemma OthersKeepSaved(st: State, c: Command)
    requires Core(st) && !c.SetPriority?
    ensures SavedFrom(st.session, Perform(st, c).session)
  {
    hide SavedFrom, Core, AddCommand, SetDesired, SetSequentialFlag, RemoveCommand, MoveCommand, Reconcile;
    SavedFromSame(st.session);
    match c
    case AddTorrent(p, reply, cut, f, undo) => AddKeepsSaved(st, p, reply, cut, f, undo);
    case PauseTorrent(id, f) => SetDesiredKeepsSaved(st, id, true, f);
    case ResumeTorrent(id, f) => SetDesiredKeepsSaved(st, id, false, f);
    case VerifyTorrent(id, verified, interruption) =>
    case SetSequentialMode(id, enabled, f) => SetSequentialKeepsSaved(st, id, enabled, f);
    case RemoveTorrent(id, deleteData, o, f, g) => RemoveKeepsSaved(st, id, deleteData, o, f, g);
    case MoveTorrent(id, offset, f, g) => MoveKeepsSaved(st, id, offset, f, g);
    case Tick => Promises.ReconcileKeepsOrders(st);
    case Library(id, h) =>
    case GotInfo(id, serial) =>
  }

  // Every guarded command keeps the saved indexes canonical.
  lemma StepKeepsCanonical(st: State, c: Command)
    requires Core(st) && CanonicalSession(st.session) && Guarded(c)
    ensures CanonicalSession(Perform(st, c).session)
  {
    if c.SetPriority? {
      SetPriorityKeepsCanonical(st, c.id, c.index, c.priority, c.f);
    } else {
      OthersKeepSaved(st, c);
      SavedFromCanonical(st.session, Perform(st, c).session);
    }
  }

  ghost predicate GuardedStep(st: State, c: Command) {
    Guarded(c)
  }

  lemma RunKeepsCanonical(st: State, commands: seq<Command>)
    requires Core(st) && CanonicalSession(st.session) && Always(GuardedStep, st, commands)
    requires forall i | 0 <= i < |commands| :: Plausible(commands[i])
    ensures CanonicalSession(Play(st, commands).session)
  {
    hide Core, CanonicalSession, Plausible, Perform;
    var kept := (s: State) => Core(s) && CanonicalSession(s.session);
    forall s, c | kept(s) && Plausible(c) && GuardedStep(s, c) ensures kept(Perform(s, c)) {
      Promises.PlausibleIsConceivable(c);
      StepKeepsCore(s, c);
      StepKeepsCanonical(s, c);
    }
    RunsKeep(kept, GuardedStep, st, commands);
  }

  // A startup reads for every file the priority its record has for it.
  lemma RestartReadsPriorities(config: Config, session: Session, disk: Store.Disk, answers: map<TorrentID, Answer>, id: TorrentID, i: nat)
    requires Store.Valid(session) && CanonicalSession(session) && Matching(session, answers)
    requires id in Records(session) && answers[id].reply.Accepted? && i <= Decimal.MaxInt
    ensures var start := Reconcile(Restore(Loaded(config, session, disk), Ids(session), answers));
            && id in start.engine.torrents
            && Some(SavedPriority(start.engine.torrents[id].filePriorities, i)) == FilePriorityOf(session, id, i)
  {
    hide Reconcile, Restore, Restoring, Core, Outcome, CacheSound;
    var st := Restore(Loaded(config, session, disk), Ids(session), answers);
    RestartRecreates(config, session, disk, answers);
    RestoreAnyEnds(config, session, disk, answers);
    var r := Records(session)[id];
    assert RestoredAs(st, id, r, answers[id]);
    PassKeepsSettings(st, id);
    assert Canonical(SavedPriorities(r));
    CanonicalRoundTrip(SavedPriorities(r), answers[id].priorities);
  }

  lemma PassKeepsSettings(st: State, id: TorrentID)
    requires Core(st) && CacheSound(st) && id in st.board.torrents && id in st.engine.torrents
    ensures id in Reconcile(st).engine.torrents
    ensures SameSettings(st.engine.torrents[id], Reconcile(st).engine.torrents[id])
  {
    hide Reconcile, Turned, Display, Full, CacheSound;
    PassEnforcesPolicy(st);
    assert Outcome(st, Reconcile(st), id);
  }

  // And once the library has the metadata and the callback of the torrent has
  // run, the file has that priority.
  lemma RestartRestoresPriorities(config: Config, session: Session, disk: Store.Disk, answers: map<TorrentID, Answer>,
      id: TorrentID, h: Sequential.Handle, i: nat)
    requires Store.Valid(session) && CanonicalSession(session) && Matching(session, answers)
    requires id in Records(session) && answers[id].reply.Accepted? && i < |h.files| && i <= Decimal.MaxInt
    ensures var start := Reconcile(Restore(Loaded(config, session, disk), Ids(session), answers));
            && id in start.engine.torrents
            && (LibraryMove(start.engine.torrents[id].torrent, h) ==>
                  var known := Perform(Perform(start, Library(id, h)), GotInfo(id, h.serial));
                  && id in known.engine.torrents && |known.engine.torrents[id].torrent.files| == |h.files|
                  && Grants(FilePriorityOf(session, id, i).value, known.engine.torrents[id].torrent.files[i].priority))
  {
    hide Reconcile, Restore, FilePriorityOf, CanonicalSession, Matching, Callback, Grants;
    var start := Reconcile(Restore(Loaded(config, session, disk), Ids(session), answers));
    RestartReadsPriorities(config, session, disk, answers, id, i);
    if LibraryMove(start.engine.torrents[id].torrent, h) {
      CallbackSetsPriorities(Perform(start, Library(id, h)).engine, id);
    }
  }

  // So over any run, whatever fails: what the daemon has in its session when it
  // stops is what the files get when it starts from that session.
  lemma RestartAfterRunRestoresPriorities(st: State, commands: seq<Command>, answers: map<TorrentID, Answer>,
      id: TorrentID, h: Sequential.Handle, i: nat)
    requires Core(st) && CanonicalSession(st.session) && Always(GuardedStep, st, commands)
    requires forall k | 0 <= k < |commands| :: Plausible(commands[k])
    requires var end := Play(st, commands);
             && Store.Mirrors(end.disk, end.session) && end.disk.primary.Some? && Matching(end.session, answers)
             && id in Records(end.session) && answers[id].reply.Accepted? && i < |h.files| && i <= Decimal.MaxInt
    ensures var end := Play(st, commands);
            && Store.Load(end.disk, Store.NoFault) == (end.disk, Some(end.session))
            && var start := Reconcile(Restore(Loaded(end.config, end.session, end.disk), Ids(end.session), answers));
               && id in start.engine.torrents
               && (LibraryMove(start.engine.torrents[id].torrent, h) ==>
                     var known := Perform(Perform(start, Library(id, h)), GotInfo(id, h.serial));
                     && id in known.engine.torrents && |known.engine.torrents[id].torrent.files| == |h.files|
                     && Grants(FilePriorityOf(end.session, id, i).value, known.engine.torrents[id].torrent.files[i].priority))
  {
    hide Reconcile, Restore, FilePriorityOf, CanonicalSession, Matching, Perform, Plausible, Play, Always, Grants, LibraryMove;
    var end := Play(st, commands);
    RunKeepsCanonical(st, commands);
    RunsKeepCore(st, commands);
    Store.LoadAfterRun(end.disk, end.session);
    RestartRestoresPriorities(end.config, end.session, end.disk, answers, id, h, i);
  }
}
