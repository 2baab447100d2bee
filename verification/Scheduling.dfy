/** What one scheduling pass achieves. */
module Scheduling {
  import opened Model
  import opened Control
  import opened Registry
  import Actor
  import Sequential

  // The cache never lies about the engine.
  ghost predicate CacheSound(st: State) {
    forall id | id in st.scheduled ::
      id in st.engine.torrents && st.engine.torrents[id].paused == !st.scheduled[id]
  }

  // ---------------------------------------------------------------- the policy

  // Torrents that want to run and can.
  ghost predicate Eligible(st: State, id: TorrentID) {
    id in Records(st.session) && Records(st.session)[id].desired != Paused && id in st.engine.torrents
  }

  // Of one class: seeds or downloads, by the actor's snapshot.
  ghost predicate Candidate(st: State, id: TorrentID, seed: bool) {
    Eligible(st, id) && id in st.board.torrents && IsSeed(st.board.torrents[id]) == seed
  }

  // How many of `ids` are candidates of the class.
  ghost function Count(st: State, ids: seq<TorrentID>, seed: bool): (n: nat)
    ensures n <= |ids|
  {
    if ids == [] then 0
    else
      var last := ids[|ids| - 1];
      Count(st, ids[..|ids| - 1], seed) + if Candidate(st, last, seed) then 1 else 0
  }

  // The candidates of its class before it in actor order take all the slots.
  ghost predicate Full(st: State, id: TorrentID)
    requires id in st.board.torrents
  {
    var seed := IsSeed(st.board.torrents[id]);
    0 < Limit(st.config, seed) <= Count(st, st.board.order[..Actor.Position(st.board.order, id)], seed)
  }

  // The first `limit` candidates of its class in actor order run; without a
  // limit all of them do.
  ghost predicate ShouldRun(st: State, id: TorrentID) {
    id in st.board.torrents && Eligible(st, id) && !Full(st, id)
  }

  // What the pass has counted once it has dealt with the candidates before.
  ghost function Admitted(st: State, ids: seq<TorrentID>, seed: bool): nat {
    var n, limit := Count(st, ids, seed), Limit(st.config, seed);
    if 0 < limit < n then limit else n
  }

  // ---------------------------------------------------------------- one torrent

  // Everything a pass leaves alone.
  ghost predicate SameFrame(a: State, b: State) {
    && a.config == b.config && a.session == b.session && a.disk == b.disk
    && a.board.order == b.board.order && a.board.torrents.Keys == b.board.torrents.Keys
    && a.engine.torrents.Keys == b.engine.torrents.Keys
    && a.engine.live == b.engine.live && a.engine.serials == b.engine.serials
  }

  // Entries equal but for the run state and the boosts.
  ghost predicate SameSettings(a: Sequential.Entry, b: Sequential.Entry) {
    && a.sequential == b.sequential && a.filePriorities == b.filePriorities && a.savePath == b.savePath
    && a.addedAt == b.addedAt && a.source == b.source
    && a.torrent == b.torrent.(own := a.torrent.own)
  }

  ghost predicate SameScheduled(a: State, b: State, id: TorrentID) {
    (id in a.scheduled <==> id in b.scheduled) && (id in a.scheduled ==> b.scheduled[id] == a.scheduled[id])
  }

  // Engine, actor and cache have the same about the torrent.
  ghost predicate Untouched(a: State, b: State, id: TorrentID) {
    && (id in a.engine.torrents ==> id in b.engine.torrents && b.engine.torrents[id] == a.engine.torrents[id])
    && (id in a.board.torrents ==> id in b.board.torrents && b.board.torrents[id] == a.board.torrents[id])
    && SameScheduled(a, b, id)
  }

  // Only this torrent's entries change.
  ghost predicate OthersSame(a: State, b: State, id: TorrentID) {
    forall x | x != id :: Untouched(a, b, x)
  }

  // The engine call, and the cache after it.
  ghost function CallEngine(st: State, id: TorrentID, running: bool): (State, bool) {
    var (e, ok) := SetPaused(st.engine, id, !running);
    (if ok then st.(engine := e, scheduled := st.scheduled[id := running]) else st, ok)
  }

  // With a right cache, skipping the call on a hit is the same as making it.
  lemma SetScheduledEffect(st: State, id: TorrentID, running: bool)
    requires CacheSound(st)
    ensures SetScheduled(st, id, running) == CallEngine(st, id, running)
    ensures CacheSound(SetScheduled(st, id, running).0)
  {
    if id in st.scheduled && st.scheduled[id] == running {
      assert st.engine.torrents[id].(paused := !running) == st.engine.torrents[id];
      assert st.engine.torrents[id := st.engine.torrents[id]] == st.engine.torrents;
      assert st.scheduled[id := running] == st.scheduled;
    }
  }

  // An entry after its turn.
  ghost function Turned(e: Sequential.Entry, runs: bool): (r: Sequential.Entry)
    ensures r.paused == !runs && SameSettings(e, r)
  {
    Sequential.Updated(e.(paused := !runs))
  }

  // The state after the turn of a torrent the engine has.
  ghost function AfterTurn(st: State, id: TorrentID, runs: bool, shown: Snapshot): State
    requires id in st.engine.torrents
  {
    st.(engine := st.engine.(torrents := st.engine.torrents[id := Turned(st.engine.torrents[id], runs)]),
        scheduled := st.scheduled[id := runs],
        board := Actor.Put(st.board, shown))
  }

  lemma TurnEffect(st: State, id: TorrentID, runs: bool)
    requires CacheSound(st) && id in st.engine.torrents
    ensures var (e, t) := TakeSnapshot(SetScheduled(st, id, runs).0.engine, id);
            && e == st.engine.(torrents := st.engine.torrents[id := Turned(st.engine.torrents[id], runs)])
            && t == Some(SnapshotOf(id, Turned(st.engine.torrents[id], runs)))
            && SetScheduled(st, id, runs).0 == st.(engine := SetPaused(st.engine, id, !runs).0, scheduled := st.scheduled[id := runs])
            && SetScheduled(st, id, runs).1
  {
    SetScheduledEffect(st, id, runs);
    PutTwice(st.engine.torrents, id, st.engine.torrents[id].(paused := !runs), Turned(st.engine.torrents[id], runs));
  }

  lemma StopEffect(st: State, t: Snapshot, state: TorrentState)
    requires CacheSound(st)
    ensures Stop(st, t, state)
            == if t.id in st.engine.torrents
               then AfterTurn(st, t.id, false, SnapshotOf(t.id, Turned(st.engine.torrents[t.id], false)).(state := state))
               else st.(board := Actor.Put(st.board, t.(state := state)))
  {
    if t.id in st.engine.torrents {
      hide TakeSnapshot, SetScheduled, Turned;
      TurnEffect(st, t.id, false);
    } else {
      SetScheduledEffect(st, t.id, false);
    }
  }

  lemma StartEffect(st: State, t: Snapshot)
    requires CacheSound(st)
    ensures Start(st, t)
            == if t.id in st.engine.torrents
               then (AfterTurn(st, t.id, true, SnapshotOf(t.id, Turned(st.engine.torrents[t.id], true))), true)
               else (st, false)
  {
    if t.id in st.engine.torrents {
      hide TakeSnapshot, SetScheduled, Turned;
      TurnEffect(st, t.id, true);
    } else {
      SetScheduledEffect(st, t.id, true);
    }
  }

  // All slots of the torrent's class are taken.
  predicate Filled(st: State, t: Snapshot, active: Active) {
    0 < Limit(st.config, IsSeed(t)) <= active.Of(IsSeed(t))
  }

  // The pass's verdict on one torrent.
  ghost predicate Runs(st: State, t: Snapshot, active: Active) {
    Eligible(st, t.id) && !Filled(st, t, active)
  }

  // What the actor shows of a recorded torrent after its turn: the engine's
  // snapshot, or the old one if the engine has none, under the state that is
  // paused for what the user paused and queued for what waits.
  ghost function Display(st: State, t: Snapshot, full: bool): (r: Snapshot)
    requires t.id in Records(st.session)
    ensures r.id == t.id
    ensures r.sequential == if t.id in st.engine.torrents then st.engine.torrents[t.id].sequential else t.sequential
    ensures Records(st.session)[t.id].desired == Paused ==> r.state == Paused
    ensures Records(st.session)[t.id].desired != Paused && (t.state != Paused || t.id in st.engine.torrents) ==> r.state != Paused
    ensures Records(st.session)[t.id].desired != Paused && t.id in st.engine.torrents ==> (r.state == Queued <==> full)
  {
    var paused := Records(st.session)[t.id].desired == Paused;
    if t.id in st.engine.torrents then
      var latest := SnapshotOf(t.id, Turned(st.engine.torrents[t.id], !paused && !full));
      if paused then latest.(state := Paused) else if full then latest.(state := Queued) else latest
    else
      if paused then t.(state := Paused) else if full then t.(state := Queued) else t
  }

  // How a torrent leaves its turn.
  ghost predicate Settled(st: State, st': State, t: Snapshot, full: bool) {
    && (t.id !in Records(st.session) ==> Untouched(st, st', t.id))
    && (t.id in Records(st.session) ==>
          && t.id in st'.board.torrents && st'.board.torrents[t.id] == Display(st, t, full)
          && (if t.id in st.engine.torrents then
                var runs := Records(st.session)[t.id].desired != Paused && !full;
                && t.id in st'.engine.torrents && st'.engine.torrents[t.id] == Turned(st.engine.torrents[t.id], runs)
                && t.id in st'.scheduled && st'.scheduled[t.id] == runs
              else SameScheduled(st, st', t.id)))
  }

  // A turn changes its torrent only.
  ghost predicate OneTurn(st: State, st': State, id: TorrentID) {
    SameFrame(st, st') && OthersSame(st, st', id) && CacheSound(st')
  }

  lemma AfterTurnIsOne(st: State, t: Snapshot, runs: bool, shown: Snapshot)
    requires CacheSound(st) && t.id in st.engine.torrents && t.id in st.board.torrents && shown.id == t.id
    ensures OneTurn(st, AfterTurn(st, t.id, runs, shown), t.id)
  {
    hide Turned;
  }

  lemma PutIsOne(st: State, t: Snapshot, shown: Snapshot)
    requires CacheSound(st) && t.id in st.board.torrents && shown.id == t.id
    ensures OneTurn(st, st.(board := Actor.Put(st.board, shown)), t.id)
  {
  }

  lemma ScheduleEffect(st: State, t: Snapshot, active: Active)
    requires CacheSound(st) && t.id in st.board.torrents && st.board.torrents[t.id] == t
    ensures var (st', active') := Schedule(st, t, active);
            && OneTurn(st, st', t.id) && Settled(st, st', t, Filled(st, t, active))
            && active' == (if Runs(st, t, active) then active.Plus(IsSeed(t)) else active)
  {
    hide Stop, Start, Turned, CacheSound, OneTurn, Untouched;
    UntouchedItself(st, t.id);
    StopEffect(st, t, Paused);
    StopEffect(st, t, Queued);
    StartEffect(st, t);
    if t.id in st.engine.torrents {
      var stopped, started := SnapshotOf(t.id, Turned(st.engine.torrents[t.id], false)), SnapshotOf(t.id, Turned(st.engine.torrents[t.id], true));
      AfterTurnIsOne(st, t, false, stopped.(state := Paused));
      AfterTurnIsOne(st, t, false, stopped.(state := Queued));
      AfterTurnIsOne(st, t, true, started);
    } else {
      PutIsOne(st, t, t.(state := Paused));
      PutIsOne(st, t, t.(state := Queued));
    }
  }

  lemma UntouchedItself(st: State, id: TorrentID)
    requires CacheSound(st)
    ensures Untouched(st, st, id) && OneTurn(st, st, id)
  {
  }

  // ---------------------------------------------------------------- the pass

  // What the pass does to one torrent of the actor.
  ghost predicate Outcome(st: State, st': State, id: TorrentID)
    requires id in st.board.torrents
  {
    Settled(st, st', st.board.torrents[id], Full(st, id))
  }

  // The pass has dealt with these torrents and no others.
  ghost predicate DoneWith(st0: State, st: State, ids: seq<TorrentID>) {
    && (forall id | id in ids :: id in st0.board.torrents && Outcome(st0, st, id))
    && (forall id | id !in ids :: Untouched(st0, st, id))
  }

  // The pass stands before torrent k.
  ghost predicate Midway(st0: State, st: State, k: nat, active: Active) {
    && Actor.Consistent(st0.board) && k <= |st0.board.order|
    && CacheSound(st) && SameFrame(st0, st)
    && (forall seed :: active.Of(seed) == Admitted(st0, st0.board.order[..k], seed))
    && DoneWith(st0, st, st0.board.order[..k])
  }

  // The counter says whether the slots are taken by the candidates before.
  lemma FilledIsFull(st: State, k: nat, active: Active)
    requires Actor.Consistent(st.board) && k < |st.board.order|
    requires forall seed :: active.Of(seed) == Admitted(st, st.board.order[..k], seed)
    ensures var t := Listed(st.board)[k];
            t.id in st.board.torrents && (Filled(st, t, active) <==> Full(st, t.id))
  {
    hide Candidate, IsSeed, Limit, Count;
    assert st.board.order[k] !in st.board.order[..k];
    Actor.PositionUnique(st.board.order, st.board.order[k], k);
  }

  lemma AdmittedStep(st: State, k: nat, active: Active, seed: bool)
    requires Actor.Consistent(st.board) && k < |st.board.order|
    requires active.Of(seed) == Admitted(st, st.board.order[..k], seed)
    ensures var t := Listed(st.board)[k];
            Admitted(st, st.board.order[..k + 1], seed)
            == active.Of(seed) + if Runs(st, t, active) && IsSeed(t) == seed then 1 else 0
  {
    hide Eligible, IsSeed, Limit, Count;
    CountLast(st, st.board.order, k, seed);
  }

  lemma CountLast(st: State, ids: seq<TorrentID>, k: nat, seed: bool)
    requires k < |ids|
    ensures Count(st, ids[..k + 1], seed) == Count(st, ids[..k], seed) + if Candidate(st, ids[k], seed) then 1 else 0
  {
    assert ids[..k + 1][..k] == ids[..k];
  }

  // Dealing with one torrent leaves the results for the others as they are.
  lemma OutcomeStays(st0: State, st: State, st': State, id: TorrentID, x: TorrentID)
    requires SameFrame(st0, st) && SameFrame(st, st') && OthersSame(st, st', id) && x != id
    requires Actor.Consistent(st0.board)
    ensures x in st0.board.torrents && Outcome(st0, st, x) ==> Outcome(st0, st', x)
    ensures Untouched(st0, st, x) ==> Untouched(st0, st', x)
  {
    hide Turned, Full;
    assert Untouched(st, st', x);
  }

  lemma OutcomeNow(st0: State, st: State, st': State, t: Snapshot)
    requires SameFrame(st0, st) && Untouched(st0, st, t.id) && t.id in st0.board.torrents
    requires t == st0.board.torrents[t.id] && Settled(st, st', t, Full(st0, t.id))
    ensures Outcome(st0, st', t.id)
  {
    hide Turned, Full;
  }

  lemma DoneExtends(st0: State, st: State, st': State, ids: seq<TorrentID>, id: TorrentID)
    requires Actor.Consistent(st0.board) && DoneWith(st0, st, ids) && id !in ids
    requires SameFrame(st0, st) && SameFrame(st, st') && OthersSame(st, st', id)
    requires id in st0.board.torrents && Outcome(st0, st', id)
    ensures DoneWith(st0, st', ids + [id])
  {
    hide Outcome, Untouched, OthersSame, SameFrame;
    forall x | x in ids + [id] ensures x in st0.board.torrents && Outcome(st0, st', x) {
      if x != id {
        assert x in ids;
        OutcomeStays(st0, st, st', id, x);
      }
    }
    forall x | x !in ids + [id] ensures Untouched(st0, st', x) {
      assert x !in ids && x != id;
      OutcomeStays(st0, st, st', id, x);
    }
  }

  lemma ScheduleOutcome(st0: State, st: State, t: Snapshot, active: Active)
    requires SameFrame(st0, st) && CacheSound(st) && Untouched(st0, st, t.id)
    requires t.id in st0.board.torrents && t == st0.board.torrents[t.id]
    requires Filled(st0, t, active) == Full(st0, t.id)
    ensures var (st', active') := Schedule(st, t, active);
            && OneTurn(st, st', t.id) && Outcome(st0, st', t.id)
            && active' == (if Runs(st0, t, active) then active.Plus(IsSeed(t)) else active)
  {
    hide Schedule, Settled, Full, OthersSame, CacheSound;
    ScheduleEffect(st, t, active);
    OutcomeNow(st0, st, Schedule(st, t, active).0, t);
  }

  lemma MidwayStep(st0: State, st: State, k: nat, active: Active)
    requires Midway(st0, st, k, active) && k < |st0.board.order|
    ensures var (st', active') := Schedule(st, Listed(st0.board)[k], active); Midway(st0, st', k + 1, active')
  {
    hide Schedule, Full, Filled, Count, Admitted, Runs, Outcome, OthersSame, Untouched, CacheSound;
    var t := Listed(st0.board)[k];
    var ids := st0.board.order[..k];
    FilledIsFull(st0, k, active);
    AdmittedStep(st0, k, active, true);
    AdmittedStep(st0, k, active, false);
    assert t.id !in ids;
    ScheduleOutcome(st0, st, t, active);
    DoneExtends(st0, st, Schedule(st, t, active).0, ids, t.id);
    assert st0.board.order[..k + 1] == ids + [t.id];
  }

  lemma {:induction false} MidwayFinishes(st0: State, st: State, k: nat, active: Active) returns (done: Active)
    requires Midway(st0, st, k, active)
    ensures Midway(st0, Pass(st, Listed(st0.board)[k..], active), |st0.board.order|, done)
    decreases |st0.board.order| - k
  {
    var rest := Listed(st0.board)[k..];
    if k < |st0.board.order| {
      MidwayStep(st0, st, k, active);
      var (st', active') := Schedule(st, rest[0], active);
      assert rest[1..] == Listed(st0.board)[k + 1..];
      done := MidwayFinishes(st0, st', k + 1, active');
    } else {
      done := active;
    }
  }

  // The main result: from any state whose cache is sound, one pass makes the
  // torrents run that should and no others, and repairs what had drifted.
  lemma PassEnforcesPolicy(st: State)
    requires Actor.Consistent(st.board) && CacheSound(st)
    ensures var st' := Reconcile(st);
            && SameFrame(st, st') && CacheSound(st') && Actor.Consistent(st'.board)
            && (forall id | id in st.board.torrents :: Outcome(st, st', id))
            && (forall id | id !in st.board.torrents :: Untouched(st, st', id))
  {
    hide Midway, DoneWith, Outcome, Untouched, SameFrame, CacheSound;
    var order := st.board.order;
    assert order[..|order|] == order && Listed(st.board)[0..] == Listed(st.board);
    MidwayStart(st);
    var done := MidwayFinishes(st, st, 0, Active(0, 0));
    MidwayEnd(st, Reconcile(st), done);
  }

  lemma MidwayStart(st: State)
    requires Actor.Consistent(st.board) && CacheSound(st)
    ensures Midway(st, st, 0, Active(0, 0))
  {
    assert st.board.order[..0] == [];
  }

  lemma MidwayEnd(st: State, st': State, active: Active)
    requires Midway(st, st', |st.board.order|, active)
    ensures SameFrame(st, st') && CacheSound(st') && Actor.Consistent(st'.board)
    ensures forall id | id in st.board.torrents :: Outcome(st, st', id)
    ensures forall id | id !in st.board.torrents :: Untouched(st, st', id)
  {
    hide Outcome, Untouched, CacheSound;
    var order := st.board.order;
    assert order[..|order|] == order;
    forall id ensures id in order <==> id in st.board.torrents {
      assert id in order <==> id in Elements(order);
    }
    forall id | id in st.board.torrents ensures st'.board.torrents[id].id == id {
      assert Outcome(st, st', id);
      OutcomeKeepsId(st, st', id);
    }
  }

  lemma OutcomeKeepsId(st: State, st': State, id: TorrentID)
    requires Actor.Consistent(st.board) && id in st.board.torrents && Outcome(st, st', id)
    ensures id in st'.board.torrents && st'.board.torrents[id].id == id
  {
    hide Display, Turned, Full;
  }

  // ---------------------------------------------------------------- consequences

  lemma ShouldRunAt(st: State, k: nat)
    requires Actor.Consistent(st.board) && k < |st.board.order|
    ensures st.board.order[k] in st.board.torrents
    ensures var id := st.board.order[k];
            var seed := IsSeed(st.board.torrents[id]);
            ShouldRun(st, id) <==>
            Eligible(st, id) && (Limit(st.config, seed) <= 0 || Count(st, st.board.order[..k], seed) < Limit(st.config, seed))
  {
    assert st.board.order[k] in Elements(st.board.order);
    Actor.PositionUnique(st.board.order, st.board.order[k], k);
  }

  // The engine has the torrent started. Only an entry the library has forgotten
  // does not run then.
  ghost predicate RunsIn(e: EngineState, id: TorrentID) {
    id in e.torrents && !e.torrents[id].paused
  }

  // The candidates of the class among `ids` that run in st'.
  ghost function Running(st: State, st': State, ids: seq<TorrentID>, seed: bool): set<TorrentID> {
    set id | id in ids && Candidate(st, id, seed) && RunsIn(st'.engine, id)
  }

  ghost predicate Enforced(st: State, st': State) {
    SameFrame(st, st') && forall id | id in st.board.torrents :: Outcome(st, st', id)
  }

  // After the pass a recorded torrent runs exactly if it should.
  lemma RecordedRuns(st: State, st': State, id: TorrentID)
    requires Actor.Consistent(st.board) && Enforced(st, st')
    requires id in st.board.torrents && id in Records(st.session)
    ensures RunsIn(st'.engine, id) <==> ShouldRun(st, id)
  {
    hide Turned, Display, Full;
    assert Outcome(st, st', id);
    assert id in st'.engine.torrents.Keys <==> id in st.engine.torrents.Keys;
  }

  lemma RunsWhenAdmitted(st: State, st': State, k: nat, seed: bool)
    requires Actor.Consistent(st.board) && Enforced(st, st') && k < |st.board.order|
    ensures var id := st.board.order[k];
            Candidate(st, id, seed) && RunsIn(st'.engine, id) <==>
            Candidate(st, id, seed) && (Limit(st.config, seed) <= 0 || Count(st, st.board.order[..k], seed) < Limit(st.config, seed))
  {
    hide Enforced, RunsIn;
    ShouldRunAt(st, k);
    if Candidate(st, st.board.order[k], seed) {
      RecordedRuns(st, st', st.board.order[k]);
    }
  }

  lemma RunningStep(st: State, st': State, k: nat, seed: bool)
    requires NoDuplicates(st.board.order) && k < |st.board.order|
    ensures var id := st.board.order[k];
            |Running(st, st', st.board.order[..k + 1], seed)|
            == |Running(st, st', st.board.order[..k], seed)| + if Candidate(st, id, seed) && RunsIn(st'.engine, id) then 1 else 0
  {
    hide Candidate, RunsIn;
    var order := st.board.order;
    TakeOneMore(order, k);
    var a, b := Running(st, st', order[..k], seed), Running(st, st', order[..k + 1], seed);
    assert order[k] !in a;
    assert b == if Candidate(st, order[k], seed) && RunsIn(st'.engine, order[k]) then a + {order[k]} else a;
  }

  lemma {:induction false} RunningIsAdmitted(st: State, st': State, k: nat, seed: bool)
    requires Actor.Consistent(st.board) && Enforced(st, st') && k <= |st.board.order|
    ensures |Running(st, st', st.board.order[..k], seed)| == Admitted(st, st.board.order[..k], seed)
  {
    hide RunsIn, Candidate, Enforced, Running;
    if k > 0 {
      RunningIsAdmitted(st, st', k - 1, seed);
      RunsWhenAdmitted(st, st', k - 1, seed);
      CountLast(st, st.board.order, k - 1, seed);
      RunningStep(st, st', k - 1, seed);
    } else {
      NoneRuns(st, st', seed);
    }
  }

  lemma NoneRuns(st: State, st': State, seed: bool)
    ensures Running(st, st', st.board.order[..0], seed) == {}
  {
  }

  // After a pass no class of recorded torrents exceeds its limit, and no slot
  // is idle while a torrent of the class that could run does not.
  lemma LimitsHoldAndNoSlotIdles(st: State, seed: bool)
    requires Actor.Consistent(st.board) && CacheSound(st)
    ensures var st' := Reconcile(st);
            var limit := if seed then st.config.maxActiveSeeds else st.config.maxActiveDownloads;
            var members := set id | id in st.board.torrents && id in Records(st.session) && (st.board.torrents[id].progress >= 1.0) == seed;
            var running := set id | id in members && RunsIn(st'.engine, id);
            && (limit > 0 ==> |running| <= limit)
            && forall id | id in members && Records(st.session)[id].desired != Paused && id in st.engine.torrents && id !in running ::
                 limit > 0 && |running| == limit
  {
    hide Reconcile, Running, RunsIn, Candidate, Outcome, CacheSound;
    var st' := Reconcile(st);
    PassEnforcesPolicy(st);
    EnforcedLimits(st, st', seed);
    var members := set id | id in st.board.torrents && id in Records(st.session) && (st.board.torrents[id].progress >= 1.0) == seed;
    var running := set id | id in members && RunsIn(st'.engine, id);
    forall id ensures id in running <==> id in Running(st, st', st.board.order, seed) {
      RunningInTerms(st, st', id, seed);
    }
    assert running == Running(st, st', st.board.order, seed);
    forall id | id in members && Records(st.session)[id].desired != Paused && id in st.engine.torrents && id !in running
      ensures Candidate(st, id, seed) && !RunsIn(st'.engine, id)
    {
      RunningInTerms(st, st', id, seed);
    }
  }

  lemma RunningInTerms(st: State, st': State, id: TorrentID, seed: bool)
    requires Actor.Consistent(st.board) && Enforced(st, st')
    ensures id in Running(st, st', st.board.order, seed) <==>
              && id in st.board.torrents && id in Records(st.session) && (st.board.torrents[id].progress >= 1.0) == seed
              && RunsIn(st'.engine, id)
    ensures Candidate(st, id, seed) <==>
              && id in st.board.torrents && id in Records(st.session) && (st.board.torrents[id].progress >= 1.0) == seed
              && Records(st.session)[id].desired != Paused && id in st.engine.torrents
  {
    hide Enforced, RunsIn, Full;
    assert id in st.board.order <==> id in Elements(st.board.order);
    if id in st.board.torrents && id in Records(st.session) {
      RecordedRuns(st, st', id);
    }
  }

  // Slots go by the order of the actor: where a torrent of the class runs, so do
  // all before it that could.
  lemma EarlierComesFirst(st: State, i: nat, j: nat)
    requires Actor.Consistent(st.board) && CacheSound(st) && i < j < |st.board.order|
    requires var x, y := st.board.order[i], st.board.order[j];
             && x in Records(st.session) && Records(st.session)[x].desired != Paused && x in st.engine.torrents
             && y in Records(st.session)
             && x in st.board.torrents && y in st.board.torrents
             && (st.board.torrents[x].progress >= 1.0) == (st.board.torrents[y].progress >= 1.0)
    ensures RunsIn(Reconcile(st).engine, st.board.order[j]) ==> RunsIn(Reconcile(st).engine, st.board.order[i])
  {
    hide Reconcile, RunsIn, Outcome, CacheSound, Count;
    var seed := IsSeed(st.board.torrents[st.board.order[i]]);
    PassEnforcesPolicy(st);
    RecordedRuns(st, Reconcile(st), st.board.order[i]);
    RecordedRuns(st, Reconcile(st), st.board.order[j]);
    ShouldRunAt(st, i);
    ShouldRunAt(st, j);
    CountGrows(st, st.board.order[..j], i, seed);
    assert st.board.order[..j][..i] == st.board.order[..i];
  }

  lemma EnforcedLimits(st: State, st': State, seed: bool)
    requires Actor.Consistent(st.board) && Enforced(st, st')
    ensures var limit := if seed then st.config.maxActiveSeeds else st.config.maxActiveDownloads;
            var running := |Running(st, st', st.board.order, seed)|;
            && (limit > 0 ==> running <= limit)
            && (forall id | Candidate(st, id, seed) && !RunsIn(st'.engine, id) :: limit > 0 && running == limit)
  {
    hide Running, RunsIn, Enforced;
    var order := st.board.order;
    assert order[..|order|] == order;
    RunningIsAdmitted(st, st', |order|, seed);
    forall id | Candidate(st, id, seed) && !RunsIn(st'.engine, id)
      ensures 0 < Limit(st.config, seed) <= Count(st, order, seed)
    {
      RecordedRuns(st, st', id);
      CountGrows(st, order, Actor.Position(order, id), seed);
    }
  }

  // Every torrent the library has is in the session.
  ghost predicate NoOrphans(st: State) {
    forall id | id in st.engine.live :: id in Records(st.session)
  }

  // Everything of a class that the library runs, recorded or not; the class is
  // that of the snapshot the pass saw.
  ghost function AllRunning(st: State, st': State, seed: bool): set<TorrentID> {
    set id | id in st'.engine.live && RunsIn(st'.engine, id) && id in st.board.torrents && IsSeed(st.board.torrents[id]) == seed
  }

  // Whatever the library runs belongs to a class, and no class runs more
  // torrents than its limit.
  ghost predicate WithinLimits(st: State, st': State) {
    && (forall id | id in st'.engine.live && RunsIn(st'.engine, id) :: id in AllRunning(st, st', true) + AllRunning(st, st', false))
    && (st.config.maxActiveSeeds > 0 ==> |AllRunning(st, st', true)| <= st.config.maxActiveSeeds)
    && (st.config.maxActiveDownloads > 0 ==> |AllRunning(st, st', false)| <= st.config.maxActiveDownloads)
  }

  // Without orphans the limits hold for all the library runs.
  lemma EngineObeysLimits(st: State)
    requires Actor.Consistent(st.board) && CacheSound(st)
    requires NoOrphans(st) && Records(st.session).Keys <= st.board.torrents.Keys
    ensures WithinLimits(st, Reconcile(st))
  {
    hide Reconcile, Outcome, CacheSound;
    var st' := Reconcile(st);
    PassEnforcesPolicy(st);
    forall id | id in st'.engine.live && RunsIn(st'.engine, id) ensures id in Records(st.session) && ShouldRun(st, id) {
      assert id in Records(st.session).Keys;
      RecordedRuns(st, st', id);
    }
    forall seed ensures AllRunning(st, st', seed) <= Running(st, st', st.board.order, seed) {
      forall id | id in AllRunning(st, st', seed) ensures id in Running(st, st', st.board.order, seed) {
        assert id in st.board.torrents <==> id in Elements(st.board.order);
      }
    }
    EnforcedLimits(st, st', true);
    EnforcedLimits(st, st', false);
    Sequential.SubsetSmaller(AllRunning(st, st', true), Running(st, st', st.board.order, true));
    Sequential.SubsetSmaller(AllRunning(st, st', false), Running(st, st', st.board.order, false));
  }

  lemma {:induction false} CountGrows(st: State, ids: seq<TorrentID>, k: nat, seed: bool)
    requires k <= |ids|
    ensures Count(st, ids[..k], seed) <= Count(st, ids, seed)
    decreases |ids|
  {
    if k < |ids| {
      CountGrows(st, ids[..|ids| - 1], k, seed);
      assert ids[..|ids| - 1][..k] == ids[..k];
    } else {
      assert ids[..k] == ids;
    }
  }

  // What the actor shows of a recorded torrent after the pass, in terms of the
  // entry before it: whether it waits or is paused, and otherwise what the library
  // does with it; its name, its time, its mode and how much of it is there.
  lemma PassShowsEntry(st: State, id: TorrentID)
    requires Actor.Consistent(st.board) && CacheSound(st)
    requires id in st.board.torrents && id in Records(st.session) && id in st.engine.torrents
    ensures id in Reconcile(st).board.torrents
    ensures var b, e := Reconcile(st).board.torrents[id], st.engine.torrents[id];
            var t, wanted := e.torrent, Records(st.session)[id].desired != Paused;
            && b.id == id && b.name == t.name && b.addedAt == e.addedAt && b.sequential == e.sequential && !b.error
            && (b.state == Paused <==> !wanted)
            && (b.state == Queued <==> wanted && !ShouldRun(st, id))
            && (b.state == FetchingMetadata <==> ShouldRun(st, id) && t.pieceLength.None?)
            && (b.state == Downloading <==> ShouldRun(st, id) && t.pieceLength.Some? && t.bytesCompleted < t.length)
            && (b.state == Seeding <==> ShouldRun(st, id) && t.pieceLength.Some? && t.bytesCompleted >= t.length)
            && IsPortion(b.progress, t.bytesCompleted, t.length)
  {
    hide Reconcile, Turned, Full, CacheSound, SnapshotOf, IsPortion;
    PassEnforcesPolicy(st);
    assert Outcome(st, Reconcile(st), id);
    SnapshotOfTells(id, Turned(st.engine.torrents[id], false));
    SnapshotOfTells(id, Turned(st.engine.torrents[id], true));
  }

  // A torrent the engine lacks keeps what the actor has of it, but for the state.
  lemma PassShowsAbsent(st: State, id: TorrentID)
    requires Actor.Consistent(st.board) && CacheSound(st)
    requires id in st.board.torrents && id in Records(st.session) && id !in st.engine.torrents
    ensures id in Reconcile(st).board.torrents
    ensures var b, b' := st.board.torrents[id], Reconcile(st).board.torrents[id];
            && b' == b.(state := b'.state)
            && b'.state in {b.state, Paused, Queued} && (Records(st.session)[id].desired == Paused ==> b'.state == Paused)
  {
    hide Reconcile, Full, CacheSound;
    PassEnforcesPolicy(st);
    assert Outcome(st, Reconcile(st), id);
  }

  // A running torrent with metadata is shown as seeding exactly when the pass
  // counts it as a seed, unless it has no bytes at all: then it is shown as
  // seeding and counted as a download.
  lemma SeedingIsCountedExactly(id: TorrentID, e: Sequential.Entry)
    requires !e.paused && e.torrent.pieceLength.Some?
    ensures (SnapshotOf(id, e).state == Seeding <==> IsSeed(SnapshotOf(id, e))) <==> e.torrent.length > 0
    ensures e.torrent.length == 0 ==> SnapshotOf(id, e).state == Seeding && !IsSeed(SnapshotOf(id, e))
  {
    if e.torrent.length > 0 {
      RatioAtLeastOne(e.torrent.bytesCompleted, e.torrent.length);
    }
  }

  lemma RatioAtLeastOne(a: nat, b: nat)
    requires b > 0
    ensures a as real / b as real >= 1.0 <==> a >= b
  {
    var q := a as real / b as real;
    assert q * b as real == a as real;
    if q >= 1.0 {
      assert q * b as real >= b as real;
    }
    if q < 1.0 {
      assert q * b as real < b as real;
    }
  }

  // The policy looks at the candidates and their order only.
  ghost predicate SameCandidates(a: State, b: State) {
    && a.config == b.config
    && a.board.torrents.Keys == b.board.torrents.Keys
    && forall id, seed :: Candidate(a, id, seed) <==> Candidate(b, id, seed)
  }

  lemma {:induction false} CountSame(a: State, b: State, ids: seq<TorrentID>, seed: bool)
    requires SameCandidates(a, b)
    ensures Count(a, ids, seed) == Count(b, ids, seed)
    decreases |ids|
  {
    if ids != [] {
      CountSame(a, b, ids[..|ids| - 1], seed);
    }
  }

  lemma FullSame(a: State, b: State, id: TorrentID)
    requires SameCandidates(a, b) && a.board.order == b.board.order && id in a.board.torrents
    requires id in b.board.torrents && IsSeed(a.board.torrents[id]) == IsSeed(b.board.torrents[id])
    ensures Full(a, id) <==> Full(b, id)
  {
    CountSame(a, b, a.board.order[..Actor.Position(a.board.order, id)], IsSeed(a.board.torrents[id]));
  }

  lemma ShouldRunSame(a: State, b: State, id: TorrentID)
    requires SameCandidates(a, b) && a.board.order == b.board.order
    ensures ShouldRun(a, id) <==> ShouldRun(b, id)
  {
    if id in a.board.torrents {
      CandidateSeed(a, b, id);
      if Eligible(a, id) {
        FullSame(a, b, id);
      }
    }
  }

  // The actor counts the torrents as the engine would now.
  ghost predicate SameClasses(st: State) {
    forall id | id in st.board.torrents && id in Records(st.session) && id in st.engine.torrents ::
      IsSeed(st.board.torrents[id]) == IsSeed(SnapshotOf(id, st.engine.torrents[id]))
  }

  // A second turn of a torrent that has had one changes nothing.
  lemma TurnedTwice(e: Sequential.Entry, runs: bool)
    requires Sequential.Boosted(e)
    ensures Turned(Turned(e, runs), runs) == Turned(e, runs)
  {
    var u := e.(paused := !runs);
    assert Turned(e, runs).(paused := !runs) == Turned(e, runs);
    Sequential.UpdatedIsStable(u);
  }

  // The pass keeps the class of a torrent.
  lemma DisplayKeepsClass(st: State, t: Snapshot, full: bool)
    requires t.id in Records(st.session)
    requires t.id in st.engine.torrents ==> IsSeed(t) == IsSeed(SnapshotOf(t.id, st.engine.torrents[t.id]))
    ensures IsSeed(Display(st, t, full)) == IsSeed(t)
  {
    hide Turned;
  }

  // A turn with the same verdict shows the same again.
  lemma DisplayTwice(st: State, st': State, t: Snapshot, full: bool)
    requires st'.session == st.session && st'.engine.torrents.Keys == st.engine.torrents.Keys
    requires t.id in Records(st.session)
    requires t.id in st.engine.torrents ==>
               var runs := Records(st.session)[t.id].desired != Paused && !full;
               && Sequential.Boosted(st.engine.torrents[t.id])
               && st'.engine.torrents[t.id] == Turned(st.engine.torrents[t.id], runs)
    ensures Display(st', Display(st, t, full), full) == Display(st, t, full)
  {
    hide Turned;
    assert t.id in st'.engine.torrents.Keys <==> t.id in st.engine.torrents.Keys;
    if t.id in st.engine.torrents {
      TurnedTwice(st.engine.torrents[t.id], Records(st.session)[t.id].desired != Paused && !full);
    }
  }

  lemma PassKeepsClass(st: State, id: TorrentID)
    requires Actor.Consistent(st.board) && CacheSound(st) && SameClasses(st) && id in st.board.torrents
    ensures id in Reconcile(st).board.torrents
    ensures IsSeed(Reconcile(st).board.torrents[id]) == IsSeed(st.board.torrents[id])
  {
    hide Reconcile, Display, Turned, Full, CacheSound;
    PassEnforcesPolicy(st);
    assert Outcome(st, Reconcile(st), id);
    if id in Records(st.session) {
      DisplayKeepsClass(st, st.board.torrents[id], Full(st, id));
    }
  }

  lemma PassKeepsCandidates(st: State)
    requires Actor.Consistent(st.board) && CacheSound(st) && SameClasses(st)
    ensures SameCandidates(st, Reconcile(st)) && SameFrame(st, Reconcile(st))
  {
    hide Reconcile, Outcome, CacheSound, SameClasses, IsSeed;
    PassEnforcesPolicy(st);
    forall id, seed ensures Candidate(st, id, seed) <==> Candidate(Reconcile(st), id, seed) {
      assert id in st.board.torrents.Keys <==> id in Reconcile(st).board.torrents.Keys;
      assert id in st.engine.torrents.Keys <==> id in Reconcile(st).engine.torrents.Keys;
      if id in st.board.torrents {
        PassKeepsClass(st, id);
      }
    }
  }

  lemma SecondPassAt(st: State, id: TorrentID)
    requires Actor.Consistent(st.board) && CacheSound(st) && SameClasses(st) && GoodEngine(st.engine)
    ensures Untouched(Reconcile(st), Reconcile(Reconcile(st)), id)
  {
    hide Reconcile, Display, Turned, Full, SameClasses, SameCandidates, CacheSound;
    var st1 := Reconcile(st);
    var st2 := Reconcile(st1);
    PassEnforcesPolicy(st);
    PassEnforcesPolicy(st1);
    if id in st.board.torrents {
      assert Outcome(st, st1, id) && Outcome(st1, st2, id);
      if id in Records(st.session) {
        PassKeepsCandidates(st);
        PassKeepsClass(st, id);
        FullSame(st, st1, id);
        SettledTwice(st, st1, st2, st.board.torrents[id], Full(st, id));
      }
    }
  }

  lemma SettledTwice(st: State, st1: State, st2: State, t: Snapshot, full: bool)
    requires SameFrame(st, st1) && SameFrame(st1, st2) && GoodEngine(st.engine)
    requires t.id in Records(st.session) && Settled(st, st1, t, full) && Settled(st1, st2, st1.board.torrents[t.id], full)
    ensures Untouched(st1, st2, t.id)
  {
    hide Turned, Display;
    assert t.id in st1.engine.torrents.Keys <==> t.id in st.engine.torrents.Keys;
    DisplayTwice(st, st1, t, full);
    if t.id in st.engine.torrents {
      TurnedTwice(st.engine.torrents[t.id], Records(st.session)[t.id].desired != Paused && !full);
    }
  }

  // A second pass changes nothing at all, neither in the engine nor in actor or
  // cache, if no torrent finished or lost its data since the actor saw it.
  lemma SecondPassIsIdle(st: State)
    requires Actor.Consistent(st.board) && CacheSound(st) && SameClasses(st) && GoodEngine(st.engine)
    ensures Reconcile(Reconcile(st)) == Reconcile(st)
  {
    hide Reconcile, Outcome, CacheSound, SameClasses, GoodEngine;
    var st1 := Reconcile(st);
    var st2 := Reconcile(st1);
    PassEnforcesPolicy(st);
    PassEnforcesPolicy(st1);
    forall id ensures Untouched(st1, st2, id) {
      SecondPassAt(st, id);
    }
    UntouchedIsSame(st1, st2);
  }

  lemma UntouchedIsSame(st: State, st': State)
    requires SameFrame(st, st') && forall id :: Untouched(st, st', id)
    ensures st == st'
  {
    forall id | id in st.engine.torrents ensures st'.engine.torrents[id] == st.engine.torrents[id] {
      assert Untouched(st, st', id);
    }
    forall id | id in st.board.torrents ensures st'.board.torrents[id] == st.board.torrents[id] {
      assert Untouched(st, st', id);
    }
    forall id | id in st.scheduled ensures id in st'.scheduled && st'.scheduled[id] == st.scheduled[id] {
      assert Untouched(st, st', id);
    }
    forall id | id in st'.scheduled ensures id in st.scheduled {
      assert Untouched(st, st', id);
    }
    assert st.engine.torrents == st'.engine.torrents && st.board.torrents == st'.board.torrents;
    assert st.scheduled == st'.scheduled;
  }

  // After any pass the actor's classes are the engine's, so a third pass is idle
  // whatever the actor knew before.
  lemma PassMakesSameClasses(st: State)
    requires Actor.Consistent(st.board) && CacheSound(st)
    ensures SameClasses(Reconcile(st))
  {
    hide Reconcile, Full, CacheSound;
    var st1 := Reconcile(st);
    PassEnforcesPolicy(st);
    forall id | id in st1.board.torrents && id in Records(st1.session) && id in st1.engine.torrents
      ensures IsSeed(st1.board.torrents[id]) == IsSeed(SnapshotOf(id, st1.engine.torrents[id]))
    {
      assert id in st.board.torrents.Keys && id in st.engine.torrents.Keys;
      assert Outcome(st, st1, id);
    }
  }

  // ---------------------------------------------------------------- moving

  lemma {:induction false} CountSwapped(st: State, ids: seq<TorrentID>, i: nat, seed: bool)
    requires i + 1 < |ids|
    ensures Count(st, Actor.Swapped(ids, i, i + 1), seed) == Count(st, ids, seed)
    decreases |ids|
  {
    var swapped := Actor.Swapped(ids, i, i + 1);
    var n := |ids|;
    if i + 2 == n {
      assert swapped[..n - 1][..n - 2] == ids[..n - 1][..n - 2];
    } else {
      CountSwapped(st, ids[..n - 1], i, seed);
      assert swapped[..n - 1] == Actor.Swapped(ids[..n - 1], i, i + 1);
    }
  }

  // Exchanging two neighbours changes who should run by at most exchanging
  // those two.
  lemma SwapExchangesAtMost(a: State, b: State, i: nat)
    requires Actor.Consistent(a.board) && Actor.Consistent(b.board) && SameCandidates(a, b)
    requires i + 1 < |a.board.order| && b.board.order == Actor.Swapped(a.board.order, i, i + 1)
    ensures var x, y := a.board.order[i], a.board.order[i + 1];
            && (forall id | id != x && id != y :: ShouldRun(a, id) <==> ShouldRun(b, id))
            && ((ShouldRun(a, x) == ShouldRun(b, x) && ShouldRun(a, y) == ShouldRun(b, y))
                || (ShouldRun(a, x) && !ShouldRun(a, y) && !ShouldRun(b, x) && ShouldRun(b, y)))
  {
    var x, y := a.board.order[i], a.board.order[i + 1];
    forall id | id != x && id != y ensures ShouldRun(a, id) <==> ShouldRun(b, id) {
      if id in a.board.torrents {
        SwapKeepsOthers(a, b, i, id);
      }
    }
    SwapPair(a, b, i);
  }

  lemma SwapKeepsOthers(a: State, b: State, i: nat, id: TorrentID)
    requires Actor.Consistent(a.board) && Actor.Consistent(b.board) && SameCandidates(a, b)
    requires i + 1 < |a.board.order| && b.board.order == Actor.Swapped(a.board.order, i, i + 1)
    requires id in a.board.torrents && id != a.board.order[i] && id != a.board.order[i + 1]
    ensures ShouldRun(a, id) <==> ShouldRun(b, id)
  {
    assert id in Elements(a.board.order);
    var k :| 0 <= k < |a.board.order| && a.board.order[k] == id;
    assert b.board.order[k] == id;
    ShouldRunAt(a, k);
    ShouldRunAt(b, k);
    var seed := IsSeed(a.board.torrents[id]);
    CandidateSeed(a, b, id);
    if k < i {
      assert b.board.order[..k] == a.board.order[..k];
    } else {
      assert b.board.order[..k] == Actor.Swapped(a.board.order[..k], i, i + 1);
      CountSwapped(a, a.board.order[..k], i, seed);
    }
    CountSame(a, b, b.board.order[..k], seed);
  }

  lemma SwapPair(a: State, b: State, i: nat)
    requires Actor.Consistent(a.board) && Actor.Consistent(b.board) && SameCandidates(a, b)
    requires i + 1 < |a.board.order| && b.board.order == Actor.Swapped(a.board.order, i, i + 1)
    ensures var x, y := a.board.order[i], a.board.order[i + 1];
            || (ShouldRun(a, x) == ShouldRun(b, x) && ShouldRun(a, y) == ShouldRun(b, y))
            || (ShouldRun(a, x) && !ShouldRun(a, y) && !ShouldRun(b, x) && ShouldRun(b, y))
  {
    hide Eligible, IsSeed, Limit, Count, ShouldRun;
    var order, order' := a.board.order, b.board.order;
    CandidateSeed(a, b, order[i]);
    CandidateSeed(a, b, order[i + 1]);
    ShouldRunAt(a, i);
    ShouldRunAt(a, i + 1);
    ShouldRunAt(b, i);
    ShouldRunAt(b, i + 1);
    assert order[..i] == order'[..i];
    forall seed
      ensures Count(b, order'[..i], seed) == Count(a, order[..i], seed)
      ensures Count(a, order[..i + 1], seed) == Count(a, order[..i], seed) + if Candidate(a, order[i], seed) then 1 else 0
      ensures Count(b, order'[..i + 1], seed) == Count(a, order[..i], seed) + if Candidate(a, order[i + 1], seed) then 1 else 0
    {
      CountSame(a, b, order[..i], seed);
      CountLast(a, order, i, seed);
      CountLast(b, order', i, seed);
    }
  }

  lemma CandidateSeed(a: State, b: State, id: TorrentID)
    requires SameCandidates(a, b) && id in a.board.torrents
    ensures id in b.board.torrents
    ensures Eligible(a, id) <==> Eligible(b, id)
    ensures Eligible(a, id) ==> IsSeed(a.board.torrents[id]) == IsSeed(b.board.torrents[id])
  {
    assert Candidate(a, id, IsSeed(a.board.torrents[id])) <==> Candidate(b, id, IsSeed(a.board.torrents[id]));
    assert Candidate(a, id, IsSeed(b.board.torrents[id])) <==> Candidate(b, id, IsSeed(b.board.torrents[id]));
  }
}
