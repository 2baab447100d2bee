/** Promises that hold on some inputs only, with the exact condition, and what follows from them. */
module Promises {
  import opened Model
  import opened Control
  import opened Registry
  import opened Scheduling
  import opened Sessions
  import opened Invariants
  import Actor
  import Decimal
  import Sequential
  import Store

  // ---------------------------------------------------------------- the cache

  // The add creates a torrent in the engine.
  predicate Creates(st: State, p: AddParams, reply: AddReply) {
    Completed(st.config, p).savePath != "" && reply.Accepted? && reply.id !in st.engine.live
  }

  // The add that creates the torrent also records it.
  predicate Recorded(st: State, p: AddParams, reply: AddReply, f: Store.Fault)
    requires reply.Accepted?
  {
    Store.Works(st.disk, f) && reply.id != "" && p.source != ""
  }

  // It ends without the entry.
  predicate TakenBack(st: State, p: AddParams, reply: AddReply, f: Store.Fault, undo: RemoveOutcome)
    requires reply.Accepted?
  {
    undo.Removed? && !Recorded(st, p, reply, f)
  }

  // An add keeps the cache right except where it creates a torrent that is
  // still cached: then the new run state must be the cached one, and the entry
  // must stay. A torrent is still cached after a removal that broke.
  lemma AddKeepsCacheExactly(st: State, p: AddParams, reply: AddReply, f: Store.Fault, undo: RemoveOutcome)
    requires Core(st) && CacheSound(st) && Plausible(AddTorrent(p, reply, false, f, undo))
    ensures CacheSound(AddCommand(st, p, reply, false, f, undo).0) <==>
              (Creates(st, p, reply) && reply.id in st.scheduled ==>
                 p.paused == !st.scheduled[reply.id] && !TakenBack(st, p, reply, f, undo))
  {
    var st' := AddCommand(st, p, reply, false, f, undo).0;
    forall x ensures AddedAt(st, st', p, reply, f, undo, x) {
      AddEngineAt(st, p, reply, f, undo, x);
    }
    forall x ensures CachedAt(st, x) {}
    CacheAfterAdd(st, st', p, reply, f, undo);
  }

  lemma CacheAfterAdd(st: State, st': State, p: AddParams, reply: AddReply, f: Store.Fault, undo: RemoveOutcome)
    requires forall x :: CachedAt(st, x)
    requires forall x :: AddedAt(st, st', p, reply, f, undo, x)
    ensures CacheSound(st') <==>
              (Creates(st, p, reply) && reply.id in st.scheduled ==>
                 p.paused == !st.scheduled[reply.id] && !TakenBack(st, p, reply, f, undo))
  {
    forall x ensures (Creates(st, p, reply) ==> x != reply.id) ==> CachedAt(st', x) {
      assert CachedAt(st, x) && AddedAt(st, st', p, reply, f, undo, x);
    }
    if reply.Accepted? {
      assert CachedAt(st, reply.id) && AddedAt(st, st', p, reply, f, undo, reply.id);
      assert CacheSound(st') ==> CachedAt(st', reply.id);
      if CachedAt(st', reply.id) {
        forall x | x in st'.scheduled ensures CachedAt(st', x) {}
      }
    } else {
      forall x | x in st'.scheduled ensures CachedAt(st', x) {}
    }
  }

  // The entry as the add made it.
  ghost predicate Entered(e: EngineState, id: TorrentID, p: AddParams) {
    id in e.torrents && e.torrents[id].paused == p.paused && e.torrents[id].sequential == p.sequential
  }

  // Record and actor as the add made them.
  ghost predicate Published(st: State, id: TorrentID, p: AddParams) {
    && id in Records(st.session) && id in st.board.torrents
    && Records(st.session)[id].desired == (if p.paused then Paused else Downloading)
    && Records(st.session)[id].sequential == p.sequential
    && (st.board.torrents[id].state == Paused <==> p.paused)
    && st.board.torrents[id].sequential == p.sequential
  }

  ghost predicate SameAt(st: State, st': State, x: TorrentID) {
    && SameFlags(st.engine, st'.engine, x)
    && (x in Records(st'.session) <==> x in Records(st.session))
    && (x in Records(st.session) ==> Records(st'.session)[x] == Records(st.session)[x])
    && (x in st'.board.torrents <==> x in st.board.torrents)
    && (x in st.board.torrents ==> st'.board.torrents[x] == st.board.torrents[x])
  }

  // What an add does to one torrent.
  ghost predicate AddedAt(st: State, st': State, p: AddParams, reply: AddReply, f: Store.Fault, undo: RemoveOutcome, x: TorrentID) {
    && st'.scheduled == st.scheduled
    && if Creates(st, p, reply) && x == reply.id then
         && (if TakenBack(st, p, reply, f, undo) then x !in st'.engine.torrents else Entered(st'.engine, x, p))
         && (x in st'.engine.live <==> Recorded(st, p, reply, f))
         && (if Recorded(st, p, reply, f) then Published(st', x, p)
             else Records(st'.session) == Records(st.session) && st'.board == st.board)
       else SameAt(st, st', x)
  }

  lemma AddEngineAt(st: State, p: AddParams, reply: AddReply, f: Store.Fault, undo: RemoveOutcome, x: TorrentID)
    requires Core(st) && Plausible(AddTorrent(p, reply, false, f, undo))
    ensures AddedAt(st, AddCommand(st, p, reply, false, f, undo).0, p, reply, f, undo, x)
  {
    var params := Completed(st.config, p);
    EngineAddAt(st.engine, params, reply, x);
    if Creates(st, p, reply) {
      AddCreatedExactly(st, p, reply, f, undo, x);
    } else {
      var (e1, r) := Registry.Add(st.engine, InputOf(params), reply);
      if r.Known? {
        EngineSnapshot(e1, r.id, x);
        assert AddCommand(st, p, reply, false, f, undo).0 in {st.(engine := e1), st.(engine := TakeSnapshot(e1, r.id).0)};
      } else {
        assert AddCommand(st, p, reply, false, f, undo).0 == st.(engine := e1);
      }
    }
  }

  lemma AddCreatedExactly(st: State, p: AddParams, reply: AddReply, f: Store.Fault, undo: RemoveOutcome, x: TorrentID)
    requires Core(st) && Plausible(AddTorrent(p, reply, false, f, undo)) && Creates(st, p, reply)
    ensures AddedAt(st, AddCommand(st, p, reply, false, f, undo).0, p, reply, f, undo, x)
  {
    var params := Completed(st.config, p);
    EngineAddAt(st.engine, params, reply, x);
    var e1 := Registry.Add(st.engine, InputOf(params), reply).0;
    var (e2, t) := TakeSnapshot(e1, reply.id);
    EngineSnapshot(e1, reply.id, x);
    EngineSnapshot(e1, reply.id, reply.id);
    var st' := Publish(st.(engine := e2), reply.id, params, t.value, f, undo).0;
    assert AddCommand(st, p, reply, false, f, undo).0 == st';
    PublishExactly(st.(engine := e2), reply.id, params, t.value, f, undo, x);
  }

  lemma PublishExactly(st: State, id: TorrentID, p: AddParams, t: Snapshot, f: Store.Fault, undo: RemoveOutcome, x: TorrentID)
    requires Store.Valid(st.session) && GoodEngine(st.engine) && Entered(st.engine, id, p) && !undo.Refused?
    requires t.id == id && t.sequential == p.sequential && (t.state == Paused <==> p.paused)
    ensures var (st', ok) := Publish(st, id, p, t, f, undo);
            && st'.scheduled == st.scheduled
            && (ok <==> id != "" && p.source != "" && p.savePath != "" && Store.Works(st.disk, f))
            && (x != id ==> SameAt(st, st', x))
            && (if !ok && undo.Removed? then id !in st'.engine.torrents else Entered(st'.engine, id, p))
            && (id in st'.engine.live <==> ok && id in st.engine.live)
            && (if ok then Published(st', id, p)
                else Records(st'.session) == Records(st.session) && st'.board == st.board)
  {
    RecordTorrentEffect(st, id, p, t, f);
    EngineRemoveAt(st.engine, id, false, undo, x);
    FailedRemoveSpares(st.engine, id, false, undo);
    RemoveLeavesLive(st.engine, id, false, undo);
  }

  // That is the only way: every other command, every pass and every event
  // keeps the cache right, whatever fails and however a removal breaks.
  ghost predicate KeepsCache(st: State, c: Command) {
    c.AddTorrent? && Creates(st, c.params, c.reply) && c.reply.id in st.scheduled ==>
      && c.params.paused == !st.scheduled[c.reply.id]
      && !TakenBack(st, c.params, c.reply, c.f, c.undo)
  }

  lemma CacheStaysSoundExactly(st: State, c: Command)
    requires Core(st) && CacheSound(st) && Plausible(c)
    ensures CacheSound(Perform(st, c)) <==> KeepsCache(st, c)
  {
    hide AddCommand, CacheSound, Core, Reconcile, Conceivable;
    CacheSoundAt(st);
    CacheSoundAt(Perform(st, c));
    match c
    case AddTorrent(p, reply, cut, f, undo) => AddKeepsCacheExactly(st, p, reply, f, undo);
    case Tick => forall x { ReconcileAt(st, x); }
    case _ => forall x { StepAt(st, c, x); }
  }

  // The family of runs on which the cache goes wrong: a removal breaks after
  // the drop, and the torrent is then added again in the other run state.
  lemma ReaddAfterBrokenRemovalBreaksCache(st: State, id: TorrentID, f: Store.Fault, p: AddParams, reply: AddReply)
    requires Core(st) && CacheSound(st) && id in st.scheduled && id in Records(st.session)
    requires id in st.engine.live && Store.Works(st.disk, f)
    requires reply.Accepted? && reply.id == id && reply.handle.own == map[]
    requires p.source != "" && p.savePath != "" && id != "" && p.paused == st.scheduled[id]
    ensures var removed := RemoveCommand(st, id, false, Broken(None), f, Store.NoFault).0;
            && CacheSound(removed) && removed.session == st.session
            && !CacheSound(AddCommand(removed, p, reply, false, Store.NoFault, Removed).0)
  {
    hide AddCommand, RemoveCommand, Core, Store.Works, Registry.Remove;
    var removed := RemoveCommand(st, id, false, Broken(None), f, Store.NoFault).0;
    CoreMeans(st);
    RemoveIsAllOrNothing(st, id, false, Broken(None), f, Store.NoFault);
    RemoveEngineEffect(st, id, false, Broken(None), f, Store.NoFault);
    RemoveKeepsCore(st, id, false, Broken(None), f, Store.NoFault);
    BrokenIsForgotten(st.engine, id);
    AddKeepsCacheExactly(removed, p, reply, Store.NoFault, Removed);
  }

  lemma BrokenIsForgotten(e: EngineState, id: TorrentID)
    requires GoodEngine(e) && id in e.live
    ensures var e' := Registry.Remove(e, id, false, Broken(None)).0;
            e'.torrents == e.torrents && id !in e'.live
  {
  }

  // The cache is wrong about the torrent.
  ghost predicate StaleAt(st: State, id: TorrentID) {
    id in st.scheduled && id in st.engine.torrents && st.engine.torrents[id].paused == st.scheduled[id]
  }

  // The pass leaves the torrent as it is, in run state and cache.
  ghost predicate Ignored(st: State, st': State, x: TorrentID) {
    && st'.session == st.session && SameScheduled(st, st', x)
    && (x in st.engine.torrents ==> x in st'.engine.torrents && st'.engine.torrents[x].paused == st.engine.torrents[x].paused)
  }

  ghost predicate TurnFrame(st: State, st': State, id: TorrentID, x: TorrentID) {
    && st'.engine.torrents.Keys == st.engine.torrents.Keys && st'.engine.live == st.engine.live
    && (x != id ==> Ignored(st, st', x))
  }

  lemma CallFrame(st: State, id: TorrentID, running: bool, x: TorrentID)
    ensures TurnFrame(st, SetScheduled(st, id, running).0, id, x)
  {
  }

  lemma RefreshFrame(st: State, t: Snapshot, x: TorrentID)
    ensures TurnFrame(st, Refreshed(st, t).0, t.id, x)
  {
  }

  lemma StopFrame(st: State, t: Snapshot, state: TorrentState, x: TorrentID)
    ensures TurnFrame(st, Stop(st, t, state), t.id, x)
  {
    hide SetScheduled, Refreshed;
    CallFrame(st, t.id, false, x);
    RefreshFrame(SetScheduled(st, t.id, false).0, t, x);
  }

  lemma StartFrame(st: State, t: Snapshot, x: TorrentID)
    ensures TurnFrame(st, Start(st, t).0, t.id, x)
  {
    hide SetScheduled, Refreshed;
    CallFrame(st, t.id, true, x);
    RefreshFrame(SetScheduled(st, t.id, true).0, t, x);
  }

  // A turn leaves the others alone, whatever the cache says.
  lemma TurnIgnoresOthers(st: State, t: Snapshot, active: Active, x: TorrentID)
    ensures TurnFrame(st, Schedule(st, t, active).0, t.id, x)
  {
    hide Stop, Start;
    StopFrame(st, t, Paused, x);
    StopFrame(st, t, Queued, x);
    StartFrame(st, t, x);
  }

  // Is the entry of a torrent that the user wants paused and that runs.
  ghost predicate RunsUnnoticed(st: State, x: TorrentID) {
    StaleAt(st, x) && !st.scheduled[x] && x in Records(st.session) && Records(st.session)[x].desired == Paused
  }

  lemma TurnIsBlind(st: State, t: Snapshot, active: Active)
    requires StaleAt(st, t.id)
    ensures var st' := Schedule(st, t, active).0;
            && t.id in st'.engine.torrents && st'.engine.torrents[t.id].paused == st.engine.torrents[t.id].paused
            && (RunsUnnoticed(st, t.id) ==> RunsUnnoticed(st', t.id))
  {
    hide TakeSnapshot;
    SnapshotAt(SetScheduled(st, t.id, false).0.engine, t.id, t.id);
    SnapshotAt(SetScheduled(st, t.id, true).0.engine, t.id, t.id);
  }

  lemma {:induction false} PassIgnoresOthers(st: State, torrents: seq<Snapshot>, active: Active, x: TorrentID)
    requires forall i | 0 <= i < |torrents| :: torrents[i].id != x
    ensures Ignored(st, Pass(st, torrents, active), x)
    decreases |torrents|
  {
    hide Schedule;
    if torrents != [] {
      var (st1, active1) := Schedule(st, torrents[0], active);
      TurnIgnoresOthers(st, torrents[0], active, x);
      PassIgnoresOthers(st1, torrents[1..], active1, x);
    }
  }

  lemma {:induction false} PassIsBlind(st: State, torrents: seq<Snapshot>, active: Active, x: TorrentID)
    requires StaleAt(st, x) && forall i, j | 0 <= i < j < |torrents| :: torrents[i].id != torrents[j].id
    ensures var st' := Pass(st, torrents, active);
            && x in st'.engine.torrents && st'.engine.torrents[x].paused == st.engine.torrents[x].paused
            && (RunsUnnoticed(st, x) ==> RunsUnnoticed(st', x))
    decreases |torrents|
  {
    hide Schedule;
    if torrents != [] {
      var (st1, active1) := Schedule(st, torrents[0], active);
      if torrents[0].id == x {
        TurnIsBlind(st, torrents[0], active);
        PassIgnoresOthers(st1, torrents[1..], active1, x);
      } else {
        TurnIgnoresOthers(st, torrents[0], active, x);
        PassIsBlind(st1, torrents[1..], active1, x);
      }
    }
  }

  // What a wrong entry does, whatever the rest of the cache says: the pass keeps
  // the run state of the torrent, right or not. One that runs although the user
  // wants it paused goes on running, and its entry stays wrong, pass after pass.
  lemma StaleCacheKeepsRunState(st: State, x: TorrentID)
    requires Actor.Consistent(st.board) && StaleAt(st, x)
    ensures var st' := Reconcile(st);
            && x in st'.engine.torrents && st'.engine.torrents[x].paused == st.engine.torrents[x].paused
            && (RunsUnnoticed(st, x) ==> RunsUnnoticed(st', x))
  {
    var list := Listed(st.board);
    forall i, j | 0 <= i < j < |list| ensures list[i].id != list[j].id {
      assert list[i].id == st.board.order[i] && list[j].id == st.board.order[j];
    }
    PassIsBlind(st, list, Active(0, 0), x);
  }

  // When an add succeeds: the client has the torrent already, or it is new and
  // its record can be saved.
  lemma AddSucceedsExactly(st: State, p: AddParams, reply: AddReply, cut: bool, f: Store.Fault, undo: RemoveOutcome)
    requires Core(st) && Conceivable(AddTorrent(p, reply, cut, f, undo))
    ensures AddCommand(st, p, reply, cut, f, undo).1 <==>
              && Completed(st.config, p).savePath != "" && reply.Accepted? && !cut
              && (reply.id in st.engine.live || (Store.Works(st.disk, f) && reply.id != "" && p.source != ""))
  {
    var params := Completed(st.config, p);
    if reply.Accepted? && !cut && params.savePath != "" {
      EngineAddAt(st.engine, params, reply, reply.id);
      if Creates(st, p, reply) {
        CreateSucceedsExactly(st, p, reply, f, undo);
      } else {
        EngineSnapshot(st.engine, reply.id, reply.id);
      }
    }
  }

  lemma CreateSucceedsExactly(st: State, p: AddParams, reply: AddReply, f: Store.Fault, undo: RemoveOutcome)
    requires Core(st) && Plausible(AddTorrent(p, reply, false, f, undo)) && Creates(st, p, reply)
    ensures AddCommand(st, p, reply, false, f, undo).1 <==> Store.Works(st.disk, f) && reply.id != "" && p.source != ""
  {
    var params := Completed(st.config, p);
    EngineAddAt(st.engine, params, reply, reply.id);
    var e1 := Registry.Add(st.engine, InputOf(params), reply).0;
    var (e2, t) := TakeSnapshot(e1, reply.id);
    EngineSnapshot(e1, reply.id, reply.id);
    PublishExactly(st.(engine := e2), reply.id, params, t.value, f, undo, reply.id);
    assert AddCommand(st, p, reply, false, f, undo) == Publish(st.(engine := e2), reply.id, params, t.value, f, undo);
  }

  // An add the stop of the daemon cuts short fails, and leaves a new torrent with
  // the engine, neither recorded nor shown.
  lemma CutAddLeavesEntry(st: State, p: AddParams, reply: AddReply, f: Store.Fault, undo: RemoveOutcome)
    requires Core(st) && Conceivable(AddTorrent(p, reply, true, f, undo))
    ensures var (st', ok) := AddCommand(st, p, reply, true, f, undo);
            && !ok && st' == st.(engine := st'.engine)
            && (if Creates(st, p, reply) then Entered(st'.engine, reply.id, p) && reply.id in st'.engine.live else st' == st)
  {
    EngineAddAt(st.engine, Completed(st.config, p), reply, "");
  }

  // What an add that creates a torrent leaves, field by field.
  ghost predicate AddedAs(st: State, st': State, p: AddParams, reply: AddReply)
    requires reply.Accepted?
  {
    var id := reply.id;
    var path := if p.savePath == "" then st.config.downloadDirectory else p.savePath;
    && id in st'.engine.torrents && id in st'.engine.live && id in Records(st'.session) && id in st'.board.torrents
    && var e, r, b := st'.engine.torrents[id], Records(st'.session)[id], st'.board.torrents[id];
       && e.savePath == path && e.paused == p.paused && e.sequential == p.sequential && e.addedAt == reply.now
       && e.filePriorities == map[] && e.source == p.source
       && e.torrent == reply.handle.(serial := e.torrent.serial, own := e.torrent.own)
       && r.source == p.source && r.savePath == path && r.sequential == p.sequential
       && r.desired == (if p.paused then Paused else Downloading)
       && r.name == reply.handle.name && r.addedAt == reply.now
       && r.filePriorities == (if id in Records(st.session) then Records(st.session)[id].filePriorities else None)
       && b.id == id && b.name == reply.handle.name && b.addedAt == reply.now && b.sequential == p.sequential
       && (b.state == Paused <==> p.paused)
  }

  lemma AddTakesEffect(st: State, p: AddParams, reply: AddReply, f: Store.Fault, undo: RemoveOutcome)
    requires Core(st) && Plausible(AddTorrent(p, reply, false, f, undo)) && reply.Accepted? && reply.id !in st.engine.live
    requires AddCommand(st, p, reply, false, f, undo).1
    ensures var st' := AddCommand(st, p, reply, false, f, undo).0;
            && AddedAs(st, st', p, reply)
            && Ids(st'.session) == (if reply.id in Records(st.session) then Ids(st.session) else Ids(st.session) + [reply.id])
            && st'.board.order == (if reply.id in st.board.torrents then st.board.order else st.board.order + [reply.id])
            && Store.Committed(st'.disk) == Some(st'.session)
  {
    hide Core, Store.Works, GoodEngine, TakeSnapshot, RecordTorrent, AddedAs, Store.Valid, Actor.Consistent, Store.Committed;
    var id, params := reply.id, Completed(st.config, p);
    var e1 := Registry.Add(st.engine, InputOf(params), reply).0;
    var (e2, t) := TakeSnapshot(e1, id);
    EngineAddEntry(st.engine, InputOf(params), reply);
    SnapshotTellsEntry(e1, id);
    SnapshotKeepsEntry(e1, id);
    CoreMeans(st);
    RecordTorrentEffect(st.(engine := e2), id, params, t.value, f);
    RecordTorrentContents(st.(engine := e2), id, params, t.value, f);
    AddedFields(st, AddCommand(st, p, reply, false, f, undo).0, p, reply, t.value);
  }

  lemma EngineAddEntry(e: EngineState, input: AddInput, reply: AddReply)
    requires reply.Accepted? && reply.id !in e.live && input.savePath != ""
    ensures var (e1, r) := Registry.Add(e, input, reply);
            && r == Created(reply.id) && reply.id in e1.torrents && reply.id in e1.live
            && e1.torrents[reply.id] == Sequential.Entry(reply.handle.(serial := e.serials), input.source, input.savePath, reply.now,
                                                         input.filePriorities, input.sequential, map[], input.paused)
  {
  }

  lemma SnapshotKeepsEntry(e: EngineState, id: TorrentID)
    requires id in e.torrents
    ensures var e' := TakeSnapshot(e, id).0;
            && id in e'.torrents && e'.live == e.live && e'.torrents[id].paused == e.torrents[id].paused
            && SameSettings(e.torrents[id], e'.torrents[id])
  {
  }

  // The fields put together.
  lemma AddedFields(st: State, st': State, p: AddParams, reply: AddReply, t: Snapshot)
    requires reply.Accepted?
    requires var id := reply.id;
             && id in st'.engine.torrents && id in st'.engine.live && id in Records(st'.session)
             && id in st'.board.torrents && st'.board.torrents[id] == t
             && var path := if p.savePath == "" then st.config.downloadDirectory else p.savePath;
                var e, r := st'.engine.torrents[id], Records(st'.session)[id];
                && e.savePath == path && e.paused == p.paused && e.sequential == p.sequential && e.addedAt == reply.now
                && e.filePriorities == map[] && e.source == p.source && e.torrent == reply.handle.(serial := e.torrent.serial, own := e.torrent.own)
                && (r.source, r.savePath, r.name, r.addedAt) == (p.source, path, t.name, t.addedAt)
                && r.sequential == p.sequential && r.desired == (if p.paused then Paused else Downloading)
                && r.filePriorities == (if id in Records(st.session) then Records(st.session)[id].filePriorities else None)
                && t.id == id && t.name == reply.handle.name && t.addedAt == reply.now && t.sequential == p.sequential
                && (t.state == Paused <==> p.paused)
    ensures AddedAs(st, st', p, reply)
  {
  }

  // Once its metadata is there and the callback has run, every file of a new
  // torrent is a normal one, with the priority of normal files.
  lemma AddedFilesAreNormal(st: State, p: AddParams, reply: AddReply, f: Store.Fault, undo: RemoveOutcome, h: Sequential.Handle)
    requires Core(st) && Plausible(AddTorrent(p, reply, false, f, undo)) && reply.Accepted? && reply.id !in st.engine.live
    requires AddCommand(st, p, reply, false, f, undo).1
    ensures var st', id := AddCommand(st, p, reply, false, f, undo).0, reply.id;
            && id in st'.engine.torrents
            && (LibraryMove(st'.engine.torrents[id].torrent, h) ==>
                  var known := Perform(Perform(st', Library(id, h)), GotInfo(id, h.serial));
                  && id in known.engine.torrents && |known.engine.torrents[id].torrent.files| == |h.files|
                  && forall i | 0 <= i < |h.files| :: known.engine.torrents[id].torrent.files[i].priority == Sequential.PieceNormal)
  {
    hide Core, AddCommand, Callback, Conceivable;
    AddTakesEffect(st, p, reply, f, undo);
    var st', id := AddCommand(st, p, reply, false, f, undo).0, reply.id;
    if LibraryMove(st'.engine.torrents[id].torrent, h) {
      CallbackSetsPriorities(Perform(st', Library(id, h)).engine, id);
    }
  }

  // A pause or a resume that succeeds is in engine, record, actor and on disk, and
  // the next pass makes its own call; one that cannot be saved leaves record and
  // actor, and the engine in the other run state.
  lemma DesireTakesEffect(st: State, id: TorrentID, paused: bool, f: Store.Fault)
    requires Core(st) && Known(st, id)
    ensures var (st', ok) := SetDesired(st, id, paused, f);
            && (ok <==> Store.Works(st.disk, f))
            && id !in st'.scheduled && Known(st', id) && st'.engine.live == st.engine.live
            && st'.engine.torrents[id].paused == (paused == ok)
            && (ok ==>
                  && Records(st'.session)[id] == Records(st.session)[id].(desired := if paused then Paused else Downloading)
                  && st'.board.torrents[id].state == (if paused then Paused else Downloading)
                  && Store.Committed(st'.disk) == Some(st'.session))
            && (!ok ==> st'.session == st.session && st'.board == st.board)
  {
    hide SetDesired, Store.Works, Store.Committed;
    CoreMeans(st);
    SetDesiredEffect(st, id, paused, f);
    SetDesiredSession(st, id, paused, f);
  }

  // Sequential mode likewise; with metadata the window is the torrent's, or gone.
  lemma SequentialTakesEffect(st: State, id: TorrentID, enabled: bool, f: Store.Fault)
    requires Core(st) && Known(st, id)
    ensures var (st', ok) := SetSequentialFlag(st, id, enabled, f);
            && (ok <==> Store.Works(st.disk, f)) && Known(st', id)
            && (ok ==>
                  && st'.engine.torrents[id].sequential == enabled && st'.board.torrents[id].sequential == enabled
                  && Records(st'.session)[id] == Records(st.session)[id].(sequential := enabled)
                  && Store.Committed(st'.disk) == Some(st'.session)
                  && (st.engine.torrents[id].torrent.pieceLength.Some? ==>
                        st'.engine.torrents[id].torrent.own == Sequential.Window(st.engine.torrents[id].torrent, enabled)))
            && (!ok ==>
                  && st'.session == st.session && st'.board == st.board
                  && st'.engine.torrents[id].sequential == st.board.torrents[id].sequential)
  {
    hide SetSequentialFlag, Store.Works, Store.Committed, Sequential.Window, SetSequential;
    CoreMeans(st);
    SetSequentialEffect(st, id, enabled, f);
    SetSequentialSession(st, id, enabled, f);
    EngineSequentialAt(st.engine, id, enabled, id);
    EngineSequentialAt(SetSequential(st.engine, id, enabled).0, id, st.board.torrents[id].sequential, id);
    if st.engine.torrents[id].torrent.pieceLength.Some? {
      SequentialIsWindow(st.engine, id, enabled);
    }
  }

  lemma SetSequentialSession(st: State, id: TorrentID, enabled: bool, f: Store.Fault)
    requires Store.Valid(st.session)
    ensures (Known(st, id) && Store.Works(st.disk, f)) || SameSession(st, SetSequentialFlag(st, id, enabled, f).0)
  {
    UpdateRecordEffect(st.(engine := SetSequential(st.engine, id, enabled).0), id, Sequence(enabled), f);
  }

  lemma SequentialIsWindow(e: EngineState, id: TorrentID, enabled: bool)
    requires GoodEngine(e) && id in e.torrents && e.torrents[id].torrent.pieceLength.Some?
    ensures var e' := SetSequential(e, id, enabled).0;
            id in e'.torrents && e'.torrents[id].torrent.own == Sequential.Window(e.torrents[id].torrent, enabled)
  {
    hide Sequential.Window;
    Sequential.UpdatedIsWindow(e.torrents[id].(sequential := enabled));
  }

  // ---------------------------------------------------------------- what the actor shows

  // With a right cache no step, whatever fails, parts the pause the user asked
  // for and the pause the actor shows.
  lemma PausesStayShown(st: State, c: Command)
    requires Core(st) && CacheSound(st) && PausesShown(st) && Plausible(c)
    ensures PausesShown(Perform(st, c))
  {
    hide AddCommand, CacheSound, Core, Reconcile, Conceivable, AddedAt;
    forall x ensures PausedAt(Perform(st, c), x) {
      assert PausedAt(st, x);
      match c
      case AddTorrent(p, reply, cut, f, undo) =>
        AddEngineAt(st, p, reply, f, undo, x);
        AddedShowsPause(st, Perform(st, c), p, reply, f, undo, x);
      case Tick => ReconcileAt(st, x);
      case _ => StepAt(st, c, x);
    }
  }

  lemma AddedShowsPause(st: State, st': State, p: AddParams, reply: AddReply, f: Store.Fault, undo: RemoveOutcome, x: TorrentID)
    requires AddedAt(st, st', p, reply, f, undo, x) && PausedAt(st, x)
    ensures PausedAt(st', x)
  {
  }

  // The only step that parts the sequential flags of record, actor and engine:
  // an add that creates a torrent the actor shows in the other mode, cannot
  // record it, and breaks when it takes it out again, so that its entry stays.
  ghost predicate KeepsSequential(st: State, c: Command) {
    c.AddTorrent? && Creates(st, c.params, c.reply) && c.reply.id in st.board.torrents
    && !Recorded(st, c.params, c.reply, c.f) && !TakenBack(st, c.params, c.reply, c.f, c.undo) ==>
      && st.board.torrents[c.reply.id].sequential == c.params.sequential
      && (c.reply.id in Records(st.session) ==> Records(st.session)[c.reply.id].sequential == c.params.sequential)
  }

  lemma SequentialStaysExactly(st: State, c: Command)
    requires Core(st) && SequentialAgrees(st) && Plausible(c)
    ensures SequentialAgrees(Perform(st, c)) <==> KeepsSequential(st, c)
  {
    hide AddCommand, Core, Reconcile, Conceivable, AddedAt, SequentialAt, KeepsSequential;
    forall x ensures SequentialAt(Perform(st, c), x) <==> (c.AddTorrent? && c.reply.Accepted? && x == c.reply.id ==> KeepsSequential(st, c)) {
      assert SequentialAt(st, x);
      match c
      case AddTorrent(p, reply, cut, f, undo) =>
        AddEngineAt(st, p, reply, f, undo, x);
        AddedSequential(st, Perform(st, c), c, x);
      case Tick => ReconcileKeepsSequential(st, x);
      case _ => StepAt(st, c, x);
    }
    if c.AddTorrent? && c.reply.Accepted? {
      assert SequentialAt(Perform(st, c), c.reply.id) <==> KeepsSequential(st, c);
    } else {
      OthersKeepSequential(st, c);
    }
  }

  lemma OthersKeepSequential(st: State, c: Command)
    requires !(c.AddTorrent? && c.reply.Accepted?)
    ensures KeepsSequential(st, c)
  {
  }

  lemma AddedSequential(st: State, st': State, c: Command, x: TorrentID)
    requires c.AddTorrent? && AddedAt(st, st', c.params, c.reply, c.f, c.undo, x) && SequentialAt(st, x)
    ensures SequentialAt(st', x) <==> (c.reply.Accepted? && x == c.reply.id ==> KeepsSequential(st, c))
  {
  }

  // ---------------------------------------------------------------- the two orders

  // The only step on which session and actor part: a removal that got past the
  // record, was refused by the engine, and could not be rolled back on disk.
  predicate LosesRecord(st: State, c: Command) {
    && c.RemoveTorrent?
    && c.id in Records(st.session) && Store.Works(st.disk, c.f)
    && c.g != Store.NoFault
    && (c.id !in st.engine.torrents || !c.outcome.Removed?
        || (c.deleteData && st.engine.torrents[c.id].torrent.pieceLength.None?))
  }

  lemma OrdersStayEqualExactly(st: State, c: Command)
    requires Core(st) && SameOrder(st) && Plausible(c)
    ensures SameOrder(Perform(st, c)) <==> !LosesRecord(st, c)
  {
    hide Core, AddCommand, SetDesired, VerifyCommand, SetSequentialFlag, SetFilePriorityOf, RemoveCommand, MoveCommand, Reconcile;
    match c
    case AddTorrent(p, reply, cut, f, undo) => AddKeepsOrder(st, p, reply, cut, f, undo);
    case PauseTorrent(id, f) => SetDesiredKeepsOrder(st, id, true, f);
    case ResumeTorrent(id, f) => SetDesiredKeepsOrder(st, id, false, f);
    case VerifyTorrent(id, verified, interruption) => VerifyFrame(st, id, verified, interruption);
    case SetSequentialMode(id, enabled, f) => SetSequentialKeepsOrder(st, id, enabled, f);
    case SetPriority(id, index, p, f) => SetPriorityKeepsOrder(st, id, index, p, f);
    case RemoveTorrent(id, deleteData, o, f, g) => RemoveKeepsOrderExactly(st, id, deleteData, o, f, g);
    case MoveTorrent(id, offset, f, g) => MoveEffect(st, id, offset, f, g);
    case Tick => ReconcileKeepsOrders(st);
    case Library(id, h) =>
    case GotInfo(id, serial) =>
  }

  lemma VerifyFrame(st: State, id: TorrentID, verified: bool, interruption: Interruption)
    ensures var st' := VerifyCommand(st, id, verified, interruption).0;
            st'.session == st.session && st'.board == st.board && st'.disk == st.disk && st'.engine.live == st.engine.live
  {
  }

  lemma SetDesiredKeepsOrder(st: State, id: TorrentID, paused: bool, f: Store.Fault)
    requires Core(st) && SameOrder(st)
    ensures SameOrder(SetDesired(st, id, paused, f).0)
  {
    SetDesiredEffect(st, id, paused, f);
  }

  lemma SetSequentialKeepsOrder(st: State, id: TorrentID, enabled: bool, f: Store.Fault)
    requires Core(st) && SameOrder(st)
    ensures SameOrder(SetSequentialFlag(st, id, enabled, f).0)
  {
    SetSequentialEffect(st, id, enabled, f);
  }

  lemma SetPriorityKeepsOrder(st: State, id: TorrentID, index: int, p: FilePriority, f: Store.Fault)
    requires Core(st) && SameOrder(st)
    ensures SameOrder(SetFilePriorityOf(st, id, index, p, f).0)
  {
    SetPriorityFrame(st, id, index, p, f);
  }

  lemma RemoveKeepsOrderExactly(st: State, id: TorrentID, deleteData: bool, o: RemoveOutcome, f: Store.Fault, g: Store.Fault)
    requires Core(st) && SameOrder(st)
    ensures SameOrder(RemoveCommand(st, id, deleteData, o, f, g).0) <==> !LosesRecord(st, RemoveTorrent(id, deleteData, o, f, g))
  {
    hide RemoveCommand;
    RemoveIsAllOrNothing(st, id, deleteData, o, f, g);
    if LosesRecord(st, RemoveTorrent(id, deleteData, o, f, g)) {
      InOrder(st.session, id);
      WithoutElements(Ids(st.session), id);
    }
  }

  lemma ReconcileKeepsOrders(st: State)
    requires Core(st)
    ensures Reconcile(st).session == st.session && Reconcile(st).disk == st.disk
    ensures Reconcile(st).board.order == st.board.order
  {
    PassKeepsGood(st, Listed(st.board), Active(0, 0));
    PassKeepsOrder(st, Listed(st.board), Active(0, 0));
  }

  lemma {:induction false} PassKeepsOrder(st: State, torrents: seq<Snapshot>, active: Active)
    requires Actor.Consistent(st.board)
    requires forall i | 0 <= i < |torrents| :: torrents[i].id in st.board.torrents
    ensures Pass(st, torrents, active).board.order == st.board.order
    decreases |torrents|
  {
    if torrents != [] {
      var (st1, active1) := Schedule(st, torrents[0], active);
      var _ := ScheduleBoard(st, torrents[0], active);
      ScheduleKeepsBoard(st, torrents[0], active);
      PassKeepsOrder(st1, torrents[1..], active1);
    }
  }

  lemma PublishKeepsOrder(st: State, id: TorrentID, p: AddParams, t: Snapshot, f: Store.Fault, undo: RemoveOutcome)
    requires Store.Valid(st.session) && Actor.Consistent(st.board) && SameOrder(st) && t.id == id
    ensures SameOrder(Publish(st, id, p, t, f, undo).0)
  {
    RecordTorrentEffect(st, id, p, t, f);
    InOrder(st.session, id);
    assert id in st.board.order <==> id in Elements(st.board.order);
  }

  lemma AddKeepsOrder(st: State, p: AddParams, reply: AddReply, cut: bool, f: Store.Fault, undo: RemoveOutcome)
    requires Core(st) && SameOrder(st)
    ensures SameOrder(AddCommand(st, p, reply, cut, f, undo).0)
  {
    var params := Completed(st.config, p);
    var (e1, r) := Registry.Add(st.engine, InputOf(params), reply);
    if !r.Failed? && !cut {
      var (e2, t) := TakeSnapshot(e1, r.id);
      if t.Some? && r.Created? {
        PublishKeepsOrder(st.(engine := e2), r.id, params, t.value, f, undo);
      }
    }
  }

  // ---------------------------------------------------------------- paused means paused

  ghost predicate ObeysAt(st: State, id: TorrentID) {
    id in Records(st.session) && Records(st.session)[id].desired == Paused && id in st.engine.torrents && id in st.engine.live ==>
      st.engine.torrents[id].paused
  }

  // Torrents the user wants paused do not run: the library has none of them
  // with an entry that is not paused.
  ghost predicate Obeys(st: State) {
    forall id :: ObeysAt(st, id)
  }

  // The commands that start a torrent the user wants paused: pausing it once
  // more when the record cannot be saved,
  predicate PausesAgainInVain(st: State, c: Command) {
    && c.PauseTorrent?
    && c.id in Records(st.session) && Records(st.session)[c.id].desired == Paused
    && c.id in st.engine.torrents && c.id in st.engine.live && c.id in st.board.torrents
    && !Store.Works(st.disk, c.f)
  }

  // and a failed deletion of an entry the library had forgotten, which adds the
  // torrent back in the run state of that entry.
  predicate RevivesRunning(st: State, c: Command) {
    && c.RemoveTorrent?
    && c.id in Records(st.session) && Records(st.session)[c.id].desired == Paused
    && Store.Works(st.disk, c.f) && c.g == Store.NoFault
    && c.id in st.engine.torrents && c.id !in st.engine.live && !st.engine.torrents[c.id].paused
    && c.deleteData && st.engine.torrents[c.id].torrent.pieceLength.Some?
    && c.outcome.Broken? && c.outcome.restored.Some?
  }

  predicate KeepsPaused(st: State, c: Command) {
    !PausesAgainInVain(st, c) && !RevivesRunning(st, c)
  }

  lemma PausedStaysPausedExactly(st: State, c: Command)
    requires Core(st) && CacheSound(st) && PausesShown(st) && Obeys(st) && Plausible(c)
    ensures Obeys(Perform(st, c)) <==> KeepsPaused(st, c)
  {
    hide Core, CacheSound, PausesShown, Conceivable, Perform;
    if PausesAgainInVain(st, c) {
      VainPauseDisobeys(st, c);
    } else if RevivesRunning(st, c) {
      assert ObeysAt(st, c.id);
      RemoveObeysExactly(st, c, c.id);
    } else {
      forall x ensures ObeysAt(Perform(st, c), x) {
        ObeysStep(st, c, x);
      }
    }
  }

  lemma VainPauseDisobeys(st: State, c: Command)
    requires Core(st) && PausesAgainInVain(st, c)
    ensures !ObeysAt(Perform(st, c), c.id)
  {
    SetDesiredEffect(st, c.id, true, c.f);
  }

  lemma ObeysStep(st: State, c: Command, x: TorrentID)
    requires Core(st) && CacheSound(st) && PausesShown(st) && Obeys(st) && Plausible(c) && KeepsPaused(st, c)
    ensures ObeysAt(Perform(st, c), x)
  {
    hide ObeysAt, PausedAt, AddCommand, SetDesired, VerifyCommand, SetSequentialFlag, SetFilePriorityOf, RemoveCommand, MoveCommand, Reconcile;
    assert ObeysAt(st, x) && PausedAt(st, x);
    match c
    case AddTorrent(p, reply, cut, f, undo) => AddObeys(st, c, x);
    case PauseTorrent(id, f) => SetDesiredObeys(st, id, true, f, x);
    case ResumeTorrent(id, f) => SetDesiredObeys(st, id, false, f, x);
    case VerifyTorrent(id, verified, interruption) => VerifyObeys(st, id, verified, interruption, x);
    case SetSequentialMode(id, enabled, f) => SetSequentialObeys(st, id, enabled, f, x);
    case SetPriority(id, index, p, f) => SetPriorityObeys(st, id, index, p, f, x);
    case RemoveTorrent(id, deleteData, o, f, g) => RemoveObeysExactly(st, c, x);
    case MoveTorrent(id, offset, f, g) => MoveObeys(st, id, offset, f, g, x);
    case Tick => PassPausesThePaused(st, x);
    case Library(id, h) => LibraryObeys(st, id, h, x);
    case GotInfo(id, serial) => CallbackObeys(st, id, serial, x);
  }

  // Whatever happened before, the next pass pauses what should be paused.
  lemma PassPausesThePaused(st: State, x: TorrentID)
    requires Core(st) && CacheSound(st)
    ensures ObeysAt(Reconcile(st), x)
    ensures x in Records(st.session) && Records(st.session)[x].desired == Paused && x in Reconcile(st).engine.torrents ==>
              Reconcile(st).engine.torrents[x].paused
  {
    PassEnforcesPolicy(st);
    if x in Records(st.session) {
      assert Outcome(st, Reconcile(st), x);
    }
  }

  // Verifying keeps the run state of a torrent that is wanted paused.
  lemma VerifyNeverStartsPaused(st: State, id: TorrentID, verified: bool, interruption: Interruption, x: TorrentID)
    requires Core(st) && PausedAt(st, x)
    ensures var st' := VerifyCommand(st, id, verified, interruption).0;
            && st'.session == st.session
            && (x in st.engine.torrents <==> x in st'.engine.torrents)
            && (x in Records(st.session) && x in st.engine.torrents && Records(st.session)[x].desired == Paused ==>
                  && st'.engine.torrents[x].paused == st.engine.torrents[x].paused
                  && (x in st'.scheduled <==> x in st.scheduled))
  {
    var e1 := SetPaused(st.engine, id, true).0;
    var e2 := SetPaused(e1, id, false).0;
    hide GoodEngine, Store.Valid, Actor.Consistent, TakeSnapshot;
    SnapshotAt(st.engine, id, x);
    SnapshotAt(e2, id, x);
    if id in st.board.torrents {
      var st' := VerifyCommand(st, id, verified, interruption).0;
      if st.board.torrents[id].state == Paused {
        assert st'.engine == st.engine || st'.engine == TakeSnapshot(st.engine, id).0;
      } else {
        assert st'.engine == st.engine || st'.engine == e1 || st'.engine == e2 || st'.engine == TakeSnapshot(e2, id).0;
      }
    }
  }

  // Verifying leaves a torrent that is not shown as paused running, whatever it
  // did before, and whether the data was good or not.
  lemma VerifyEffect(st: State, id: TorrentID, verified: bool)
    requires Core(st) && id in st.board.torrents && id in st.engine.torrents
    ensures var (st', ok) := VerifyCommand(st, id, verified, Uninterrupted);
            && (ok <==> verified && st.engine.torrents[id].torrent.pieceLength.Some?)
            && st'.session == st.session && st'.board == st.board && st'.disk == st.disk
            && id in st'.engine.torrents && st'.engine.live == st.engine.live
            && (if st.board.torrents[id].state == Paused then
                  && st'.engine.torrents[id].paused == st.engine.torrents[id].paused
                  && st'.scheduled == st.scheduled
                else
                  && !st'.engine.torrents[id].paused
                  && st'.scheduled == st.scheduled - {id})
  {
    hide Core;
    var e1 := SetPaused(st.engine, id, true).0;
    var e2 := SetPaused(e1, id, false).0;
    SnapshotAt(st.engine, id, id);
    SnapshotAt(e2, id, id);
  }

  // One entry has the given run state, and if verified its window as well.
  ghost predicate Reverified(e: EngineState, e': EngineState, id: TorrentID, paused: bool, done: bool) {
    && id in e.torrents && id in e'.torrents && e' == e.(torrents := e.torrents[id := e'.torrents[id]])
    && var a, b := e.torrents[id], e'.torrents[id];
       && b.paused == paused && SameSettings(a, b)
       && (!done ==> b == a.(paused := paused))
       && (done && a.torrent.pieceLength.Some? ==> b.torrent.own == Sequential.Window(a.torrent, a.sequential))
  }

  // A verification the stop of the daemon cuts short too: cut before the torrent
  // is resumed it leaves it paused, and only a finished one moves its window on.
  lemma VerifyExactly(st: State, id: TorrentID, verified: bool, interruption: Interruption)
    requires Core(st) && id in st.board.torrents && id in st.engine.torrents
    ensures var (st', ok) := VerifyCommand(st, id, verified, interruption);
            var shown := st.board.torrents[id].state == Paused;
            var good := verified && st.engine.torrents[id].torrent.pieceLength.Some?;
            && st' == st.(engine := st'.engine, scheduled := if shown then st.scheduled else st.scheduled - {id})
            && (ok <==> good && interruption == Uninterrupted)
            && Reverified(st.engine, st'.engine, id,
                          if shown then st.engine.torrents[id].paused else good && interruption == BeforeResume, ok)
  {
    hide Core, GoodEngine, VerifyCommand, TakeSnapshot, SetPaused, Reverified;
    var shown := st.board.torrents[id].state == Paused;
    var good := verified && st.engine.torrents[id].torrent.pieceLength.Some?;
    var paused := if shown then st.engine.torrents[id].paused else good && interruption == BeforeResume;
    CoreMeans(st);
    VerifyShape(st, id, verified, interruption, paused);
    PausedAndVerified(st.engine, id, paused);
  }

  lemma PausedAndVerified(e: EngineState, id: TorrentID, paused: bool)
    requires GoodEngine(e) && id in e.torrents
    ensures var e1 := SetPaused(e, id, paused).0;
            Reverified(e, e1, id, paused, false) && Reverified(e, TakeSnapshot(e1, id).0, id, paused, true)
  {
    hide GoodEngine, TakeSnapshot, Sequential.Window;
    SetPausedKeepsGood(e, id, paused);
    SnapshotExactly(SetPaused(e, id, paused).0, id);
  }

  lemma VerifyShape(st: State, id: TorrentID, verified: bool, interruption: Interruption, paused: bool)
    requires id in st.board.torrents && id in st.engine.torrents
    requires var good := verified && st.engine.torrents[id].torrent.pieceLength.Some?;
             paused == if st.board.torrents[id].state == Paused then st.engine.torrents[id].paused else good && interruption == BeforeResume
    ensures var (st', ok) := VerifyCommand(st, id, verified, interruption);
            var e1 := SetPaused(st.engine, id, paused).0;
            && st' == st.(engine := st'.engine,
                          scheduled := if st.board.torrents[id].state == Paused then st.scheduled else st.scheduled - {id})
            && (ok <==> verified && st.engine.torrents[id].torrent.pieceLength.Some? && interruption == Uninterrupted)
            && st'.engine == if ok then TakeSnapshot(e1, id).0 else e1
  {
    hide TakeSnapshot;
    var e := st.engine;
    assert e.torrents[id := e.torrents[id]] == e.torrents;
    assert SetPaused(SetPaused(e, id, true).0, id, false).0 == SetPaused(e, id, false).0;
  }

  lemma SnapshotExactly(e: EngineState, id: TorrentID)
    requires GoodEngine(e) && id in e.torrents
    ensures var (e', t) := TakeSnapshot(e, id);
            && t.Some? && id in e'.torrents && e' == e.(torrents := e.torrents[id := e'.torrents[id]])
            && e'.torrents[id].paused == e.torrents[id].paused && SameSettings(e.torrents[id], e'.torrents[id])
            && (e.torrents[id].torrent.pieceLength.Some? ==>
                  e'.torrents[id].torrent.own == Sequential.Window(e.torrents[id].torrent, e.torrents[id].sequential))
  {
    hide Sequential.Window;
    if e.torrents[id].torrent.pieceLength.Some? {
      Sequential.UpdatedIsWindow(e.torrents[id]);
    }
  }

  // So it ends in the run state it found exactly if the actor shows the torrent
  // as paused, or it ran already.
  lemma VerifyKeepsRunStateExactly(st: State, id: TorrentID, verified: bool)
    requires Core(st) && id in st.board.torrents && id in st.engine.torrents
    ensures var st' := VerifyCommand(st, id, verified, Uninterrupted).0;
            && id in st'.engine.torrents
            && (st'.engine.torrents[id].paused == st.engine.torrents[id].paused <==>
                  st.board.torrents[id].state == Paused || !st.engine.torrents[id].paused)
  {
    hide Core, VerifyCommand;
    VerifyEffect(st, id, verified);
  }

  // The family of states on which it does not: a torrent the pass has queued is
  // started by verifying it, and runs over the limit until the next pass.
  lemma VerifyStartsQueued(st: State, id: TorrentID, verified: bool)
    requires Core(st) && CacheSound(st) && id in st.board.torrents && Eligible(st, id) && !ShouldRun(st, id)
    ensures var queued := Reconcile(st);
            var st' := VerifyCommand(queued, id, verified, Uninterrupted).0;
            && id in queued.board.torrents && queued.board.torrents[id].state == Queued
            && id in queued.engine.torrents && queued.engine.torrents[id].paused
            && RunsIn(st'.engine, id) && (id in st.engine.live <==> id in st'.engine.live)
  {
    hide Reconcile, Core, CacheSound, Full, Turned, Display, VerifyCommand;
    CoreMeans(st);
    PassEnforcesPolicy(st);
    assert Outcome(st, Reconcile(st), id);
    ReconcileKeepsCore(st);
    VerifyEffect(Reconcile(st), id, verified);
  }

  lemma SetPriorityObeys(st: State, id: TorrentID, index: int, p: FilePriority, f: Store.Fault, x: TorrentID)
    requires Store.Valid(st.session) && ObeysAt(st, x)
    ensures ObeysAt(SetFilePriorityOf(st, id, index, p, f).0, x)
  {
    SetPriorityFlags(st, id, index, p, f, x);
    SetPriorityFrame(st, id, index, p, f);
  }

  lemma VerifyObeys(st: State, id: TorrentID, verified: bool, interruption: Interruption, x: TorrentID)
    requires Core(st) && ObeysAt(st, x) && PausedAt(st, x)
    ensures ObeysAt(VerifyCommand(st, id, verified, interruption).0, x)
  {
    VerifyNeverStartsPaused(st, id, verified, interruption, x);
  }

  lemma LibraryObeys(st: State, id: TorrentID, h: Sequential.Handle, x: TorrentID)
    requires ObeysAt(st, x)
    ensures ObeysAt(Perform(st, Library(id, h)), x)
  {
  }

  lemma SetDesiredObeys(st: State, id: TorrentID, paused: bool, f: Store.Fault, x: TorrentID)
    requires Store.Valid(st.session) && ObeysAt(st, x)
    requires paused ==> !PausesAgainInVain(st, PauseTorrent(id, f))
    ensures ObeysAt(SetDesired(st, id, paused, f).0, x)
  {
    SetDesiredEffect(st, id, paused, f);
  }

  lemma MoveObeys(st: State, id: TorrentID, offset: int, f: Store.Fault, g: Store.Fault, x: TorrentID)
    requires Core(st) && ObeysAt(st, x)
    ensures ObeysAt(MoveCommand(st, id, offset, f, g).0, x)
  {
    MoveEffect(st, id, offset, f, g);
  }

  lemma CallbackObeys(st: State, id: TorrentID, serial: nat, x: TorrentID)
    requires ObeysAt(st, x)
    ensures ObeysAt(st.(engine := Callback(st.engine, id, serial)), x)
  {
    assert SameFlags(st.engine, Callback(st.engine, id, serial), x);
  }

  lemma SetSequentialObeys(st: State, id: TorrentID, enabled: bool, f: Store.Fault, x: TorrentID)
    requires Store.Valid(st.session) && ObeysAt(st, x)
    ensures ObeysAt(SetSequentialFlag(st, id, enabled, f).0, x)
  {
    SetSequentialEffect(st, id, enabled, f);
    EngineSequentialAt(st.engine, id, enabled, x);
    if id in st.board.torrents {
      EngineSequentialAt(SetSequential(st.engine, id, enabled).0, id, st.board.torrents[id].sequential, x);
    }
  }

  lemma RemoveObeysExactly(st: State, c: Command, x: TorrentID)
    requires Core(st) && c.RemoveTorrent? && ObeysAt(st, x)
    ensures ObeysAt(Perform(st, c), x) <==> !(RevivesRunning(st, c) && x == c.id)
  {
    hide RemoveCommand, Registry.Remove, Store.Works;
    RemoveIsAllOrNothing(st, c.id, c.deleteData, c.outcome, c.f, c.g);
    RemoveEngineEffect(st, c.id, c.deleteData, c.outcome, c.f, c.g);
    EngineRemoveAt(st.engine, c.id, c.deleteData, c.outcome, x);
    RemoveLeavesLive(st.engine, c.id, c.deleteData, c.outcome);
  }

  // No add starts a torrent whose record says paused.
  lemma AddObeys(st: State, c: Command, x: TorrentID)
    requires Core(st) && c.AddTorrent? && Plausible(c) && ObeysAt(st, x)
    ensures ObeysAt(Perform(st, c), x)
  {
    hide AddCommand;
    AddEngineAt(st, c.params, c.reply, c.f, c.undo, x);
  }

  // ---------------------------------------------------------------- memory and disk

  // A file-priority change that the engine takes and the disk does not: it
  // stays in memory if the record had priorities and this is a new one.
  ghost predicate PriorityOutrunsDisk(st: State, c: Command) {
    && c.SetPriority?
    && c.id in st.board.torrents && c.id in Records(st.session)
    && Prioritizable(st.engine, c.id, c.index)
    && !Store.Works(st.disk, c.f)
    && Records(st.session)[c.id].filePriorities.Some?
    && WithFilePriority(Records(st.session)[c.id], c.index, c.priority) != Records(st.session)[c.id]
  }

  // The commands that get the session of the memory onto the disk.
  predicate Saves(st: State, c: Command) {
    match c
    case AddTorrent(p, reply, cut, f, _) => Creates(st, p, reply) && !cut && Recorded(st, p, reply, f)
    case PauseTorrent(id, f) => Known(st, id) && Store.Works(st.disk, f)
    case ResumeTorrent(id, f) => Known(st, id) && Store.Works(st.disk, f)
    case SetSequentialMode(id, _, f) => Known(st, id) && Store.Works(st.disk, f)
    case SetPriority(id, index, _, f) => Known(st, id) && Prioritizable(st.engine, id, index) && Store.Works(st.disk, f)
    case RemoveTorrent(id, _, _, f, _) => id in Records(st.session) && Store.Works(st.disk, f)
    case MoveTorrent(id, _, f, _) => id in Records(st.session) && Store.Works(st.disk, f)
    case _ => false
  }

  // Actor, engine and session have the torrent.
  predicate Known(st: State, id: TorrentID) {
    id in st.board.torrents && id in st.engine.torrents && id in Records(st.session)
  }

  // What a command did to the disk, given whether it saved.
  ghost predicate Stored(st: State, st': State, saves: bool) {
    Store.Committed(st'.disk) == if saves then Some(st'.session) else Store.Committed(st.disk)
  }

  // The disk after every command, from any state of the disk: the session in
  // memory if the command saves, and otherwise what was there. Without a save
  // memory changes exactly by a file priority that outruns the disk.
  lemma DiskEffect(st: State, c: Command)
    requires Core(st) && Conceivable(c)
    ensures Stored(st, Perform(st, c), Saves(st, c))
    ensures !Saves(st, c) ==> (Perform(st, c).session == st.session <==> !PriorityOutrunsDisk(st, c))
    ensures !Saves(st, c) ==> SameButPriorities(st.session, Perform(st, c).session)
  {
    hide Core, AddCommand, SetDesired, VerifyCommand, SetSequentialFlag, SetFilePriorityOf, RemoveCommand, MoveCommand, Reconcile;
    hide Prioritizable, Conceivable, Known, Stored, SameButPriorities;
    SameSessionSamePriorities(st.session);
    match c
    case AddTorrent(p, reply, cut, f, undo) => AddDisk(st, p, reply, cut, f, undo);
    case PauseTorrent(id, f) => SetDesiredDisk(st, id, true, f);
    case ResumeTorrent(id, f) => SetDesiredDisk(st, id, false, f);
    case VerifyTorrent(id, verified, interruption) =>
      VerifyFrame(st, id, verified, interruption);
      UntouchedDisk(st, Perform(st, c));
    case SetSequentialMode(id, enabled, f) => SetSequentialDisk(st, id, enabled, f);
    case SetPriority(id, index, p, f) => PriorityDisk(st, id, index, p, f);
    case RemoveTorrent(id, deleteData, o, f, g) => RemoveDisk(st, id, deleteData, o, f, g);
    case MoveTorrent(id, offset, f, g) => MoveDisk(st, id, offset, f, g);
    case Tick =>
      ReconcileKeepsOrders(st);
      UntouchedDisk(st, Perform(st, c));
    case Library(id, h) => UntouchedDisk(st, Perform(st, c));
    case GotInfo(id, serial) => UntouchedDisk(st, Perform(st, c));
  }

  lemma SameSessionSamePriorities(s: Session)
    ensures SameButPriorities(s, s)
  {
  }

  lemma UntouchedDisk(st: State, st': State)
    requires st'.disk == st.disk
    ensures Stored(st, st', false)
  {
  }

  lemma RemoveDisk(st: State, id: TorrentID, deleteData: bool, o: RemoveOutcome, f: Store.Fault, g: Store.Fault)
    requires Core(st)
    ensures var st' := RemoveCommand(st, id, deleteData, o, f, g).0;
            var saves := id in Records(st.session) && Store.Works(st.disk, f);
            Stored(st, st', saves) && (!saves ==> SameSession(st, st'))
  {
    hide RemoveCommand, Store.Works, Store.Committed;
    RemoveIsAllOrNothing(st, id, deleteData, o, f, g);
    RemoveKeepsSession(st, id, deleteData, o, f, g);
  }

  lemma MoveDisk(st: State, id: TorrentID, offset: int, f: Store.Fault, g: Store.Fault)
    requires Core(st)
    ensures var st' := MoveCommand(st, id, offset, f, g).0;
            var saves := id in Records(st.session) && Store.Works(st.disk, f);
            Stored(st, st', saves) && (!saves ==> SameSession(st, st'))
  {
    hide MoveCommand, Store.Works, Store.Committed;
    MoveEffect(st, id, offset, f, g);
  }

  lemma SetDesiredDisk(st: State, id: TorrentID, paused: bool, f: Store.Fault)
    requires Core(st)
    ensures var st' := SetDesired(st, id, paused, f).0;
            var saves := Known(st, id) && Store.Works(st.disk, f);
            Stored(st, st', saves) && (!saves ==> SameSession(st, st'))
  {
    hide SetDesired, Store.Works, Store.Committed;
    SetDesiredEffect(st, id, paused, f);
    SetDesiredSession(st, id, paused, f);
  }

  predicate SameSession(st: State, st': State) {
    st'.session == st.session
  }

  lemma SetDesiredSession(st: State, id: TorrentID, paused: bool, f: Store.Fault)
    requires Store.Valid(st.session)
    ensures (Known(st, id) && Store.Works(st.disk, f)) || SameSession(st, SetDesired(st, id, paused, f).0)
  {
    var e1 := SetPaused(st.engine, id, paused).0;
    UpdateRecordEffect(st.(engine := e1, scheduled := st.scheduled - {id}), id, Desire(if paused then Paused else Downloading), f);
  }

  lemma SetSequentialDisk(st: State, id: TorrentID, enabled: bool, f: Store.Fault)
    requires Core(st)
    ensures var st' := SetSequentialFlag(st, id, enabled, f).0;
            var saves := Known(st, id) && Store.Works(st.disk, f);
            Stored(st, st', saves) && (!saves ==> SameSession(st, st'))
  {
    hide Store.Works, Store.Committed;
    SetSequentialEffect(st, id, enabled, f);
    UpdateRecordEffect(st.(engine := SetSequential(st.engine, id, enabled).0), id, Sequence(enabled), f);
  }

  lemma AddDisk(st: State, p: AddParams, reply: AddReply, cut: bool, f: Store.Fault, undo: RemoveOutcome)
    requires Core(st)
    ensures var st' := AddCommand(st, p, reply, cut, f, undo).0;
            var saves := Creates(st, p, reply) && !cut && Recorded(st, p, reply, f);
            Stored(st, st', saves) && (!saves ==> SameSession(st, st'))
  {
    hide Store.Works, Store.Committed, Store.Valid, GoodEngine, Registry.Remove, RecordTorrent, Actor.Consistent;
    CoreMeans(st);
    var params := Completed(st.config, p);
    var (e1, r) := Registry.Add(st.engine, InputOf(params), reply);
    if !r.Failed? && !cut {
      var (e2, t) := TakeSnapshot(e1, r.id);
      if t.Some? {
        RecordTorrentEffect(st.(engine := e2), r.id, params, t.value, f);
      }
    }
  }

  lemma PriorityShape(st: State, id: TorrentID, index: int, p: FilePriority, f: Store.Fault)
    ensures var st' := SetFilePriorityOf(st, id, index, p, f).0;
            var (e1, ok) := Registry.SetFilePriority(st.engine, id, index, p);
            var u := UpdateFilePriority(st.(engine := e1), id, index, p, f).0;
            if id in st.board.torrents && id in Records(st.session) && ok
            then st'.disk == u.disk && st'.session == u.session else st' == st
  {
  }

  lemma PriorityDisk(st: State, id: TorrentID, index: int, p: FilePriority, f: Store.Fault)
    requires Core(st)
    ensures var st' := SetFilePriorityOf(st, id, index, p, f).0;
            var saves := Known(st, id) && Prioritizable(st.engine, id, index) && Store.Works(st.disk, f);
            && Stored(st, st', saves) && SameButPriorities(st.session, st'.session)
            && (!saves ==> (st'.session == st.session <==> !PriorityOutrunsDisk(st, SetPriority(id, index, p, f))))
  {
    hide SetFilePriorityOf, UpdateFilePriority, Registry.SetFilePriority, Store.Works, Store.Committed;
    var e1 := Registry.SetFilePriority(st.engine, id, index, p).0;
    PriorityShape(st, id, index, p, f);
    SetFilePrioritySucceedsExactly(st.engine, id, index, p);
    UpdateFilePriorityEffect(st.(engine := e1), id, index, p, f);
    if id in Records(st.session) {
      SamePriorityExactly(st.session, id, index, p);
    }
  }

  lemma SamePriorityExactly(s: Session, id: TorrentID, index: int, p: FilePriority)
    requires Store.Valid(s) && id in Records(s)
    ensures WithPriorityIn(s, id, index, p) == s <==> WithFilePriority(Records(s)[id], index, p) == Records(s)[id]
  {
    var record := Records(s)[id];
    assert Records(WithPriorityIn(s, id, index, p))[id] == WithFilePriority(record, index, p);
    if WithFilePriority(record, index, p) == record {
      assert Records(s)[id := record] == Records(s);
    }
  }

  // Where disk and memory agree they stay in step through every command but
  // that one.
  lemma DiskFollowsMemoryExactly(st: State, c: Command)
    requires Core(st) && Store.Mirrors(st.disk, st.session) && Conceivable(c)
    ensures var st' := Perform(st, c); Store.Mirrors(st'.disk, st'.session) <==> !PriorityOutrunsDisk(st, c)
  {
    hide Core, Perform, Conceivable, Store.Committed, Store.Mirrors, Prioritizable;
    var st' := Perform(st, c);
    Store.MirrorsIsCommitted(st.disk, st.session);
    Store.MirrorsIsCommitted(st'.disk, st'.session);
    DiskEffect(st, c);
  }

  // Where the disk has no session to offer, as after a start from the backup of
  // a corrupt primary file, the first command that saves brings them together,
  // and nothing else does.
  lemma DiskCatchesUpExactly(st: State, c: Command)
    requires Core(st) && Store.Committed(st.disk).None? && Conceivable(c)
    ensures var st' := Perform(st, c);
            && (Store.Mirrors(st'.disk, st'.session) <==> Saves(st, c))
            && (Store.Committed(st'.disk).None? <==> !Saves(st, c))
  {
    hide Core, Perform, Conceivable, Store.Committed, Store.Mirrors, Saves;
    Store.MirrorsIsCommitted(Perform(st, c).disk, Perform(st, c).session);
    DiskEffect(st, c);
  }

  // A save brings them together from anywhere.
  lemma SavesMirror(st: State, c: Command)
    requires Core(st) && Conceivable(c) && Saves(st, c)
    ensures Store.Mirrors(Perform(st, c).disk, Perform(st, c).session)
  {
    hide Core, Perform, Conceivable, Store.Committed, Store.Mirrors, Saves;
    Store.MirrorsIsCommitted(Perform(st, c).disk, Perform(st, c).session);
    DiskEffect(st, c);
  }

  // And up to file priorities they never part.
  lemma StepKeepsMirrored(st: State, c: Command)
    requires Core(st) && Mirrored(st) && Conceivable(c)
    ensures Mirrored(Perform(st, c))
  {
    hide Core, Perform, Conceivable, Store.Committed, Saves;
    DiskEffect(st, c);
    if !Saves(st, c) {
      SameTransitive(Store.Committed(st.disk).value, st.session, Perform(st, c).session);
    }
  }

  // ---------------------------------------------------------------- orphans

  // The only step that leaves the library a torrent without a record: a removal
  // that loses the record and does not get as far as to drop the torrent, or
  // adds it back.
  ghost predicate Orphans(st: State, c: Command) {
    LosesRecord(st, c) && LeavesLive(st.engine, c.id, c.deleteData, c.outcome)
  }

  ghost predicate NoOrphanAt(st: State, id: TorrentID) {
    id in st.engine.live ==> id in Records(st.session)
  }

  lemma NoOrphansStayExactly(st: State, c: Command)
    requires Core(st) && NoOrphans(st) && Plausible(c)
    ensures NoOrphans(Perform(st, c)) <==> !Orphans(st, c)
  {
    hide Core, Perform, Conceivable, Orphans;
    forall id ensures NoOrphanAt(st, id) {}
    forall id ensures NoOrphanAt(Perform(st, c), id) <==> !(c.RemoveTorrent? && c.id == id && Orphans(st, c)) {
      NoOrphanStep(st, c, id);
    }
    if Orphans(st, c) {
      OnlyRemovalsOrphan(st, c);
      assert !NoOrphanAt(Perform(st, c), c.id);
    } else {
      forall id | id in Perform(st, c).engine.live ensures id in Records(Perform(st, c).session) {
        assert NoOrphanAt(Perform(st, c), id);
      }
    }
  }

  lemma OnlyRemovalsOrphan(st: State, c: Command)
    requires Orphans(st, c)
    ensures c.RemoveTorrent?
  {
  }

  // What becomes of one the actor does not show either: every command on it
  // fails without effect.
  lemma OrphanRefusesCommands(st: State, c: Command)
    requires Core(st) && !c.AddTorrent? && !c.Tick? && !c.Library? && !c.GotInfo? && c.id !in st.board.torrents
    ensures Perform(st, c) == st
  {
    hide Store.Valid, GoodEngine, Actor.Consistent, Registry.Remove, Commit;
    assert c.id !in Records(st.session).Keys;
    CoreMeans(st);
    InOrder(st.session, c.id);
  }

  // Adding it again succeeds without recording it.
  lemma OrphanStaysUnrecorded(st: State, p: AddParams, reply: AddReply, f: Store.Fault, undo: RemoveOutcome)
    requires Core(st) && Plausible(AddTorrent(p, reply, false, f, undo))
    requires reply.Accepted? && reply.id in st.engine.live && Completed(st.config, p).savePath != ""
    ensures var (st', ok) := AddCommand(st, p, reply, false, f, undo);
            ok && st'.session == st.session && st'.board == st.board
  {
    hide Core, TakeSnapshot, Publish;
    AddSucceedsExactly(st, p, reply, false, f, undo);
  }

  // And the pass leaves it alone.
  lemma OrphanIsPassedOver(st: State, id: TorrentID)
    requires Core(st) && CacheSound(st) && id !in st.board.torrents
    ensures Untouched(st, Reconcile(st), id)
  {
    hide Reconcile, Outcome, Untouched;
    PassEnforcesPolicy(st);
  }

  lemma NoOrphanStep(st: State, c: Command, x: TorrentID)
    requires Core(st) && Plausible(c) && NoOrphanAt(st, x)
    ensures NoOrphanAt(Perform(st, c), x) <==> !(c.RemoveTorrent? && c.id == x && Orphans(st, c))
  {
    hide Core, AddCommand, RemoveCommand, Conceivable;
    match c
    case AddTorrent(p, reply, cut, f, undo) => AddEngineAt(st, p, reply, f, undo, x);
    case RemoveTorrent(id, deleteData, o, f, g) => RemoveOrphans(st, c, x);
    case _ => KeysStay(st, c);
  }

  lemma RemoveOrphans(st: State, c: Command, x: TorrentID)
    requires Core(st) && c.RemoveTorrent? && NoOrphanAt(st, x)
    ensures NoOrphanAt(Perform(st, c), x) <==> !(c.id == x && Orphans(st, c))
  {
    hide RemoveCommand, Core, Store.Works;
    var st' := Perform(st, c);
    RemoveIsAllOrNothing(st, c.id, c.deleteData, c.outcome, c.f, c.g);
    RemoveEngineEffect(st, c.id, c.deleteData, c.outcome, c.f, c.g);
    CoreMeans(st);
    EngineRemoveAt(st.engine, c.id, c.deleteData, c.outcome, x);
    RemoveLeavesLive(st.engine, c.id, c.deleteData, c.outcome);
  }

  ghost predicate SameKeys(st: State, st': State) {
    && st'.engine.torrents.Keys == st.engine.torrents.Keys && st'.engine.live == st.engine.live
    && Records(st'.session).Keys == Records(st.session).Keys
  }

  // No other command adds or drops a torrent, in the engine or in the session.
  lemma KeysStay(st: State, c: Command)
    requires Core(st) && !c.AddTorrent? && !c.RemoveTorrent?
    ensures SameKeys(st, Perform(st, c))
  {
    hide Core, SameKeys, SetDesired, VerifyCommand, SetSequentialFlag, SetFilePriorityOf, MoveCommand, Reconcile, Callback;
    match c
    case PauseTorrent(id, f) => SetDesiredKeys(st, id, true, f);
    case ResumeTorrent(id, f) => SetDesiredKeys(st, id, false, f);
    case VerifyTorrent(id, verified, interruption) => VerifyKeys(st, id, verified, interruption);
    case SetSequentialMode(id, enabled, f) => SetSequentialKeys(st, id, enabled, f);
    case SetPriority(id, index, p, f) => SetPriorityKeys(st, id, index, p, f);
    case MoveTorrent(id, offset, f, g) => MoveKeys(st, id, offset, f, g);
    case Tick => ReconcileKeys(st);
    case Library(id, h) => LibraryKeys(st, id, h);
    case GotInfo(id, serial) => CallbackKeys(st, id, serial);
  }

  lemma SetDesiredKeys(st: State, id: TorrentID, paused: bool, f: Store.Fault)
    requires Core(st)
    ensures SameKeys(st, SetDesired(st, id, paused, f).0)
  {
    hide SetDesired;
    SetDesiredEffect(st, id, paused, f);
  }

  lemma SetSequentialKeys(st: State, id: TorrentID, enabled: bool, f: Store.Fault)
    requires Core(st)
    ensures SameKeys(st, SetSequentialFlag(st, id, enabled, f).0)
  {
    hide SetSequentialFlag;
    SetSequentialEffect(st, id, enabled, f);
  }

  lemma MoveKeys(st: State, id: TorrentID, offset: int, f: Store.Fault, g: Store.Fault)
    requires Core(st)
    ensures SameKeys(st, MoveCommand(st, id, offset, f, g).0)
  {
    hide MoveCommand;
    MoveEffect(st, id, offset, f, g);
  }

  lemma LibraryKeys(st: State, id: TorrentID, h: Sequential.Handle)
    ensures SameKeys(st, Perform(st, Library(id, h)))
  {
  }

  lemma CallbackKeys(st: State, id: TorrentID, serial: nat)
    ensures SameKeys(st, st.(engine := Callback(st.engine, id, serial)))
  {
  }

  lemma VerifyKeys(st: State, id: TorrentID, verified: bool, interruption: Interruption)
    ensures SameKeys(st, VerifyCommand(st, id, verified, interruption).0)
  {
    hide VerifyCommand;
    forall x ensures x in VerifyCommand(st, id, verified, interruption).0.engine.torrents <==> x in st.engine.torrents {
      VerifyFlags(st, id, verified, interruption, x);
    }
    VerifyFrame(st, id, verified, interruption);
  }

  lemma EnginePriorityKeys(e: EngineState, id: TorrentID, index: int, p: FilePriority)
    ensures var e' := Registry.SetFilePriority(e, id, index, p).0;
            e'.torrents.Keys == e.torrents.Keys && e'.live == e.live
  {
  }

  lemma SetPriorityKeys(st: State, id: TorrentID, index: int, p: FilePriority, f: Store.Fault)
    requires Core(st)
    ensures SameKeys(st, SetFilePriorityOf(st, id, index, p, f).0)
  {
    hide SetFilePriorityOf, Registry.SetFilePriority;
    CoreMeans(st);
    SetPriorityFrame(st, id, index, p, f);
    var e1 := Registry.SetFilePriority(st.engine, id, index, p).0;
    EnginePriorityKeys(st.engine, id, index, p);
    if q :| SetFilePriorityOf(st, id, index, p, f).0.engine == Registry.SetFilePriority(e1, id, index, q).0 {
      EnginePriorityKeys(e1, id, index, q);
    }
  }

  lemma {:induction false} PassKeepsKeys(st: State, torrents: seq<Snapshot>, active: Active)
    ensures Pass(st, torrents, active).engine.torrents.Keys == st.engine.torrents.Keys
    ensures Pass(st, torrents, active).engine.live == st.engine.live
    decreases |torrents|
  {
    hide Schedule;
    if torrents != [] {
      var (st1, active1) := Schedule(st, torrents[0], active);
      TurnIgnoresOthers(st, torrents[0], active, torrents[0].id);
      PassKeepsKeys(st1, torrents[1..], active1);
    }
  }

  lemma ReconcileKeys(st: State)
    requires Core(st)
    ensures SameKeys(st, Reconcile(st))
  {
    ReconcileKeepsOrders(st);
    PassKeepsKeys(st, Listed(st.board), Active(0, 0));
  }

  // ---------------------------------------------------------------- moving

  // Torrents other than x and y keep their turn, and either these two do as
  // well, or y takes the turn of x.
  ghost predicate ExchangesAtMost(a: State, b: State, x: TorrentID, y: TorrentID) {
    && (forall z | z != x && z != y :: ShouldRun(a, z) <==> ShouldRun(b, z))
    && (|| (ShouldRun(a, x) == ShouldRun(b, x) && ShouldRun(a, y) == ShouldRun(b, y))
        || (ShouldRun(a, x) && !ShouldRun(a, y) && !ShouldRun(b, x) && ShouldRun(b, y)))
  }

  // x comes right before y in the actor's order.
  ghost predicate Neighbours(st: State, x: TorrentID, y: TorrentID) {
    exists i :: 0 <= i < |st.board.order| - 1 && st.board.order[i] == x && st.board.order[i + 1] == y
  }

  // Moving a torrent one place keeps the records and moves it the same way in
  // both orders.
  lemma MoveKeepsContents(st: State, id: TorrentID, offset: int, f: Store.Fault, g: Store.Fault)
    requires Core(st) && SameOrder(st)
    ensures var (st', ok) := MoveCommand(st, id, offset, f, g);
            && Store.Valid(st'.session) && Records(st'.session) == Records(st.session)
            && multiset(Ids(st'.session)) == multiset(Ids(st.session))
            && SameOrder(st')
            && (ok <==> id in Records(st.session) && Store.Works(st.disk, f))
  {
    MoveEffect(st, id, offset, f, g);
    Actor.ShiftedKeepsElements(Ids(st.session), id, offset);
  }

  // What a move leaves of the state: the same records, and the old order of the
  // actor or the shifted one.
  ghost predicate Moved(st: State, st': State, id: TorrentID, offset: int) {
    && Actor.Consistent(st.board) && Actor.Consistent(st'.board)
    && st' == st.(session := st'.session, disk := st'.disk, board := st'.board)
    && Records(st'.session) == Records(st.session)
    && (st'.board == st.board || st'.board == st.board.(order := Actor.Shifted(st.board.order, id, offset)))
  }

  lemma MoveMoves(st: State, id: TorrentID, offset: int, f: Store.Fault, g: Store.Fault)
    requires Core(st)
    ensures Moved(st, MoveCommand(st, id, offset, f, g).0, id, offset)
  {
    MoveEffect(st, id, offset, f, g);
    MoveKeepsCore(st, id, offset, f, g);
  }

  lemma MovedExchangesAtMost(st: State, st': State, id: TorrentID, offset: int) returns (x: TorrentID, y: TorrentID)
    requires Moved(st, st', id, offset) && (offset == -1 || offset == 1)
    ensures ExchangesAtMost(st, st', x, y)
    ensures x == y == id || (id == (if offset == 1 then x else y) && Neighbours(st, x, y))
  {
    var i := Actor.Position(st.board.order, id);
    if st'.board != st.board && i < |st.board.order| && 0 <= i + offset < |st.board.order| {
      var low := if offset == 1 then i else i - 1;
      x, y := st.board.order[low], st.board.order[low + 1];
      ShiftIsSwap(st.board.order, id, offset);
      MovedState(st, st', low);
    } else {
      x, y := id, id;
      assert st'.board == st.board;
      SameTurns(st, st');
    }
  }

  // And it changes who should run by at most exchanging the torrent with the
  // neighbour it passes.
  lemma MoveExchangesAtMost(st: State, id: TorrentID, offset: int, f: Store.Fault, g: Store.Fault)
    returns (x: TorrentID, y: TorrentID)
    requires Core(st) && (offset == -1 || offset == 1)
    ensures ExchangesAtMost(st, MoveCommand(st, id, offset, f, g).0, x, y)
    ensures x == y == id || (id == (if offset == 1 then x else y) && Neighbours(st, x, y))
  {
    MoveMoves(st, id, offset, f, g);
    x, y := MovedExchangesAtMost(st, MoveCommand(st, id, offset, f, g).0, id, offset);
  }

  lemma ShiftIsSwap(s: seq<TorrentID>, x: TorrentID, offset: int)
    requires (offset == -1 || offset == 1) && Actor.Position(s, x) < |s|
    requires 0 <= Actor.Position(s, x) + offset < |s|
    ensures var i := Actor.Position(s, x);
            var low := if offset == 1 then i else i - 1;
            Actor.Shifted(s, x, offset) == Actor.Swapped(s, low, low + 1)
  {
  }

  lemma MovedState(st: State, st': State, low: nat)
    requires Actor.Consistent(st.board) && Actor.Consistent(st'.board) && low + 1 < |st.board.order|
    requires st' == st.(session := st'.session, disk := st'.disk, board := st'.board)
    requires Records(st'.session) == Records(st.session)
    requires st'.board == st.board.(order := Actor.Swapped(st.board.order, low, low + 1))
    ensures ExchangesAtMost(st, st', st.board.order[low], st.board.order[low + 1])
  {
    assert SameCandidates(st, st');
    SwapExchangesAtMost(st, st', low);
  }

  lemma SameTurns(st: State, st': State)
    requires st' == st.(session := st'.session, disk := st'.disk)
    requires Records(st'.session) == Records(st.session)
    ensures forall z :: ShouldRun(st, z) <==> ShouldRun(st', z)
  {
    assert SameCandidates(st, st');
    forall z ensures ShouldRun(st, z) <==> ShouldRun(st', z) {
      ShouldRunSame(st, st', z);
    }
  }

  // ---------------------------------------------------------------- file priorities

  lemma EnginePriorityEffect(e: EngineState, id: TorrentID, index: int, p: FilePriority)
    requires Prioritizable(e, id, index)
    ensures var e' := Registry.SetFilePriority(e, id, index, p).0;
            && id in e'.torrents
            && e'.torrents[id].filePriorities == e.torrents[id].filePriorities[index := p]
            && e'.torrents[id].torrent.files == WithPriority(e.torrents[id].torrent, index, PieceOf(p)).files
            && e'.torrents[id].torrent.pieceLength == e.torrents[id].torrent.pieceLength
  {
  }

  // When a change succeeds; then it is in the record, in the engine and on disk.
  lemma SetPriorityTakesEffect(st: State, id: TorrentID, index: int, p: FilePriority, f: Store.Fault)
    requires Core(st)
    ensures var (st', ok) := SetFilePriorityOf(st, id, index, p, f);
            && (ok <==> Known(st, id) && Prioritizable(st.engine, id, index) && Store.Works(st.disk, f))
            && (ok ==>
                  && FilePriorityOf(st'.session, id, index) == Some(p)
                  && Store.Committed(st'.disk) == Some(st'.session)
                  && id in st'.engine.torrents && 0 <= index < |st'.engine.torrents[id].torrent.files|
                  && index in st'.engine.torrents[id].filePriorities && st'.engine.torrents[id].filePriorities[index] == p
                  && var piece := st'.engine.torrents[id].torrent.files[index].priority;
                     && (p == Skip ==> piece == Sequential.PieceNone)
                     && (p == High ==> piece == Sequential.PieceHigh)
                     && (p != Skip && p != High ==> piece == Sequential.PieceNormal))
            && (ok ==> OthersKeepPriorities(st, st', id, index))
  {
    hide Registry.SetFilePriority, UpdateFilePriority, WithPriorityIn, FilePriorityOf, Core, GoodEngine, Store.Valid;
    hide Store.Works, Store.Committed, OthersKeepPriorities, SameButPriorities;
    CoreMeans(st);
    assert FilePriorityOf(st.session, id, index).Some? <==> id in Records(st.session) by {
      KnownHasPriority(st.session, id, index);
    }
    var e1 := Registry.SetFilePriority(st.engine, id, index, p).0;
    SetFilePrioritySucceedsExactly(st.engine, id, index, p);
    UpdateFilePriorityEffect(st.(engine := e1), id, index, p, f);
    if Prioritizable(st.engine, id, index) {
      EnginePriorityEffect(st.engine, id, index, p);
      if id in Records(st.session) {
        PriorityIsRecorded(st.session, id, index, p);
        if SetFilePriorityOf(st, id, index, p, f).1 {
          PriorityKeepsOthers(st, SetFilePriorityOf(st, id, index, p, f).0, id, index, p);
        }
      }
    }
  }

  // Nothing changes for other files, in engine and record, nor for other torrents.
  ghost predicate OthersKeepPriorities(st: State, st': State, id: TorrentID, index: int) {
    OtherEntriesStay(st.engine, st'.engine, id, index) && OtherPrioritiesStay(st.session, st'.session, id, index)
  }

  ghost predicate OtherEntriesStay(e: EngineState, e': EngineState, id: TorrentID, index: int) {
    && id in e.torrents && id in e'.torrents
    && (forall x | x in e.torrents && x != id :: x in e'.torrents && e'.torrents[x] == e.torrents[x])
    && var a, b := e.torrents[id], e'.torrents[id];
       && |b.torrent.files| == |a.torrent.files|
       && (forall k | 0 <= k < |a.torrent.files| && k != index :: b.torrent.files[k] == a.torrent.files[k])
       && forall k: nat | k != index :: SavedPriority(b.filePriorities, k) == SavedPriority(a.filePriorities, k)
  }

  ghost predicate OtherPrioritiesStay(s: Session, s': Session, id: TorrentID, index: int) {
    && (forall k | 0 <= k <= Decimal.MaxInt && 0 <= index <= Decimal.MaxInt && k != index ::
          FilePriorityOf(s', id, k) == FilePriorityOf(s, id, k))
    && forall x | x in Records(s) && x != id :: x in Records(s') && Records(s')[x] == Records(s)[x]
  }

  lemma PriorityKeepsOthers(st: State, st': State, id: TorrentID, index: int, p: FilePriority)
    requires id in Records(st.session) && Prioritizable(st.engine, id, index)
    requires st'.engine == Registry.SetFilePriority(st.engine, id, index, p).0
    requires st'.session == WithPriorityIn(st.session, id, index, p)
    ensures OthersKeepPriorities(st, st', id, index)
  {
    hide Registry.SetFilePriority, WithPriorityIn, OtherEntriesStay, OtherPrioritiesStay;
    EngineKeepsOthers(st.engine, id, index, p);
    SessionKeepsOthers(st.session, id, index, p);
  }

  lemma EngineKeepsOthers(e: EngineState, id: TorrentID, index: int, p: FilePriority)
    requires Prioritizable(e, id, index)
    ensures OtherEntriesStay(e, Registry.SetFilePriority(e, id, index, p).0, id, index)
  {
    EnginePriorityEffect(e, id, index, p);
  }

  lemma SessionKeepsOthers(s: Session, id: TorrentID, index: int, p: FilePriority)
    requires id in Records(s)
    ensures OtherPrioritiesStay(s, WithPriorityIn(s, id, index, p), id, index)
  {
    hide Decimal.Format, Decimal.Parse;
    forall k | 0 <= k <= Decimal.MaxInt && 0 <= index <= Decimal.MaxInt && k != index
      ensures FilePriorityOf(WithPriorityIn(s, id, index, p), id, k) == FilePriorityOf(s, id, k)
    {
      Decimal.ParseFormat(k);
      Decimal.ParseFormat(index);
    }
  }

  lemma GrantsExactly(p: FilePriority, piece: Sequential.PiecePriority)
    ensures Grants(p, piece) <==> piece == PieceOf(p)
  {
  }

  lemma KnownHasPriority(s: Session, id: TorrentID, index: int)
    ensures FilePriorityOf(s, id, index).Some? <==> id in Records(s)
  {
  }

  lemma PriorityIsRecorded(s: Session, id: TorrentID, index: int, p: FilePriority)
    requires id in Records(s)
    ensures FilePriorityOf(WithPriorityIn(s, id, index, p), id, index) == Some(p)
  {
  }

  // A change the disk refuses is undone in the engine with the priority of the
  // record: the files are as before exactly if the file had that priority, and
  // the saved priorities exactly if the engine had saved it.
  lemma FailedPriorityIsUndoneExactly(st: State, id: TorrentID, index: int, p: FilePriority, f: Store.Fault)
    requires Core(st) && Known(st, id) && Prioritizable(st.engine, id, index) && !Store.Works(st.disk, f)
    ensures FilePriorityOf(st.session, id, index).Some?
    ensures var previous := FilePriorityOf(st.session, id, index).value;
            var (st', ok) := SetFilePriorityOf(st, id, index, p, f);
            var a := st.engine.torrents[id];
            && !ok && id in st'.engine.torrents
            && var b := st'.engine.torrents[id];
               && (b.torrent.files == a.torrent.files <==> Grants(previous, a.torrent.files[index].priority))
               && ((forall i: nat :: SavedPriority(b.filePriorities, i) == SavedPriority(a.filePriorities, i))
                   <==> SavedPriority(a.filePriorities, index) == previous)
  {
    hide SetFilePriorityOf, FilePriorityOf, Store.Works;
    SetFilePrioritySucceedsExactly(st.engine, id, index, p);
    FailedPriorityShape(st, id, index, p, f);
    GrantsExactly(FilePriorityOf(st.session, id, index).value, st.engine.torrents[id].torrent.files[index].priority);
    PriorityAndBack(st.engine, id, index, p, FilePriorityOf(st.session, id, index).value);
  }

  // Setting a file's priority and then another one.
  lemma PriorityAndBack(e: EngineState, id: TorrentID, index: int, p: FilePriority, q: FilePriority)
    requires Prioritizable(e, id, index)
    ensures var e2 := Registry.SetFilePriority(Registry.SetFilePriority(e, id, index, p).0, id, index, q).0;
            && id in e2.torrents
            && var a, b := e.torrents[id], e2.torrents[id];
               && (b.torrent.files == a.torrent.files <==> a.torrent.files[index].priority == PieceOf(q))
               && ((forall i: nat :: SavedPriority(b.filePriorities, i) == SavedPriority(a.filePriorities, i))
                   <==> SavedPriority(a.filePriorities, index) == q)
  {
    EntryPriorityAndBack(e.torrents[id], index, p, q);
  }

  lemma EntryPriorityAndBack(e: Sequential.Entry, index: nat, p: FilePriority, q: FilePriority)
    requires index < |e.torrent.files|
    ensures var back := Prioritized(Prioritized(e, index, p), index, q);
            && (back.torrent.files == e.torrent.files <==> e.torrent.files[index].priority == PieceOf(q))
            && ((forall i: nat :: SavedPriority(back.filePriorities, i) == SavedPriority(e.filePriorities, i))
                <==> SavedPriority(e.filePriorities, index) == q)
  {
    hide Prioritized, PieceOf;
    var back := Prioritized(Prioritized(e, index, p), index, q);
    PrioritizedFiles(e, index, p);
    PrioritizedFiles(Prioritized(e, index, p), index, q);
    assert back.torrent.files[index].priority == PieceOf(q);
    assert SavedPriority(back.filePriorities, index) == q;
  }

  lemma PrioritizedFiles(e: Sequential.Entry, index: nat, p: FilePriority)
    requires index < |e.torrent.files|
    ensures Prioritized(e, index, p).torrent.files == e.torrent.files[index := e.torrent.files[index].(priority := PieceOf(p))]
  {
  }

  lemma FailedPriorityShape(st: State, id: TorrentID, index: int, p: FilePriority, f: Store.Fault)
    requires Core(st) && id in st.board.torrents && id in Records(st.session) && !Store.Works(st.disk, f)
    requires Registry.SetFilePriority(st.engine, id, index, p).1
    ensures FilePriorityOf(st.session, id, index).Some?
    ensures var (st', ok) := SetFilePriorityOf(st, id, index, p, f);
            var e1 := Registry.SetFilePriority(st.engine, id, index, p).0;
            && !ok
            && st'.engine == Registry.SetFilePriority(e1, id, index, FilePriorityOf(st.session, id, index).value).0
  {
    UpdateFilePriorityEffect(st.(engine := Registry.SetFilePriority(st.engine, id, index, p).0), id, index, p, f);
  }

  // ---------------------------------------------------------------- whole runs

  // The conditions of single steps, as far as they need a name of their own.
  ghost predicate KeepsObedience(st: State, c: Command) {
    KeepsCache(st, c) && KeepsPaused(st, c)
  }

  ghost predicate KeepsRecord(st: State, c: Command) {
    !LosesRecord(st, c)
  }

  ghost predicate KeepsMirror(st: State, c: Command) {
    !PriorityOutrunsDisk(st, c)
  }

  ghost predicate KeepsEngineInSession(st: State, c: Command) {
    !Orphans(st, c)
  }

  ghost predicate SavesNothing(st: State, c: Command) {
    !Saves(st, c)
  }

  // Some step saves, and from then on no file priority outruns the disk.
  ghost predicate SavedSince(st: State, commands: seq<Command>)
    decreases |commands|
  {
    && commands != []
    && var next := Perform(st, commands[0]);
       || (Saves(st, commands[0]) && Always(KeepsMirror, next, commands[1..]))
       || SavedSince(next, commands[1..])
  }

  // What a run keeps: each promise that holds at its start, for as long as the
  // steps meet its condition.
  ghost predicate KeepsPromises(st: State, commands: seq<Command>, end: State) {
    && Core(end)
    && (CacheSound(st) && Always(KeepsCache, st, commands) ==> CacheSound(end))
    && (CacheSound(st) && PausesShown(st) && Always(KeepsCache, st, commands) ==> PausesShown(end))
    && (CacheSound(st) && PausesShown(st) && Obeys(st) && Always(KeepsObedience, st, commands) ==> Obeys(end))
    && (SequentialAgrees(st) && Always(KeepsSequential, st, commands) ==> SequentialAgrees(end))
    && (SameOrder(st) && Always(KeepsRecord, st, commands) ==> SameOrder(end))
    && (NoOrphans(st) && Always(KeepsEngineInSession, st, commands) ==> NoOrphans(end))
  }

  // And what it does to the disk.
  ghost predicate KeepsDisk(st: State, commands: seq<Command>, end: State) {
    && (Mirrored(st) ==> Mirrored(end))
    && (Store.Mirrors(st.disk, st.session) && Always(KeepsMirror, st, commands) ==> Store.Mirrors(end.disk, end.session))
    && (SavedSince(st, commands) ==> Store.Mirrors(end.disk, end.session))
    && (Store.Committed(st.disk).None? && Always(KeepsMirror, st, commands) ==>
          (Store.Mirrors(end.disk, end.session) <==> !Always(SavesNothing, st, commands)))
  }

  lemma EveryRun(st: State, commands: seq<Command>)
    requires Core(st) && forall i | 0 <= i < |commands| :: Plausible(commands[i])
    ensures KeepsPromises(st, commands, Play(st, commands))
  {
    hide Core, CacheSound, PausesShown, SequentialAgrees, SameOrder, Obeys, NoOrphans, Plausible, Perform, Play, Always;
    RunsKeepCore(st, commands);
    if CacheSound(st) && Always(KeepsCache, st, commands) {
      RunKeepsCache(st, commands);
    }
    if CacheSound(st) && PausesShown(st) && Always(KeepsCache, st, commands) {
      RunShowsPauses(st, commands);
    }
    if CacheSound(st) && PausesShown(st) && Obeys(st) && Always(KeepsObedience, st, commands) {
      RunObeys(st, commands);
    }
    if SequentialAgrees(st) && Always(KeepsSequential, st, commands) {
      RunKeepsSequential(st, commands);
    }
    if SameOrder(st) && Always(KeepsRecord, st, commands) {
      RunKeepsOrder(st, commands);
    }
    if NoOrphans(st) && Always(KeepsEngineInSession, st, commands) {
      RunKeepsEngineInSession(st, commands);
    }
  }

  lemma EveryRunKeepsDisk(st: State, commands: seq<Command>)
    requires Core(st) && forall i | 0 <= i < |commands| :: Plausible(commands[i])
    ensures KeepsDisk(st, commands, Play(st, commands))
  {
    hide Core, Mirrored, Store.Mirrors, Store.Committed, Plausible, Perform, Play, Always, SavedSince;
    if Mirrored(st) {
      RunKeepsMirrored(st, commands);
    }
    if Store.Mirrors(st.disk, st.session) && Always(KeepsMirror, st, commands) {
      RunKeepsMirror(st, commands);
    }
    if SavedSince(st, commands) {
      RunCatchesUp(st, commands);
    }
    if Store.Committed(st.disk).None? && Always(KeepsMirror, st, commands) {
      RunCatchesUpExactly(st, commands);
    }
  }

  // The last command, which the stop of the daemon may cut short: whatever it
  // leaves in engine and actor is gone, and session and disk are as after any
  // other command. So the next start finds what the session was.
  lemma LastCommandKeepsSession(st: State, last: Command)
    requires Core(st) && Conceivable(last)
    ensures var end := Perform(st, last);
            && Store.Valid(end.session) && Stored(st, end, Saves(st, last))
            && (Mirrored(st) ==> Mirrored(end))
            && (Store.Mirrors(st.disk, st.session) ==>
                  (Store.Mirrors(end.disk, end.session) <==> !PriorityOutrunsDisk(st, last)))
            && (Store.Mirrors(end.disk, end.session) && end.disk.primary.Some? ==>
                  Store.Load(end.disk, Store.NoFault) == (end.disk, Some(end.session)))
  {
    hide Core, Perform, Conceivable, Store.Mirrors, Mirrored, Stored, Saves, PriorityOutrunsDisk;
    var end := Perform(st, last);
    StepKeepsCore(st, last);
    CoreMeans(end);
    DiskEffect(st, last);
    if Mirrored(st) {
      StepKeepsMirrored(st, last);
    }
    if Store.Mirrors(st.disk, st.session) {
      DiskFollowsMemoryExactly(st, last);
    }
    if Store.Mirrors(end.disk, end.session) {
      Store.LoadAfterRun(end.disk, end.session);
    }
  }

  // So from any such state, over every run that leaves no orphan and keeps the
  // cache right, the next pass holds the whole engine to its limits.
  lemma EngineObeysLimitsOverRuns(st: State, commands: seq<Command>)
    requires Core(st) && CacheSound(st) && NoOrphans(st)
    requires Always(KeepsCache, st, commands) && Always(KeepsEngineInSession, st, commands)
    requires forall i | 0 <= i < |commands| :: Plausible(commands[i])
    ensures WithinLimits(Play(st, commands), Reconcile(Play(st, commands)))
  {
    hide Reconcile, Plausible, Perform, Always, CacheSound, NoOrphans;
    RunsKeepCore(st, commands);
    RunKeepsCache(st, commands);
    RunKeepsEngineInSession(st, commands);
    CoreMeans(Play(st, commands));
    EngineObeysLimits(Play(st, commands));
  }

  lemma RunKeepsEngineInSession(st: State, commands: seq<Command>)
    requires Core(st) && NoOrphans(st) && Always(KeepsEngineInSession, st, commands)
    requires forall i | 0 <= i < |commands| :: Plausible(commands[i])
    ensures NoOrphans(Play(st, commands))
  {
    hide Core, NoOrphans, Plausible, Perform, Orphans;
    var kept := (s: State) => Core(s) && NoOrphans(s);
    forall s, c | kept(s) && Plausible(c) && KeepsEngineInSession(s, c) ensures kept(Perform(s, c)) {
      PlausibleIsConceivable(c);
      StepKeepsCore(s, c);
      NoOrphansStayExactly(s, c);
    }
    RunsKeep(kept, KeepsEngineInSession, st, commands);
  }

  lemma {:induction false} RunKeepsMirrored(st: State, commands: seq<Command>)
    requires Core(st) && Mirrored(st)
    requires forall i | 0 <= i < |commands| :: Plausible(commands[i])
    ensures Mirrored(Play(st, commands))
    decreases |commands|
  {
    hide Core, Mirrored, Plausible, Perform;
    if commands != [] {
      PlausibleIsConceivable(commands[0]);
      StepKeepsCore(st, commands[0]);
      StepKeepsMirrored(st, commands[0]);
      RunKeepsMirrored(Perform(st, commands[0]), commands[1..]);
    }
  }

  lemma {:induction false} RunCatchesUp(st: State, commands: seq<Command>)
    requires Core(st) && SavedSince(st, commands)
    requires forall i | 0 <= i < |commands| :: Plausible(commands[i])
    ensures Store.Mirrors(Play(st, commands).disk, Play(st, commands).session)
    decreases |commands|
  {
    hide Core, Plausible, Perform, Saves, KeepsMirror, Store.Mirrors;
    var next := Perform(st, commands[0]);
    PlausibleIsConceivable(commands[0]);
    StepKeepsCore(st, commands[0]);
    if Saves(st, commands[0]) && Always(KeepsMirror, next, commands[1..]) {
      SavesMirror(st, commands[0]);
      RunKeepsMirror(next, commands[1..]);
    } else {
      RunCatchesUp(next, commands[1..]);
    }
  }

  // From a disk without a session to offer: it agrees with memory at the end
  // exactly if some step saved.
  lemma {:induction false} RunCatchesUpExactly(st: State, commands: seq<Command>)
    requires Core(st) && Store.Committed(st.disk).None? && Always(KeepsMirror, st, commands)
    requires forall i | 0 <= i < |commands| :: Plausible(commands[i])
    ensures Store.Mirrors(Play(st, commands).disk, Play(st, commands).session) <==> !Always(SavesNothing, st, commands)
    decreases |commands|
  {
    hide Core, Plausible, Perform, Saves, KeepsMirror, Store.Mirrors, Store.Committed;
    if commands == [] {
      Store.MirrorsIsCommitted(st.disk, st.session);
    } else {
      var next := Perform(st, commands[0]);
      PlausibleIsConceivable(commands[0]);
      StepKeepsCore(st, commands[0]);
      DiskCatchesUpExactly(st, commands[0]);
      if Saves(st, commands[0]) {
        RunKeepsMirror(next, commands[1..]);
      } else {
        RunCatchesUpExactly(next, commands[1..]);
      }
    }
  }

  lemma RunKeepsCache(st: State, commands: seq<Command>)
    requires Core(st) && CacheSound(st) && Always(KeepsCache, st, commands)
    requires forall i | 0 <= i < |commands| :: Plausible(commands[i])
    ensures CacheSound(Play(st, commands))
  {
    hide Core, CacheSound, Plausible, Perform, KeepsCache;
    var kept := (s: State) => Core(s) && CacheSound(s);
    forall s, c | kept(s) && Plausible(c) && KeepsCache(s, c) ensures kept(Perform(s, c)) {
      PlausibleIsConceivable(c);
      StepKeepsCore(s, c);
      CacheStaysSoundExactly(s, c);
    }
    RunsKeep(kept, KeepsCache, st, commands);
  }

  lemma RunShowsPauses(st: State, commands: seq<Command>)
    requires Core(st) && CacheSound(st) && PausesShown(st) && Always(KeepsCache, st, commands)
    requires forall i | 0 <= i < |commands| :: Plausible(commands[i])
    ensures PausesShown(Play(st, commands))
  {
    hide Core, CacheSound, PausesShown, Plausible, Perform, KeepsCache;
    var kept := (s: State) => Core(s) && CacheSound(s) && PausesShown(s);
    forall s, c | kept(s) && Plausible(c) && KeepsCache(s, c) ensures kept(Perform(s, c)) {
      PlausibleIsConceivable(c);
      StepKeepsCore(s, c);
      CacheStaysSoundExactly(s, c);
      PausesStayShown(s, c);
    }
    RunsKeep(kept, KeepsCache, st, commands);
  }

  lemma PlausibleIsConceivable(c: Command)
    requires Plausible(c)
    ensures Conceivable(c)
  {
  }

  lemma RunObeys(st: State, commands: seq<Command>)
    requires Core(st) && CacheSound(st) && PausesShown(st) && Obeys(st) && Always(KeepsObedience, st, commands)
    requires forall i | 0 <= i < |commands| :: Plausible(commands[i])
    ensures Obeys(Play(st, commands))
  {
    hide Core, CacheSound, PausesShown, Obeys, Plausible, Perform, KeepsCache, KeepsPaused;
    var kept := (s: State) => Core(s) && CacheSound(s) && PausesShown(s) && Obeys(s);
    forall s, c | kept(s) && Plausible(c) && KeepsObedience(s, c) ensures kept(Perform(s, c)) {
      PlausibleIsConceivable(c);
      StepKeepsCore(s, c);
      CacheStaysSoundExactly(s, c);
      PausesStayShown(s, c);
      PausedStaysPausedExactly(s, c);
    }
    RunsKeep(kept, KeepsObedience, st, commands);
  }

  lemma RunKeepsSequential(st: State, commands: seq<Command>)
    requires Core(st) && SequentialAgrees(st) && Always(KeepsSequential, st, commands)
    requires forall i | 0 <= i < |commands| :: Plausible(commands[i])
    ensures SequentialAgrees(Play(st, commands))
  {
    hide Core, SequentialAgrees, Plausible, Perform, KeepsSequential;
    var kept := (s: State) => Core(s) && SequentialAgrees(s);
    forall s, c | kept(s) && Plausible(c) && KeepsSequential(s, c) ensures kept(Perform(s, c)) {
      PlausibleIsConceivable(c);
      StepKeepsCore(s, c);
      SequentialStaysExactly(s, c);
    }
    RunsKeep(kept, KeepsSequential, st, commands);
  }

  lemma RunKeepsOrder(st: State, commands: seq<Command>)
    requires Core(st) && SameOrder(st) && Always(KeepsRecord, st, commands)
    requires forall i | 0 <= i < |commands| :: Plausible(commands[i])
    ensures SameOrder(Play(st, commands))
  {
    hide Core, SameOrder, Plausible, Perform, LosesRecord;
    var kept := (s: State) => Core(s) && SameOrder(s);
    forall s, c | kept(s) && Plausible(c) && KeepsRecord(s, c) ensures kept(Perform(s, c)) {
      PlausibleIsConceivable(c);
      StepKeepsCore(s, c);
      OrdersStayEqualExactly(s, c);
    }
    RunsKeep(kept, KeepsRecord, st, commands);
  }

  lemma RunKeepsMirror(st: State, commands: seq<Command>)
    requires Core(st) && Store.Mirrors(st.disk, st.session) && Always(KeepsMirror, st, commands)
    requires forall i | 0 <= i < |commands| :: Plausible(commands[i])
    ensures Store.Mirrors(Play(st, commands).disk, Play(st, commands).session)
  {
    hide Core, Store.Mirrors, Plausible, Perform, PriorityOutrunsDisk;
    var kept := (s: State) => Core(s) && Store.Mirrors(s.disk, s.session);
    forall s, c | kept(s) && Plausible(c) && KeepsMirror(s, c) ensures kept(Perform(s, c)) {
      PlausibleIsConceivable(c);
      StepKeepsCore(s, c);
      DiskFollowsMemoryExactly(s, c);
    }
    RunsKeep(kept, KeepsMirror, st, commands);
  }
}
