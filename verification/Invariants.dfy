/** What every command and every pass keep, and what whole runs keep. */
module Invariants {
  import opened Model
  import opened Control
  import opened Registry
  import opened Scheduling
  import opened Sessions
  import Actor
  import Sequential
  import Store

  // ---------------------------------------------------------------- invariants

  // Holds after every command, whatever fails.
  ghost predicate Core(st: State) {
    && Store.Valid(st.session)
    && Actor.Consistent(st.board)
    && Records(st.session).Keys <= st.board.torrents.Keys
    && GoodEngine(st.engine)
  }

  lemma CoreMeans(st: State)
    requires Core(st)
    ensures Store.Valid(st.session) && Actor.Consistent(st.board) && GoodEngine(st.engine)
    ensures Records(st.session).Keys <= st.board.torrents.Keys
  {
  }

  // The cache is right about the torrent.
  ghost predicate CachedAt(st: State, id: TorrentID) {
    id in st.scheduled ==> id in st.engine.torrents && st.engine.torrents[id].paused == !st.scheduled[id]
  }

  // The user asked for a pause exactly if the actor shows one.
  ghost predicate PausedAt(st: State, id: TorrentID) {
    id in Records(st.session) && id in st.board.torrents ==>
      (Records(st.session)[id].desired == Paused <==> st.board.torrents[id].state == Paused)
  }

  // Record, actor and engine agree on sequential mode.
  ghost predicate SequentialAt(st: State, id: TorrentID) {
    id in st.engine.torrents && id in st.board.torrents ==>
      && st.board.torrents[id].sequential == st.engine.torrents[id].sequential
      && (id in Records(st.session) ==> Records(st.session)[id].sequential == st.engine.torrents[id].sequential)
  }

  // For every torrent the actor shows the pause the user asked for.
  ghost predicate PausesShown(st: State) {
    forall id :: PausedAt(st, id)
  }

  // For every torrent record, actor and engine agree on sequential mode.
  ghost predicate SequentialAgrees(st: State) {
    forall id :: SequentialAt(st, id)
  }

  lemma CacheSoundAt(st: State)
    ensures CacheSound(st) <==> forall id :: CachedAt(st, id)
  {
    if forall id :: CachedAt(st, id) {
      forall id | id in st.scheduled ensures CachedAt(st, id) {}
    }
  }

  // A step keeps what holds of the torrent.
  ghost predicate KeptAt(st: State, st': State, id: TorrentID) {
    && (CachedAt(st, id) ==> CachedAt(st', id))
    && (PausedAt(st, id) ==> PausedAt(st', id))
    && (SequentialAt(st, id) ==> SequentialAt(st', id))
  }

  ghost predicate SameOrder(st: State) {
    st.board.order == Ids(st.session)
  }

  // What the library and the operating system can do: a new handle has no
  // boosts, and nothing refuses to undo an add.
  ghost predicate Conceivable(c: Command) {
    match c
    case AddTorrent(_, reply, _, _, undo) =>
      && (reply.Accepted? ==> reply.handle.own == map[])
      && !undo.Refused?
      && (undo.Broken? && undo.restored.Some? ==> undo.restored.value.own == map[])
    case RemoveTorrent(_, _, o, _, _) => o.Broken? && o.restored.Some? ==> o.restored.value.own == map[]
    case _ => true
  }

  // The daemon is not stopped during the command. Without data to delete nothing
  // but the stop refuses the removal of a torrent the engine has.
  predicate GoesOn(c: Command) {
    match c
    case AddTorrent(_, _, cut, _, _) => !cut
    case VerifyTorrent(_, _, interruption) => interruption == Uninterrupted
    case RemoveTorrent(_, deleteData, o, _, _) => deleteData || !o.Refused?
    case _ => true
  }

  // A step of a run: what can happen while the daemon goes on.
  ghost predicate Plausible(c: Command) {
    Conceivable(c) && GoesOn(c)
  }

  // The engine's view of a torrent, as far as the daemon's promises go.
  ghost predicate SameFlags(e: EngineState, e': EngineState, x: TorrentID) {
    && (x in e.live <==> x in e'.live)
    && (x in e.torrents <==> x in e'.torrents)
    && (x in e.torrents ==> e'.torrents[x].paused == e.torrents[x].paused
                            && e'.torrents[x].sequential == e.torrents[x].sequential)
  }

  lemma SameFlagsKept(st: State, st': State, x: TorrentID)
    requires SameFlags(st.engine, st'.engine, x)
    requires st'.board == st.board && st'.scheduled == st.scheduled
    requires SameButPriorities(st.session, st'.session)
    ensures KeptAt(st, st', x)
  {
  }

  // ---------------------------------------------------------------- pause and resume

  lemma SetDesiredKeepsCore(st: State, id: TorrentID, paused: bool, f: Store.Fault)
    requires Core(st)
    ensures Core(SetDesired(st, id, paused, f).0)
  {
    var (e1, ok) := SetPaused(st.engine, id, paused);
    if id in st.board.torrents && ok {
      var state := if paused then Paused else Downloading;
      var mid := st.(engine := e1, scheduled := st.scheduled - {id});
      UpdateRecordEffect(mid, id, Desire(state), f);
      SetPausedKeepsGood(st.engine, id, paused);
      SetPausedKeepsGood(e1, id, !paused);
      Actor.PutKeepsConsistent(st.board, st.board.torrents[id].(state := state));
    }
  }

  // The three ways a pause or a resume ends: refused, saved, rolled back. A
  // rolled-back pause leaves the torrent running, a rolled-back resume paused.
  lemma SetDesiredEffect(st: State, id: TorrentID, paused: bool, f: Store.Fault)
    requires Store.Valid(st.session)
    ensures var (st', ok) := SetDesired(st, id, paused, f);
            var state := if paused then Paused else Downloading;
            var saved := id in Records(st.session) && Store.Works(st.disk, f);
            if id !in st.board.torrents || id !in st.engine.torrents then st' == st && !ok
            else
              && ok == saved
              && st'.config == st.config && st'.scheduled == st.scheduled - {id}
              && st'.engine == SetPaused(st.engine, id, if saved then paused else !paused).0
              && st'.board == (if saved then Actor.Put(st.board, st.board.torrents[id].(state := state)) else st.board)
              && Records(st'.session) == (if saved then Records(st.session)[id := Records(st.session)[id].(desired := state)]
                                          else Records(st.session))
              && Ids(st'.session) == Ids(st.session)
              && Store.Committed(st'.disk) == if saved then Some(st'.session) else Store.Committed(st.disk)
  {
    var e1 := SetPaused(st.engine, id, paused).0;
    UpdateRecordEffect(st.(engine := e1, scheduled := st.scheduled - {id}), id,
                       Desire(if paused then Paused else Downloading), f);
    assert id in st.engine.torrents ==> SetPaused(e1, id, !paused).0 == SetPaused(st.engine, id, !paused).0 by {
      if id in st.engine.torrents {
        PutTwice(st.engine.torrents, id, e1.torrents[id], st.engine.torrents[id].(paused := !paused));
      }
    }
  }

  lemma SetDesiredAt(st: State, id: TorrentID, paused: bool, f: Store.Fault, x: TorrentID)
    requires Store.Valid(st.session) && Actor.Consistent(st.board)
    ensures KeptAt(st, SetDesired(st, id, paused, f).0, x)
  {
    SetDesiredEffect(st, id, paused, f);
    var st' := SetDesired(st, id, paused, f).0;
    assert id in st.board.torrents ==> st.board.torrents[id].id == id;
    assert x != id ==> SameFlags(st.engine, st'.engine, x);
  }

  // ---------------------------------------------------------------- verify

  lemma VerifyKeepsCore(st: State, id: TorrentID, verified: bool, interruption: Interruption)
    requires Core(st)
    ensures Core(VerifyCommand(st, id, verified, interruption).0)
  {
    hide GoodEngine, TakeSnapshot, Store.Valid, Actor.Consistent;
    SetPausedKeepsGood(st.engine, id, true);
    var e1 := SetPaused(st.engine, id, true).0;
    SetPausedKeepsGood(e1, id, false);
    SnapshotKeepsGood(st.engine, id);
    SnapshotKeepsGood(SetPaused(e1, id, false).0, id);
  }

  lemma SnapshotAt(e: EngineState, id: TorrentID, x: TorrentID)
    ensures SameFlags(e, TakeSnapshot(e, id).0, x)
  {
  }

  // Only the run state of the torrent changes, and then it is not cached.
  lemma VerifyFlags(st: State, id: TorrentID, verified: bool, interruption: Interruption, x: TorrentID)
    ensures var st' := VerifyCommand(st, id, verified, interruption).0;
            && st'.session == st.session && st'.board == st.board
            && (x in st'.engine.torrents <==> x in st.engine.torrents)
            && (x in st.engine.torrents ==> st'.engine.torrents[x].sequential == st.engine.torrents[x].sequential)
            && (x in st'.scheduled ==> x in st.scheduled && st'.scheduled[x] == st.scheduled[x])
            && (x in st'.scheduled && x in st.engine.torrents ==> st'.engine.torrents[x].paused == st.engine.torrents[x].paused)
  {
    hide TakeSnapshot;
    SnapshotAt(st.engine, id, x);
    SnapshotAt(SetPaused(SetPaused(st.engine, id, true).0, id, false).0, id, x);
  }

  lemma VerifyAt(st: State, id: TorrentID, verified: bool, interruption: Interruption, x: TorrentID)
    ensures KeptAt(st, VerifyCommand(st, id, verified, interruption).0, x)
  {
    hide VerifyCommand;
    VerifyFlags(st, id, verified, interruption, x);
  }

  // ---------------------------------------------------------------- sequential mode

  lemma SetSequentialKeepsCore(st: State, id: TorrentID, enabled: bool, f: Store.Fault)
    requires Core(st)
    ensures Core(SetSequentialFlag(st, id, enabled, f).0)
  {
    var (e1, ok) := SetSequential(st.engine, id, enabled);
    if id in st.board.torrents && ok {
      var t := st.board.torrents[id];
      UpdateRecordEffect(st.(engine := e1), id, Sequence(enabled), f);
      SetSequentialKeepsGood(st.engine, id, enabled);
      SetSequentialKeepsGood(e1, id, t.sequential);
      Actor.PutKeepsConsistent(st.board, t.(sequential := enabled));
    }
  }

  lemma SetSequentialEffect(st: State, id: TorrentID, enabled: bool, f: Store.Fault)
    requires Store.Valid(st.session)
    ensures var (st', ok) := SetSequentialFlag(st, id, enabled, f);
            var saved := id in Records(st.session) && Store.Works(st.disk, f);
            if id !in st.board.torrents || id !in st.engine.torrents then st' == st && !ok
            else
              var t := st.board.torrents[id];
              var e1 := SetSequential(st.engine, id, enabled).0;
              && ok == saved
              && st'.config == st.config && st'.scheduled == st.scheduled
              && st'.engine == (if saved then e1 else SetSequential(e1, id, t.sequential).0)
              && st'.board == (if saved then Actor.Put(st.board, t.(sequential := enabled)) else st.board)
              && Records(st'.session) == (if saved then Records(st.session)[id := Records(st.session)[id].(sequential := enabled)]
                                          else Records(st.session))
              && Ids(st'.session) == Ids(st.session)
              && Store.Committed(st'.disk) == if saved then Some(st'.session) else Store.Committed(st.disk)
  {
    UpdateRecordEffect(st.(engine := SetSequential(st.engine, id, enabled).0), id, Sequence(enabled), f);
  }

  lemma EngineSequentialAt(e: EngineState, id: TorrentID, enabled: bool, x: TorrentID)
    ensures var e' := SetSequential(e, id, enabled).0;
            && (x in e.live <==> x in e'.live) && (x in e.torrents <==> x in e'.torrents)
            && (x in e.torrents ==> e'.torrents[x].paused == e.torrents[x].paused
                                    && e'.torrents[x].sequential == if x == id then enabled else e.torrents[x].sequential)
  {
  }

  lemma SetSequentialAt(st: State, id: TorrentID, enabled: bool, f: Store.Fault, x: TorrentID)
    requires Store.Valid(st.session) && Actor.Consistent(st.board)
    ensures KeptAt(st, SetSequentialFlag(st, id, enabled, f).0, x)
  {
    hide SetSequentialFlag, SetSequential, Store.Works, Store.Committed;
    SetSequentialEffect(st, id, enabled, f);
    EngineSequentialAt(st.engine, id, enabled, x);
    if id in st.board.torrents {
      EngineSequentialAt(SetSequential(st.engine, id, enabled).0, id, st.board.torrents[id].sequential, x);
    }
  }

  // ---------------------------------------------------------------- file priorities

  lemma EnginePriorityAt(e: EngineState, id: TorrentID, index: int, p: FilePriority, x: TorrentID)
    ensures SameFlags(e, Registry.SetFilePriority(e, id, index, p).0, x)
  {
  }

  // Neither actor nor cache changes, nor the session but for priorities, and
  // the engine takes one of three states.
  lemma SetPriorityFrame(st: State, id: TorrentID, index: int, p: FilePriority, f: Store.Fault)
    requires Store.Valid(st.session)
    ensures var st' := SetFilePriorityOf(st, id, index, p, f).0;
            var e1 := Registry.SetFilePriority(st.engine, id, index, p).0;
            && st'.board == st.board && st'.scheduled == st.scheduled
            && SameButPriorities(st.session, st'.session) && Store.Valid(st'.session)
            && (st'.engine == st.engine || st'.engine == e1
                || exists q :: st'.engine == Registry.SetFilePriority(e1, id, index, q).0)
  {
    hide Registry.SetFilePriority, UpdateFilePriority, FilePriorityOf;
    UpdateFilePriorityEffect(st.(engine := Registry.SetFilePriority(st.engine, id, index, p).0), id, index, p, f);
  }

  lemma SetPriorityKeepsCore(st: State, id: TorrentID, index: int, p: FilePriority, f: Store.Fault)
    requires Core(st)
    ensures Core(SetFilePriorityOf(st, id, index, p, f).0)
  {
    var st' := SetFilePriorityOf(st, id, index, p, f).0;
    var e1 := Registry.SetFilePriority(st.engine, id, index, p).0;
    SetPriorityFrame(st, id, index, p, f);
    SetFilePriorityKeepsGood(st.engine, id, index, p);
    if q :| st'.engine == Registry.SetFilePriority(e1, id, index, q).0 {
      SetFilePriorityKeepsGood(e1, id, index, q);
    }
  }

  lemma SetPriorityFlags(st: State, id: TorrentID, index: int, p: FilePriority, f: Store.Fault, x: TorrentID)
    requires Store.Valid(st.session)
    ensures SameFlags(st.engine, SetFilePriorityOf(st, id, index, p, f).0.engine, x)
  {
    var st' := SetFilePriorityOf(st, id, index, p, f).0;
    var e1 := Registry.SetFilePriority(st.engine, id, index, p).0;
    SetPriorityFrame(st, id, index, p, f);
    EnginePriorityAt(st.engine, id, index, p, x);
    if q :| st'.engine == Registry.SetFilePriority(e1, id, index, q).0 {
      EnginePriorityAt(e1, id, index, q, x);
    }
  }

  lemma SetPriorityAt(st: State, id: TorrentID, index: int, p: FilePriority, f: Store.Fault, x: TorrentID)
    requires Store.Valid(st.session)
    ensures KeptAt(st, SetFilePriorityOf(st, id, index, p, f).0, x)
  {
    SetPriorityFlags(st, id, index, p, f, x);
    SetPriorityFrame(st, id, index, p, f);
    SameFlagsKept(st, SetFilePriorityOf(st, id, index, p, f).0, x);
  }

  // ---------------------------------------------------------------- remove

  lemma EngineRemoveAt(e: EngineState, id: TorrentID, deleteData: bool, o: RemoveOutcome, x: TorrentID)
    requires GoodEngine(e)
    ensures var (e', ok) := Registry.Remove(e, id, deleteData, o);
            && (x != id ==> SameFlags(e, e', x))
            && (ok ==> id in e.torrents && e' == EngineState(e.torrents - {id}, e.live - {id}, e.serials))
            && (!ok ==> e'.torrents.Keys == e.torrents.Keys)
  {
    hide AddBack, GoodEntry;
  }

  // A removal that fails leaves all entries but this one alone, and this one its
  // settings, whether the client still runs the torrent or not. Unless it breaks
  // after the drop it changes nothing.
  ghost predicate Spared(e: EngineState, e': EngineState, id: TorrentID) {
    && e'.torrents.Keys == e.torrents.Keys
    && (forall x | x in e.torrents && x != id :: e'.torrents[x] == e.torrents[x])
    && (id in e.torrents ==>
          var a, b := e.torrents[id], e'.torrents[id];
          && (b.paused, b.sequential, b.filePriorities, b.savePath) == (a.paused, a.sequential, a.filePriorities, a.savePath)
          && (b.source, b.addedAt) == (a.source, a.addedAt))
  }

  lemma FailedRemoveSpares(e: EngineState, id: TorrentID, deleteData: bool, o: RemoveOutcome)
    ensures var (e', ok) := Registry.Remove(e, id, deleteData, o);
            !ok ==> Spared(e, e', id) && (!o.Broken? ==> e' == e)
  {
    hide AddBack;
  }

  // Whether the client runs the torrent after a removal.
  predicate LeavesLive(e: EngineState, id: TorrentID, deleteData: bool, o: RemoveOutcome) {
    && id in e.torrents
    && if o.Refused? || (deleteData && e.torrents[id].torrent.pieceLength.None?) then id in e.live
       else deleteData && o.Broken? && o.restored.Some?
  }

  lemma RemoveLeavesLive(e: EngineState, id: TorrentID, deleteData: bool, o: RemoveOutcome)
    requires GoodEngine(e)
    ensures id in Registry.Remove(e, id, deleteData, o).0.live <==> LeavesLive(e, id, deleteData, o)
  {
    hide AddBack, GoodEntry;
  }

  lemma WithdrawEffect(st: State, previous: Session, id: TorrentID, deleteData: bool, o: RemoveOutcome, g: Store.Fault)
    requires GoodEngine(st.engine) && Store.Valid(previous) && st.disk.primary.Some?
    ensures var (st', ok) := Withdraw(st, previous, id, deleteData, o, g);
            var (e2, removed) := Registry.Remove(st.engine, id, deleteData, o);
            && ok == (removed && id in st.board.torrents)
            && st'.config == st.config && st'.engine == e2
            && (removed ==>
                  && st'.session == st.session && st'.disk == st.disk
                  && st'.scheduled == st.scheduled - {id}
                  && st'.board == Actor.Delete(st.board, id).0)
            && (!removed ==>
                  && st'.board == st.board && st'.scheduled == st.scheduled
                  && st'.session == (if g == Store.NoFault then previous else st.session)
                  && (g == Store.NoFault ==> Store.Committed(st'.disk) == Some(previous))
                  && (g != Store.NoFault ==> Store.Committed(st'.disk) == Store.Committed(st.disk)))
  {
    CommitEffect(st.(engine := Registry.Remove(st.engine, id, deleteData, o).0), previous, g);
  }

  // Does the command get as far as the engine?
  ghost predicate RecordGoes(st: State, id: TorrentID, f: Store.Fault) {
    id in Records(st.session) && Store.Works(st.disk, f)
  }

  // The command gives up at the record, or withdraws the torrent.
  lemma RemoveShape(st: State, id: TorrentID, deleteData: bool, o: RemoveOutcome, f: Store.Fault, g: Store.Fault)
    requires Core(st)
    ensures RemoveRecord(st, id, f).1 <==> RecordGoes(st, id, f)
    ensures var st1 := RemoveRecord(st, id, f).0;
            && OnlySession(st, st1)
            && (RecordGoes(st, id, f) ==>
                  && RemoveCommand(st, id, deleteData, o, f, g) == Withdraw(st1, st.session, id, deleteData, o, g)
                  && st1.disk.primary.Some?
                  && Records(st1.session) == Records(st.session) - {id} && Ids(st1.session) == Without(Ids(st.session), id))
            && (!RecordGoes(st, id, f) ==> RemoveCommand(st, id, deleteData, o, f, g) == (st1, false) && st1.session == st.session)
  {
    RemoveRecordEffect(st, id, f);
    if RecordGoes(st, id, f) {
      CloneIsValidUnlessEmpty(st.session);
      InOrder(st.session, id);
    }
  }

  // Either everything about the torrent goes, or, if the save that rolls back
  // succeeds, the session comes back as it was and actor and cache never changed.
  lemma RemoveIsAllOrNothing(st: State, id: TorrentID, deleteData: bool, o: RemoveOutcome, f: Store.Fault, g: Store.Fault)
    requires Core(st)
    ensures var (st', ok) := RemoveCommand(st, id, deleteData, o, f, g);
            && (ok <==> RecordGoes(st, id, f) && Removable(st.engine, id, deleteData, o))
            && st'.config == st.config
            && (ok ==>
                  && Records(st'.session) == Records(st.session) - {id}
                  && Ids(st'.session) == Without(Ids(st.session), id)
                  && st'.engine == EngineState(st.engine.torrents - {id}, st.engine.live - {id}, st.engine.serials)
                  && st'.scheduled == st.scheduled - {id}
                  && st'.board == Actor.Board(st.board.torrents - {id}, Without(st.board.order, id)))
            && (!ok ==>
                  && st'.board == st.board && st'.scheduled == st.scheduled
                  && Spared(st.engine, st'.engine, id) && (!o.Broken? || !RecordGoes(st, id, f) ==> st'.engine == st.engine)
                  && (RecordGoes(st, id, f) && g != Store.NoFault ==>
                        Records(st'.session) == Records(st.session) - {id} && Ids(st'.session) == Without(Ids(st.session), id))
                  && (!RecordGoes(st, id, f) || g == Store.NoFault ==> st'.session == st.session))
  {
    hide RemoveCommand, Withdraw, RemoveRecord, Registry.Remove, Spared;
    RemoveShape(st, id, deleteData, o, f, g);
    RemoveSucceedsExactly(st.engine, id, deleteData, o);
    SparedItself(st.engine, id);
    if RecordGoes(st, id, f) {
      WithdrawEffect(RemoveRecord(st, id, f).0, st.session, id, deleteData, o, g);
      EngineRemoveAt(st.engine, id, deleteData, o, id);
      FailedRemoveSpares(st.engine, id, deleteData, o);
    }
  }

  lemma SparedItself(e: EngineState, id: TorrentID)
    ensures Spared(e, e, id)
  {
  }

  // What a removal does to the engine, whatever becomes of it.
  lemma RemoveEngineEffect(st: State, id: TorrentID, deleteData: bool, o: RemoveOutcome, f: Store.Fault, g: Store.Fault)
    requires Core(st)
    ensures RemoveCommand(st, id, deleteData, o, f, g).0.engine
            == if RecordGoes(st, id, f) then Registry.Remove(st.engine, id, deleteData, o).0 else st.engine
  {
    hide RemoveCommand, Withdraw, RemoveRecord, Registry.Remove;
    RemoveShape(st, id, deleteData, o, f, g);
    if RecordGoes(st, id, f) {
      WithdrawEffect(RemoveRecord(st, id, f).0, st.session, id, deleteData, o, g);
    }
  }

  lemma RemoveKeepsSession(st: State, id: TorrentID, deleteData: bool, o: RemoveOutcome, f: Store.Fault, g: Store.Fault)
    requires Core(st)
    ensures var st' := RemoveCommand(st, id, deleteData, o, f, g).0;
            && Store.Valid(st'.session)
            && Store.Committed(st'.disk) == if RecordGoes(st, id, f) then Some(st'.session) else Store.Committed(st.disk)
  {
    RemoveRecordEffect(st, id, f);
    if RecordGoes(st, id, f) {
      CloneIsValidUnlessEmpty(st.session);
      InOrder(st.session, id);
      WithdrawEffect(RemoveRecord(st, id, f).0, CloneSession(st.session), id, deleteData, o, g);
    }
  }

  lemma RemoveKeepsCore(st: State, id: TorrentID, deleteData: bool, o: RemoveOutcome, f: Store.Fault, g: Store.Fault)
    requires Core(st) && Conceivable(RemoveTorrent(id, deleteData, o, f, g))
    ensures Core(RemoveCommand(st, id, deleteData, o, f, g).0)
  {
    RemoveIsAllOrNothing(st, id, deleteData, o, f, g);
    RemoveEngineEffect(st, id, deleteData, o, f, g);
    RemoveKeepsSession(st, id, deleteData, o, f, g);
    RemoveKeepsGood(st.engine, id, deleteData, o);
    Actor.DeleteKeepsConsistent(st.board, id);
  }

  lemma RemoveAt(st: State, id: TorrentID, deleteData: bool, o: RemoveOutcome, f: Store.Fault, g: Store.Fault, x: TorrentID)
    requires Core(st)
    ensures KeptAt(st, RemoveCommand(st, id, deleteData, o, f, g).0, x)
  {
    hide RemoveCommand, Registry.Remove, GoodEngine, Store.Valid, Store.Works;
    RemoveIsAllOrNothing(st, id, deleteData, o, f, g);
    RemoveEngineEffect(st, id, deleteData, o, f, g);
    EngineRemoveAt(st.engine, id, deleteData, o, x);
    FailedRemoveSpares(st.engine, id, deleteData, o);
  }

  // ---------------------------------------------------------------- move

  lemma MoveEffect(st: State, id: TorrentID, offset: int, f: Store.Fault, g: Store.Fault)
    requires Core(st)
    ensures var (st', ok) := MoveCommand(st, id, offset, f, g);
            && Store.Valid(st'.session) && Records(st'.session) == Records(st.session)
            && st' == st.(session := st'.session, disk := st'.disk, board := st'.board)
            && (ok ==> id in Records(st.session)
                       && Ids(st'.session) == Actor.Shifted(Ids(st.session), id, offset)
                       && st'.board == st.board.(order := Actor.Shifted(st.board.order, id, offset)))
            && (!ok ==> st'.session == st.session && st'.board == st.board)
            && (ok <==> id in Records(st.session) && Store.Works(st.disk, f))
            && Store.Committed(st'.disk) == if ok then Some(st'.session) else Store.Committed(st.disk)
  {
    InOrder(st.session, id);
    if id in Ids(st.session) {
      var session := CloneSession(st.session).(order := Some(Actor.Shifted(Ids(st.session), id, offset)));
      Actor.ShiftedKeepsElements(Ids(st.session), id, offset);
      assert "" in Ids(session) <==> "" in Elements(Ids(session));
      assert "" in Ids(st.session) <==> "" in Elements(Ids(st.session));
      assert Store.Valid(session);
      CommitEffect(st, session, f);
      assert id in st.board.order by {
        assert id in Elements(st.board.order);
      }
    }
  }

  // Where the actor does not have the torrent, the session gets its order back.
  lemma RefusedMoveIsUndone(st: State, id: TorrentID, offset: int)
    requires Store.Valid(st.session) && id !in st.board.order
    ensures var (st', ok) := MoveCommand(st, id, offset, Store.NoFault, Store.NoFault);
            && !ok && st'.session == st.session && st'.board == st.board && st'.engine == st.engine
            && (id in Ids(st.session) ==> Store.Committed(st'.disk) == Some(st.session))
  {
    if id in Ids(st.session) {
      var session := CloneSession(st.session).(order := Some(Actor.Shifted(Ids(st.session), id, offset)));
      Actor.ShiftedKeepsElements(Ids(st.session), id, offset);
      assert "" in Ids(session) <==> "" in Elements(Ids(session));
      assert "" in Ids(st.session) <==> "" in Elements(Ids(st.session));
      CommitEffect(st, session, Store.NoFault);
      CommitEffect(Commit(st, session, Store.NoFault).0, st.session, Store.NoFault);
    }
  }

  lemma MoveKeepsCore(st: State, id: TorrentID, offset: int, f: Store.Fault, g: Store.Fault)
    requires Core(st)
    ensures Core(MoveCommand(st, id, offset, f, g).0)
  {
    MoveEffect(st, id, offset, f, g);
    Actor.MoveKeepsConsistent(st.board, id, offset);
    Actor.ShiftedKeepsElements(st.board.order, id, offset);
    assert Elements(st.board.order) == st.board.torrents.Keys;
    Actor.MoveKeepsConsistent(Actor.Board(st.board.torrents, st.board.order), id, offset);
    InOrder(st.session, id);
    assert id in st.board.order <==> id in Elements(st.board.order);
  }

  lemma MoveAt(st: State, id: TorrentID, offset: int, f: Store.Fault, g: Store.Fault, x: TorrentID)
    requires Core(st)
    ensures KeptAt(st, MoveCommand(st, id, offset, f, g).0, x)
  {
    MoveEffect(st, id, offset, f, g);
  }

  // ---------------------------------------------------------------- add

  lemma PublishKeepsCore(st: State, id: TorrentID, p: AddParams, t: Snapshot, f: Store.Fault, undo: RemoveOutcome)
    requires Core(st) && t.id == id
    requires undo.Broken? && undo.restored.Some? ==> undo.restored.value.own == map[]
    ensures Core(Publish(st, id, p, t, f, undo).0)
  {
    RecordTorrentEffect(st, id, p, t, f);
    RemoveKeepsGood(st.engine, id, false, undo);
    Actor.PutKeepsConsistent(st.board, t);
  }

  lemma AddKeepsCore(st: State, p: AddParams, reply: AddReply, cut: bool, f: Store.Fault, undo: RemoveOutcome)
    requires Core(st) && Conceivable(AddTorrent(p, reply, cut, f, undo))
    ensures Core(AddCommand(st, p, reply, cut, f, undo).0)
  {
    var params := Completed(st.config, p);
    var (e1, r) := Registry.Add(st.engine, InputOf(params), reply);
    AddKeepsGood(st.engine, InputOf(params), reply);
    if !r.Failed? && !cut {
      var (e2, t) := TakeSnapshot(e1, r.id);
      SnapshotKeepsGood(e1, r.id);
      if r.Created? {
        PublishKeepsCore(st.(engine := e2), r.id, params, t.value, f, undo);
      }
    }
  }

  lemma EngineAddAt(e: EngineState, p: AddParams, reply: AddReply, x: TorrentID)
    requires GoodEngine(e) && (reply.Accepted? ==> reply.handle.own == map[])
    ensures var (e1, r) := Registry.Add(e, InputOf(p), reply);
            && GoodEngine(e1)
            && (!r.Failed? ==> reply.Accepted? && r.id == reply.id)
            && (r.Failed? || r.Known? ==> e1 == e)
            && (r.Known? ==> r.id in e.live && r.id in e.torrents)
            && (!r.Failed? && x != r.id ==> SameFlags(e, e1, x))
            && (r.Created? ==>
                  && r.id !in e.live && r.id in e1.torrents && r.id in e1.live
                  && e1.torrents[r.id].paused == p.paused && e1.torrents[r.id].sequential == p.sequential)
  {
    AddKeepsGood(e, InputOf(p), reply);
  }

  lemma EngineSnapshot(e: EngineState, id: TorrentID, x: TorrentID)
    requires GoodEngine(e)
    ensures var (e', t) := TakeSnapshot(e, id);
            && GoodEngine(e') && SameFlags(e, e', x)
            && (t.Some? <==> id in e.torrents)
            && (t.Some? ==> t.value.id == id && t.value.sequential == e.torrents[id].sequential
                            && (t.value.state == Paused <==> e.torrents[id].paused))
  {
    SnapshotKeepsGood(e, id);
  }

  // ---------------------------------------------------------------- the pass

  lemma SetScheduledKeepsGood(st: State, id: TorrentID, running: bool)
    requires GoodEngine(st.engine)
    ensures GoodEngine(SetScheduled(st, id, running).0.engine)
    ensures GoodEngine(TakeSnapshot(SetScheduled(st, id, running).0.engine, id).0)
  {
    SetPausedKeepsGood(st.engine, id, !running);
    SnapshotKeepsGood(SetScheduled(st, id, running).0.engine, id);
  }

  lemma ScheduleKeepsGood(st: State, t: Snapshot, active: Active)
    requires GoodEngine(st.engine)
    ensures GoodEngine(Schedule(st, t, active).0.engine)
    ensures Schedule(st, t, active).0.session == st.session && Schedule(st, t, active).0.disk == st.disk
  {
    hide TakeSnapshot, SetPaused, GoodEngine;
    SetScheduledKeepsGood(st, t.id, true);
    SetScheduledKeepsGood(st, t.id, false);
  }

  lemma {:induction false} PassKeepsGood(st: State, torrents: seq<Snapshot>, active: Active)
    requires GoodEngine(st.engine)
    ensures GoodEngine(Pass(st, torrents, active).engine)
    ensures Pass(st, torrents, active).session == st.session && Pass(st, torrents, active).disk == st.disk
    decreases |torrents|
  {
    hide Schedule, GoodEngine;
    if torrents != [] {
      ScheduleKeepsGood(st, torrents[0], active);
      var (st1, active1) := Schedule(st, torrents[0], active);
      PassKeepsGood(st1, torrents[1..], active1);
    }
  }

  lemma {:induction false} PassKeepsBoard(st: State, torrents: seq<Snapshot>, active: Active)
    requires Actor.Consistent(st.board)
    requires forall i | 0 <= i < |torrents| :: torrents[i].id in st.board.torrents
    ensures Actor.Consistent(Pass(st, torrents, active).board)
    ensures Pass(st, torrents, active).board.torrents.Keys == st.board.torrents.Keys
    decreases |torrents|
  {
    if torrents != [] {
      var (st1, active1) := Schedule(st, torrents[0], active);
      ScheduleKeepsBoard(st, torrents[0], active);
      PassKeepsBoard(st1, torrents[1..], active1);
    }
  }

  // The actor gets at most a new snapshot of the same torrent.
  lemma ScheduleBoard(st: State, t: Snapshot, active: Active) returns (u: Snapshot)
    ensures u.id == t.id
    ensures Schedule(st, t, active).0.board in {st.board, Actor.Put(st.board, u)}
  {
    var stopped := Refreshed(SetScheduled(st, t.id, false).0, t).1;
    var started := Refreshed(SetScheduled(st, t.id, true).0, t).1;
    if t.id !in Records(st.session) {
      u := t;
    } else if Records(st.session)[t.id].desired == Paused {
      u := stopped.(state := Paused);
    } else if Limit(st.config, IsSeed(t)) > 0 && active.Of(IsSeed(t)) >= Limit(st.config, IsSeed(t)) {
      u := stopped.(state := Queued);
    } else {
      u := started;
    }
  }

  lemma ScheduleKeepsBoard(st: State, t: Snapshot, active: Active)
    requires Actor.Consistent(st.board) && t.id in st.board.torrents
    ensures Actor.Consistent(Schedule(st, t, active).0.board)
    ensures Schedule(st, t, active).0.board.torrents.Keys == st.board.torrents.Keys
  {
    var u := ScheduleBoard(st, t, active);
    Actor.PutKeepsConsistent(st.board, u);
  }

  lemma ReconcileKeepsCore(st: State)
    requires Core(st)
    ensures Core(Reconcile(st))
  {
    PassKeepsGood(st, Listed(st.board), Active(0, 0));
    PassKeepsBoard(st, Listed(st.board), Active(0, 0));
  }

  // The actor shows no pause the user did not ask for, where the engine cannot
  // tell it otherwise.
  ghost predicate NoFalsePauseAt(st: State, x: TorrentID) {
    x in Records(st.session) && x in st.board.torrents && x !in st.engine.torrents ==>
      st.board.torrents[x].state == Paused ==> Records(st.session)[x].desired == Paused
  }

  // With a right cache the pass shows every pause, and keeps the rest.
  lemma ReconcileAt(st: State, x: TorrentID)
    requires Core(st) && CacheSound(st)
    ensures CachedAt(Reconcile(st), x)
    ensures NoFalsePauseAt(st, x) ==> PausedAt(Reconcile(st), x)
  {
    PassEnforcesPolicy(st);
    var st' := Reconcile(st);
    assert CachedAt(st', x);
    if x in st.board.torrents {
      assert Outcome(st, st', x);
    } else {
      assert Untouched(st, st', x);
    }
  }

  // From any state with a right cache the passes settle: a third one changes
  // nothing at all.
  lemma PassesSettle(st: State)
    requires Core(st) && CacheSound(st)
    ensures Reconcile(Reconcile(Reconcile(st))) == Reconcile(Reconcile(st))
  {
    hide Reconcile, CacheSound, SameClasses;
    ReconcileKeepsCore(st);
    PassEnforcesPolicy(st);
    PassMakesSameClasses(st);
    SecondPassIsIdle(Reconcile(st));
  }

  lemma CallKeepsSequential(st: State, id: TorrentID, running: bool, x: TorrentID)
    requires SequentialAt(st, x)
    ensures SequentialAt(SetScheduled(st, id, running).0, x)
    ensures SetScheduled(st, id, running).0.board == st.board
  {
  }

  // Showing the engine's snapshot, under whatever state.
  lemma ShowKeepsSequential(st: State, t: Snapshot, u: Snapshot, x: TorrentID)
    requires t.id in st.board.torrents && SequentialAt(st, x)
    requires var latest := Refreshed(st, t).1; u.id == latest.id && u.sequential == latest.sequential
    ensures var st1 := Refreshed(st, t).0; SequentialAt(st1.(board := Actor.Put(st1.board, u)), x)
  {
  }

  lemma StopKeepsSequential(st: State, t: Snapshot, state: TorrentState, x: TorrentID)
    requires t.id in st.board.torrents && SequentialAt(st, x)
    ensures SequentialAt(Stop(st, t, state), x)
  {
    hide SetScheduled, Refreshed, SequentialAt;
    CallKeepsSequential(st, t.id, false, x);
    var st1 := SetScheduled(st, t.id, false).0;
    ShowKeepsSequential(st1, t, Refreshed(st1, t).1.(state := state), x);
  }

  lemma StartKeepsSequential(st: State, t: Snapshot, x: TorrentID)
    requires t.id in st.board.torrents && SequentialAt(st, x)
    ensures SequentialAt(Start(st, t).0, x)
  {
    hide SetScheduled, Refreshed, SequentialAt;
    CallKeepsSequential(st, t.id, true, x);
    var st1 := SetScheduled(st, t.id, true).0;
    ShowKeepsSequential(st1, t, Refreshed(st1, t).1, x);
  }

  lemma ScheduleKeepsSequential(st: State, t: Snapshot, active: Active, x: TorrentID)
    requires t.id in st.board.torrents && SequentialAt(st, x)
    ensures SequentialAt(Schedule(st, t, active).0, x)
  {
    hide Stop, Start, SequentialAt;
    StopKeepsSequential(st, t, Paused, x);
    StopKeepsSequential(st, t, Queued, x);
    StartKeepsSequential(st, t, x);
  }

  lemma {:induction false} PassKeepsSequential(st: State, torrents: seq<Snapshot>, active: Active, x: TorrentID)
    requires Actor.Consistent(st.board) && SequentialAt(st, x)
    requires forall i | 0 <= i < |torrents| :: torrents[i].id in st.board.torrents
    ensures SequentialAt(Pass(st, torrents, active), x)
    decreases |torrents|
  {
    hide Schedule, SequentialAt;
    if torrents != [] {
      var (st1, active1) := Schedule(st, torrents[0], active);
      ScheduleKeepsBoard(st, torrents[0], active);
      ScheduleKeepsSequential(st, torrents[0], active, x);
      PassKeepsSequential(st1, torrents[1..], active1, x);
    }
  }

  // Whatever the cache says, the pass keeps the agreement on sequential mode.
  lemma ReconcileKeepsSequential(st: State, x: TorrentID)
    requires Core(st) && SequentialAt(st, x)
    ensures SequentialAt(Reconcile(st), x)
  {
    PassKeepsSequential(st, Listed(st.board), Active(0, 0), x);
  }

  // ---------------------------------------------------------------- one step, any run

  lemma StepKeepsCore(st: State, c: Command)
    requires Core(st) && Conceivable(c)
    ensures Core(Perform(st, c))
  {
    match c
    case AddTorrent(p, reply, cut, f, undo) => AddKeepsCore(st, p, reply, cut, f, undo);
    case PauseTorrent(id, f) => SetDesiredKeepsCore(st, id, true, f);
    case ResumeTorrent(id, f) => SetDesiredKeepsCore(st, id, false, f);
    case VerifyTorrent(id, verified, interruption) => VerifyKeepsCore(st, id, verified, interruption);
    case SetSequentialMode(id, enabled, f) => SetSequentialKeepsCore(st, id, enabled, f);
    case SetPriority(id, index, p, f) => SetPriorityKeepsCore(st, id, index, p, f);
    case RemoveTorrent(id, deleteData, o, f, g) => RemoveKeepsCore(st, id, deleteData, o, f, g);
    case MoveTorrent(id, offset, f, g) => MoveKeepsCore(st, id, offset, f, g);
    case Tick => ReconcileKeepsCore(st);
    case Library(id, h) =>
      if id in st.engine.torrents && LibraryMove(st.engine.torrents[id].torrent, h) {
        LibraryKeepsGood(st.engine, id, h);
      }
    case GotInfo(id, serial) => CallbackKeepsGood(st.engine, id, serial);
  }

  lemma LibraryAt(st: State, id: TorrentID, h: Sequential.Handle, x: TorrentID)
    ensures KeptAt(st, Perform(st, Library(id, h)), x)
  {
  }

  lemma GotInfoAt(st: State, id: TorrentID, serial: nat, x: TorrentID)
    ensures KeptAt(st, st.(engine := Callback(st.engine, id, serial)), x)
  {
    assert SameFlags(st.engine, Callback(st.engine, id, serial), x);
  }

  // Every command but an add, and every event, keeps what holds of a torrent.
  lemma StepAt(st: State, c: Command, x: TorrentID)
    requires Core(st) && Conceivable(c) && !c.AddTorrent? && !c.Tick?
    ensures KeptAt(st, Perform(st, c), x)
  {
    hide KeptAt, SetDesired, VerifyCommand, SetSequentialFlag, SetFilePriorityOf, RemoveCommand, MoveCommand;
    match c
    case PauseTorrent(id, f) => SetDesiredAt(st, id, true, f, x);
    case ResumeTorrent(id, f) => SetDesiredAt(st, id, false, f, x);
    case VerifyTorrent(id, verified, interruption) => VerifyAt(st, id, verified, interruption, x);
    case SetSequentialMode(id, enabled, f) => SetSequentialAt(st, id, enabled, f, x);
    case SetPriority(id, index, p, f) => SetPriorityAt(st, id, index, p, f, x);
    case RemoveTorrent(id, deleteData, o, f, g) => RemoveAt(st, id, deleteData, o, f, g, x);
    case MoveTorrent(id, offset, f, g) => MoveAt(st, id, offset, f, g, x);
    case Library(id, h) => LibraryAt(st, id, h, x);
    case GotInfo(id, serial) => GotInfoAt(st, id, serial, x);
  }

  ghost function Play(st: State, commands: seq<Command>): State
    decreases |commands|
  {
    if commands == [] then st else Play(Perform(st, commands[0]), commands[1..])
  }

  // Over every run, whatever fails: the session is valid, the actor shows all of
  // it and is consistent, and the boosts are real.
  lemma {:induction false} RunsKeepCore(st: State, commands: seq<Command>)
    requires Core(st) && forall i | 0 <= i < |commands| :: Plausible(commands[i])
    ensures Core(Play(st, commands))
    decreases |commands|
  {
    if commands != [] {
      StepKeepsCore(st, commands[0]);
      RunsKeepCore(Perform(st, commands[0]), commands[1..]);
    }
  }

  // Every step of the run meets the condition.
  ghost predicate Always(ok: (State, Command) -> bool, st: State, commands: seq<Command>)
    decreases |commands|
  {
    commands == [] || (ok(st, commands[0]) && Always(ok, Perform(st, commands[0]), commands[1..]))
  }

  // What each step keeps under a condition, a run keeps if all its steps meet it.
  lemma {:induction false} RunsKeep(kept: State -> bool, ok: (State, Command) -> bool, st: State, commands: seq<Command>)
    requires kept(st) && Always(ok, st, commands)
    requires forall i | 0 <= i < |commands| :: Plausible(commands[i])
    requires forall s, c | kept(s) && Plausible(c) && ok(s, c) :: kept(Perform(s, c))
    ensures kept(Play(st, commands))
    decreases |commands|
  {
    hide Perform, Plausible;
    if commands != [] {
      RunsKeep(kept, ok, Perform(st, commands[0]), commands[1..]);
    }
  }
}
