/** Concrete runs on which each conditional promise fails: none of the conditions is idle. */
module Witnesses {
  import opened Model
  import opened Control
  import opened Registry
  import opened Scheduling
  import opened Invariants
  import opened Promises
  import Actor
  import Decimal
  import R = Restart
  import Sequential
  import Sessions
  import Store

  // ---------------------------------------------------------------- a daemon with one torrent

  const Handle: Sequential.Handle :=
    Sequential.Handle(0, "film", Some(1), [Sequential.File(0, 1, Sequential.PieceNormal)], {}, map[], 0, 1)

  function TheRecord(paused: bool): Record {
    Record("film.torrent", "film", "/films", if paused then Paused else Downloading, 0, false, Some(map[]))
  }

  function TheSession(paused: bool): Session {
    Session(Some(["film"]), Some(map["film" := TheRecord(paused)]))
  }

  function TheDisk(paused: bool): Store.Disk {
    Store.Disk(Some(Store.Encoded(TheSession(paused))), None, None)
  }

  function TheAnswers(accepted: bool): map<TorrentID, R.Answer> {
    map["film" := R.Answer(if accepted then Accepted("film", Handle, 0) else Rejected, map[])]
  }

  // The daemon after its startup pass; the library knows the torrent or refuses it.
  ghost function Started(paused: bool, accepted: bool): State {
    Reconcile(R.Restore(R.Loaded(Config("/films", 0, 0), TheSession(paused), TheDisk(paused)), ["film"], TheAnswers(accepted)))
  }

  // All the promises hold.
  ghost predicate Sound(st: State) {
    && Core(st) && CacheSound(st) && PausesShown(st) && SequentialAgrees(st)
    && SameOrder(st) && Obeys(st) && NoOrphans(st) && Store.Mirrors(st.disk, st.session)
  }

  lemma StartedIsSound(paused: bool, accepted: bool)
    ensures R.Matching(TheSession(paused), TheAnswers(accepted)) && Store.Valid(TheSession(paused))
    ensures Sound(Started(paused, accepted))
    ensures Started(paused, accepted).session == TheSession(paused) && Started(paused, accepted).disk == TheDisk(paused)
    ensures Started(paused, accepted).config == Config("/films", 0, 0)
  {
    hide Core, Reconcile, R.Restore, CacheSound, PausesShown, SequentialAgrees, Obeys, SameOrder, NoOrphans, R.Answerable, Store.Valid;
    TheSessionIsValid(paused, accepted);
    R.StartupEstablishes(Config("/films", 0, 0), TheSession(paused), TheDisk(paused), TheAnswers(accepted));
    R.StartupAgrees(Config("/films", 0, 0), TheSession(paused), TheDisk(paused), TheAnswers(accepted));
    R.StartedHas(Config("/films", 0, 0), TheSession(paused), TheDisk(paused), TheAnswers(accepted), "film");
  }

  lemma TheSessionIsValid(paused: bool, accepted: bool)
    ensures R.Matching(TheSession(paused), TheAnswers(accepted)) && Store.Valid(TheSession(paused))
  {
    var s := TheSession(paused);
    assert Ids(s) == ["film"] && Elements(Ids(s)) == {"film"} == Records(s).Keys;
    assert R.SavedPriorities(TheRecord(paused)) == map[];
  }

  // Where the torrent is.
  lemma StartedHas(paused: bool, accepted: bool)
    ensures var st := Started(paused, accepted);
            && "film" in st.board.torrents && "film" in Records(st.session)
            && ("film" in st.engine.torrents <==> accepted) && ("film" in st.engine.live <==> accepted)
            && (if accepted then Prioritizable(st.engine, "film", 0) && "film" in st.scheduled else "film" !in st.scheduled)
            && (forall id | id in st.engine.live :: id == "film")
  {
    hide Core, Reconcile, R.Restore, R.Answerable, Store.Valid, NoOrphans;
    StartedIsSound(paused, accepted);
    R.StartedHas(Config("/films", 0, 0), TheSession(paused), TheDisk(paused), TheAnswers(accepted), "film");
    OnlyTheFilmIsLive(Started(paused, accepted));
  }

  lemma OnlyTheFilmIsLive(st: State)
    requires Core(st) && NoOrphans(st) && Records(st.session).Keys == {"film"}
    ensures forall id | id in st.engine.live :: id == "film"
  {
    forall id | id in st.engine.live ensures id == "film" {
      assert id in st.engine.torrents && id in Records(st.session).Keys;
    }
  }

  // An add whose record cannot be saved, and whose undo breaks after the drop.
  function FailedAdd(id: TorrentID, sequential: bool, paused: bool): Command {
    AddTorrent(AddParams("film.torrent", "/films", sequential, paused), Accepted(id, Handle, 0), false, Store.Preparing, Broken(None))
  }

  // ---------------------------------------------------------------- the runs

  // A removal with data that the engine refuses, a file being shared, and a
  // rollback save that fails: the actor still shows the torrent and the library
  // still runs it, but the session lost it.
  lemma RecordGetsLost() returns (st: State, c: Command)
    ensures Sound(st) && Plausible(c) && LosesRecord(st, c) && Orphans(st, c)
    ensures !SameOrder(Perform(st, c)) && !NoOrphans(Perform(st, c))
  {
    hide Started, Core, Perform;
    StartedIsSound(false, true);
    StartedHas(false, true);
    st, c := Started(false, true), RemoveTorrent("film", true, Refused, Store.NoFault, Store.Preparing);
    OrdersStayEqualExactly(st, c);
    NoOrphansStayExactly(st, c);
  }

  // A start on which the source of the record yields another torrent.
  lemma StartLeavesOrphan() returns (answers: map<TorrentID, R.Answer>, st: State)
    ensures R.Answerable(TheSession(false), answers) && !R.AllRecorded(TheSession(false), answers)
    ensures st == Reconcile(R.Restore(R.Loaded(Config("/films", 0, 0), TheSession(false), TheDisk(false)), ["film"], answers))
    ensures Core(st) && CacheSound(st) && PausesShown(st) && SameOrder(st) && Obeys(st) && !NoOrphans(st)
    ensures "song" in st.engine.live && "song" !in st.board.torrents
  {
    hide Reconcile, R.Restore, Core, CacheSound, PausesShown, Obeys, NoOrphans;
    TheSessionIsValid(false, true);
    answers := map["film" := R.Answer(Accepted("song", Handle, 0), map[])];
    st := Reconcile(R.Restore(R.Loaded(Config("/films", 0, 0), TheSession(false), TheDisk(false)), ["film"], answers));
    R.StartupEstablishes(Config("/films", 0, 0), TheSession(false), TheDisk(false), answers);
    assert R.NamedBy(["film"], answers, "song") by {
      assert "film" in ["film"];
    }
    R.MisnamedIsOutOfReach(Config("/films", 0, 0), TheSession(false), TheDisk(false), answers, "song");
  }

  // A paused torrent is paused again, and the save fails.
  lemma PausedGetsStarted() returns (st: State, c: Command)
    ensures Sound(st) && Plausible(c) && PausesAgainInVain(st, c) && !Obeys(Perform(st, c))
  {
    hide Started, Core, Perform;
    StartedIsSound(true, true);
    StartedHas(true, true);
    st, c := Started(true, true), PauseTorrent("film", Store.Preparing);
    PausedStaysPausedExactly(st, c);
  }

  // The entry a failed add leaves: the library has forgotten it, but a failed
  // deletion would add it back.
  lemma FailedAddLeavesEntry(st: State, id: TorrentID, sequential: bool, paused: bool)
    requires Core(st) && id !in st.engine.live && id != "" && st.disk.primary.Some?
    ensures var st' := Perform(st, FailedAdd(id, sequential, paused));
            && Records(st'.session) == Records(st.session) && st'.board == st.board
            && id in st'.engine.torrents && id !in st'.engine.live && st'.engine.torrents[id].paused == paused
            && st'.engine.torrents[id].torrent.pieceLength == Some(1)
  {
    hide Core, AddCommand;
    AddEngineAt(st, AddParams("film.torrent", "/films", sequential, paused), Accepted(id, Handle, 0), Store.Preparing, Broken(None), id);
    FailedAddHandle(st, id, sequential, paused);
  }

  lemma FailedAddHandle(st: State, id: TorrentID, sequential: bool, paused: bool)
    requires Core(st) && id !in st.engine.live && st.disk.primary.Some?
    ensures var st' := Perform(st, FailedAdd(id, sequential, paused));
            id in st'.engine.torrents && st'.engine.torrents[id].torrent.pieceLength == Some(1)
  {
    hide Core, Publish, TakeSnapshot;
    var p := AddParams("film.torrent", "/films", sequential, paused);
    var e1 := Registry.Add(st.engine, InputOf(p), Accepted(id, Handle, 0)).0;
    SnapshotKeepsLength(e1, id);
    CoreMeans(st);
    FailedPublish(st.(engine := TakeSnapshot(e1, id).0), id, p, TakeSnapshot(e1, id).1.value);
  }

  lemma SnapshotKeepsLength(e: EngineState, id: TorrentID)
    requires id in e.torrents
    ensures var (e', t) := TakeSnapshot(e, id);
            t.Some? && id in e'.torrents && e'.torrents[id].torrent.pieceLength == e.torrents[id].torrent.pieceLength
  {
  }

  lemma FailedPublish(st: State, id: TorrentID, p: AddParams, t: Snapshot)
    requires Store.Valid(st.session)
    ensures Publish(st, id, p, t, Store.Preparing, Broken(None)).0.engine.torrents == st.engine.torrents
  {
    hide RecordTorrent, Store.Valid, Store.Works;
    Sessions.RecordTorrentEffect(st, id, p, t, Store.Preparing);
    PreparingFails(st.disk);
  }

  lemma PreparingFails(d: Store.Disk)
    ensures !Store.Works(d, Store.Preparing)
  {
  }

  // A paused torrent the library refused is added running, the add fails and
  // breaks; then its data is to be deleted, which fails, and it runs again.
  lemma PausedGetsRevived() returns (st: State, add: Command, remove: Command)
    ensures Sound(st) && Plausible(add) && Plausible(remove) && KeepsCache(st, add) && KeepsPaused(st, add)
    ensures RevivesRunning(Perform(st, add), remove) && !Obeys(Play(st, [add, remove]))
  {
    hide Started, Core, Perform, Store.Valid, PausesShown, CacheSound;
    StartedIsSound(true, false);
    StartedHas(true, false);
    st := Started(true, false);
    add, remove := FailedAdd("film", false, false), RemoveTorrent("film", true, Broken(Some(Handle)), Store.NoFault, Store.NoFault);
    FailedAddLeavesEntry(st, "film", false, false);
    StepKeepsCore(st, add);
    CacheStaysSoundExactly(st, add);
    PausesStayShown(st, add);
    PausedStaysPausedExactly(st, add);
    PausedStaysPausedExactly(Perform(st, add), remove);
    PlayTwo(st, add, remove);
  }

  // The failed add in the other sequential mode.
  lemma SequentialFlagsPart() returns (st: State, c: Command)
    ensures Sound(st) && Plausible(c) && !KeepsSequential(st, c) && !SequentialAgrees(Perform(st, c))
  {
    hide Started, Core, Perform;
    StartedIsSound(false, false);
    StartedHas(false, false);
    st := Started(false, false);
    c := FailedAdd("film", !st.board.torrents["film"].sequential, false);
    SequentialStaysExactly(st, c);
  }

  // The failed add of a new torrent: the engine has it registered, and neither
  // the library nor the session has it.
  lemma AddLeavesEntry() returns (st: State, c: Command)
    ensures Sound(st) && Plausible(c) && "song" in Perform(st, c).engine.torrents
    ensures "song" !in Perform(st, c).engine.live && "song" !in Records(Perform(st, c).session)
  {
    hide Started, Core, Perform;
    StartedIsSound(false, true);
    StartedHas(false, true);
    st, c := Started(false, true), FailedAdd("song", false, false);
    FailedAddLeavesEntry(st, "song", false, false);
  }

  // A file priority the disk refuses stays in memory.
  lemma PriorityGetsAhead() returns (st: State, c: Command)
    ensures Sound(st) && Plausible(c) && PriorityOutrunsDisk(st, c)
    ensures !Store.Mirrors(Perform(st, c).disk, Perform(st, c).session)
  {
    hide Started, Core, Perform, Prioritizable;
    StartedIsSound(false, true);
    StartedHas(false, true);
    st, c := Started(false, true), SetPriority("film", 0, High, Store.Preparing);
    NewPriorityDiffers(TheRecord(false), 0, High);
    DiskFollowsMemoryExactly(st, c);
  }

  // A removal breaks after the drop, and the torrent is added in the other run state.
  lemma CacheGoesWrong() returns (st: State, remove: Command, add: Command)
    ensures Sound(st) && Plausible(remove) && Plausible(add)
    ensures !KeepsCache(Perform(st, remove), add) && !CacheSound(Play(st, [remove, add]))
  {
    hide Started, Core, RemoveCommand, AddCommand;
    StartedIsSound(false, true);
    StartedHas(false, true);
    st := Started(false, true);
    remove := RemoveTorrent("film", false, Broken(None), Store.NoFault, Store.NoFault);
    add := AddTorrent(AddParams("film.torrent", "/films", false, st.scheduled["film"]), Accepted("film", Handle, 0), false, Store.NoFault, Removed);
    ReaddAfterBrokenRemovalBreaksCache(st, "film", Store.NoFault, add.params, add.reply);
    StepKeepsCore(st, remove);
    CacheStaysSoundExactly(Perform(st, remove), add);
    PlayTwo(st, remove, add);
  }

  lemma PlayTwo(st: State, a: Command, b: Command)
    ensures Play(st, [a, b]) == Perform(Perform(st, a), b)
  {
    hide Perform;
    assert [a, b][1..] == [b] && [b][1..] == [];
    assert Play(Perform(st, a), [b]) == Play(Perform(Perform(st, a), b), []);
  }

  lemma NewPriorityDiffers(r: Record, index: int, p: FilePriority)
    requires r.filePriorities == Some(map[])
    ensures WithFilePriority(r, index, p) != r
  {
    assert Decimal.Format(index) in WithFilePriority(r, index, p).filePriorities.value;
  }

  // ---------------------------------------------------------------- a queue

  // Two torrents and one slot: both fit their class, and the second waits.
  const Queue: Session := Session(Some(["film", "song"]), Some(map["film" := TheRecord(false), "song" := TheRecord(false)]))

  const QueueAnswers: map<TorrentID, R.Answer> :=
    map["film" := R.Answer(Accepted("film", Handle, 0), map[]), "song" := R.Answer(Accepted("song", Handle, 0), map[])]

  ghost function Queued(): State {
    Reconcile(R.Restore(R.Loaded(Config("/films", 1, 1), Queue, Store.Disk(None, None, None)), ["film", "song"], QueueAnswers))
  }

  lemma QueueIsValid()
    ensures Store.Valid(Queue) && R.Matching(Queue, QueueAnswers)
  {
    assert Elements(Ids(Queue)) == {"film", "song"} == Records(Queue).Keys;
    assert R.SavedPriorities(TheRecord(false)) == map[];
  }

  lemma QueuedHas(id: TorrentID)
    requires id in Records(Queue)
    ensures var st := Queued();
            && Core(st) && CacheSound(st) && st.config == Config("/films", 1, 1)
            && st.board.order == ["film", "song"] && st.session == Queue
            && id in st.board.torrents && id in st.engine.torrents && id in st.engine.live && !IsSeed(st.board.torrents[id])
  {
    hide Core, Reconcile, R.Restore, R.Answerable, Store.Valid, CacheSound;
    var config, disk := Config("/films", 1, 1), Store.Disk(None, None, None);
    QueueIsValid();
    R.StartupEstablishes(config, Queue, disk, QueueAnswers);
    R.StartedHas(config, Queue, disk, QueueAnswers, id);
  }

  lemma SecondIsFull(st: State)
    requires Actor.Consistent(st.board) && st.board.order == ["film", "song"] && st.config == Config("/films", 1, 1)
    requires "film" in st.board.torrents && !IsSeed(st.board.torrents["film"]) && Eligible(st, "film")
    requires "song" in st.board.torrents && !IsSeed(st.board.torrents["song"])
    ensures Full(st, "song")
  {
    hide Eligible, IsSeed;
    Actor.PositionUnique(st.board.order, "song", 1);
    assert st.board.order[..1] == ["film"] && ["film"][..0] == [];
    assert Count(st, ["film"], false) == Count(st, [], false) + 1;
  }

  // The user verifies a torrent that waits, and it runs beside the one that has
  // the only slot.
  lemma QueuedGetsStarted() returns (st: State, c: Command)
    ensures Core(st) && CacheSound(st) && Plausible(c) && c.VerifyTorrent?
    ensures c.id in st.board.torrents && st.board.torrents[c.id].state == Model.Queued
    ensures !RunsIn(st.engine, c.id) && RunsIn(Perform(st, c).engine, c.id) && c.id in Perform(st, c).engine.live
  {
    hide Queued, Core, Reconcile, VerifyCommand, CacheSound, IsSeed, Outcome, Untouched, SameFrame, Full;
    QueuedHas("film");
    QueuedHas("song");
    CoreMeans(Queued());
    SecondIsFull(Queued());
    VerifyStartsQueued(Queued(), "song", true);
    ReconcileKeepsCore(Queued());
    PassEnforcesPolicy(Queued());
    st, c := Reconcile(Queued()), VerifyTorrent("song", true, Uninterrupted);
  }
}
