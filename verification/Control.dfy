/** The daemon's commands and its scheduling pass, as functions on its whole state. */
module Control {
  import opened Model
  import opened Registry
  import Actor
  import Decimal
  import Sequential
  import Store

  datatype State = State(
    config: Config,
    session: Session,
    disk: Store.Disk,
    board: Actor.Board,
    scheduled: map<TorrentID, bool>,
    engine: EngineState)

  datatype AddParams = AddParams(source: string, savePath: string, sequential: bool, paused: bool)

  /** Where the stop of the daemon interrupts a verification, if it does. */
  datatype Interruption = Uninterrupted | BeforeResume | BeforeSnapshot

  /** One request or event, with everything the outside world decides about it: where a save fails
      (`f`, and `g` for the save that rolls back) and how far the engine's removal gets. All requests
      share the context of the daemon, which is cancelled only to stop it. A request that is under way
      then can be cut short: an add between engine and record (`cut`), a verification (`interruption`),
      or a removal refused without another reason. It is the daemon's last. */
  datatype Command =
    | AddTorrent(params: AddParams, reply: AddReply, cut: bool, f: Store.Fault, undo: RemoveOutcome)
    | PauseTorrent(id: TorrentID, f: Store.Fault)
    | ResumeTorrent(id: TorrentID, f: Store.Fault)
    | VerifyTorrent(id: TorrentID, verified: bool, interruption: Interruption)
    | SetSequentialMode(id: TorrentID, enabled: bool, f: Store.Fault)
    | SetPriority(id: TorrentID, index: int, priority: FilePriority, f: Store.Fault)
    | RemoveTorrent(id: TorrentID, deleteData: bool, outcome: RemoveOutcome, f: Store.Fault, g: Store.Fault)
    | MoveTorrent(id: TorrentID, offset: int, f: Store.Fault, g: Store.Fault)
    | Tick
    | Library(id: TorrentID, handle: Sequential.Handle)
    | GotInfo(id: TorrentID, serial: nat)

  // ---------------------------------------------------------------- the session

  // A copy. Copying an empty order yields a nil one, which cannot be saved.
  function CloneSession(s: Session): Session {
    Session(if Ids(s) == [] then None else Some(Ids(s)), Some(Records(s)))
  }

  ghost function Commit(st: State, session: Session, f: Store.Fault): (State, bool) {
    var (disk, ok) := Store.Save(st.disk, session, f);
    (st.(disk := disk, session := if ok then session else st.session), ok)
  }

  datatype Edit = Desire(state: TorrentState) | Sequence(enabled: bool)

  function Edited(r: Record, e: Edit): Record {
    match e
    case Desire(state) => r.(desired := state)
    case Sequence(enabled) => r.(sequential := enabled)
  }

  ghost function UpdateRecord(st: State, id: TorrentID, e: Edit, f: Store.Fault): (State, bool) {
    var clone := CloneSession(st.session);
    if id !in Records(clone) then (st, false)
    else Commit(st, clone.(torrents := Some(Records(clone)[id := Edited(Records(clone)[id], e)])), f)
  }

  function WithFilePriority(r: Record, index: int, p: FilePriority): Record {
    var m := if r.filePriorities.Some? then r.filePriorities.value else map[];
    r.(filePriorities := Some(m[Decimal.Format(index) := p]))
  }

  // The copied record shares its map of file priorities with the session in
  // memory: unless the map is nil, the session changes before the save.
  ghost function UpdateFilePriority(st: State, id: TorrentID, index: int, p: FilePriority, f: Store.Fault): (State, bool) {
    var clone := CloneSession(st.session);
    if id !in Records(clone) then (st, false)
    else
      var record := Records(clone)[id];
      var torrents := Some(Records(clone)[id := WithFilePriority(record, index, p)]);
      var shared := if record.filePriorities.Some? then st.(session := st.session.(torrents := torrents)) else st;
      Commit(shared, clone.(torrents := torrents), f)
  }

  ghost function RecordTorrent(st: State, id: TorrentID, p: AddParams, t: Snapshot, f: Store.Fault): (State, bool) {
    var clone := CloneSession(st.session);
    var known := id in Records(clone);
    var record := Record(p.source, t.name, p.savePath, if p.paused then Paused else Downloading, t.addedAt, p.sequential,
                         if known then Records(clone)[id].filePriorities else None);
    Commit(st, Session(if known then clone.order else Some(Ids(clone) + [id]), Some(Records(clone)[id := record])), f)
  }

  ghost function RemoveRecord(st: State, id: TorrentID, f: Store.Fault): (State, bool) {
    var clone := CloneSession(st.session);
    if id !in Records(clone) then (st, false)
    else
      Commit(st, Session(if clone.order.None? then None else Some(Without(Ids(clone), id)),
                         Some(Records(clone) - {id})), f)
  }

  function FilePriorityOf(s: Session, id: TorrentID, index: int): Option<FilePriority> {
    if id !in Records(s) then None
    else
      var m := Records(s)[id].filePriorities;
      if m.Some? && Decimal.Format(index) in m.value then Some(m.value[Decimal.Format(index)]) else Some(Normal)
  }

  // ---------------------------------------------------------------- commands

  function Completed(c: Config, p: AddParams): AddParams {
    if p.savePath == "" then p.(savePath := c.downloadDirectory) else p
  }

  function InputOf(p: AddParams): AddInput {
    AddInput(p.paused, p.source, p.savePath, p.sequential, map[])
  }

  ghost function AddCommand(st: State, p: AddParams, reply: AddReply, cut: bool, f: Store.Fault, undo: RemoveOutcome): (State, bool) {
    var params := Completed(st.config, p);
    var (e1, r) := Registry.Add(st.engine, InputOf(params), reply);
    if r.Failed? then (st, false)
    else
      var (e2, t) := if cut then (e1, None) else TakeSnapshot(e1, r.id);
      var st2 := st.(engine := e2);
      if t.None? || r.Known? then (st2, t.Some?) else Publish(st2, r.id, params, t.value, f, undo)
  }

  // Records a created torrent and shows it, or takes it out of the engine again.
  ghost function Publish(st: State, id: TorrentID, p: AddParams, t: Snapshot, f: Store.Fault, undo: RemoveOutcome): (State, bool) {
    var (st1, saved) := RecordTorrent(st, id, p, t, f);
    if saved then (st1.(board := Actor.Put(st1.board, t)), true)
    else (st1.(engine := Registry.Remove(st1.engine, id, false, undo).0), false)
  }

  // Pause and resume: the engine first, then the record, and the engine again
  // if the record cannot be saved.
  ghost function SetDesired(st: State, id: TorrentID, paused: bool, f: Store.Fault): (State, bool) {
    var state := if paused then Paused else Downloading;
    var (e1, ok) := SetPaused(st.engine, id, paused);
    if id !in st.board.torrents || !ok then (st, false)
    else
      var (st1, saved) := UpdateRecord(st.(engine := e1, scheduled := st.scheduled - {id}), id, Desire(state), f);
      if !saved then (st1.(engine := SetPaused(e1, id, !paused).0), false)
      else (st1.(board := Actor.Put(st1.board, st1.board.torrents[id].(state := state))), true)
  }

  ghost function VerifyCommand(st: State, id: TorrentID, verified: bool, interruption: Interruption): (State, bool) {
    if id !in st.board.torrents then (st, false)
    else
      var wasPaused := st.board.torrents[id].state == Paused;
      var (e1, stopped) := if wasPaused then (st.engine, true) else SetPaused(st.engine, id, true);
      if !stopped then (st, false)
      else
        var st1 := st.(engine := e1, scheduled := if wasPaused then st.scheduled else st.scheduled - {id});
        var e2 := if wasPaused then e1 else SetPaused(e1, id, false).0;
        if id !in e1.torrents || e1.torrents[id].torrent.pieceLength.None? || !verified then (st1.(engine := e2), false)
        else if !wasPaused && interruption == BeforeResume then (st1, false)
        else if interruption != Uninterrupted then (st1.(engine := e2), false)
        else (st1.(engine := TakeSnapshot(e2, id).0), true)
  }

  ghost function SetSequentialFlag(st: State, id: TorrentID, enabled: bool, f: Store.Fault): (State, bool) {
    var (e1, ok) := SetSequential(st.engine, id, enabled);
    if id !in st.board.torrents || !ok then (st, false)
    else
      var t := st.board.torrents[id];
      var (st1, saved) := UpdateRecord(st.(engine := e1), id, Sequence(enabled), f);
      if !saved then (st1.(engine := SetSequential(e1, id, t.sequential).0), false)
      else (st1.(board := Actor.Put(st1.board, t.(sequential := enabled))), true)
  }

  ghost function SetFilePriorityOf(st: State, id: TorrentID, index: int, p: FilePriority, f: Store.Fault): (State, bool) {
    var previous := FilePriorityOf(st.session, id, index);
    if id !in st.board.torrents || previous.None? then (st, false)
    else
      var (e1, ok) := Registry.SetFilePriority(st.engine, id, index, p);
      if !ok then (st, false)
      else
        var (st1, saved) := UpdateFilePriority(st.(engine := e1), id, index, p, f);
        if saved then (st1, true)
        else (st1.(engine := Registry.SetFilePriority(e1, id, index, previous.value).0), false)
  }

  // The record goes first. If the engine then refuses, the session comes back.
  ghost function RemoveCommand(st: State, id: TorrentID, deleteData: bool, o: RemoveOutcome, f: Store.Fault, g: Store.Fault): (State, bool) {
    var (st1, ok) := RemoveRecord(st, id, f);
    if !ok then (st1, false) else Withdraw(st1, CloneSession(st.session), id, deleteData, o, g)
  }

  ghost function Withdraw(st: State, previous: Session, id: TorrentID, deleteData: bool, o: RemoveOutcome, g: Store.Fault): (State, bool) {
    var (e2, removed) := Registry.Remove(st.engine, id, deleteData, o);
    if !removed then (Commit(st.(engine := e2), previous, g).0, false)
    else
      var (board, known) := Actor.Delete(st.board, id);
      (st.(engine := e2, scheduled := st.scheduled - {id}, board := board), known)
  }

  ghost function MoveCommand(st: State, id: TorrentID, offset: int, f: Store.Fault, g: Store.Fault): (State, bool) {
    var clone := CloneSession(st.session);
    if id !in Ids(clone) then (st, false)
    else
      var (st1, saved) := Commit(st, clone.(order := Some(Actor.Shifted(Ids(clone), id, offset))), f);
      if !saved then (st1, false)
      else
        var (board, ok) := Actor.Move(st1.board, id, offset);
        if ok then (st1.(board := board), true) else (Commit(st1, clone, g).0, false)
  }

  // ---------------------------------------------------------------- scheduling

  // Skips the engine when the cache says it runs, or pauses, already.
  ghost function SetScheduled(st: State, id: TorrentID, running: bool): (State, bool) {
    if id in st.scheduled && st.scheduled[id] == running then (st, true)
    else
      var (e, ok) := SetPaused(st.engine, id, !running);
      (if ok then st.(engine := e, scheduled := st.scheduled[id := running]) else st, ok)
  }

  // The engine's snapshot, or the old one if the engine has none.
  ghost function Refreshed(st: State, t: Snapshot): (State, Snapshot) {
    var (e, latest) := TakeSnapshot(st.engine, t.id);
    (st.(engine := e), if latest.Some? then latest.value else t)
  }

  predicate IsSeed(t: Snapshot) {
    t.progress >= 1.0
  }

  function Limit(c: Config, seed: bool): int {
    if seed then c.maxActiveSeeds else c.maxActiveDownloads
  }

  datatype Active = Active(downloads: nat, seeds: nat) {
    function Of(seed: bool): nat {
      if seed then seeds else downloads
    }

    function Plus(seed: bool): Active {
      if seed then this.(seeds := seeds + 1) else this.(downloads := downloads + 1)
    }
  }

  // Pauses a torrent and shows it in the given state.
  ghost function Stop(st: State, t: Snapshot, state: TorrentState): State {
    var (st1, latest) := Refreshed(SetScheduled(st, t.id, false).0, t);
    st1.(board := Actor.Put(st1.board, latest.(state := state)))
  }

  ghost function Start(st: State, t: Snapshot): (State, bool) {
    var (st1, ok) := SetScheduled(st, t.id, true);
    if !ok then (st1, false)
    else
      var (st2, latest) := Refreshed(st1, t);
      (st2.(board := Actor.Put(st2.board, latest)), true)
  }

  // One torrent of the pass.
  ghost function Schedule(st: State, t: Snapshot, active: Active): (State, Active) {
    if t.id !in Records(st.session) then (st, active)
    else if Records(st.session)[t.id].desired == Paused then (Stop(st, t, Paused), active)
    else if Limit(st.config, IsSeed(t)) > 0 && active.Of(IsSeed(t)) >= Limit(st.config, IsSeed(t)) then
      (Stop(st, t, Queued), active)
    else
      var (st1, ok) := Start(st, t);
      (st1, if ok then active.Plus(IsSeed(t)) else active)
  }

  ghost function Pass(st: State, torrents: seq<Snapshot>, active: Active): State
    decreases |torrents|
  {
    if torrents == [] then st
    else
      var (st1, active1) := Schedule(st, torrents[0], active);
      Pass(st1, torrents[1..], active1)
  }

  // The actor's snapshots in its order, taken before the pass.
  function Listed(b: Actor.Board): (r: seq<Snapshot>)
    requires Actor.Consistent(b)
    ensures |r| == |b.order|
    ensures forall i | 0 <= i < |r| :: b.order[i] in b.torrents && r[i] == b.torrents[b.order[i]]
  {
    assert forall i | 0 <= i < |b.order| :: b.order[i] in Elements(b.order);
    seq(|b.order|, i requires 0 <= i < |b.order| && b.order[i] in b.torrents => b.torrents[b.order[i]])
  }

  ghost function Reconcile(st: State): State {
    if Actor.Consistent(st.board) then Pass(st, Listed(st.board), Active(0, 0)) else st
  }

  // ---------------------------------------------------------------- one step

  ghost function Perform(st: State, c: Command): State {
    match c
    case AddTorrent(p, reply, cut, f, undo) => AddCommand(st, p, reply, cut, f, undo).0
    case PauseTorrent(id, f) => SetDesired(st, id, true, f).0
    case ResumeTorrent(id, f) => SetDesired(st, id, false, f).0
    case VerifyTorrent(id, verified, interruption) => VerifyCommand(st, id, verified, interruption).0
    case SetSequentialMode(id, enabled, f) => SetSequentialFlag(st, id, enabled, f).0
    case SetPriority(id, index, p, f) => SetFilePriorityOf(st, id, index, p, f).0
    case RemoveTorrent(id, deleteData, o, f, g) => RemoveCommand(st, id, deleteData, o, f, g).0
    case MoveTorrent(id, offset, f, g) => MoveCommand(st, id, offset, f, g).0
    case Tick => Reconcile(st)
    case Library(id, h) =>
      if id in st.engine.torrents && LibraryMove(st.engine.torrents[id].torrent, h)
      then st.(engine := Next(st.engine, DoLibrary(id, h))) else st
    case GotInfo(id, serial) => st.(engine := Callback(st.engine, id, serial))
  }
}
