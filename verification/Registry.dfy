/** The engine's registry of torrents, above the library's client. */
module Registry {
  import opened Model
  import opened Sequential

  datatype AddInput = AddInput(
    paused: bool,
    source: string,
    savePath: string,
    sequential: bool,
    filePriorities: map<nat, FilePriority>)

  // The library's answer to an added torrent: an error, or its info hash and the
  // handle a new torrent gets.
  datatype AddReply = Rejected | Accepted(id: TorrentID, handle: Handle, now: int)

  datatype AddResult = Failed | Known(id: TorrentID) | Created(id: TorrentID)

  /** How far a removal gets. `Refused` is any failure before the torrent is dropped: with
      `deleteData` missing metadata, an unsafe or a shared file, and without it only the stop of the
      daemon. After the drop, closing the storage or deleting the files can fail; with `deleteData` the
      torrent is then added back, which yields a new handle or fails in its turn. */
  datatype RemoveOutcome = Removed | Refused | Broken(restored: Option<Handle>)

  /** `live` is the library client's own table: the serial of the handle it runs for an id. */
  datatype EngineState = EngineState(
    torrents: map<TorrentID, Entry>,
    live: map<TorrentID, nat>,
    serials: nat)

  // ---------------------------------------------------------------- priorities

  function PieceOf(p: FilePriority): PiecePriority {
    match p
    case Skip => PieceNone
    case High => PieceHigh
    case _ => PieceNormal
  }

  function SavedPriority(priorities: map<nat, FilePriority>, index: nat): FilePriority {
    if index in priorities then priorities[index] else Normal
  }

  function WithPriority(h: Handle, index: nat, p: PiecePriority): (r: Handle)
    requires index < |h.files|
    ensures r == h.(files := h.files[index := h.files[index].(priority := p)])
  {
    var files := h.files[index := h.files[index].(priority := p)];
    assert Ordered(files);
    h.(files := files)
  }

  // Every file gets its saved priority, normal if it has none.
  function WithSaved(h: Handle, priorities: map<nat, FilePriority>): (r: Handle)
    ensures r == h.(files := r.files) && |r.files| == |h.files|
    ensures forall i | 0 <= i < |h.files| ::
              r.files[i] == h.files[i].(priority := PieceOf(SavedPriority(priorities, i)))
  {
    var files := seq(|h.files|, i requires 0 <= i < |h.files| =>
      h.files[i].(priority := PieceOf(SavedPriority(priorities, i))));
    assert Ordered(files);
    h.(files := files)
  }

  // The files get their priorities and the window is set up.
  ghost function Restarted(e: Entry): (r: Entry)
    ensures r == e.(torrent := r.torrent, boosted := r.boosted)
    ensures r.torrent.serial == e.torrent.serial && r.torrent.pieceLength == e.torrent.pieceLength
  {
    Updated(e.(torrent := WithSaved(e.torrent, e.filePriorities)))
  }

  // One file's priority changes, and the window follows.
  ghost function Prioritized(e: Entry, index: nat, p: FilePriority): (r: Entry)
    requires index < |e.torrent.files|
    ensures r == e.(torrent := r.torrent, boosted := r.boosted, filePriorities := e.filePriorities[index := p])
    ensures r.torrent.serial == e.torrent.serial && r.torrent.pieceLength == e.torrent.pieceLength
    ensures |r.torrent.files| == |e.torrent.files|
  {
    Updated(e.(torrent := WithPriority(e.torrent, index, PieceOf(p)), filePriorities := e.filePriorities[index := p]))
  }

  // ---------------------------------------------------------------- operations

  ghost function Add(e: EngineState, input: AddInput, reply: AddReply): (EngineState, AddResult) {
    if input.savePath == "" || reply.Rejected? then (e, Failed)
    else if reply.id in e.live then (e, Known(reply.id))
    else
      var entry := Entry(reply.handle.(serial := e.serials), input.source, input.savePath, reply.now,
                         input.filePriorities, input.sequential, map[], input.paused);
      (EngineState(e.torrents[reply.id := entry], e.live[reply.id := e.serials], e.serials + 1), Created(reply.id))
  }

  // The metadata callback started by the add that made the handle `serial`.
  ghost function Callback(e: EngineState, id: TorrentID, serial: nat): EngineState {
    if id !in e.torrents || e.torrents[id].torrent.serial != serial then e
    else e.(torrents := e.torrents[id := Restarted(e.torrents[id])])
  }

  ghost function SetPaused(e: EngineState, id: TorrentID, paused: bool): (EngineState, bool) {
    if id !in e.torrents then (e, false)
    else (e.(torrents := e.torrents[id := e.torrents[id].(paused := paused)]), true)
  }

  ghost function SetSequential(e: EngineState, id: TorrentID, enabled: bool): (EngineState, bool) {
    if id !in e.torrents then (e, false)
    else (e.(torrents := e.torrents[id := Updated(e.torrents[id].(sequential := enabled))]), true)
  }

  ghost function SetFilePriority(e: EngineState, id: TorrentID, index: int, p: FilePriority): (EngineState, bool) {
    if id !in e.torrents then (e, false)
    else
      var entry := e.torrents[id];
      if entry.torrent.pieceLength.None? || !(0 <= index < |entry.torrent.files|) then (e, false)
      else
        (e.(torrents := e.torrents[id := Prioritized(entry, index, p)]), true)
  }

  function SnapshotOf(id: TorrentID, e: Entry): Snapshot {
    var t := e.torrent;
    Snapshot(id, t.name,
             if e.paused then Paused
             else if t.pieceLength.None? then FetchingMetadata
             else if t.bytesCompleted >= t.length then Seeding
             else Downloading,
             if t.length > 0 then t.bytesCompleted as real / t.length as real else 0.0,
             e.sequential, e.addedAt, false)
  }

  // Taking a snapshot also moves the window on.
  ghost function TakeSnapshot(e: EngineState, id: TorrentID): (EngineState, Option<Snapshot>) {
    if id !in e.torrents then (e, None)
    else
      var entry := Updated(e.torrents[id]);
      (e.(torrents := e.torrents[id := entry]), Some(SnapshotOf(id, entry)))
  }

  // The client forgets the torrent, if it runs this handle.
  function Dropped(live: map<TorrentID, nat>, id: TorrentID, serial: nat): map<TorrentID, nat> {
    if id in live && live[id] == serial then live - {id} else live
  }

  ghost function AddBack(entry: Entry, h: Handle, serial: nat): (r: Entry)
    ensures r == entry.(torrent := r.torrent, boosted := r.boosted) && r.torrent.serial == serial
  {
    Restarted(entry.(torrent := h.(serial := serial), boosted := map[]))
  }

  ghost function Remove(e: EngineState, id: TorrentID, deleteData: bool, o: RemoveOutcome): (EngineState, bool) {
    if id !in e.torrents || o.Refused? || (deleteData && e.torrents[id].torrent.pieceLength.None?) then (e, false)
    else
      var live := Dropped(e.live, id, e.torrents[id].torrent.serial);
      if o.Removed? then (EngineState(e.torrents - {id}, live, e.serials), true)
      else if !deleteData || o.restored.None? then (e.(live := live), false)
      else
        (EngineState(e.torrents[id := AddBack(e.torrents[id], o.restored.value, e.serials)],
                     live[id := e.serials], e.serials + 1), false)
  }

  // What a removal and a change of priority ask for.
  predicate Removable(e: EngineState, id: TorrentID, deleteData: bool, o: RemoveOutcome) {
    id in e.torrents && o.Removed? && (deleteData ==> e.torrents[id].torrent.pieceLength.Some?)
  }

  predicate Prioritizable(e: EngineState, id: TorrentID, index: int) {
    id in e.torrents && e.torrents[id].torrent.pieceLength.Some? && 0 <= index < |e.torrents[id].torrent.files|
  }

  lemma RemoveSucceedsExactly(e: EngineState, id: TorrentID, deleteData: bool, o: RemoveOutcome)
    ensures Remove(e, id, deleteData, o).1 <==> Removable(e, id, deleteData, o)
  {
  }

  lemma SetFilePrioritySucceedsExactly(e: EngineState, id: TorrentID, index: int, p: FilePriority)
    ensures SetFilePriority(e, id, index, p).1 <==> Prioritizable(e, id, index)
  {
  }

  // ---------------------------------------------------------------- runs

  // What the library may do to a handle on its own: metadata arrives, pieces
  // are completed or found bad. Priorities stay as they are.
  ghost predicate LibraryMove(h: Handle, h': Handle) {
    && h'.serial == h.serial && h'.own == h.own
    && (h.pieceLength.Some? ==> h'.pieceLength == h.pieceLength && h'.files == h.files)
  }

  datatype Step =
    | DoAdd(input: AddInput, reply: AddReply)
    | DoCallback(id: TorrentID, serial: nat)
    | DoSetPaused(id: TorrentID, paused: bool)
    | DoSetSequential(id: TorrentID, enabled: bool)
    | DoSetFilePriority(id: TorrentID, index: int, priority: FilePriority)
    | DoSnapshot(id: TorrentID)
    | DoRemove(id: TorrentID, deleteData: bool, outcome: RemoveOutcome)
    | DoLibrary(id: TorrentID, handle: Handle)

  // A handle fresh from the library has no piece with a priority of its own.
  ghost predicate Possible(e: EngineState, s: Step) {
    match s
    case DoAdd(_, Accepted(_, h, _)) => h.own == map[]
    case DoRemove(_, _, Broken(Some(h))) => h.own == map[]
    case DoLibrary(id, h) => id in e.torrents && LibraryMove(e.torrents[id].torrent, h)
    case _ => true
  }

  ghost function Next(e: EngineState, s: Step): EngineState
    requires Possible(e, s)
  {
    match s
    case DoAdd(input, reply) => Add(e, input, reply).0
    case DoCallback(id, serial) => Callback(e, id, serial)
    case DoSetPaused(id, paused) => SetPaused(e, id, paused).0
    case DoSetSequential(id, enabled) => SetSequential(e, id, enabled).0
    case DoSetFilePriority(id, index, p) => SetFilePriority(e, id, index, p).0
    case DoSnapshot(id) => TakeSnapshot(e, id).0
    case DoRemove(id, deleteData, o) => Remove(e, id, deleteData, o).0
    case DoLibrary(id, h) => e.(torrents := e.torrents[id := e.torrents[id].(torrent := h)])
  }

  // Some run of steps leads from e to e'.
  ghost predicate Run(e: EngineState, steps: seq<Step>, e': EngineState)
    decreases |steps|
  {
    if steps == [] then e' == e
    else Possible(e, steps[0]) && Run(Next(e, steps[0]), steps[1..], e')
  }

  const Empty := EngineState(map[], map[], 0)

  // ---------------------------------------------------------------- invariants

  ghost predicate GoodEntry(e: Entry) {
    && Boosted(e)
    && (!e.sequential || e.torrent.pieceLength.None? ==> e.torrent.own == map[])
  }

  // Boosts are real, off without sequential mode, and every torrent the client
  // runs is the registered one. A registered torrent need not run: a removal
  // that breaks after the drop leaves its entry behind.
  ghost predicate GoodEngine(e: EngineState) {
    && (forall id | id in e.torrents :: GoodEntry(e.torrents[id]) && e.torrents[id].torrent.serial < e.serials)
    && (forall id | id in e.live :: id in e.torrents && e.live[id] == e.torrents[id].torrent.serial)
  }

  ghost predicate AllLive(e: EngineState) {
    e.torrents.Keys == e.live.Keys
  }

  // An update makes any entry with real boosts good.
  lemma UpdatedIsGood(e: Entry)
    requires Boosted(e) && (e.torrent.pieceLength.None? ==> e.torrent.own == map[])
    ensures GoodEntry(Updated(e))
  {
    if e.torrent.pieceLength.Some? {
      UpdatedIsWindow(e);
    }
  }

  lemma RestartedIsGood(e: Entry)
    requires Boosted(e) && (e.torrent.pieceLength.None? ==> e.torrent.own == map[])
    ensures GoodEntry(Restarted(e))
  {
    UpdatedIsGood(e.(torrent := WithSaved(e.torrent, e.filePriorities)));
  }

  // Replacing an entry by a good one of the same incarnation.
  lemma PutKeepsGood(e: EngineState, id: TorrentID, entry: Entry)
    requires GoodEngine(e) && id in e.torrents
    requires GoodEntry(entry) && entry.torrent.serial == e.torrents[id].torrent.serial
    ensures GoodEngine(e.(torrents := e.torrents[id := entry]))
  {
  }

  lemma SetFilePriorityKeepsGood(e: EngineState, id: TorrentID, index: int, p: FilePriority)
    requires GoodEngine(e)
    ensures GoodEngine(SetFilePriority(e, id, index, p).0) && e.serials <= SetFilePriority(e, id, index, p).0.serials
  {
    if SetFilePriority(e, id, index, p).1 {
      var entry := e.torrents[id];
      entry := entry.(torrent := WithPriority(entry.torrent, index, PieceOf(p)),
                      filePriorities := entry.filePriorities[index := p]);
      UpdatedIsGood(entry);
      PutKeepsGood(e, id, Updated(entry));
    }
  }

  lemma AddBackIsGood(entry: Entry, h: Handle, serial: nat)
    requires h.own == map[]
    ensures GoodEntry(AddBack(entry, h, serial))
  {
    RestartedIsGood(entry.(torrent := h.(serial := serial), boosted := map[]));
  }

  lemma RemoveKeepsGood(e: EngineState, id: TorrentID, deleteData: bool, o: RemoveOutcome)
    requires GoodEngine(e) && (o.Broken? && o.restored.Some? ==> o.restored.value.own == map[])
    ensures GoodEngine(Remove(e, id, deleteData, o).0) && e.serials <= Remove(e, id, deleteData, o).0.serials
  {
    hide AddBack, GoodEntry;
    if id in e.torrents && o.Broken? && o.restored.Some? {
      AddBackIsGood(e.torrents[id], o.restored.value, e.serials);
    }
  }

  lemma AddKeepsGood(e: EngineState, input: AddInput, reply: AddReply)
    requires GoodEngine(e) && (reply.Accepted? ==> reply.handle.own == map[])
    ensures GoodEngine(Add(e, input, reply).0) && e.serials <= Add(e, input, reply).0.serials
  {
  }

  lemma CallbackKeepsGood(e: EngineState, id: TorrentID, serial: nat)
    requires GoodEngine(e)
    ensures GoodEngine(Callback(e, id, serial)) && e.serials <= Callback(e, id, serial).serials
  {
    hide Restarted, GoodEntry;
    if id in e.torrents {
      assert Boosted(e.torrents[id]) && (e.torrents[id].torrent.pieceLength.None? ==> e.torrents[id].torrent.own == map[]) by {
        GoodEntryMeans(e.torrents[id]);
      }
      RestartedIsGood(e.torrents[id]);
      PutKeepsGood(e, id, Restarted(e.torrents[id]));
    }
  }

  lemma GoodEntryMeans(e: Entry)
    requires GoodEntry(e)
    ensures Boosted(e) && (e.torrent.pieceLength.None? ==> e.torrent.own == map[])
  {
  }

  lemma SetPausedKeepsGood(e: EngineState, id: TorrentID, paused: bool)
    requires GoodEngine(e)
    ensures GoodEngine(SetPaused(e, id, paused).0) && e.serials <= SetPaused(e, id, paused).0.serials
  {
    if id in e.torrents {
      PutKeepsGood(e, id, e.torrents[id].(paused := paused));
    }
  }

  lemma SetSequentialKeepsGood(e: EngineState, id: TorrentID, enabled: bool)
    requires GoodEngine(e)
    ensures GoodEngine(SetSequential(e, id, enabled).0) && e.serials <= SetSequential(e, id, enabled).0.serials
  {
    if id in e.torrents {
      UpdatedIsGood(e.torrents[id].(sequential := enabled));
      PutKeepsGood(e, id, Updated(e.torrents[id].(sequential := enabled)));
    }
  }

  lemma SnapshotKeepsGood(e: EngineState, id: TorrentID)
    requires GoodEngine(e)
    ensures GoodEngine(TakeSnapshot(e, id).0) && e.serials <= TakeSnapshot(e, id).0.serials
  {
    if id in e.torrents {
      UpdatedIsGood(e.torrents[id]);
      PutKeepsGood(e, id, Updated(e.torrents[id]));
    }
  }

  lemma LibraryKeepsGood(e: EngineState, id: TorrentID, h: Handle)
    requires GoodEngine(e) && id in e.torrents && LibraryMove(e.torrents[id].torrent, h)
    ensures GoodEngine(e.(torrents := e.torrents[id := e.torrents[id].(torrent := h)]))
  {
    PutKeepsGood(e, id, e.torrents[id].(torrent := h));
  }

  lemma NextKeepsGood(e: EngineState, s: Step)
    requires GoodEngine(e) && Possible(e, s)
    ensures GoodEngine(Next(e, s)) && e.serials <= Next(e, s).serials
  {
    hide GoodEngine, Add, Callback, SetPaused, SetSequential, SetFilePriority, TakeSnapshot, Remove;
    match s
    case DoAdd(input, reply) => AddKeepsGood(e, input, reply);
    case DoCallback(id, serial) => CallbackKeepsGood(e, id, serial);
    case DoSetPaused(id, paused) => SetPausedKeepsGood(e, id, paused);
    case DoSetSequential(id, enabled) => SetSequentialKeepsGood(e, id, enabled);
    case DoSetFilePriority(id, index, p) => SetFilePriorityKeepsGood(e, id, index, p);
    case DoSnapshot(id) => SnapshotKeepsGood(e, id);
    case DoRemove(id, deleteData, o) => RemoveKeepsGood(e, id, deleteData, o);
    case DoLibrary(id, h) => LibraryKeepsGood(e, id, h);
  }

  // In every reachable state each piece's own priority is the boost the entry
  // remembers, and there is none once sequential mode is off.
  lemma {:induction false} ReachableIsGood(e: EngineState, steps: seq<Step>, e': EngineState)
    requires GoodEngine(e) && Run(e, steps, e')
    ensures GoodEngine(e') && e.serials <= e'.serials
    decreases |steps|
  {
    if steps != [] {
      NextKeepsGood(e, steps[0]);
      ReachableIsGood(Next(e, steps[0]), steps[1..], e');
    }
  }

  // A removal that breaks after the drop and gets no new handle.
  predicate LosesHandle(e: EngineState, s: Step) {
    && s.DoRemove? && s.id in e.torrents && s.outcome.Broken?
    && if s.deleteData then e.torrents[s.id].torrent.pieceLength.Some? && s.outcome.restored.None? else true
  }

  // That is the only step after which a registered torrent is not one the
  // client runs.
  lemma RegisteredStayLiveExactly(e: EngineState, s: Step)
    requires GoodEngine(e) && AllLive(e) && Possible(e, s)
    ensures AllLive(Next(e, s)) <==> !LosesHandle(e, s)
  {
    if s.DoRemove? && s.id in e.torrents {
      var e' := Next(e, s);
      assert s.id in e.live;
      assert LosesHandle(e, s) ==> s.id in e'.torrents && s.id !in e'.live;
      forall x | x != s.id ensures x in e'.torrents <==> x in e'.live {
        assert x in e.torrents.Keys <==> x in e.live.Keys;
      }
    }
  }

  // ---------------------------------------------------------------- incarnations

  ghost predicate Gone(e: EngineState, id: TorrentID, serial: nat) {
    serial < e.serials && (id !in e.torrents || e.torrents[id].torrent.serial != serial)
  }

  lemma NextKeepsGone(e: EngineState, s: Step, id: TorrentID, serial: nat)
    requires Gone(e, id, serial) && Possible(e, s)
    ensures Gone(Next(e, s), id, serial)
  {
  }

  // Once an incarnation is removed or replaced, its metadata callback never
  // changes anything again, whatever happens to the id in between.
  lemma {:induction false} StaleCallbackDoesNothing(e: EngineState, steps: seq<Step>, e': EngineState, id: TorrentID, serial: nat)
    requires Gone(e, id, serial) && Run(e, steps, e')
    ensures Callback(e', id, serial) == e'
    decreases |steps|
  {
    if steps != [] {
      NextKeepsGone(e, steps[0], id, serial);
      StaleCallbackDoesNothing(Next(e, steps[0]), steps[1..], e', id, serial);
    }
  }

  // A removed torrent, a re-added one and one restored after a failed deletion
  // are all beyond the reach of the callback of the incarnation before.
  lemma RemovalEndsIncarnation(e: EngineState, id: TorrentID, deleteData: bool, o: RemoveOutcome)
    requires GoodEngine(e) && id in e.torrents
    ensures var (e', ok) := Remove(e, id, deleteData, o);
            (ok || (e' != e && id in e'.live)) ==> Gone(e', id, e.torrents[id].torrent.serial)
    ensures forall input, reply :: Add(e, input, reply).1 == Created(id) ==>
              Gone(Add(e, input, reply).0, id, e.torrents[id].torrent.serial)
  {
  }

  // The late callback and a file-priority change of the same incarnation commute.
  lemma CallbackCommutes(e: EngineState, id: TorrentID, serial: nat, index: int, p: FilePriority)
    requires GoodEngine(e)
    ensures var (first, ok) := SetFilePriority(e, id, index, p);
            var (second, ok') := SetFilePriority(Callback(e, id, serial), id, index, p);
            Callback(first, id, serial) == second && ok == ok'
  {
    if id in e.torrents && e.torrents[id].torrent.serial == serial && SetFilePriority(e, id, index, p).1 {
      PriorityAndRestartCommute(e.torrents[id], index, p);
      BothWays(e, id, serial, index, p);
    }
  }

  lemma BothWays(e: EngineState, id: TorrentID, serial: nat, index: int, p: FilePriority)
    requires id in e.torrents && e.torrents[id].torrent.serial == serial && e.torrents[id].torrent.pieceLength.Some?
    requires 0 <= index < |e.torrents[id].torrent.files| == |Restarted(e.torrents[id]).torrent.files|
    requires Restarted(Prioritized(e.torrents[id], index, p)) == Prioritized(Restarted(e.torrents[id]), index, p)
    ensures var (first, ok) := SetFilePriority(e, id, index, p);
            var (second, ok') := SetFilePriority(Callback(e, id, serial), id, index, p);
            Callback(first, id, serial) == second && ok == ok'
  {
    var entry := e.torrents[id];
    var a, b := Prioritized(entry, index, p), Restarted(entry);
    PutTwice(e.torrents, id, a, Restarted(a));
    PutTwice(e.torrents, id, b, Restarted(a));
  }

  lemma PutTwice<K, V>(m: map<K, V>, k: K, a: V, b: V)
    ensures m[k := a][k := b] == m[k := b]
  {
  }

  lemma PriorityAndRestartCommute(e: Entry, index: nat, p: FilePriority)
    requires Boosted(e) && e.torrent.pieceLength.Some? && index < |e.torrent.files|
    ensures |Restarted(e).torrent.files| == |e.torrent.files|
    ensures Restarted(Prioritized(e, index, p)) == Prioritized(Restarted(e), index, p)
  {
    var saved := e.filePriorities[index := p];
    var a, b := Prioritized(e, index, p), Restarted(e);
    UpdatedIsWindow(e.(torrent := WithPriority(e.torrent, index, PieceOf(p)), filePriorities := saved));
    UpdatedIsWindow(e.(torrent := WithSaved(e.torrent, e.filePriorities)));
    var a' := a.(torrent := WithSaved(a.torrent, saved));
    var b' := b.(torrent := WithPriority(b.torrent, index, PieceOf(p)), filePriorities := saved);
    assert a'.torrent.files == b'.torrent.files;
    SameFilesSameUpdate(a', b');
  }

  // The window depends on the files and the completion alone, so entries that
  // differ only in their (real) boosts become equal.
  lemma SameFilesSameUpdate(a: Entry, b: Entry)
    requires Boosted(a) && Boosted(b) && a.torrent.pieceLength.Some?
    requires b == a.(torrent := a.torrent.(own := b.torrent.own), boosted := b.boosted)
    ensures Updated(a) == Updated(b)
  {
    UpdatedIsWindow(a);
    UpdatedIsWindow(b);
    WindowIgnoresBoosts(a.torrent, b.torrent, a.sequential);
  }

  // Exactly a skipped file is asked for no pieces, and a piece that keeps a
  // boost is still wanted by some other file.
  lemma SkippedFileIsUnwanted(e: EngineState, id: TorrentID, index: int, p: FilePriority)
    requires GoodEngine(e) && Prioritizable(e, id, index)
    ensures Refiled(e.torrents[id].torrent, SetFilePriority(e, id, index, p).0.torrents[id].torrent, index, p)
  {
    hide Prioritized, Refiled;
    RefiledEntry(e.torrents[id], index, p);
  }

  ghost predicate Refiled(h: Handle, h': Handle, index: nat, p: FilePriority)
    requires index < |h.files|
  {
    && |h'.files| == |h.files|
    && (forall i: nat :: Unfinished(h', index, i) <==>
          p != Skip && h.files[index].begin <= i < h.files[index].end && i !in h.complete)
    && (forall i | i in h'.own :: exists f :: 0 <= f < |h'.files| && Unfinished(h', f, i) && (p == Skip ==> f != index))
  }

  lemma RefiledEntry(entry: Entry, index: nat, p: FilePriority)
    requires Boosted(entry) && entry.torrent.pieceLength.Some? && index < |entry.torrent.files|
    ensures Refiled(entry.torrent, Prioritized(entry, index, p).torrent, index, p)
  {
    hide Refiled, Wanted;
    var changed := entry.(torrent := WithPriority(entry.torrent, index, PieceOf(p)), filePriorities := entry.filePriorities[index := p]);
    UpdatedIsWindow(changed);
    var h' := Prioritized(entry, index, p).torrent;
    WantedShrinks(changed.torrent, h');
    RefiledHandle(entry.torrent, h', index, p);
  }

  lemma RefiledHandle(h: Handle, h': Handle, index: nat, p: FilePriority)
    requires index < |h.files| && h'.files == h.files[index := h.files[index].(priority := PieceOf(p))]
    requires h'.complete == h.complete && h'.own.Keys <= Wanted(h')
    ensures Refiled(h, h', index, p)
  {
    hide Wanted;
    forall i | i in h'.own ensures exists f :: 0 <= f < |h'.files| && Unfinished(h', f, i) && (p == Skip ==> f != index) {
      assert i in Wanted(h');
    }
  }

  // What the library downloads first: the higher of a piece's own priority and
  // the priorities of the files it belongs to.
  function Rank(p: PiecePriority): nat {
    match p
    case PieceNone => 0
    case PieceNormal => 1
    case PieceHigh => 2
    case PieceReadahead => 3
    case PieceNow => 4
  }

  ghost predicate FromFiles(h: Handle, i: nat, r: nat) {
    && (forall f | 0 <= f < |h.files| && h.files[f].begin <= i < h.files[f].end :: Rank(h.files[f].priority) <= r)
    && (r == 0 || exists f :: 0 <= f < |h.files| && h.files[f].begin <= i < h.files[f].end && Rank(h.files[f].priority) == r)
  }

  ghost predicate Effective(h: Handle, i: nat, r: nat) {
    var own := Rank(OwnPriority(h.own, i));
    exists f: nat :: FromFiles(h, i, f) && r == if own < f then f else own
  }

  // Switching sequential mode off gives every piece its file policy back.
  lemma DisablingRestoresFilePolicy(e: EngineState, id: TorrentID, i: nat, r: nat)
    requires GoodEngine(e) && id in e.torrents
    ensures var t := SetSequential(e, id, false).0.torrents[id].torrent;
            && t.files == e.torrents[id].torrent.files
            && (Effective(t, i, r) <==> FromFiles(t, i, r))
  {
    var entry := e.torrents[id].(sequential := false);
    UpdatedIsGood(entry);
  }

  // A failed deletion that could add the torrent back keeps its settings on a
  // new live handle, with the window set up again.
  lemma RestoreKeepsSettings(e: EngineState, id: TorrentID, o: RemoveOutcome)
    requires GoodEngine(e) && id in e.torrents && e.torrents[id].torrent.pieceLength.Some?
    requires o.Broken? && o.restored.Some? && o.restored.value.own == map[] && o.restored.value.pieceLength.Some?
    ensures var (e', ok) := Remove(e, id, true, o);
            var a, b := e.torrents[id], e'.torrents[id];
            && !ok
            && e'.torrents.Keys == e.torrents.Keys
            && (forall other | other in e.torrents && other != id :: e'.torrents[other] == e.torrents[other])
            && (b.paused, b.sequential, b.filePriorities, b.savePath) == (a.paused, a.sequential, a.filePriorities, a.savePath)
            && (b.source, b.addedAt) == (a.source, a.addedAt)
            && e'.live[id] == b.torrent.serial && b.torrent.serial != a.torrent.serial
            && b.torrent.own == Window(WithSaved(o.restored.value, a.filePriorities), a.sequential)
  {
    hide Restarted, Window;
    var entry, plain := e.torrents[id], WithSaved(o.restored.value, e.torrents[id].filePriorities);
    FreshRestart(entry.(torrent := o.restored.value.(serial := e.serials), boosted := map[]), plain);
  }

  lemma FreshRestart(back: Entry, plain: Handle)
    requires back.torrent.own == map[] && back.boosted == map[] && back.torrent.pieceLength.Some?
    requires plain == WithSaved(back.torrent, back.filePriorities).(serial := plain.serial)
    ensures Restarted(back).torrent.own == Window(plain, back.sequential)
  {
    var saved := back.(torrent := WithSaved(back.torrent, back.filePriorities));
    UpdatedIsWindow(saved);
    WantedShrinks(plain, saved.torrent);
    WantedShrinks(plain, plain);
    WindowUnique(plain, back.sequential, Window(saved.torrent, back.sequential), Window(plain, back.sequential));
  }

  // What a file of this priority asks of its pieces, case by case.
  ghost predicate Grants(p: FilePriority, piece: PiecePriority) {
    && (p == Skip ==> piece == PieceNone)
    && (p == High ==> piece == PieceHigh)
    && (p != Skip && p != High ==> piece == PieceNormal)
  }

  // The metadata callback gives every file what its saved priority asks for, and
  // a file without one what a normal file has.
  lemma CallbackSetsPriorities(e: EngineState, id: TorrentID)
    requires id in e.torrents
    ensures var e' := Callback(e, id, e.torrents[id].torrent.serial);
            && id in e'.torrents && |e'.torrents[id].torrent.files| == |e.torrents[id].torrent.files|
            && e'.torrents[id].filePriorities == e.torrents[id].filePriorities
            && (forall i | 0 <= i < |e.torrents[id].torrent.files| ::
                  var saved := e.torrents[id].filePriorities;
                  Grants(if i in saved then saved[i] else Normal, e'.torrents[id].torrent.files[i].priority))
  {
  }

  // So without sequential mode the pieces of a high file come before those of
  // files that are not high.
  lemma HighFilesComeFirst(e: EngineState, id: TorrentID, f: nat, i: nat, j: nat, ri: nat, rj: nat)
    requires GoodEngine(e) && id in e.torrents && !e.torrents[id].sequential && f < |e.torrents[id].torrent.files|
    requires var h := e.torrents[id].torrent;
             && h.files[f].begin <= i < h.files[f].end && f in e.torrents[id].filePriorities && e.torrents[id].filePriorities[f] == High
             && (forall g | 0 <= g < |h.files| && h.files[g].begin <= j < h.files[g].end ::
                   g in e.torrents[id].filePriorities ==> e.torrents[id].filePriorities[g] != High)
    requires var t := Callback(e, id, e.torrents[id].torrent.serial).torrents[id].torrent;
             Effective(t, i, ri) && Effective(t, j, rj)
    ensures ri > rj
  {
    hide GoodEntry, Restarted;
    var e' := Callback(e, id, e.torrents[id].torrent.serial);
    var h, t := e.torrents[id].torrent, e'.torrents[id].torrent;
    CallbackKeepsGood(e, id, h.serial);
    CallbackSetsPriorities(e, id);
    CallbackKeepsRanges(e, id);
    GoodIsUnboosted(e'.torrents[id]);
    HighOutranks(t, f, i, j, ri, rj);
  }

  lemma GoodIsUnboosted(e: Entry)
    requires GoodEntry(e) && !e.sequential
    ensures e.torrent.own == map[]
  {
  }

  lemma CallbackKeepsRanges(e: EngineState, id: TorrentID)
    requires id in e.torrents
    ensures var e' := Callback(e, id, e.torrents[id].torrent.serial);
            && id in e'.torrents && e'.torrents[id].sequential == e.torrents[id].sequential
            && |e'.torrents[id].torrent.files| == |e.torrents[id].torrent.files|
            && forall g | 0 <= g < |e.torrents[id].torrent.files| ::
                 && e'.torrents[id].torrent.files[g].begin == e.torrents[id].torrent.files[g].begin
                 && e'.torrents[id].torrent.files[g].end == e.torrents[id].torrent.files[g].end
  {
  }

  lemma HighOutranks(t: Handle, f: nat, i: nat, j: nat, ri: nat, rj: nat)
    requires t.own == map[] && f < |t.files| && t.files[f].begin <= i < t.files[f].end && t.files[f].priority == PieceHigh
    requires forall g | 0 <= g < |t.files| && t.files[g].begin <= j < t.files[g].end :: t.files[g].priority in {PieceNone, PieceNormal}
    requires Effective(t, i, ri) && Effective(t, j, rj)
    ensures ri > rj
  {
  }

  // How much of a torrent there is.
  ghost predicate IsPortion(progress: real, bytes: nat, length: nat) {
    (length > 0 ==> progress * length as real == bytes as real) && (length == 0 ==> progress == 0.0)
  }

  // A snapshot tells what the entry is, in elementary terms.
  ghost predicate Tells(s: Snapshot, id: TorrentID, e: Entry) {
    var t := e.torrent;
    && s.id == id && s.name == t.name && s.addedAt == e.addedAt && s.sequential == e.sequential && !s.error
    && (s.state == Paused <==> e.paused)
    && (s.state == FetchingMetadata <==> !e.paused && t.pieceLength.None?)
    && (s.state == Downloading <==> !e.paused && t.pieceLength.Some? && t.bytesCompleted < t.length)
    && (s.state == Seeding <==> !e.paused && t.pieceLength.Some? && t.bytesCompleted >= t.length)
    && IsPortion(s.progress, t.bytesCompleted, t.length)
  }

  lemma SnapshotOfTells(id: TorrentID, entry: Entry)
    ensures Tells(SnapshotOf(id, entry), id, entry)
  {
  }

  lemma SnapshotTellsEntry(e: EngineState, id: TorrentID)
    requires id in e.torrents
    ensures TakeSnapshot(e, id).1.Some? && Tells(TakeSnapshot(e, id).1.value, id, e.torrents[id])
  {
    hide SnapshotOf, IsPortion, Updated;
    SnapshotOfTells(id, Updated(e.torrents[id]));
  }

  // ---------------------------------------------------------------- the object

  class Engine {
    var torrents: map<TorrentID, Entry>
    var live: map<TorrentID, nat>
    var serials: nat

    constructor ()
      ensures View() == Empty
    {
      torrents, live, serials := map[], map[], 0;
    }

    ghost function View(): EngineState
      reads this
    {
      EngineState(torrents, live, serials)
    }

    method AddTorrent(input: AddInput, reply: AddReply) returns (r: AddResult)
      modifies this
      ensures (View(), r) == Add(old(View()), input, reply)
    {
      if input.savePath == "" || reply.Rejected? {
        return Failed;
      }
      if reply.id in live {
        return Known(reply.id);
      }
      var entry := Entry(reply.handle.(serial := serials), input.source, input.savePath, reply.now,
                         input.filePriorities, input.sequential, map[], input.paused);
      torrents, live, serials := torrents[reply.id := entry], live[reply.id := serials], serials + 1;
      return Created(reply.id);
    }

    method GotInfo(id: TorrentID, added: nat)
      modifies this
      ensures View() == Callback(old(View()), id, added)
    {
      if id !in torrents || torrents[id].torrent.serial != added {
        return;
      }
      var entry := ApplySaved(torrents[id]);
      torrents := torrents[id := entry];
    }

    // Gives every file its saved priority and sets the window up.
    method ApplySaved(entry: Entry) returns (r: Entry)
      ensures r == Restarted(entry)
    {
      r := entry;
      var index := 0;
      while index < |entry.torrent.files|
        invariant index <= |entry.torrent.files| == |r.torrent.files|
        invariant r == entry.(torrent := entry.torrent.(files := r.torrent.files))
        invariant forall i | 0 <= i < |r.torrent.files| :: r.torrent.files[i] ==
                    if i < index then entry.torrent.files[i].(priority := PieceOf(SavedPriority(entry.filePriorities, i)))
                    else entry.torrent.files[i]
      {
        var priority := Normal;
        if index in entry.filePriorities {
          priority := entry.filePriorities[index];
        }
        r := r.(torrent := WithPriority(r.torrent, index, PieceOf(priority)));
        index := index + 1;
      }
      assert r.torrent.files == WithSaved(entry.torrent, entry.filePriorities).files;
      ghost var written;
      r, written := UpdateSequential(r);
    }

    method Pause(id: TorrentID) returns (ok: bool)
      modifies this
      ensures (View(), ok) == SetPaused(old(View()), id, true)
    {
      if id !in torrents {
        return false;
      }
      torrents := torrents[id := torrents[id].(paused := true)];
      return true;
    }

    method Resume(id: TorrentID) returns (ok: bool)
      modifies this
      ensures (View(), ok) == SetPaused(old(View()), id, false)
    {
      if id !in torrents {
        return false;
      }
      torrents := torrents[id := torrents[id].(paused := false)];
      return true;
    }

    method EnableSequential(id: TorrentID, enabled: bool) returns (ok: bool)
      modifies this
      ensures (View(), ok) == SetSequential(old(View()), id, enabled)
    {
      if id !in torrents {
        return false;
      }
      var entry, _ := UpdateSequential(torrents[id].(sequential := enabled));
      torrents := torrents[id := entry];
      return true;
    }

    method PrioritizeFile(id: TorrentID, index: int, priority: FilePriority) returns (ok: bool)
      modifies this
      ensures (View(), ok) == SetFilePriority(old(View()), id, index, priority)
    {
      if id !in torrents {
        return false;
      }
      var entry := torrents[id];
      if entry.torrent.pieceLength.None? {
        return false;
      }
      if index < 0 || index >= |entry.torrent.files| {
        return false;
      }
      entry := entry.(torrent := WithPriority(entry.torrent, index, PieceOf(priority)),
                      filePriorities := entry.filePriorities[index := priority]);
      ghost var written;
      entry, written := UpdateSequential(entry);
      torrents := torrents[id := entry];
      return true;
    }

    method Snapshot(id: TorrentID) returns (r: Option<Model.Snapshot>)
      modifies this
      ensures (View(), r) == TakeSnapshot(old(View()), id)
    {
      if id !in torrents {
        return None;
      }
      var entry, _ := UpdateSequential(torrents[id]);
      torrents := torrents[id := entry];
      return Some(SnapshotOf(id, entry));
    }

    // Puts a torrent whose deletion failed back, with the handle it got.
    method AddTorrentBack(id: TorrentID, entry: Entry, handle: Handle)
      modifies this
      ensures torrents == old(torrents)[id := AddBack(entry, handle, old(serials))]
      ensures live == old(live)[id := old(serials)] && serials == old(serials) + 1
    {
      var back := ApplySaved(entry.(torrent := handle.(serial := serials), boosted := map[]));
      torrents, live, serials := torrents[id := back], live[id := serials], serials + 1;
    }

    method RemoveTorrent(id: TorrentID, deleteData: bool, o: RemoveOutcome) returns (ok: bool)
      modifies this
      ensures (View(), ok) == Remove(old(View()), id, deleteData, o)
    {
      hide AddBack;
      if id !in torrents || o.Refused? {
        return false;
      }
      var entry := torrents[id];
      if deleteData && entry.torrent.pieceLength.None? {
        return false;
      }
      live := Dropped(live, id, entry.torrent.serial);
      if o.Broken? {
        if deleteData && o.restored.Some? {
          AddTorrentBack(id, entry, o.restored.value);
        }
        return false;
      }
      torrents := torrents - {id};
      return true;
    }
  }
}
