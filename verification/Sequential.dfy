/** The sequential-download window of one torrent. */
module Sequential {
  import opened Model

  datatype PiecePriority = PieceNone | PieceNormal | PieceHigh | PieceReadahead | PieceNow

  // A file of a torrent: the pieces it covers and its own priority.
  datatype File = File(begin: nat, end: nat, priority: PiecePriority)

  /** The library's handle on a torrent. Its metadata may still be missing
      (`pieceLength` is `None`, and there are no files). `own` holds the pieces whose own priority
      is not none. Two handles are the same object exactly when their serials agree. */
  datatype HandleData = Handle(
    serial: nat,
    name: string,
    pieceLength: Option<int>,
    files: seq<File>,
    complete: set<nat>,
    own: map<nat, PiecePriority>,
    bytesCompleted: nat,
    length: nat)

  type Handle = h: HandleData | ValidHandle(h) witness Handle(0, "", None, [], {}, map[], 0, 0)

  // `source` is what the torrent was added from; the code keeps what it read there.
  datatype Entry = Entry(
    torrent: Handle,
    source: string,
    savePath: string,
    addedAt: int,
    filePriorities: map<nat, FilePriority>,
    sequential: bool,
    boosted: map<nat, PiecePriority>,
    paused: bool)

  // What the library guarantees of metadata: pieces have a length and files
  // are laid out in order, so adjacent files can share pieces.
  ghost predicate Ordered(files: seq<File>) {
    forall a, b | 0 <= a < b < |files| ::
      files[a].begin <= files[b].begin && files[a].end <= files[b].end
  }

  ghost predicate ValidHandle(h: HandleData) {
    && (h.pieceLength.Some? ==> h.pieceLength.value > 0)
    && (h.pieceLength.None? ==> h.files == [])
    && Ordered(h.files)
  }

  // The pieces of a file at a byte offset, as the library computes them.
  function FileAt(offset: nat, length: nat, pieceLength: int): File
    requires pieceLength > 0
  {
    File(offset / pieceLength, (offset + length + pieceLength - 1) / pieceLength, PieceNone)
  }

  // These are the pieces that share a byte with the file.
  lemma PiecesOfFile(offset: nat, length: nat, pieceLength: int, i: nat)
    requires pieceLength > 0 && length > 0
    ensures var file := FileAt(offset, length, pieceLength);
            file.begin <= i < file.end <==> i * pieceLength < offset + length && offset < (i + 1) * pieceLength
  {
    QuotientAtMost(offset, pieceLength, i);
    QuotientAtMost(offset + length + pieceLength - 1, pieceLength, i);
    assert (i + 1) * pieceLength == i * pieceLength + pieceLength;
  }

  lemma QuotientAtMost(x: nat, d: int, i: nat)
    requires d > 0
    ensures x / d <= i <==> x < (i + 1) * d
  {
    var q := x / d;
    assert x == q * d + x % d;
    if q <= i {
      MultiplyMonotone(q + 1, i + 1, d);
      assert (q + 1) * d == q * d + d;
    } else {
      MultiplyMonotone(i + 1, q, d);
    }
  }

  // Files that do not overlap byte-wise give ordered piece ranges.
  lemma LayoutIsOrdered(offsets: seq<nat>, lengths: seq<nat>, pieceLength: int)
    requires pieceLength > 0 && |offsets| == |lengths|
    requires forall a, b | 0 <= a < b < |offsets| :: offsets[a] + lengths[a] <= offsets[b]
    ensures Ordered(seq(|offsets|, i requires 0 <= i < |offsets| => FileAt(offsets[i], lengths[i], pieceLength)))
  {
    forall a, b | 0 <= a < b < |offsets|
      ensures offsets[a] / pieceLength <= offsets[b] / pieceLength
      ensures (offsets[a] + lengths[a] + pieceLength - 1) / pieceLength
           <= (offsets[b] + lengths[b] + pieceLength - 1) / pieceLength
    {
      DivideMonotone(offsets[a], offsets[b], pieceLength);
      DivideMonotone(offsets[a] + lengths[a] + pieceLength - 1, offsets[b] + lengths[b] + pieceLength - 1, pieceLength);
    }
  }

  lemma DivideMonotone(a: nat, b: nat, d: int)
    requires d > 0 && a <= b
    ensures a / d <= b / d
  {
    var gap := a / d - b / d - 1;
    assert d * gap == d * (a / d) - d * (b / d) - d;
    NegativeFactor(d, gap);
  }

  lemma NegativeFactor(d: int, x: int)
    requires d > 0 && d * x < 0
    ensures x < 0
  {
  }

  // ---------------------------------------------------------------- the window

  predicate Unfinished(h: Handle, f: nat, i: nat)
    requires f < |h.files|
  {
    && h.files[f].priority != PieceNone
    && h.files[f].begin <= i < h.files[f].end
    && i !in h.complete
  }

  // The unfinished pieces of the files that are not skipped.
  ghost function Wanted(h: Handle): (w: set<nat>)
    ensures forall i :: i in w <==> exists f :: 0 <= f < |h.files| && Unfinished(h, f, i)
  {
    set f, i | 0 <= f < |h.files| && h.files[f].begin <= i < h.files[f].end && Unfinished(h, f, i) :: i
  }

  // How many pieces 16 MiB are, at least one.
  function Budget(pieceLength: int): (n: nat)
    requires pieceLength > 0
    ensures n >= 1
  {
    var fit := 0x100_0000 / pieceLength;
    if fit < 1 then 1 else fit
  }

  // The budget is the most pieces that fit in 16 MiB, or one if none does.
  lemma BudgetIsLargest(pieceLength: int)
    requires pieceLength > 0
    ensures Budget(pieceLength) * pieceLength <= 0x100_0000 || Budget(pieceLength) == 1
    ensures forall n: nat | n > Budget(pieceLength) :: n * pieceLength > 0x100_0000
  {
    var fit := 0x100_0000 / pieceLength;
    forall n: nat | n > Budget(pieceLength) ensures n * pieceLength > 0x100_0000 {
      MultiplyMonotone(fit + 1, n, pieceLength);
      assert (fit + 1) * pieceLength == fit * pieceLength + pieceLength;
    }
  }

  lemma MultiplyMonotone(a: nat, b: nat, d: nat)
    requires a <= b
    ensures a * d <= b * d
  {
  }

  // `w` holds the n lowest elements of `s`, or all of them if there are fewer.
  ghost predicate IsLowest(w: set<nat>, s: set<nat>, n: nat) {
    && w <= s
    && |w| == (if |s| < n then |s| else n)
    && forall i, j | i in w && j in s && j !in w :: i < j
  }

  ghost predicate IsLeast(i: nat, s: set<nat>) {
    i in s && forall j | j in s :: i <= j
  }

  // Now on the lowest piece of the window, readahead on the others.
  ghost predicate Graded(m: map<nat, PiecePriority>) {
    forall i | i in m :: m[i] == if IsLeast(i, m.Keys) then PieceNow else PieceReadahead
  }

  ghost predicate IsWindow(h: Handle, sequential: bool, m: map<nat, PiecePriority>)
    requires h.pieceLength.Some?
  {
    && Graded(m)
    && IsLowest(m.Keys, Wanted(h), if sequential then Budget(h.pieceLength.value) else 0)
  }

  lemma LowestUnique(v: set<nat>, w: set<nat>, s: set<nat>, n: nat)
    requires IsLowest(v, s, n) && IsLowest(w, s, n)
    ensures v == w
  {
    if i :| i in v && i !in w {
      if w <= v {
        SameSizeSubset(w, v);
      }
    } else {
      SameSizeSubset(v, w);
    }
  }

  lemma WindowUnique(h: Handle, sequential: bool, a: map<nat, PiecePriority>, b: map<nat, PiecePriority>)
    requires h.pieceLength.Some?
    requires IsWindow(h, sequential, a) && IsWindow(h, sequential, b)
    ensures a == b
  {
    LowestUnique(a.Keys, b.Keys, Wanted(h), if sequential then Budget(h.pieceLength.value) else 0);
  }

  // A piece of the files before f, or of the part of file f before piece i.
  ghost predicate Visited(h: Handle, f: nat, i: nat, p: nat)
    requires f <= |h.files|
  {
    exists g :: 0 <= g <= f && g < |h.files| && Unfinished(h, g, p) && (g < f || p < i)
  }

  // The loops have chosen exactly the wanted pieces they have visited.
  ghost predicate Scanned(h: Handle, f: nat, i: nat, next: map<nat, PiecePriority>)
    requires f <= |h.files|
  {
    forall p: nat :: p in next <==> Visited(h, f, i, p)
  }

  // A piece chosen late lies above every piece chosen before: a file that
  // reaches past it began no later than this one, so it has offered it.
  lemma NewPieceIsHighest(h: Handle, f: nat, i: nat, next: map<nat, PiecePriority>, p: nat)
    requires f < |h.files| && Scanned(h, f, i, next)
    requires Unfinished(h, f, i) && i !in next && p in next
    ensures p < i
  {
    var g :| 0 <= g <= f && Unfinished(h, g, p) && (g < f || p < i);
    if i <= p {
      assert Unfinished(h, g, i);
      assert Visited(h, f, i, i);
    }
  }

  lemma ScanStep(h: Handle, f: nat, i: nat, next: map<nat, PiecePriority>, next': map<nat, PiecePriority>)
    requires f < |h.files| && Scanned(h, f, i, next)
    requires next'.Keys == if Unfinished(h, f, i) then next.Keys + {i} else next.Keys
    ensures Scanned(h, f, i + 1, next')
  {
    forall p: nat ensures p in next' <==> Visited(h, f, i + 1, p) {
      if p in next {
        var g :| 0 <= g <= f && Unfinished(h, g, p) && (g < f || p < i);
      }
      if Visited(h, f, i + 1, p) {
        var g :| 0 <= g <= f && Unfinished(h, g, p) && (g < f || p < i + 1);
        assert g < f || p < i ==> Visited(h, f, i, p);
      }
    }
  }

  lemma ScanNextFile(h: Handle, f: nat, i: nat, next: map<nat, PiecePriority>)
    requires f < |h.files| && Scanned(h, f, i, next)
    requires h.files[f].priority == PieceNone || h.files[f].end <= i
    ensures Scanned(h, f + 1, 0, next)
  {
    forall p: nat ensures Visited(h, f, i, p) <==> Visited(h, f + 1, 0, p) {
      if g :| 0 <= g <= f && Unfinished(h, g, p) && (g < f || p < i) {
        assert g < f + 1;
      }
      if g :| 0 <= g <= f + 1 && g < |h.files| && Unfinished(h, g, p) && (g < f + 1 || p < 0) {
        assert g < f || p < i;
      }
    }
  }

  lemma ScanFirstPiece(h: Handle, f: nat, next: map<nat, PiecePriority>)
    requires f < |h.files| && Scanned(h, f, 0, next)
    ensures Scanned(h, f, h.files[f].begin, next)
  {
    var i := h.files[f].begin;
    forall p: nat ensures Visited(h, f, 0, p) <==> Visited(h, f, i, p) {
      if g :| 0 <= g <= f && Unfinished(h, g, p) && (g < f || p < i) {
        assert g < f;
      }
      if g :| 0 <= g <= f && Unfinished(h, g, p) && (g < f || p < 0) {
        assert g < f;
      }
    }
  }

  // The scan stopped in file f because the window is full.
  lemma FullWindowIsLowest(h: Handle, f: nat, i: nat, next: map<nat, PiecePriority>, n: nat)
    requires f < |h.files| && Scanned(h, f, i, next)
    requires |next| == n && h.files[f].priority != PieceNone
    requires forall p | p in next :: p < i
    requires h.files[f].begin < i <= h.files[f].end
    ensures IsLowest(next.Keys, Wanted(h), n)
  {
    forall p | p in next ensures p in Wanted(h) {
      var g :| 0 <= g <= f && Unfinished(h, g, p) && (g < f || p < i);
    }
    forall p, j | p in next && j in Wanted(h) && j !in next ensures p < j {
      if j < i {
        LowWantedIsVisited(h, f, i, j);
      }
    }
    SubsetSmaller(next.Keys, Wanted(h));
  }

  // A wanted piece below i has been visited: an unvisited file that offers it
  // begins no earlier than file f, so file f offers it too.
  lemma LowWantedIsVisited(h: Handle, f: nat, i: nat, j: nat)
    requires f < |h.files|
    requires h.files[f].priority != PieceNone && i <= h.files[f].end
    requires j in Wanted(h) && j < i
    ensures Visited(h, f, i, j)
  {
    var g: nat :| g < |h.files| && Unfinished(h, g, j);
    assert g > f ==> Unfinished(h, f, j);
  }

  // The scan reached the last file: the window is everything wanted.
  lemma WholeWindowIsLowest(h: Handle, next: map<nat, PiecePriority>, n: nat)
    requires Scanned(h, |h.files|, 0, next) && |next| <= n
    ensures IsLowest(next.Keys, Wanted(h), n)
  {
    forall p: nat ensures p in next <==> p in Wanted(h) {
      if p in Wanted(h) {
        var g :| 0 <= g < |h.files| && Unfinished(h, g, p);
        assert Visited(h, |h.files|, 0, p);
      }
    }
    assert next.Keys == Wanted(h);
  }

  // The first piece chosen is the lowest and the only one to have now.
  ghost predicate GradedFrom(next: map<nat, PiecePriority>, lowest: nat) {
    && (next != map[] ==> lowest in next)
    && forall p | p in next :: lowest <= p && next[p] == if p == lowest then PieceNow else PieceReadahead
  }

  lemma GradedFromLowest(next: map<nat, PiecePriority>, lowest: nat)
    requires GradedFrom(next, lowest)
    ensures Graded(next)
  {
    forall i | i in next ensures IsLeast(i, next.Keys) <==> i == lowest {}
  }

  // How far a scan has come: the pieces chosen, the room left, the lowest piece.
  ghost predicate Scan(h: Handle, f: nat, i: nat, next: map<nat, PiecePriority>, lowest: nat)
    requires f <= |h.files|
  {
    Scanned(h, f, i, next) && GradedFrom(next, lowest)
  }

  lemma ScanChoose(h: Handle, f: nat, i: nat, next: map<nat, PiecePriority>, lowest: nat)
    requires f < |h.files| && Scan(h, f, i, next, lowest) && Unfinished(h, f, i) && i !in next
    ensures forall p | p in next :: p < i
    ensures Scan(h, f, i + 1, next[i := if next == map[] then PieceNow else PieceReadahead],
                 if next == map[] then i else lowest)
  {
    forall p | p in next ensures p < i {
      NewPieceIsHighest(h, f, i, next, p);
    }
    ScanStep(h, f, i, next, next[i := if next == map[] then PieceNow else PieceReadahead]);
  }

  lemma ScanPass(h: Handle, f: nat, i: nat, next: map<nat, PiecePriority>, lowest: nat)
    requires f < |h.files| && Scan(h, f, i, next, lowest) && (i in next || !Unfinished(h, f, i))
    ensures Scan(h, f, i + 1, next, lowest)
  {
    assert i in next && Unfinished(h, f, i) ==> next.Keys + {i} == next.Keys;
    ScanStep(h, f, i, next, next);
  }

  // The pieces of one file, as far as the window has room.
  method ScanFile(h: Handle, f: nat, next: map<nat, PiecePriority>, remaining: nat, ghost lowest: nat)
    returns (chosen: map<nat, PiecePriority>, left: nat, ghost first: nat)
    requires f < |h.files| && h.files[f].priority != PieceNone && remaining > 0
    requires Scan(h, f, 0, next, lowest)
    ensures |chosen| + left == |next| + remaining
    ensures left > 0 ==> Scan(h, f + 1, 0, chosen, first)
    ensures left == 0 ==> IsLowest(chosen.Keys, Wanted(h), |next| + remaining) && GradedFrom(chosen, first)
  {
    var file := h.files[f];
    chosen, left, first := next, remaining, lowest;
    ScanFirstPiece(h, f, next);
    var i := file.begin;
    while i < file.end && left > 0
      invariant file.begin <= i && |chosen| + left == |next| + remaining
      invariant Scan(h, f, i, chosen, first)
      invariant left == 0 ==> file.begin < i <= file.end && forall p | p in chosen :: p < i
    {
      if i in chosen || i in h.complete {
        ScanPass(h, f, i, chosen, first);
        i := i + 1;
        continue;
      }
      ScanChoose(h, f, i, chosen, first);
      if chosen == map[] {
        first := i;
      }
      var priority := if |chosen| == 0 then PieceNow else PieceReadahead;
      chosen := chosen[i := priority];
      left := left - 1;
      i := i + 1;
    }
    if left == 0 {
      FullWindowIsLowest(h, f, i, chosen, |next| + remaining);
    } else {
      ScanNextFile(h, f, i, chosen);
    }
  }

  method ComputeWindow(h: Handle, sequential: bool) returns (next: map<nat, PiecePriority>)
    requires h.pieceLength.Some?
    ensures IsWindow(h, sequential, next)
  {
    next := map[];
    if !sequential {
      return;
    }
    var budget := Budget(h.pieceLength.value);
    var remaining := budget;
    ghost var lowest := 0;
    for f := 0 to |h.files|
      invariant 0 < remaining && |next| + remaining == budget && Scan(h, f, 0, next, lowest)
    {
      if h.files[f].priority == PieceNone {
        ScanNextFile(h, f, 0, next);
        continue;
      }
      next, remaining, lowest := ScanFile(h, f, next, remaining, lowest);
      if remaining == 0 {
        GradedFromLowest(next, lowest);
        return;
      }
    }
    WholeWindowIsLowest(h, next, budget);
    GradedFromLowest(next, lowest);
  }

  // The priorities of the window, one by one: now on its lowest piece only, and
  // readahead on all others.
  lemma WindowGrades(h: Handle, sequential: bool, m: map<nat, PiecePriority>, i: nat)
    requires h.pieceLength.Some? && IsWindow(h, sequential, m) && i in m
    ensures (forall j | j in m :: i <= j) ==> m[i] == PieceNow
    ensures (exists j :: j in m && j < i) ==> m[i] == PieceReadahead
    ensures i !in h.complete && sequential
    ensures exists f :: 0 <= f < |h.files| && h.files[f].priority != PieceNone && h.files[f].begin <= i < h.files[f].end
  {
    assert i in Wanted(h);
    var f: nat :| f < |h.files| && Unfinished(h, f, i);
    assert m.Keys != {};
  }

  // And nothing that belongs there is missing: in sequential mode an unfinished
  // piece of a file that is not skipped is in the window, or the window is full of
  // lower ones.
  lemma WindowIsFull(h: Handle, m: map<nat, PiecePriority>, f: nat, i: nat)
    requires h.pieceLength.Some? && IsWindow(h, true, m)
    requires f < |h.files| && h.files[f].priority != PieceNone && h.files[f].begin <= i < h.files[f].end && i !in h.complete
    ensures i in m || (|m| >= 1 && (|m| + 1) * h.pieceLength.value > 0x100_0000 && forall j | j in m :: j < i)
    ensures |m| == 1 || |m| * h.pieceLength.value <= 0x100_0000
  {
    assert Unfinished(h, f, i) && i in Wanted(h);
    var n := Budget(h.pieceLength.value);
    BudgetIsLargest(h.pieceLength.value);
    assert |m.Keys| == |m|;
    MultiplyMonotone(|m|, n, h.pieceLength.value);
    if i !in m && |Wanted(h)| < n {
      SameSizeSubset(m.Keys, Wanted(h));
    }
  }

  // The window as a value. A smallest element picks each next piece.
  ghost function Lowest(s: set<nat>, n: nat): (w: set<nat>)
    ensures IsLowest(w, s, n)
  {
    if n == 0 || s == {} then {}
    else
      var m := Smallest(s);
      {m} + Lowest(s - {m}, n - 1)
  }

  ghost function Smallest(s: set<nat>): (m: nat)
    requires s != {}
    ensures IsLeast(m, s)
  {
    SmallestExists(s);
    var m :| IsLeast(m, s);
    m
  }

  lemma SmallestExists(s: set<nat>)
    requires s != {}
    ensures exists m :: IsLeast(m, s)
  {
    var x :| x in s;
    if s == {x} {
      assert IsLeast(x, s);
    } else {
      SmallestExists(s - {x});
      var m :| IsLeast(m, s - {x});
      forall j | j in s ensures (if x <= m then x else m) <= j {
        assert j == x || j in s - {x};
      }
      assert IsLeast(if x <= m then x else m, s);
    }
  }

  ghost function Window(h: Handle, sequential: bool): (m: map<nat, PiecePriority>)
    requires h.pieceLength.Some?
    ensures IsWindow(h, sequential, m)
  {
    var keys := Lowest(Wanted(h), if sequential then Budget(h.pieceLength.value) else 0);
    var m := map i | i in keys :: if IsLeast(i, keys) then PieceNow else PieceReadahead;
    assert m.Keys == keys;
    m
  }

  // ---------------------------------------------------------------- the diff

  // A piece's own priority; setting none forgets the piece.
  function SetPiece(own: map<nat, PiecePriority>, i: nat, p: PiecePriority): map<nat, PiecePriority> {
    if p == PieceNone then own - {i} else own[i := p]
  }

  function OwnPriority(own: map<nat, PiecePriority>, i: nat): PiecePriority {
    if i in own then own[i] else PieceNone
  }

  ghost predicate NoNone(m: map<nat, PiecePriority>) {
    forall i | i in m :: m[i] != PieceNone
  }

  // Clear the boosts that are not kept, write those that are new or changed.
  ghost function Diff(own: map<nat, PiecePriority>, boosted: map<nat, PiecePriority>, next: map<nat, PiecePriority>)
    : map<nat, PiecePriority>
  {
    (own - (boosted.Keys - next.Keys))
    + (map i | i in next && OwnPriority(boosted, i) != next[i] :: next[i])
  }

  ghost function ClearThenSet(own: map<nat, PiecePriority>, boosted: map<nat, PiecePriority>, next: map<nat, PiecePriority>)
    : map<nat, PiecePriority>
  {
    (own - boosted.Keys) + next
  }

  // Only the boosts change.
  ghost function Updated(e: Entry): (r: Entry)
    ensures r == e.(torrent := r.torrent, boosted := r.boosted)
    ensures r.torrent == e.torrent.(own := r.torrent.own)
  {
    if e.torrent.pieceLength.None? then e
    else
      var next := Window(e.torrent, e.sequential);
      e.(torrent := e.torrent.(own := Diff(e.torrent.own, e.boosted, next)), boosted := next)
  }

  // Every boost the entry remembers is the piece's own priority, and only those.
  ghost predicate Boosted(e: Entry) {
    e.torrent.own == e.boosted && NoNone(e.boosted)
  }

  // The fast form is the simple one wherever the remembered boosts are the
  // real ones, whatever priorities other pieces have.
  lemma DiffRefinesClearThenSet(own: map<nat, PiecePriority>, boosted: map<nat, PiecePriority>, next: map<nat, PiecePriority>)
    requires forall i | i in boosted :: OwnPriority(own, i) == boosted[i]
    requires NoNone(next)
    ensures Diff(own, boosted, next) == ClearThenSet(own, boosted, next)
  {
    var a, b := Diff(own, boosted, next), ClearThenSet(own, boosted, next);
    forall i ensures (i in a <==> i in b) && (i in a && i in b ==> a[i] == b[i]) {
    }
  }

  // Completing pieces only takes them out of the wanted ones.
  lemma WantedShrinks(h: Handle, h': Handle)
    requires h.files == h'.files && h.complete <= h'.complete
    ensures Wanted(h') == Wanted(h) - h'.complete
  {
    forall i: nat ensures i in Wanted(h') <==> i in Wanted(h) && i !in h'.complete {
      if f :| 0 <= f < |h.files| && Unfinished(h, f, i) {
        assert i !in h'.complete ==> Unfinished(h', f, i);
      }
      if f :| 0 <= f < |h.files| && Unfinished(h', f, i) {
        assert Unfinished(h, f, i);
      }
    }
  }

  // The window looks at files and completion only, not at the boosts.
  lemma WindowIgnoresBoosts(h: Handle, h': Handle, sequential: bool)
    requires h.pieceLength.Some? && h' == h.(own := h'.own)
    ensures Window(h', sequential) == Window(h, sequential)
  {
    WantedShrinks(h, h');
    assert Wanted(h) - h.complete == Wanted(h) by {
      WantedShrinks(h, h);
    }
    WindowUnique(h, sequential, Window(h', sequential), Window(h, sequential));
  }

  // The update ends in the window of the files as they are, with every boost real.
  lemma UpdatedIsWindow(e: Entry)
    requires e.torrent.pieceLength.Some?
    requires Boosted(e)
    ensures Boosted(Updated(e))
    ensures Updated(e).torrent.own == Window(e.torrent, e.sequential)
    ensures !e.sequential ==> Updated(e).torrent.own == map[]
  {
    var next := Window(e.torrent, e.sequential);
    WindowHasNoNone(e.torrent, e.sequential);
    DiffFromReal(e.boosted, next);
    if !e.sequential {
      assert |next.Keys| == 0;
    }
  }

  lemma DiffFromReal(boosted: map<nat, PiecePriority>, next: map<nat, PiecePriority>)
    requires NoNone(boosted) && NoNone(next)
    ensures Diff(boosted, boosted, next) == next
  {
    DiffRefinesClearThenSet(boosted, boosted, next);
    assert ClearThenSet(boosted, boosted, next) == next;
  }

  // Updating twice in a row changes nothing more.
  lemma UpdatedIsStable(e: Entry)
    requires Boosted(e)
    ensures Updated(Updated(e)) == Updated(e)
  {
    if e.torrent.pieceLength.Some? {
      var u := Updated(e);
      var next := Window(e.torrent, e.sequential);
      WindowIgnoresBoosts(e.torrent, u.torrent, e.sequential);
      WindowHasNoNone(e.torrent, e.sequential);
      UpdatedIsWindow(e);
      DiffFromReal(next, next);
    }
  }

  lemma GradedHasNoNone(m: map<nat, PiecePriority>)
    requires Graded(m)
    ensures NoNone(m)
  {
  }

  lemma WindowHasNoNone(h: Handle, sequential: bool)
    requires h.pieceLength.Some?
    ensures NoNone(Window(h, sequential))
  {
    GradedHasNoNone(Window(h, sequential));
  }

  // `written` are the pieces SetPriority was called on: when the remembered
  // boosts are real, exactly the pieces whose priority changes.
  method UpdateSequential(entry: Entry) returns (r: Entry, ghost written: set<nat>)
    ensures r == Updated(entry)
    ensures Boosted(entry) ==>
              forall i :: i in written <==> OwnPriority(entry.torrent.own, i) != OwnPriority(r.torrent.own, i)
  {
    r, written := entry, {};
    if entry.torrent.pieceLength.None? {
      return;
    }
    var next := ComputeWindow(entry.torrent, entry.sequential);
    WindowUnique(entry.torrent, entry.sequential, next, Window(entry.torrent, entry.sequential));
    WindowHasNoNone(entry.torrent, entry.sequential);
    var own;
    own, written := ApplyWindow(entry.torrent.own, entry.boosted, next);
    r := entry.(torrent := entry.torrent.(own := own), boosted := next);
    if Boosted(entry) {
      DiffFromReal(entry.boosted, next);
      WrittenAreChanged(entry.boosted, next);
    }
  }

  // The two loops over maps, which Go visits in any order.
  method ApplyWindow(own: map<nat, PiecePriority>, boosted: map<nat, PiecePriority>, next: map<nat, PiecePriority>)
    returns (r: map<nat, PiecePriority>, ghost written: set<nat>)
    requires NoNone(next)
    ensures r == Diff(own, boosted, next)
    ensures written == Written(boosted, next)
  {
    var cleared;
    ghost var first, second;
    cleared, first := ClearStale(own, boosted.Keys, next.Keys);
    r, second := WriteNew(cleared, boosted, next);
    written := first + second;
  }

  // The pieces whose boost is new or another one.
  ghost function NewBoosts(boosted: map<nat, PiecePriority>, next: map<nat, PiecePriority>): set<nat> {
    set i | i in next && OwnPriority(boosted, i) != next[i]
  }

  // The boosts written when the pieces of `rest` are still to come.
  ghost function WrittenBut(own: map<nat, PiecePriority>, boosted: map<nat, PiecePriority>, next: map<nat, PiecePriority>, rest: set<nat>)
    : map<nat, PiecePriority>
  {
    own + (map i | i in next && i !in rest && OwnPriority(boosted, i) != next[i] :: next[i])
  }

  lemma WriteOne(own: map<nat, PiecePriority>, boosted: map<nat, PiecePriority>, next: map<nat, PiecePriority>, rest: set<nat>, i: nat)
    requires i in next && i in rest
    ensures WrittenBut(own, boosted, next, rest - {i})
            == if OwnPriority(boosted, i) != next[i] then WrittenBut(own, boosted, next, rest)[i := next[i]]
               else WrittenBut(own, boosted, next, rest)
  {
  }

  lemma WriteEnds(own: map<nat, PiecePriority>, boosted: map<nat, PiecePriority>, next: map<nat, PiecePriority>)
    ensures WrittenBut(own, boosted, next, next.Keys) == own
    ensures WrittenBut(own, boosted, next, {}) == own + (map i | i in next && OwnPriority(boosted, i) != next[i] :: next[i])
  {
  }

  method WriteNew(own: map<nat, PiecePriority>, boosted: map<nat, PiecePriority>, next: map<nat, PiecePriority>)
    returns (r: map<nat, PiecePriority>, ghost written: set<nat>)
    requires NoNone(next)
    ensures r == own + (map i | i in next && OwnPriority(boosted, i) != next[i] :: next[i])
    ensures written == NewBoosts(boosted, next)
  {
    hide WrittenBut;
    WriteEnds(own, boosted, next);
    r, written := own, {};
    var rest := next.Keys;
    while rest != {}
      invariant rest <= next.Keys
      invariant r == WrittenBut(own, boosted, next, rest)
      invariant written == NewBoosts(boosted, next) - rest
    {
      var i :| i in rest;
      WriteOne(own, boosted, next, rest, i);
      if OwnPriority(boosted, i) != next[i] {
        r := SetPiece(r, i, next[i]);
        written := written + {i};
      }
      rest := rest - {i};
    }
  }

  method ClearStale(own: map<nat, PiecePriority>, boosted: set<nat>, keep: set<nat>)
    returns (r: map<nat, PiecePriority>, ghost written: set<nat>)
    ensures r == own - (boosted - keep)
    ensures written == boosted - keep
  {
    r, written := own, {};
    var rest := boosted;
    while rest != {}
      invariant rest <= boosted
      invariant r == own - (boosted - rest - keep)
      invariant written == boosted - rest - keep
    {
      var i :| i in rest;
      if i !in keep {
        r := SetPiece(r, i, PieceNone);
        written := written + {i};
      }
      rest := rest - {i};
    }
  }

  ghost function Written(boosted: map<nat, PiecePriority>, next: map<nat, PiecePriority>): set<nat> {
    (boosted.Keys - next.Keys) + NewBoosts(boosted, next)
  }

  lemma WrittenAreChanged(boosted: map<nat, PiecePriority>, next: map<nat, PiecePriority>)
    requires NoNone(boosted) && NoNone(next)
    ensures forall i: nat ::
              i in Written(boosted, next)
              <==> OwnPriority(boosted, i) != OwnPriority(next, i)
  {
  }

  // ---------------------------------------------------------------- over time

  // As pieces complete and files stay as they are, the window only advances:
  // its unfinished pieces stay in it and its first piece never moves back.
  lemma WindowAdvances(h: Handle, h': Handle)
    requires h.pieceLength.Some?
    requires h.files == h'.files && h.pieceLength == h'.pieceLength && h.complete <= h'.complete
    ensures Window(h, true).Keys - h'.complete <= Window(h', true).Keys
    ensures forall i, j | IsLeast(i, Window(h, true).Keys) && IsLeast(j, Window(h', true).Keys) :: i <= j
    ensures forall j | j in Window(h', true) :: Window(h', true)[j] == PieceNow <==> IsLeast(j, Window(h', true).Keys)
  {
    WantedShrinks(h, h');
    LowestAdvance(Wanted(h), h'.complete, Window(h, true).Keys, Window(h', true).Keys, Budget(h.pieceLength.value));
  }

  lemma LowestAdvance(s: set<nat>, done: set<nat>, w: set<nat>, w': set<nat>, n: nat)
    requires n >= 1 && IsLowest(w, s, n) && IsLowest(w', s - done, n)
    ensures w - done <= w'
    ensures forall i, j | IsLeast(i, w) && IsLeast(j, w') :: i <= j
  {
    forall i | i in w && i !in done ensures i in w' {
      if i !in w' {
        assert |w'| == n by {
          if |s - done| < n {
            SameSizeSubset(w', s - done);
          }
        }
        forall k | k in w' ensures k in w {
          assert k < i;
        }
        SubsetSmaller(w' + {i}, w);
      }
    }
    forall i, j | IsLeast(i, w) && IsLeast(j, w') ensures i <= j {
      assert j in s;
    }
  }

  lemma SubsetSmaller<T>(a: set<T>, b: set<T>)
    requires a <= b
    ensures |a| <= |b|
  {
    assert b == a + (b - a);
    assert |b| == |a| + |b - a|;
  }
}
