/** The values the daemon, the store and the engine exchange. */
module Model {
  datatype Option<+T> = None | Some(value: T)

  type TorrentID = string

  datatype TorrentState =
    FetchingMetadata | Checking | Queued | Downloading | Seeding | Paused | Error

  // A saved session may carry any text as a file priority.
  datatype FilePriority = Skip | Normal | High | Other(text: string)

  // `filePriorities` is a Go map: `None` is the nil map.
  datatype Record = Record(
    source: string,
    name: string,
    savePath: string,
    desired: TorrentState,
    addedAt: int,
    sequential: bool,
    filePriorities: Option<map<string, FilePriority>>)

  // `None` stands for a nil slice or a nil map, which validation rejects.
  datatype Session = Session(
    order: Option<seq<TorrentID>>,
    torrents: Option<map<TorrentID, Record>>)

  datatype Snapshot = Snapshot(
    id: TorrentID,
    name: string,
    state: TorrentState,
    progress: real,
    sequential: bool,
    addedAt: int,
    error: bool)

  datatype Config = Config(downloadDirectory: string, maxActiveDownloads: int, maxActiveSeeds: int)

  function Ids(s: Session): seq<TorrentID> {
    if s.order.Some? then s.order.value else []
  }

  function Records(s: Session): map<TorrentID, Record> {
    if s.torrents.Some? then s.torrents.value else map[]
  }

  const DefaultSession := Session(Some([]), Some(map[]))

  ghost predicate NoDuplicates<T>(s: seq<T>) {
    forall i, j | 0 <= i < j < |s| :: s[i] != s[j]
  }

  ghost function Elements<T>(s: seq<T>): set<T> {
    set x | x in s
  }

  // Removes the first occurrence of `x`, as the loops over `Order` do.
  function Without<T(==)>(s: seq<T>, x: T): seq<T> {
    if s == [] then []
    else if s[0] == x then s[1..]
    else [s[0]] + Without(s[1..], x)
  }

  lemma {:induction false} WithoutIsPrefixAndSuffix<T>(s: seq<T>, x: T, i: nat)
    requires i < |s| && s[i] == x && x !in s[..i]
    ensures Without(s, x) == s[..i] + s[i + 1..]
  {
    if i > 0 {
      assert s[..i][0] == s[0];
      assert s[1..][..i - 1] == s[..i][1..];
      WithoutIsPrefixAndSuffix(s[1..], x, i - 1);
    }
  }

  lemma {:induction false} WithoutAbsent<T>(s: seq<T>, x: T)
    requires x !in s
    ensures Without(s, x) == s
  {
    if s != [] {
      WithoutAbsent(s[1..], x);
    }
  }

  // Removal of one id from a duplicate-free order: exactly that id goes.
  lemma WithoutElements<T>(s: seq<T>, x: T)
    requires NoDuplicates(s) && x in s
    ensures NoDuplicates(Without(s, x))
    ensures Elements(Without(s, x)) == Elements(s) - {x}
    ensures |Without(s, x)| == |s| - 1
  {
    var i :| 0 <= i < |s| && s[i] == x;
    WithoutIsPrefixAndSuffix(s, x, i);
    var w := Without(s, x);
    assert forall k | 0 <= k < |w| :: w[k] == if k < i then s[k] else s[k + 1];
    forall y | y in Elements(s) - {x} ensures y in w {
      var k :| 0 <= k < |s| && s[k] == y;
      assert w[if k < i then k else k - 1] == y;
    }
  }

  lemma TakeOneMore<T>(s: seq<T>, i: nat)
    requires i < |s|
    ensures s[..i + 1] == s[..i] + [s[i]]
    ensures NoDuplicates(s) ==> s[i] !in s[..i]
  {
  }

  // A subset of the keys with as many elements as there are keys is all of them.
  lemma SameSizeSubset<T>(a: set<T>, b: set<T>)
    requires a <= b && |a| == |b|
    ensures a == b
  {
    assert b == a + (b - a) && |b| == |a| + |b - a|;
    assert b - a == {};
  }
}
