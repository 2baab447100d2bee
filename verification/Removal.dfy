/** Deleting a torrent's files, and the check that no other torrent uses them. */
module Removal {
  import opened Model
  import opened Paths

  datatype Node = Directory | Regular | Symlink | Special

  // The file system by absolute path; [] is its root.
  type Tree = map<Path, Node>

  ghost predicate WellFormed(t: Tree) {
    forall p, i: nat | p in t && i < |p| :: p[..i] in t && t[p[..i]] == Directory
  }

  predicate Below(p: Path, q: Path) {
    |p| < |q| && q[..|p|] == p
  }

  // The path of a file below the save directory, if it is a usable one.
  function FilePath(info: Info, file: seq<string>): (r: Option<Path>) {
    var p := LocalPath(PathElements(info, file));
    if p.Some? && p.value != [] then p else None
  }

  ghost predicate Usable(info: Info) {
    forall i | 0 <= i < |info.files| :: FilePath(info, info.files[i]).Some?
  }

  ghost function FilePaths(info: Info): set<Path> {
    set i | 0 <= i < |info.files| && FilePath(info, info.files[i]).Some? :: FilePath(info, info.files[i]).value
  }

  // Metadata can be deleted by exactly if each file's components name something
  // below the save directory and never lead above it; its files are then exactly
  // these, cleaned.
  lemma UsableExactly(info: Info)
    ensures Usable(info) <==> forall i | 0 <= i < |info.files| ::
              var text := Joined(if info.name.Some? then [info.name.value] + info.files[i] else info.files[i]);
              text != "" && text[0] != '/' && !Climbs(0, Split(text)) && CleanParts(false, [], Split(text)) != []
    ensures Usable(info) ==> forall p :: p in FilePaths(info) <==>
              (exists i :: 0 <= i < |info.files| && p == CleanParts(false, [], Split(Joined(
                 if info.name.Some? then [info.name.value] + info.files[i] else info.files[i]))))
  {
    hide Joined, Split, Climbs, CleanParts;
    forall i | 0 <= i < |info.files|
      ensures var text := Joined(if info.name.Some? then [info.name.value] + info.files[i] else info.files[i]);
              var path := FilePath(info, info.files[i]);
              && (path.Some? <==> text != "" && text[0] != '/' && !Climbs(0, Split(text)) && CleanParts(false, [], Split(text)) != [])
              && (path.Some? ==> path.value == CleanParts(false, [], Split(text)))
    {
      assert [] + info.files[i] == info.files[i];
      LocalExactly(if info.name.Some? then [info.name.value] + info.files[i] else info.files[i]);
    }
  }

  method TorrentFilePaths(info: Info) returns (r: Option<seq<Path>>)
    ensures r.Some? <==> Usable(info)
    ensures r.Some? ==> (set p | p in r.value) == FilePaths(info)
    ensures r.Some? ==> forall p | p in r.value :: p != [] && Proper(p)
  {
    var paths: seq<Path> := [];
    for i := 0 to |info.files|
      invariant forall k | 0 <= k < i :: FilePath(info, info.files[k]).Some?
      invariant |paths| == i && forall k | 0 <= k < i :: paths[k] == FilePath(info, info.files[k]).value
      invariant forall p | p in paths :: p != [] && Proper(p)
    {
      var path := FilePath(info, info.files[i]);
      if path.None? {
        return None;
      }
      LocalIsProper(PathElements(info, info.files[i]));
      paths := paths + [path.value];
    }
    r := Some(paths);
    forall p ensures p in paths <==> p in FilePaths(info) {
      if p in paths {
        var k :| 0 <= k < |paths| && paths[k] == p;
        assert FilePath(info, info.files[k]).value == p;
      }
      if p in FilePaths(info) {
        var k :| 0 <= k < |info.files| && FilePath(info, info.files[k]).Some? && FilePath(info, info.files[k]).value == p;
        assert paths[k] == p;
      }
    }
  }

  // ---------------------------------------------------------------- the tree

  datatype RemoveResult = Deleted | NotExist | Failed

  /** A directory tree. `refused` are the entries the operating system will not remove. */
  class FileTree {
    var nodes: Tree
    const refused: set<Path>

    constructor (nodes: Tree, refused: set<Path>)
      ensures this.nodes == nodes && this.refused == refused
    {
      this.nodes := nodes;
      this.refused := refused;
    }

    // Files go, and directories that are empty.
    method Remove(p: Path) returns (r: RemoveResult)
      modifies this
      ensures r == RemoveOutcome(old(nodes), refused, p)
      ensures nodes == if r == Deleted then old(nodes) - {p} else old(nodes)
    {
      if p !in nodes {
        return NotExist;
      }
      if p in refused || (nodes[p] == Directory && exists q | q in nodes :: Below(p, q)) {
        return Failed;
      }
      nodes := nodes - {p};
      return Deleted;
    }

    method Lstat(p: Path) returns (r: Option<Node>)
      ensures r == if p in nodes then Some(nodes[p]) else None
    {
      return if p in nodes then Some(nodes[p]) else None;
    }
  }

  function RemoveOutcome(t: Tree, refused: set<Path>, p: Path): RemoveResult {
    if p !in t then NotExist
    else if p in refused || (t[p] == Directory && exists q | q in t :: Below(p, q)) then Failed
    else Deleted
  }

  // ---------------------------------------------------------------- preparing

  // On the way to each file only directories, and at its end a regular file,
  // as far as entries exist.
  ghost predicate Acceptable(t: Tree, base: Path, path: Path) {
    forall i | 0 < i <= |path| && base + path[..i] in t ::
      t[base + path[..i]] == if i == |path| then Regular else Directory
  }

  method CheckPath(tree: FileTree, base: Path, path: Path) returns (ok: bool)
    requires WellFormed(tree.nodes)
    ensures ok <==> Acceptable(tree.nodes, base, path)
  {
    var i := 0;
    while i < |path|
      invariant i <= |path|
      invariant forall k | 0 < k <= i && base + path[..k] in tree.nodes ::
                  tree.nodes[base + path[..k]] == if k == |path| then Regular else Directory
    {
      var current := base + path[..i + 1];
      var stat := tree.Lstat(current);
      if stat.None? {
        forall k | i < k <= |path| ensures base + path[..k] !in tree.nodes {
          assert (base + path[..k])[..|current|] == current;
        }
        return true;
      }
      if stat.value == Symlink || (i == |path| - 1 && stat.value != Regular) || (i < |path| - 1 && stat.value != Directory) {
        assert base + path[..i + 1] in tree.nodes;
        return false;
      }
      i := i + 1;
    }
    return true;
  }

  // What resolving a save directory yields.
  datatype Resolved = Missing | Unresolvable | At(directory: Path)

  // `root` is `None` when the save directory is gone and there is nothing to delete.
  datatype Prepared = Unprepared | Prepared(root: Option<Path>, paths: seq<Path>)

  method PrepareDataRemoval(tree: FileTree, directory: Resolved, info: Info) returns (r: Prepared)
    requires WellFormed(tree.nodes)
    ensures r.Prepared? <==> Usable(info) && !directory.Unresolvable?
                             && (directory.At? ==> forall p | p in FilePaths(info) :: Acceptable(tree.nodes, directory.directory, p))
    ensures r.Prepared? ==> r.root == if directory.At? then Some(directory.directory) else None
    ensures r.Prepared? && r.root.Some? ==> (set p | p in r.paths) == FilePaths(info)
    ensures r.Prepared? ==> forall p | p in r.paths :: p != [] && Proper(p)
  {
    var paths := TorrentFilePaths(info);
    if paths.None? {
      return Unprepared;
    }
    if directory.Missing? {
      return Prepared(None, []);
    }
    if directory.Unresolvable? {
      return Unprepared;
    }
    for i := 0 to |paths.value|
      invariant forall k | 0 <= k < i :: Acceptable(tree.nodes, directory.directory, paths.value[k])
    {
      var ok := CheckPath(tree, directory.directory, paths.value[i]);
      if !ok {
        assert paths.value[i] in FilePaths(info) by {
          assert paths.value[i] in (set p | p in paths.value);
        }
        return Unprepared;
      }
    }
    forall p | p in FilePaths(info) ensures Acceptable(tree.nodes, directory.directory, p) {
      assert p in (set p | p in paths.value);
    }
    return Prepared(Some(directory.directory), paths.value);
  }

  // ---------------------------------------------------------------- deleting

  // The files to delete, and the directories that lead to them.
  ghost function Listed(base: Path, paths: seq<Path>): set<Path> {
    set p | p in paths :: base + p
  }

  ghost predicate LeadsTo(base: Path, paths: seq<Path>, d: Path) {
    |base| < |d| && exists p :: p in Listed(base, paths) && Below(d, p)
  }

  // What a removal may take: a listed file, or a directory on the way to one
  // unless the system refuses.
  ghost predicate Goes(refused: set<Path>, base: Path, paths: seq<Path>, q: Path) {
    q in Listed(base, paths) || (LeadsTo(base, paths, q) && q !in refused)
  }

  // A directory on the way to listed files with nothing else in it at any depth.
  ghost predicate Emptied(t: Tree, refused: set<Path>, base: Path, paths: seq<Path>, d: Path) {
    && LeadsTo(base, paths, d)
    && forall q | q in t && (q == d || Below(d, q)) :: Goes(refused, base, paths, q)
  }

  // The tree without the listed files and without the emptied directories.
  ghost function After(t: Tree, refused: set<Path>, base: Path, paths: seq<Path>): Tree {
    map q | q in t && q !in Listed(base, paths) && !Emptied(t, refused, base, paths, q) :: t[q]
  }

  ghost predicate AllAcceptable(t: Tree, base: Path, paths: seq<Path>) {
    forall p | p in paths :: p != [] && Proper(p) && Acceptable(t, base, p)
  }

  // Listed entries are files and the entries on the way to them directories.
  lemma KindsAreClear(t: Tree, base: Path, paths: seq<Path>, q: Path)
    requires AllAcceptable(t, base, paths) && q in t
    ensures q in Listed(base, paths) ==> t[q] == Regular
    ensures LeadsTo(base, paths, q) ==> t[q] == Directory
  {
    if p :| p in paths && q == base + p {
      assert p[..|p|] == p;
    }
    if LeadsTo(base, paths, q) {
      var f :| f in Listed(base, paths) && Below(q, f);
      var p :| p in paths && f == base + p;
      assert q == base + p[..|q| - |base|];
    }
  }

  function ParentsOf(path: Path): set<Path> {
    set i | 0 < i < |path| :: path[..i]
  }

  ghost function Parents(paths: seq<Path>): set<Path> {
    set p, d | p in paths && d in ParentsOf(p) :: d
  }

  // The directories on the way, seen from the save directory.
  lemma ParentLeads(base: Path, paths: seq<Path>, d: Path)
    requires d in Parents(paths)
    ensures d != [] && LeadsTo(base, paths, base + d)
  {
    var p :| p in paths && d in ParentsOf(p);
    assert base + p in Listed(base, paths) && Below(base + d, base + p);
  }

  lemma LeadingIsParent(base: Path, paths: seq<Path>, q: Path)
    requires LeadsTo(base, paths, q)
    ensures |base| < |q| && q == base + q[|base|..] && q[|base|..] in Parents(paths)
  {
    var f :| f in Listed(base, paths) && Below(q, f);
    var p :| p in paths && f == base + p;
    assert q[..|base|] == base && q[|base|..] == p[..|q| - |base|];
    assert q[|base|..] in ParentsOf(p);
  }

  // Longest text first, as the sorted slice of the directories is.
  ghost predicate LongestFirst(s: seq<Path>) {
    forall i, j | 0 <= i < j < |s| :: |Render(s[i])| >= |Render(s[j])|
  }

  lemma LongestExists(dirs: set<Path>) returns (d: Path)
    requires dirs != {}
    ensures d in dirs && forall x | x in dirs :: |Render(x)| <= |Render(d)|
  {
    d :| d in dirs;
    if dirs != {d} {
      var e := LongestExists(dirs - {d});
      if |Render(d)| < |Render(e)| {
        d := e;
      }
    }
  }

  // `ordered` holds the longest of `dirs` in order, and `rest` the others.
  ghost predicate SortedSoFar(dirs: set<Path>, ordered: seq<Path>, rest: set<Path>) {
    && rest <= dirs && Elements(ordered) == dirs - rest
    && NoDuplicates(ordered) && LongestFirst(ordered)
    && forall i, d | 0 <= i < |ordered| && d in rest :: |Render(ordered[i])| >= |Render(d)|
  }

  lemma AppendLongest(dirs: set<Path>, ordered: seq<Path>, rest: set<Path>, d: Path)
    requires SortedSoFar(dirs, ordered, rest) && d in rest && forall x | x in rest :: |Render(x)| <= |Render(d)|
    ensures SortedSoFar(dirs, ordered + [d], rest - {d})
  {
    assert d !in Elements(ordered);
    assert Elements(ordered + [d]) == Elements(ordered) + {d};
  }

  // Any order that sorting by length can give.
  method Sorted(dirs: set<Path>) returns (ordered: seq<Path>)
    ensures NoDuplicates(ordered) && Elements(ordered) == dirs && LongestFirst(ordered)
  {
    ordered := [];
    var rest := dirs;
    while rest != {}
      invariant SortedSoFar(dirs, ordered, rest)
    {
      ghost var longest := LongestExists(rest);
      var d :| d in rest && forall x | x in rest :: |Render(x)| <= |Render(d)|;
      AppendLongest(dirs, ordered, rest, d);
      ordered := ordered + [d];
      rest := rest - {d};
    }
  }

  // The tree when the listed files and the first k directories are dealt with.
  ghost function Swept(t: Tree, refused: set<Path>, base: Path, paths: seq<Path>, done: seq<Path>): Tree {
    map q | q in t && q !in Listed(base, paths)
            && !(Emptied(t, refused, base, paths, q) && |base| <= |q| && q[|base|..] in done) :: t[q]
  }

  lemma SweptExtends(t: Tree, refused: set<Path>, base: Path, paths: seq<Path>, done: seq<Path>, x: Path)
    requires x !in done
    ensures Swept(t, refused, base, paths, done + [x])
            == if Emptied(t, refused, base, paths, base + x) then Swept(t, refused, base, paths, done) - {base + x}
               else Swept(t, refused, base, paths, done)
  {
    assert (base + x)[|base|..] == x;
    forall q | Emptied(t, refused, base, paths, q) ensures |base| <= |q| && (q[|base|..] == x <==> q == base + x) {
      LeadingIsParent(base, paths, q);
    }
  }

  // When its turn comes, a directory is empty exactly if all it held was to go:
  // what lies below it has a longer text and had its turn before.
  lemma TurnOutcome(t: Tree, refused: set<Path>, base: Path, paths: seq<Path>, ordered: seq<Path>, k: nat)
    requires AllAcceptable(t, base, paths) && k < |ordered| && LongestFirst(ordered) && NoDuplicates(ordered)
    requires Elements(ordered) == Parents(paths)
    ensures var d := base + ordered[k];
            RemoveOutcome(Swept(t, refused, base, paths, ordered[..k]), refused, d) == Deleted
            <==> d in t && Emptied(t, refused, base, paths, d)
  {
    var d := base + ordered[k];
    assert ordered[k] in Elements(ordered);
    ParentLeads(base, paths, ordered[k]);
    if d in t {
      KindsAreClear(t, base, paths, d);
      assert d[|base|..] == ordered[k] && ordered[k] !in ordered[..k];
      if Emptied(t, refused, base, paths, d) {
        EmptiedTurn(t, refused, base, paths, ordered, k);
      } else {
        OccupiedTurn(t, refused, base, paths, ordered[..k], d);
      }
    }
  }

  lemma EmptiedTurn(t: Tree, refused: set<Path>, base: Path, paths: seq<Path>, ordered: seq<Path>, k: nat)
    requires k < |ordered| && LongestFirst(ordered) && Elements(ordered) == Parents(paths)
    requires base + ordered[k] in t && base + ordered[k] !in Listed(base, paths)
    requires Emptied(t, refused, base, paths, base + ordered[k])
    ensures base + ordered[k] !in refused
    ensures forall q | q in t && Below(base + ordered[k], q) :: q !in Swept(t, refused, base, paths, ordered[..k])
  {
    assert Goes(refused, base, paths, base + ordered[k]);
    forall q | q in t && Below(base + ordered[k], q) ensures q !in Swept(t, refused, base, paths, ordered[..k]) {
      EmptiedBelow(t, refused, base, paths, base + ordered[k], q);
      if q !in Listed(base, paths) {
        BelowHadItsTurn(base, paths, ordered, k, q);
      }
    }
  }

  lemma BelowHadItsTurn(base: Path, paths: seq<Path>, ordered: seq<Path>, k: nat, q: Path)
    requires k < |ordered| && LongestFirst(ordered) && Elements(ordered) == Parents(paths)
    requires ordered[k] != [] && LeadsTo(base, paths, q) && Below(base + ordered[k], q)
    ensures |base| < |q| && q[|base|..] in ordered[..k]
  {
    LeadingIsParent(base, paths, q);
    var d, r := base + ordered[k], q[|base|..];
    assert r in Elements(ordered);
    var j :| 0 <= j < |ordered| && ordered[j] == r;
    assert r[..|ordered[k]|] == q[..|d|][|base|..] == ordered[k];
    BelowIsLonger(ordered[k], r);
    assert ordered[..k][j] == r;
  }

  lemma OccupiedTurn(t: Tree, refused: set<Path>, base: Path, paths: seq<Path>, done: seq<Path>, d: Path)
    requires LeadsTo(base, paths, d) && !Emptied(t, refused, base, paths, d) && d !in Listed(base, paths)
    ensures d in refused || exists q :: q in Swept(t, refused, base, paths, done) && Below(d, q)
  {
    var q :| q in t && (q == d || Below(d, q)) && !Goes(refused, base, paths, q);
    if d !in refused {
      assert !Emptied(t, refused, base, paths, q);
      assert q in Swept(t, refused, base, paths, done);
    }
  }

  // What lies in an emptied directory is listed or emptied itself.
  lemma EmptiedBelow(t: Tree, refused: set<Path>, base: Path, paths: seq<Path>, d: Path, q: Path)
    requires q in t && Below(d, q) && Emptied(t, refused, base, paths, d)
    ensures q in Listed(base, paths) || Emptied(t, refused, base, paths, q)
  {
    assert Goes(refused, base, paths, q);
    forall r | r in t && Below(q, r) ensures Goes(refused, base, paths, r) {
      assert r[..|d|] == r[..|q|][..|d|];
    }
  }

  // The loop from the parent of `path` up to ".".
  method AddParents(directories: set<Path>, path: Path) returns (r: set<Path>)
    ensures r == directories + ParentsOf(path)
  {
    r := directories;
    var dir := if path == [] then [] else path[..|path| - 1];
    while dir != []
      invariant dir <= path && (path != [] ==> |dir| < |path|)
      invariant forall d :: d in r <==> d in directories || (d in ParentsOf(path) && |d| > |dir|)
      decreases |dir|
    {
      assert dir == path[..|dir|] && dir in ParentsOf(path);
      forall d | d in ParentsOf(path) && |d| == |dir| ensures d == dir {}
      r := r + {dir};
      dir := dir[..|dir| - 1];
    }
  }

  method DeleteFiles(tree: FileTree, base: Path, paths: seq<Path>) returns (ok: bool, directories: set<Path>)
    requires AllAcceptable(tree.nodes, base, paths)
    modifies tree
    ensures ok <==> forall k | 0 <= k < |paths| :: base + paths[k] !in tree.refused || base + paths[k] !in old(tree.nodes)
    ensures ok ==> tree.nodes == old(tree.nodes) - Listed(base, paths)
    ensures !ok ==> exists k | 0 <= k < |paths| :: tree.nodes == old(tree.nodes) - Listed(base, paths[..k])
    ensures ok ==> directories == Parents(paths)
  {
    directories := {};
    ghost var t := tree.nodes;
    for i := 0 to |paths|
      invariant tree.nodes == t - Listed(base, paths[..i])
      invariant directories == Parents(paths[..i])
      invariant forall k | 0 <= k < i :: base + paths[k] !in tree.refused || base + paths[k] !in t
    {
      assert paths[..i + 1] == paths[..i] + [paths[i]];
      FileOutcome(t, tree.refused, base, paths, i);
      assert Listed(base, paths[..i + 1]) == Listed(base, paths[..i]) + {base + paths[i]};
      var removed := tree.Remove(base + paths[i]);
      if removed == Failed {
        return false, directories;
      }
      directories := AddParents(directories, paths[i]);
      assert Parents(paths[..i + 1]) == Parents(paths[..i]) + ParentsOf(paths[i]);
    }
    assert paths[..|paths|] == paths;
    return true, directories;
  }

  lemma SweepStep(t: Tree, refused: set<Path>, base: Path, paths: seq<Path>, ordered: seq<Path>, k: nat)
    requires AllAcceptable(t, base, paths) && k < |ordered| && LongestFirst(ordered) && NoDuplicates(ordered)
    requires Elements(ordered) == Parents(paths)
    ensures var s := Swept(t, refused, base, paths, ordered[..k]);
            var d := base + ordered[k];
            Swept(t, refused, base, paths, ordered[..k + 1])
            == if RemoveOutcome(s, refused, d) == Deleted then s - {d} else s
  {
    TakeOneMore(ordered, k);
    TurnOutcome(t, refused, base, paths, ordered, k);
    SweptExtends(t, refused, base, paths, ordered[..k], ordered[k]);
  }

  method DeleteDirectories(tree: FileTree, base: Path, directories: set<Path>, ghost t: Tree, ghost paths: seq<Path>)
    requires AllAcceptable(t, base, paths) && tree.nodes == t - Listed(base, paths)
    requires directories == Parents(paths)
    modifies tree
    ensures tree.nodes == After(t, tree.refused, base, paths)
  {
    var ordered := Sorted(directories);
    SweptStart(t, tree.refused, base, paths);
    for k := 0 to |ordered|
      invariant tree.nodes == Swept(t, tree.refused, base, paths, ordered[..k])
    {
      SweepStep(t, tree.refused, base, paths, ordered, k);
      var _ := tree.Remove(base + ordered[k]);
    }
    assert ordered[..|ordered|] == ordered;
    SweptEnd(t, tree.refused, base, paths, ordered);
  }

  // On success the tree has lost exactly the listed files and the emptied
  // directories; the first file the system refuses ends the run before any
  // directory is touched.
  method RemoveDataFiles(tree: FileTree, root: Option<Path>, paths: seq<Path>) returns (ok: bool)
    requires root.Some? ==> AllAcceptable(tree.nodes, root.value, paths)
    modifies tree
    ensures root.None? ==> ok && tree.nodes == old(tree.nodes)
    ensures root.Some? ==>
              (ok <==> forall k | 0 <= k < |paths| :: root.value + paths[k] !in tree.refused || root.value + paths[k] !in old(tree.nodes))
    ensures root.Some? && ok ==> tree.nodes == After(old(tree.nodes), tree.refused, root.value, paths)
    ensures root.Some? && !ok ==>
              exists k | 0 <= k < |paths| :: tree.nodes == old(tree.nodes) - Listed(root.value, paths[..k])
  {
    if root.None? {
      return true;
    }
    ghost var t := tree.nodes;
    var directories;
    ok, directories := DeleteFiles(tree, root.value, paths);
    if ok {
      DeleteDirectories(tree, root.value, directories, t, paths);
    }
  }

  // A listed file fails only if the system refuses.
  lemma FileOutcome(t: Tree, refused: set<Path>, base: Path, paths: seq<Path>, i: nat)
    requires AllAcceptable(t, base, paths) && i < |paths|
    ensures RemoveOutcome(t - Listed(base, paths[..i]), refused, base + paths[i]) == Failed ==>
              base + paths[i] in refused && base + paths[i] in t
    ensures base + paths[i] in refused && base + paths[i] in t ==>
              (forall k | 0 <= k < i :: base + paths[k] !in refused || base + paths[k] !in t) ==>
              RemoveOutcome(t - Listed(base, paths[..i]), refused, base + paths[i]) == Failed
  {
    var q := base + paths[i];
    assert q in Listed(base, paths);
    if q in t {
      KindsAreClear(t, base, paths, q);
    }
  }

  lemma SweptStart(t: Tree, refused: set<Path>, base: Path, paths: seq<Path>)
    ensures Swept(t, refused, base, paths, []) == t - Listed(base, paths)
  {
  }

  lemma SweptEnd(t: Tree, refused: set<Path>, base: Path, paths: seq<Path>, ordered: seq<Path>)
    requires Elements(ordered) == Parents(paths)
    ensures Swept(t, refused, base, paths, ordered) == After(t, refused, base, paths)
  {
    forall q | Emptied(t, refused, base, paths, q) ensures |base| <= |q| && q[|base|..] in ordered {
      LeadingIsParent(base, paths, q);
      assert q[|base|..] in Elements(ordered);
    }
  }

  // ---------------------------------------------------------------- what stays

  // Everything that is neither listed nor a directory on the way stays, and
  // so does every directory above something that stays.
  lemma SurvivorsKeepAncestors(t: Tree, refused: set<Path>, base: Path, paths: seq<Path>, q: Path)
    requires WellFormed(t) && AllAcceptable(t, base, paths)
    requires q in t && q !in Listed(base, paths)
    ensures !LeadsTo(base, paths, q) ==> q in After(t, refused, base, paths) && After(t, refused, base, paths)[q] == t[q]
    ensures q in After(t, refused, base, paths) ==>
              forall i: nat | i < |q| :: q[..i] in After(t, refused, base, paths)
  {
    forall i: nat | i < |q| && q in After(t, refused, base, paths) ensures q[..i] in After(t, refused, base, paths) {
      KindsAreClear(t, base, paths, q[..i]);
      if Emptied(t, refused, base, paths, q[..i]) {
        EmptiedBelow(t, refused, base, paths, q[..i], q);
      }
    }
  }

  lemma AfterIsWellFormed(t: Tree, refused: set<Path>, base: Path, paths: seq<Path>)
    requires WellFormed(t) && AllAcceptable(t, base, paths)
    ensures WellFormed(After(t, refused, base, paths))
  {
    var u := After(t, refused, base, paths);
    forall p, i: nat | p in u && i < |p| ensures p[..i] in u && u[p[..i]] == Directory {
      SurvivorsKeepAncestors(t, refused, base, paths, p);
    }
  }

  // ---------------------------------------------------------------- sharing

  // A torrent of the registry: where its save directory really is, and its
  // metadata once known.
  datatype Torrent = Torrent(directory: Resolved, info: Option<Info>)

  ghost function Files(t: Torrent): set<Path>
    requires t.directory.At? && t.info.Some?
  {
    set p | p in FilePaths(t.info.value) :: t.directory.directory + p
  }

  // The other torrent can be checked, and shares none of the files.
  ghost predicate Apart(base: Path, paths: seq<Path>, other: Torrent) {
    other.info.Some? && !other.directory.Missing? ==>
      other.directory.At? && Usable(other.info.value) && Files(other) !! Listed(base, paths)
  }

  method CheckSharedFiles(directory: Resolved, paths: seq<Path>, others: seq<Torrent>) returns (ok: bool)
    ensures ok <==> directory.Missing? || (directory.At? && forall o | o in others :: Apart(directory.directory, paths, o))
  {
    if directory.Missing? {
      return true;
    }
    if directory.Unresolvable? {
      return false;
    }
    var candidates := set p | p in paths :: directory.directory + p;
    for i := 0 to |others|
      invariant forall k | 0 <= k < i :: Apart(directory.directory, paths, others[k])
    {
      var other := others[i];
      if other.info.None? || other.directory.Missing? {
        continue;
      }
      if other.directory.Unresolvable? {
        assert other in others && !Apart(directory.directory, paths, other);
        return false;
      }
      var otherPaths := TorrentFilePaths(other.info.value);
      if otherPaths.None? {
        assert other in others && !Apart(directory.directory, paths, other);
        return false;
      }
      ghost var all := otherPaths.value;
      for k := 0 to |otherPaths.value|
        invariant forall j | 0 <= j < k :: other.directory.directory + all[j] !in candidates
      {
        if other.directory.directory + otherPaths.value[k] in candidates {
          assert all[k] in (set p | p in all);
          assert other.directory.directory + all[k] in Files(other) * Listed(directory.directory, paths);
          assert other in others && !Apart(directory.directory, paths, other);
          return false;
        }
      }
      forall q | q in Files(other) ensures q !in candidates {
        var p :| p in FilePaths(other.info.value) && q == other.directory.directory + p;
        assert p in (set x | x in all);
        var j :| 0 <= j < |all| && all[j] == p;
      }
    }
    return true;
  }

  // How RemoveDataFiles can leave the tree.
  ghost predicate Left(t: Tree, u: Tree, refused: set<Path>, base: Path, paths: seq<Path>) {
    || u == After(t, refused, base, paths)
    || exists k :: 0 <= k < |paths| && u == t - Listed(base, paths[..k])
  }

  lemma OtherFileSurvives(t: Tree, u: Tree, refused: set<Path>, base: Path, paths: seq<Path>, q: Path)
    requires WellFormed(t) && AllAcceptable(t, base, paths) && Left(t, u, refused, base, paths)
    requires q in t && q !in Listed(base, paths) && t[q] != Directory
    ensures q in u && u[q] == t[q]
    ensures forall i: nat | i < |q| :: q[..i] in u
  {
    KindsAreClear(t, base, paths, q);
    if u == After(t, refused, base, paths) {
      SurvivorsKeepAncestors(t, refused, base, paths, q);
    } else {
      var k :| 0 <= k < |paths| && u == t - Listed(base, paths[..k]);
      PrefixListed(base, paths, k);
      forall i: nat | i < |q| ensures q[..i] in u {
        KindsAreClear(t, base, paths, q[..i]);
      }
    }
  }

  lemma PrefixListed(base: Path, paths: seq<Path>, k: nat)
    requires k <= |paths|
    ensures Listed(base, paths[..k]) <= Listed(base, paths)
  {
    forall q | q in Listed(base, paths[..k]) ensures q in Listed(base, paths) {
      var p :| p in paths[..k] && q == base + p;
    }
  }

  lemma OnlyListedOrLeadingGo(t: Tree, u: Tree, refused: set<Path>, base: Path, paths: seq<Path>, q: Path)
    requires Left(t, u, refused, base, paths) && q in t && q !in u
    requires forall p | p in paths :: p != []
    ensures |base| < |q| && exists p :: p in paths && q <= base + p
  {
    if u == After(t, refused, base, paths) {
      if q in Listed(base, paths) {
        var p :| p in paths && q == base + p;
      } else {
        var f :| f in Listed(base, paths) && Below(q, f);
        var p :| p in paths && f == base + p;
        assert q <= base + p;
      }
    } else {
      var k :| 0 <= k < |paths| && u == t - Listed(base, paths[..k]);
      PrefixListed(base, paths, k);
      assert q in Listed(base, paths);
      var p :| p in paths && q == base + p;
    }
  }

  // When a removal with data gets through: all paths are usable and lead over
  // directories to regular files as far as entries exist, the other torrents can
  // be checked and share no file, and the system refuses none.
  ghost predicate Deletable(t: Tree, refused: set<Path>, directory: Resolved, info: Info, others: seq<Torrent>) {
    && Usable(info) && !directory.Unresolvable?
    && (directory.At? ==>
          var base := directory.directory;
          && (forall p | p in FilePaths(info) :: Acceptable(t, base, p) && (base + p !in refused || base + p !in t))
          && (forall o | o in others && o.info.Some? && !o.directory.Missing? ::
                o.directory.At? && Usable(o.info.value) && Files(o) !! Files(Torrent(directory, Some(info)))))
  }

  lemma ListedAreFiles(base: Path, paths: seq<Path>, info: Info)
    requires (set p | p in paths) == FilePaths(info)
    ensures Listed(base, paths) == Files(Torrent(At(base), Some(info)))
    ensures forall p :: p in paths <==> p in FilePaths(info)
  {
    forall p ensures p in paths <==> p in FilePaths(info) {
      assert p in paths <==> p in (set x | x in paths);
    }
    forall q ensures q in Listed(base, paths) <==> q in Files(Torrent(At(base), Some(info))) {
      if q in Listed(base, paths) {
        var p :| p in paths && q == base + p;
        assert p in FilePaths(info);
      }
      if q in Files(Torrent(At(base), Some(info))) {
        var p :| p in FilePaths(info) && q == base + p;
        assert p in paths;
      }
    }
  }

  // The three checks together.
  lemma DeletableExactly(t: Tree, refused: set<Path>, base: Path, paths: seq<Path>, info: Info, others: seq<Torrent>)
    requires Usable(info) && (set p | p in paths) == FilePaths(info)
    ensures Deletable(t, refused, At(base), info, others) <==>
              && (forall p | p in FilePaths(info) :: Acceptable(t, base, p))
              && (forall o | o in others :: Apart(base, paths, o))
              && (forall k | 0 <= k < |paths| :: base + paths[k] !in refused || base + paths[k] !in t)
  {
    hide Acceptable, Usable, FilePaths, Listed, Files;
    ListedAreFiles(base, paths, info);
    if forall k | 0 <= k < |paths| :: base + paths[k] !in refused || base + paths[k] !in t {
      forall p | p in FilePaths(info) ensures base + p !in refused || base + p !in t {
        var k :| 0 <= k < |paths| && paths[k] == p;
      }
    }
    if Deletable(t, refused, At(base), info, others) {
      forall k | 0 <= k < |paths| ensures base + paths[k] !in refused || base + paths[k] !in t {
        assert paths[k] in FilePaths(info);
      }
      forall o | o in others ensures Apart(base, paths, o) {}
    }
    if forall o | o in others :: Apart(base, paths, o) {
      forall o | o in others && o.info.Some? && !o.directory.Missing?
        ensures o.directory.At? && Usable(o.info.value) && Files(o) !! Files(Torrent(At(base), Some(info)))
      {
        assert Apart(base, paths, o);
      }
    }
  }

  // What a removal must have passed, and all it needs without a directory.
  lemma DeletableNeeds(t: Tree, refused: set<Path>, directory: Resolved, info: Info, others: seq<Torrent>)
    ensures Deletable(t, refused, directory, info, others) ==>
              && Usable(info) && !directory.Unresolvable?
              && (directory.At? ==> forall p | p in FilePaths(info) :: Acceptable(t, directory.directory, p))
    ensures directory.Missing? ==> (Deletable(t, refused, directory, info, others) <==> Usable(info))
  {
  }

  // What the others have of a removal that ran.
  ghost predicate OthersKept(t: Tree, u: Tree, others: seq<Torrent>) {
    forall o, q | o in others && o.info.Some? && o.directory.At? && q in Files(o) && q in t && t[q] != Directory ::
      && q in u && u[q] == t[q]
      && forall i: nat | i < |q| :: q[..i] in u
  }

  // And what the torrent itself has lost at most.
  ghost predicate OnlyOwnGone(t: Tree, u: Tree, base: Path, info: Info) {
    forall q | q in t && q !in u :: |base| < |q| && exists p :: p in FilePaths(info) && q <= base + p
  }

  lemma OtherKept(t: Tree, u: Tree, refused: set<Path>, base: Path, paths: seq<Path>, o: Torrent, q: Path)
    requires WellFormed(t) && AllAcceptable(t, base, paths) && Left(t, u, refused, base, paths) && Apart(base, paths, o)
    requires o.info.Some? && o.directory.At? && q in Files(o) && q in t && t[q] != Directory
    ensures q in u && u[q] == t[q] && forall i: nat | i < |q| :: q[..i] in u
  {
    hide WellFormed, AllAcceptable, Left, Listed, Files;
    assert q !in Listed(base, paths);
    OtherFileSurvives(t, u, refused, base, paths, q);
  }

  lemma OwnGone(t: Tree, u: Tree, refused: set<Path>, base: Path, paths: seq<Path>, info: Info, q: Path)
    requires AllAcceptable(t, base, paths) && Left(t, u, refused, base, paths) && q in t && q !in u
    requires forall p :: p in paths <==> p in FilePaths(info)
    ensures |base| < |q| && exists p :: p in FilePaths(info) && q <= base + p
  {
    hide AllAcceptable, Left, FilePaths;
    PathsNotEmpty(t, base, paths);
    OnlyListedOrLeadingGo(t, u, refused, base, paths, q);
  }

  lemma RemovalSpares(t: Tree, u: Tree, refused: set<Path>, base: Path, paths: seq<Path>, info: Info, others: seq<Torrent>)
    requires WellFormed(t) && AllAcceptable(t, base, paths) && Left(t, u, refused, base, paths)
    requires (set p | p in paths) == FilePaths(info) && forall o | o in others :: Apart(base, paths, o)
    ensures OthersKept(t, u, others) && OnlyOwnGone(t, u, base, info)
  {
    hide WellFormed, AllAcceptable, Left, Listed, FilePaths, Files, Apart;
    ListedAreFiles(base, paths, info);
    forall q | q in t && q !in u ensures |base| < |q| && exists p :: p in FilePaths(info) && q <= base + p {
      OwnGone(t, u, refused, base, paths, info, q);
    }
    forall o, q | o in others && o.info.Some? && o.directory.At? && q in Files(o) && q in t && t[q] != Directory
      ensures q in u && u[q] == t[q]
      ensures forall i: nat | i < |q| :: q[..i] in u
    {
      OtherKept(t, u, refused, base, paths, o, q);
    }
  }

  lemma UnchangedKeeps(t: Tree, others: seq<Torrent>)
    requires WellFormed(t)
    ensures OthersKept(t, t, others)
  {
  }

  lemma PathsNotEmpty(t: Tree, base: Path, paths: seq<Path>)
    requires AllAcceptable(t, base, paths)
    ensures forall p | p in paths :: p != []
  {
  }

  lemma FilesAreListed(base: Path, paths: seq<Path>, p: Path)
    requires p in paths
    ensures base + p in Listed(base, paths)
  {
  }

  // The files of a torrent, spelled out: below its name, if it has one.
  lemma FilesAreWhereNamed(info: Info, file: seq<string>)
    requires file in info.files
    ensures info.name.Some? && Proper([info.name.value] + file) ==> [info.name.value] + file in FilePaths(info)
    ensures info.name.None? && file != [] && Proper(file) ==> file in FilePaths(info)
  {
    FileIsWhereNamed(info, file);
    var i :| 0 <= i < |info.files| && info.files[i] == file;
    assert FilePath(info, info.files[i]) == FilePath(info, file);
  }

  // No file climbs out of the torrent's directory.
  predicate StaysBelowName(info: Info) {
    forall i | 0 <= i < |info.files| :: !Climbs(0, info.files[i]) && forall k | 0 <= k < |info.files[i]| :: '/' !in info.files[i][k]
  }

  lemma FilesStayBelowName(info: Info, p: Path)
    requires info.name.Some? && ProperName(info.name.value) && StaysBelowName(info) && p in FilePaths(info)
    ensures [info.name.value] <= p
  {
    var i :| 0 <= i < |info.files| && FilePath(info, info.files[i]).Some? && FilePath(info, info.files[i]).value == p;
    FileIsWhereNamed(info, info.files[i]);
  }

  // A directory on the way that is still there was refused, or has something in it.
  ghost predicate NoEmptyDirectoryLeft(u: Tree, refused: set<Path>, base: Path, info: Info) {
    forall p, i | p in FilePaths(info) && 0 < i < |p| && base + p[..i] in u ::
      base + p[..i] in refused || exists q :: q in u && Below(base + p[..i], q)
  }

  lemma SweepLeavesNoEmptyDirectory(t: Tree, refused: set<Path>, base: Path, paths: seq<Path>, d: Path)
    requires AllAcceptable(t, base, paths) && LeadsTo(base, paths, d) && d in After(t, refused, base, paths)
    ensures d in refused || exists q :: q in After(t, refused, base, paths) && Below(d, q)
  {
    var q :| q in t && (q == d || Below(d, q)) && !Goes(refused, base, paths, q);
    assert q in After(t, refused, base, paths);
  }

  lemma NoneLeftEmpty(t: Tree, refused: set<Path>, base: Path, paths: seq<Path>, info: Info)
    requires AllAcceptable(t, base, paths) && forall p :: p in paths <==> p in FilePaths(info)
    ensures NoEmptyDirectoryLeft(After(t, refused, base, paths), refused, base, info)
  {
    hide FilePaths, After, AllAcceptable;
    forall p, i | p in FilePaths(info) && 0 < i < |p| && base + p[..i] in After(t, refused, base, paths)
      ensures base + p[..i] in refused || exists q :: q in After(t, refused, base, paths) && Below(base + p[..i], q)
    {
      assert p[..i] in ParentsOf(p) && p in paths;
      ParentLeads(base, paths, p[..i]);
      SweepLeavesNoEmptyDirectory(t, refused, base, paths, base + p[..i]);
    }
  }

  lemma BelowNamedBase(base: Path, name: string, p: Path, q: Path)
    requires [name] <= p && |base| < |q| && q <= base + p
    ensures base + [name] <= q
  {
    assert (base + p)[..|base| + 1] == base + [name];
    assert q[..|base| + 1] == (base + p)[..|base| + 1];
  }

  lemma OwnIsBelowName(t: Tree, u: Tree, base: Path, info: Info)
    requires OnlyOwnGone(t, u, base, info) && info.name.Some? && ProperName(info.name.value) && StaysBelowName(info)
    ensures forall q | q in t && q !in u :: base + [info.name.value] <= q
  {
    hide FilePaths, StaysBelowName, ProperName;
    forall q | q in t && q !in u ensures base + [info.name.value] <= q {
      var p :| p in FilePaths(info) && q <= base + p;
      FilesStayBelowName(info, p);
      BelowNamedBase(base, info.name.value, p, q);
    }
  }

  // Removing a torrent with its data never takes a file of another registered
  // torrent whose metadata is known, nor a directory above such a file, however
  // the save directories are nested and however the removal ends.
  method RemoveData(tree: FileTree, directory: Resolved, info: Info, others: seq<Torrent>) returns (ok: bool)
    requires WellFormed(tree.nodes)
    modifies tree
    ensures forall o, q | o in others && o.info.Some? && o.directory.At? && q in Files(o)
                          && q in old(tree.nodes) && old(tree.nodes)[q] != Directory ::
              && q in tree.nodes && tree.nodes[q] == old(tree.nodes)[q]
              && forall i: nat | i < |q| :: q[..i] in tree.nodes
    ensures forall q | q in old(tree.nodes) && q !in tree.nodes ::
              directory.At? && |directory.directory| < |q| && exists p :: p in FilePaths(info) && q <= directory.directory + p
    ensures directory.At? && info.name.Some? && ProperName(info.name.value) && StaysBelowName(info) ==>
              forall q | q in old(tree.nodes) && q !in tree.nodes :: directory.directory + [info.name.value] <= q
    ensures ok <==> Deletable(old(tree.nodes), tree.refused, directory, info, others)
    ensures ok && directory.At? ==> forall file | file in info.files ::
              && (info.name.Some? && Proper([info.name.value] + file) ==> directory.directory + ([info.name.value] + file) !in tree.nodes)
              && (info.name.None? && file != [] && Proper(file) ==> directory.directory + file !in tree.nodes)
    ensures ok && directory.At? ==> NoEmptyDirectoryLeft(tree.nodes, tree.refused, directory.directory, info)
    ensures ok && directory.At? ==> forall p | p in FilePaths(info) :: directory.directory + p !in tree.nodes
  {
    hide Deletable, Acceptable, Apart, FilePaths, Listed, After, WellFormed, StaysBelowName, NoEmptyDirectoryLeft;
    ghost var t := tree.nodes;
    DeletableNeeds(t, tree.refused, directory, info, others);
    UnchangedKeeps(t, others);
    var prepared := PrepareDataRemoval(tree, directory, info);
    if prepared.Unprepared? {
      return false;
    }
    if directory.At? {
      ListedAreFiles(directory.directory, prepared.paths, info);
      DeletableExactly(t, tree.refused, directory.directory, prepared.paths, info, others);
    }
    var apart := CheckSharedFiles(directory, prepared.paths, others);
    if !apart {
      return false;
    }
    ok := RemoveDataFiles(tree, prepared.root, prepared.paths);
    if directory.At? {
      RemovalSpares(t, tree.nodes, tree.refused, directory.directory, prepared.paths, info, others);
      if info.name.Some? && ProperName(info.name.value) && StaysBelowName(info) {
        OwnIsBelowName(t, tree.nodes, directory.directory, info);
      }
      if ok {
        NoneLeftEmpty(t, tree.refused, directory.directory, prepared.paths, info);
        OwnFilesGone(t, tree.refused, directory.directory, prepared.paths, info);
      }
    }
  }

  lemma OwnFilesGone(t: Tree, refused: set<Path>, base: Path, paths: seq<Path>, info: Info)
    requires forall p :: p in paths <==> p in FilePaths(info)
    ensures var u := After(t, refused, base, paths);
            && (forall p | p in FilePaths(info) :: base + p !in u)
            && (forall file | file in info.files ::
                  && (info.name.Some? && Proper([info.name.value] + file) ==> base + ([info.name.value] + file) !in u)
                  && (info.name.None? && file != [] && Proper(file) ==> base + file !in u))
  {
    hide FilePaths, After;
    forall p | p in FilePaths(info) ensures base + p !in After(t, refused, base, paths) {
      FilesAreListed(base, paths, p);
      ListedGone(t, refused, base, paths, base + p);
    }
    forall file | file in info.files
      ensures info.name.Some? && Proper([info.name.value] + file) ==> base + ([info.name.value] + file) !in After(t, refused, base, paths)
      ensures info.name.None? && file != [] && Proper(file) ==> base + file !in After(t, refused, base, paths)
    {
      FilesAreWhereNamed(info, file);
    }
  }

  lemma ListedGone(t: Tree, refused: set<Path>, base: Path, paths: seq<Path>, q: Path)
    requires q in Listed(base, paths)
    ensures q !in After(t, refused, base, paths)
  {
  }
}
