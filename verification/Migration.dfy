/** Renaming the partial files of earlier versions: link under the new name, then unlink the old. */
module Migration {
  import opened Model
  import Paths

  // A name is a link to a file, told by its inode, or something else.
  datatype Node = File(inode: nat) | Unlinkable

  type Names = map<string, Node>

  function Twin(path: string): string {
    path + ".part"
  }

  lemma TwinInjective(p: string, q: string)
    ensures Twin(p) == Twin(q) <==> p == q
  {
    if Twin(p) == Twin(q) {
      assert p == Twin(p)[..|Twin(p)| - 5] && q == Twin(q)[..|Twin(q)| - 5];
    }
  }

  // The torrent file has a partial twin that is not a torrent file itself.
  predicate Legacy(names: Names, paths: set<string>, p: string) {
    p in paths && Twin(p) !in paths && Twin(p) in names
  }

  // The twin can take the name: it is a file, and the name is free or its own.
  predicate Movable(names: Names, p: string)
    requires Twin(p) in names
  {
    names[Twin(p)].File? && (p in names ==> names[p] == names[Twin(p)])
  }

  predicate Ready(names: Names, paths: set<string>) {
    forall p | p in paths && Legacy(names, paths, p) :: Movable(names, p)
  }

  predicate IsTwinIn(names: Names, paths: set<string>, moved: set<string>, n: string) {
    exists p :: p in moved && Legacy(names, paths, p) && n == Twin(p)
  }

  // The names when the twins in `moved` have been moved, and those in `linked`
  // have their new name but still the old one too.
  ghost function Staged(names: Names, paths: set<string>, moved: set<string>, linked: set<string>): Names {
    (map n | n in names && !IsTwinIn(names, paths, moved, n) :: names[n])
    + (map p | p in moved + linked && Legacy(names, paths, p) :: names[Twin(p)])
  }

  // What the migration is for.
  ghost function Migrated(names: Names, paths: set<string>): Names {
    Staged(names, paths, paths, {})
  }

  ghost predicate Sound(names: Names, paths: set<string>, moved: set<string>) {
    moved <= paths && forall p | p in moved && Legacy(names, paths, p) :: Movable(names, p)
  }

  // The names a run can be cut off in, given what it has moved and linked.
  ghost predicate CutIn(names: Names, later: Names, paths: set<string>, moved: set<string>, linked: set<string>) {
    moved !! linked && Sound(names, paths, moved + linked) && later == Staged(names, paths, moved, linked)
  }

  // A state in which a migration can be cut off.
  ghost predicate Partway(names: Names, later: Names, paths: set<string>) {
    exists moved, linked :: CutIn(names, later, paths, moved, linked)
  }

  // ---------------------------------------------------------------- every step

  lemma StagedAt(names: Names, paths: set<string>, moved: set<string>, linked: set<string>, p: string)
    requires moved !! linked && Sound(names, paths, moved + linked) && p in paths
    ensures var later := Staged(names, paths, moved, linked);
            && (p in names ==> p in later && later[p] == names[p])
            && (Legacy(names, paths, p) ==>
                  && (Twin(p) in later <==> p !in moved)
                  && (Twin(p) in later ==> later[Twin(p)] == names[Twin(p)])
                  && (p in moved + linked ==> p in later && later[p] == names[Twin(p)])
                  && (p !in moved + linked ==> (p in later <==> p in names)))
            && (!Legacy(names, paths, p) ==> (p in later <==> p in names))
            && (Legacy(later, paths, p) <==> Legacy(names, paths, p) && p !in moved)
  {
    forall q { TwinInjective(p, q); }
    if Legacy(names, paths, p) {
      assert IsTwinIn(names, paths, moved, Twin(p)) <==> p in moved;
    }
  }

  // At every step every file reachable before still is, no torrent file is
  // rebound (nor one that really is called "x.part"), and all other names
  // but the twins are as they were.
  lemma NothingIsLost(names: Names, later: Names, paths: set<string>)
    requires Partway(names, later, paths)
    ensures forall n | n in names && names[n].File? :: exists m :: m in later && later[m] == names[n]
    ensures forall p | p in paths && p in names :: p in later && later[p] == names[p]
    ensures forall n | n !in paths && (forall p | p in paths :: n != Twin(p)) ::
              (n in later <==> n in names) && (n in names ==> later[n] == names[n])
  {
    var moved, linked :| CutIn(names, later, paths, moved, linked);
    forall n | n in names && names[n].File? ensures exists m :: m in later && later[m] == names[n] {
      FileStays(names, paths, moved, linked, n);
    }
    forall p | p in paths && p in names ensures p in later && later[p] == names[p] {
      StagedAt(names, paths, moved, linked, p);
    }
    forall n | n !in paths && (forall p | p in paths :: n != Twin(p))
      ensures (n in later <==> n in names) && (n in names ==> later[n] == names[n])
    {
      StrangerStays(names, paths, moved, linked, n);
    }
  }

  lemma FileStays(names: Names, paths: set<string>, moved: set<string>, linked: set<string>, n: string)
    requires moved !! linked && Sound(names, paths, moved + linked) && n in names
    ensures exists m :: m in Staged(names, paths, moved, linked) && Staged(names, paths, moved, linked)[m] == names[n]
  {
    var later := Staged(names, paths, moved, linked);
    if p :| p in moved && Legacy(names, paths, p) && n == Twin(p) {
      assert p in later && later[p] == names[n];
    } else {
      assert n in later;
      if n in paths {
        StagedAt(names, paths, moved, linked, n);
      }
      assert later[n] == names[n];
    }
  }

  lemma StrangerStays(names: Names, paths: set<string>, moved: set<string>, linked: set<string>, n: string)
    requires Sound(names, paths, moved + linked) && n !in paths && forall p | p in paths :: n != Twin(p)
    ensures n in Staged(names, paths, moved, linked) <==> n in names
    ensures n in names ==> Staged(names, paths, moved, linked)[n] == names[n]
  {
  }

  lemma SameTaskAt(names: Names, later: Names, paths: set<string>, moved: set<string>, linked: set<string>, p: string)
    requires CutIn(names, later, paths, moved, linked) && p in paths
    ensures (Legacy(later, paths, p) ==> Movable(later, p)) <==> (Legacy(names, paths, p) ==> Movable(names, p))
  {
    StagedAt(names, paths, moved, linked, p);
  }

  // The final names at a torrent file, at its twin, and anywhere else.
  lemma MigratedAt(names: Names, paths: set<string>, p: string)
    requires p in paths
    ensures var m := Migrated(names, paths);
            && (p in m <==> p in names || Legacy(names, paths, p))
            && (p in m ==> m[p] == if Legacy(names, paths, p) then names[Twin(p)] else names[p])
            && (Twin(p) !in paths ==> Twin(p) !in m)
  {
    forall q { TwinInjective(p, q); }
  }

  lemma MigratedElsewhere(names: Names, paths: set<string>, n: string)
    requires n !in paths && forall p | p in paths :: n != Twin(p)
    ensures n in Migrated(names, paths) <==> n in names
    ensures n in names ==> Migrated(names, paths)[n] == names[n]
  {
  }

  lemma SameResultAt(names: Names, later: Names, paths: set<string>, moved: set<string>, linked: set<string>, n: string)
    requires CutIn(names, later, paths, moved, linked)
    ensures var a, b := Migrated(later, paths), Migrated(names, paths);
            (n in a <==> n in b) && (n in a && n in b ==> a[n] == b[n])
  {
    if n in paths {
      StagedAt(names, paths, moved, linked, n);
      MigratedAt(names, paths, n);
      MigratedAt(later, paths, n);
    } else if p :| p in paths && n == Twin(p) {
      MigratedAt(names, paths, p);
      MigratedAt(later, paths, p);
    } else {
      StrangerStays(names, paths, moved, linked, n);
      MigratedElsewhere(names, paths, n);
      MigratedElsewhere(later, paths, n);
    }
  }

  // A run cut off anywhere and started again faces the same task: it can
  // succeed exactly if the first could, and ends in the same names.
  lemma RerunReachesTheSame(names: Names, later: Names, paths: set<string>)
    requires Partway(names, later, paths)
    ensures Ready(later, paths) <==> Ready(names, paths)
    ensures Migrated(later, paths) == Migrated(names, paths)
  {
    var moved, linked :| CutIn(names, later, paths, moved, linked);
    forall p | p in paths
      ensures (Legacy(later, paths, p) ==> Movable(later, p)) <==> (Legacy(names, paths, p) ==> Movable(names, p))
    {
      SameTaskAt(names, later, paths, moved, linked, p);
    }
    SameResult(names, later, paths, moved, linked);
  }

  lemma SameResult(names: Names, later: Names, paths: set<string>, moved: set<string>, linked: set<string>)
    requires CutIn(names, later, paths, moved, linked)
    ensures Migrated(later, paths) == Migrated(names, paths)
  {
    var a, b := Migrated(later, paths), Migrated(names, paths);
    forall n ensures (n in a <==> n in b) && (n in a && n in b ==> a[n] == b[n]) {
      SameResultAt(names, later, paths, moved, linked, n);
    }
  }

  // ---------------------------------------------------------------- the migration

  datatype Lookup = Absent | Found(node: Node) | Trouble

  /** A directory. The constants are the names on which the operating system fails. */
  class Directory {
    var names: Names
    const unreadable: set<string>
    const unlinkable: set<string>
    const unremovable: set<string>
    // Every state since the start: a crash leaves any one of them.
    ghost var history: seq<Names>

    constructor (names: Names, unreadable: set<string>, unlinkable: set<string>, unremovable: set<string>)
      ensures this.names == names && history == [names]
      ensures (this.unreadable, this.unlinkable, this.unremovable) == (unreadable, unlinkable, unremovable)
    {
      this.names := names;
      this.unreadable, this.unlinkable, this.unremovable := unreadable, unlinkable, unremovable;
      history := [names];
    }

    predicate Reliable()
    {
      unreadable == {} && unlinkable == {} && unremovable == {}
    }

    method Lstat(n: string) returns (r: Lookup)
      ensures r == if n in unreadable then Trouble else if n in names then Found(names[n]) else Absent
    {
      return if n in unreadable then Trouble else if n in names then Found(names[n]) else Absent;
    }

    // Never overwrites.
    method Link(from: string, to: string) returns (ok: bool)
      modifies this
      ensures ok <==> from in old(names) && old(names)[from].File? && to !in old(names) && to !in unlinkable
      ensures names == if ok then old(names)[to := old(names)[from]] else old(names)
      ensures history == if ok then old(history) + [names] else old(history)
    {
      if from !in names || !names[from].File? || to in names || to in unlinkable {
        return false;
      }
      names := names[to := names[from]];
      history := history + [names];
      return true;
    }

    method Remove(n: string) returns (ok: bool)
      modifies this
      ensures ok <==> n in old(names) && n !in unremovable
      ensures names == if ok then old(names) - {n} else old(names)
      ensures history == if ok then old(history) + [names] else old(history)
    {
      if n !in names || n in unremovable {
        return false;
      }
      names := names - {n};
      history := history + [names];
      return true;
    }
  }

  // The new states of a run are all ones it may be cut off in.
  ghost predicate OnTheWay(names: Names, paths: set<string>, before: seq<Names>, after: seq<Names>) {
    before <= after && forall k | |before| <= k < |after| :: Partway(names, after[k], paths)
  }

  lemma StagedSkip(names: Names, paths: set<string>, moved: set<string>, p: string)
    requires p in paths && Sound(names, paths, moved) && !Legacy(names, paths, p)
    ensures Sound(names, paths, moved + {p})
    ensures Staged(names, paths, moved + {p}, {}) == Staged(names, paths, moved, {})
  {
    hide Legacy, Movable, Twin;
    forall n ensures IsTwinIn(names, paths, moved + {p}, n) <==> IsTwinIn(names, paths, moved, n) {}
  }

  lemma StagedLink(names: Names, paths: set<string>, moved: set<string>, p: string)
    requires p in paths && p !in moved && Legacy(names, paths, p)
    ensures Staged(names, paths, moved, {p}) == Staged(names, paths, moved, {})[p := names[Twin(p)]]
  {
  }

  lemma StagedRemove(names: Names, paths: set<string>, moved: set<string>, p: string)
    requires p in paths && p !in moved && Legacy(names, paths, p)
    ensures Staged(names, paths, moved + {p}, {}) == Staged(names, paths, moved, {p}) - {Twin(p)}
  {
    forall n ensures IsTwinIn(names, paths, moved + {p}, n) <==> IsTwinIn(names, paths, moved, n) || n == Twin(p) {
      if n == Twin(p) {
        assert p in moved + {p};
      }
    }
  }

  lemma PartwayIntro(names: Names, paths: set<string>, moved: set<string>, linked: set<string>)
    requires moved !! linked && Sound(names, paths, moved + linked)
    ensures Partway(names, Staged(names, paths, moved, linked), paths)
  {
    assert CutIn(names, Staged(names, paths, moved, linked), paths, moved, linked);
  }

  lemma PartwayMoved(names: Names, paths: set<string>, moved: set<string>)
    requires Sound(names, paths, moved)
    ensures Partway(names, Staged(names, paths, moved, {}), paths)
  {
    assert moved + {} == moved;
    PartwayIntro(names, paths, moved, {});
  }

  lemma OnTheWayOne(names: Names, paths: set<string>, before: seq<Names>, after: seq<Names>, now: Names)
    requires Partway(names, now, paths) && (after == before || after == before + [now])
    ensures OnTheWay(names, paths, before, after)
  {
  }

  // Gives the twin its new name, unless it has it already.
  method LinkTwin(dir: Directory, ghost start: Names, paths: set<string>, ghost moved: set<string>, path: string, inode: nat)
    returns (ok: bool)
    requires path in paths && path !in moved && Sound(start, paths, moved) && Legacy(start, paths, path)
    requires dir.names == Staged(start, paths, moved, {}) && start[Twin(path)] == File(inode)
    modifies dir
    ensures ok ==> Movable(start, path) && dir.names == Staged(start, paths, moved, {path})
    ensures !ok ==> dir.names == old(dir.names)
    ensures dir.history == old(dir.history) || (ok && dir.history == old(dir.history) + [dir.names])
    ensures dir.Reliable() ==> (ok <==> Movable(start, path))
  {
    assert moved + {} == moved;
    StagedAt(start, paths, moved, {}, path);
    StagedLink(start, paths, moved, path);
    ok := dir.Link(Twin(path), path);
    if !ok {
      var target := dir.Lstat(path);
      ok := target == Found(File(inode));
    }
  }

  // One torrent file: link, then unlink.
  method MigrateOne(dir: Directory, ghost start: Names, paths: set<string>, ghost moved: set<string>, path: string)
    returns (ok: bool)
    requires path in paths && path !in moved && Sound(start, paths, moved)
    requires dir.names == Staged(start, paths, moved, {})
    modifies dir
    ensures ok ==> Sound(start, paths, moved + {path}) && dir.names == Staged(start, paths, moved + {path}, {})
    ensures OnTheWay(start, paths, old(dir.history), dir.history)
    ensures Partway(start, dir.names, paths)
    ensures dir.Reliable() ==> (ok <==> (Legacy(start, paths, path) ==> Movable(start, path)))
  {
    assert moved + {} == moved;
    StagedAt(start, paths, moved, {}, path);
    PartwayMoved(start, paths, moved);
    var part := Twin(path);
    if part in paths {
      StagedSkip(start, paths, moved, path);
      return true;
    }
    var stat := dir.Lstat(part);
    if stat.Absent? {
      StagedSkip(start, paths, moved, path);
      return true;
    }
    if stat.Trouble? || !stat.node.File? {
      return false;
    }
    ghost var before := dir.history;
    ok := LinkTwin(dir, start, paths, moved, path, stat.node.inode);
    if ok {
      PartwayIntro(start, paths, moved, {path});
      OnTheWayOne(start, paths, before, dir.history, dir.names);
      ghost var middle := dir.history;
      StagedAt(start, paths, moved, {path}, path);
      StagedRemove(start, paths, moved, path);
      PartwayMoved(start, paths, moved + {path});
      ok := dir.Remove(part);
      OnTheWayOne(start, paths, middle, dir.history, dir.names);
      OnTheWayFurther(start, paths, before, middle, dir.history);
    }
  }

  method PathTexts(info: Paths.Info) returns (r: Option<set<string>>)
    ensures r == if AllLocal(info) then Some(Texts(info)) else None
  {
    var paths: set<string> := {};
    for i := 0 to |info.files|
      invariant forall k | 0 <= k < i :: TextOf(info, info.files[k]).Some?
      invariant paths == (set k | 0 <= k < i :: TextOf(info, info.files[k]).value)
    {
      var path := Paths.LocalPath(Paths.PathElements(info, info.files[i]));
      if path.None? {
        return None;
      }
      paths := paths + {Paths.Render(path.value)};
    }
    assert paths == Texts(info);
    return Some(paths);
  }

  // The loop over the paths, which are keys of a map and come in any order.
  method MigrateAll(dir: Directory, ghost start: Names, paths: set<string>) returns (ok: bool)
    requires dir.names == start
    modifies dir
    ensures ok ==> Ready(start, paths) && dir.names == Migrated(start, paths)
    ensures dir.Reliable() && Ready(start, paths) ==> ok
    ensures OnTheWay(start, paths, old(dir.history), dir.history) && Partway(start, dir.names, paths)
  {
    StagedNothing(start, paths);
    ghost var before := dir.history;
    var rest := paths;
    ghost var moved := {};
    while rest != {}
      invariant rest !! moved && rest + moved == paths
      invariant Sound(start, paths, moved) && dir.names == Staged(start, paths, moved, {})
      invariant OnTheWay(start, paths, before, dir.history) && Partway(start, dir.names, paths)
    {
      var path :| path in rest;
      ghost var middle := dir.history;
      ok := MigrateOne(dir, start, paths, moved, path);
      OnTheWayFurther(start, paths, before, middle, dir.history);
      if !ok {
        return;
      }
      rest, moved := rest - {path}, moved + {path};
    }
    assert moved == paths;
    return true;
  }

  // The whole migration: on success every partial file has its new name, in
  // whatever order the paths came, and without faults it succeeds exactly if no
  // path is unusable and no name is taken by another file.
  method MigratePartFiles(dir: Directory, info: Paths.Info) returns (ok: bool)
    modifies dir
    ensures ok ==> AllLocal(info) && Ready(old(dir.names), Texts(info))
    ensures ok ==> dir.names == Migrated(old(dir.names), Texts(info))
    ensures ok ==> Renamed(old(dir.names), dir.names, info)
    ensures dir.Reliable() ==> (ok <==> AllLocal(info) && Ready(old(dir.names), Texts(info)))
    ensures OnTheWay(old(dir.names), Texts(info), old(dir.history), dir.history)
    ensures Partway(old(dir.names), dir.names, Texts(info))
  {
    StagedNothing(dir.names, Texts(info));
    var paths := PathTexts(info);
    if paths.None? {
      return false;
    }
    ghost var names := dir.names;
    ok := MigrateAll(dir, dir.names, paths.value);
    if ok {
      MigratedIsRenamed(names, info);
    }
  }

  // The result spelled out: a file that is there as p.part, and is no file of the
  // torrent by that name, is there as p and no longer as p.part.
  ghost predicate Renamed(names: Names, later: Names, info: Paths.Info) {
    forall p | p in Texts(info) && p + ".part" in names && p + ".part" !in Texts(info) ::
      p in later && later[p] == names[p + ".part"] && p + ".part" !in later
  }

  lemma MigratedIsRenamed(names: Names, info: Paths.Info)
    ensures Renamed(names, Migrated(names, Texts(info)), info)
  {
    hide Texts, Migrated;
    forall p | p in Texts(info) && p + ".part" in names && p + ".part" !in Texts(info)
      ensures var later := Migrated(names, Texts(info));
              p in later && later[p] == names[p + ".part"] && p + ".part" !in later
    {
      MigratedAt(names, Texts(info), p);
    }
  }

  lemma OnTheWayFurther(names: Names, paths: set<string>, before: seq<Names>, middle: seq<Names>, after: seq<Names>)
    requires OnTheWay(names, paths, before, middle) && OnTheWay(names, paths, middle, after)
    ensures OnTheWay(names, paths, before, after)
  {
    forall k | |before| <= k < |after| ensures Partway(names, after[k], paths) {
      if k < |middle| {
        assert after[k] == middle[k];
      }
    }
  }

  function TextOf(info: Paths.Info, file: seq<string>): Option<string> {
    var path := Paths.LocalPath(Paths.PathElements(info, file));
    if path.Some? then Some(Paths.Render(path.value)) else None
  }

  predicate AllLocal(info: Paths.Info) {
    forall i | 0 <= i < |info.files| :: TextOf(info, info.files[i]).Some?
  }

  // The names of the torrent's files.
  ghost function Texts(info: Paths.Info): set<string> {
    set i | 0 <= i < |info.files| && TextOf(info, info.files[i]).Some? :: TextOf(info, info.files[i]).value
  }

  // All names are usable exactly if no file's components come to nothing, start at
  // the root, or lead above the save directory.
  lemma AllLocalExactly(info: Paths.Info)
    ensures AllLocal(info) <==> forall i | 0 <= i < |info.files| ::
              var text := Paths.Joined(if info.name.Some? then [info.name.value] + info.files[i] else info.files[i]);
              text != "" && text[0] != '/' && !Paths.Climbs(0, Paths.Split(text))
    ensures AllLocal(info) ==> forall t :: t in Texts(info) <==>
              (exists i :: 0 <= i < |info.files| && t == Paths.Render(Paths.CleanParts(false, [], Paths.Split(Paths.Joined(
                 if info.name.Some? then [info.name.value] + info.files[i] else info.files[i])))))
  {
    hide Paths.Joined, Paths.Split, Paths.Climbs, Paths.CleanParts, Paths.Render;
    forall i | 0 <= i < |info.files|
      ensures var text := Paths.Joined(if info.name.Some? then [info.name.value] + info.files[i] else info.files[i]);
              && (TextOf(info, info.files[i]).Some? <==> text != "" && text[0] != '/' && !Paths.Climbs(0, Paths.Split(text)))
              && (TextOf(info, info.files[i]).Some? ==>
                    TextOf(info, info.files[i]).value == Paths.Render(Paths.CleanParts(false, [], Paths.Split(text))))
    {
      assert [] + info.files[i] == info.files[i];
      Paths.LocalExactly(if info.name.Some? then [info.name.value] + info.files[i] else info.files[i]);
    }
  }

  // They are the components with slashes between them, below the torrent's name
  // if it has one.
  lemma TextsAreNames(info: Paths.Info, file: seq<string>)
    requires file in info.files
    ensures info.name.Some? && Paths.Proper([info.name.value] + file) ==> Paths.Slashed([info.name.value] + file) in Texts(info)
    ensures info.name.None? && file != [] && Paths.Proper(file) ==> Paths.Slashed(file) in Texts(info)
  {
    Paths.FileIsWhereNamed(info, file);
    var i :| 0 <= i < |info.files| && info.files[i] == file;
    assert TextOf(info, info.files[i]) == TextOf(info, file);
  }

  lemma StagedNothing(names: Names, paths: set<string>)
    ensures Staged(names, paths, {}, {}) == names && Partway(names, names, paths)
  {
    var none: set<string> := {};
    assert none + none == none;
    assert Sound(names, paths, none + none);
    assert CutIn(names, names, paths, none, none);
  }

  // A run that was cut off after any of its steps and is started again, on a
  // system that fails nothing, ends as the uninterrupted run would have.
  method RerunAfterCrash(ghost names: Names, cut: Names, info: Paths.Info) returns (ok: bool, end: Names)
    requires Partway(names, cut, Texts(info))
    ensures ok <==> AllLocal(info) && Ready(names, Texts(info))
    ensures ok ==> end == Migrated(names, Texts(info))
  {
    var again := new Directory(cut, {}, {}, {});
    RerunReachesTheSame(names, cut, Texts(info));
    ok := MigratePartFiles(again, info);
    end := again.names;
  }
}
