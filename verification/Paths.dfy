/** Slash-separated paths, joined and cleaned as package filepath does on Unix. */
module Paths {
  import opened Model

  // A path as its components. The empty sequence is ".".
  type Path = seq<string>

  predicate ProperName(name: string) {
    name != "" && name != "." && name != ".." && '/' !in name
  }

  predicate Proper(p: Path) {
    forall i | 0 <= i < |p| :: ProperName(p[i])
  }

  // ---------------------------------------------------------------- text

  function Split(s: string): (r: seq<string>)
    ensures r != [] && forall i | 0 <= i < |r| :: '/' !in r[i]
  {
    if s == [] then [""]
    else
      var rest := Split(s[1..]);
      if s[0] == '/' then [""] + rest else [[s[0]] + rest[0]] + rest[1..]
  }

  function Slashed(parts: seq<string>): string
    requires parts != []
  {
    if |parts| == 1 then parts[0] else parts[0] + "/" + Slashed(parts[1..])
  }

  function Render(p: Path): string {
    if p == [] then "." else Slashed(p)
  }

  lemma {:induction false} SplitAtSlash(a: string, b: string)
    requires '/' !in a
    ensures Split(a + "/" + b) == [a] + Split(b)
  {
    if a == "" {
      assert (a + "/" + b)[1..] == b;
    } else {
      assert (a + "/" + b)[1..] == a[1..] + "/" + b;
      SplitAtSlash(a[1..], b);
      assert [a[0]] + a[1..] == a;
    }
  }

  lemma {:induction false} SplitPlain(a: string)
    requires '/' !in a
    ensures Split(a) == [a]
  {
    if a != "" {
      SplitPlain(a[1..]);
      assert [a[0]] + a[1..] == a;
    }
  }

  lemma {:induction false} SplitSlashed(p: seq<string>)
    requires p != [] && forall i | 0 <= i < |p| :: '/' !in p[i]
    ensures Split(Slashed(p)) == p
  {
    if |p| == 1 {
      SplitPlain(p[0]);
    } else {
      SplitSlashed(p[1..]);
      SplitAtSlash(p[0], Slashed(p[1..]));
      assert p == [p[0]] + p[1..];
    }
  }

  // ---------------------------------------------------------------- cleaning

  // One component: nothing for an empty one or ".", and ".." takes the last
  // name back, disappears at the root, or stays at the front.
  function CleanStep(rooted: bool, done: Path, part: string): Path {
    if part == "" || part == "." then done
    else if part == ".." then
      if done != [] && done[|done| - 1] != ".." then done[..|done| - 1]
      else if rooted then done
      else done + [part]
    else done + [part]
  }

  function CleanParts(rooted: bool, done: Path, parts: seq<string>): Path
    decreases |parts|
  {
    if parts == [] then done else CleanParts(rooted, CleanStep(rooted, done, parts[0]), parts[1..])
  }

  // The elements from the first that is not empty, slash between them.
  function Joined(elements: seq<string>): string
    decreases |elements|
  {
    if elements == [] then ""
    else if elements[0] == "" then Joined(elements[1..])
    else Slashed(elements)
  }

  predicate Rooted(text: string) {
    text != "" && text[0] == '/'
  }

  function Clean(text: string): Path {
    CleanParts(Rooted(text), [], Split(text))
  }

  // The joined path lies within the directory it is resolved in.
  predicate IsLocal(elements: seq<string>) {
    var text := Joined(elements);
    text != "" && !Rooted(text) && (Clean(text) == [] || Clean(text)[0] != "..")
  }

  function LocalPath(elements: seq<string>): Option<Path> {
    if IsLocal(elements) then Some(Clean(Joined(elements))) else None
  }

  // After cleaning, ".." can stand only at the front.
  ghost predicate DotsFirst(p: Path) {
    forall i | 0 <= i < |p| :: ProperName(p[i]) || (p[i] == ".." && forall j | 0 <= j < i :: p[j] == "..")
  }

  lemma {:induction false} CleanPartsDotsFirst(rooted: bool, done: Path, parts: seq<string>)
    requires DotsFirst(done) && forall i | 0 <= i < |parts| :: '/' !in parts[i]
    ensures DotsFirst(CleanParts(rooted, done, parts))
    decreases |parts|
  {
    if parts != [] {
      CleanPartsDotsFirst(rooted, CleanStep(rooted, done, parts[0]), parts[1..]);
    }
  }

  // A local path is made of proper names only.
  lemma LocalIsProper(elements: seq<string>)
    requires IsLocal(elements)
    ensures Proper(LocalPath(elements).value)
  {
    CleanPartsDotsFirst(false, [], Split(Joined(elements)));
    var p := LocalPath(elements).value;
    forall i | 0 <= i < |p| ensures ProperName(p[i]) {
      assert ProperName(p[0]);
    }
  }

  lemma {:induction false} CleanProper(done: Path, p: Path)
    requires Proper(p)
    ensures CleanParts(false, done, p) == done + p
    decreases |p|
  {
    if p != [] {
      CleanProper(done + [p[0]], p[1..]);
      assert done + [p[0]] + p[1..] == done + p;
    }
  }

  // Writing a proper path and cleaning the text gives the path back, so
  // different paths have different texts.
  lemma CleanRender(p: Path)
    requires Proper(p)
    ensures Clean(Render(p)) == p && Render(p) != "" && Render([]) == "."
  {
    if p == [] {
      assert Split(".") == ["."] by { SplitPlain("."); }
      assert CleanParts(false, [], ["."]) == CleanParts(false, [], []);
    } else {
      SplitSlashed(p);
      CleanProper([], p);
      assert ProperName(p[0]);
      assert Render(p)[0] == p[0][0];
    }
  }

  lemma RenderInjective(p: Path, q: Path)
    requires Proper(p) && Proper(q) && Render(p) == Render(q)
    ensures p == q
  {
    CleanRender(p);
    CleanRender(q);
  }

  // A path below another has the longer text.
  lemma {:induction false} BelowIsLonger(p: Path, q: Path)
    requires p != [] && |p| < |q| && q[..|p|] == p
    ensures |Render(p)| < |Render(q)|
  {
    assert q[0] == p[0];
    if |p| > 1 {
      assert q[1..][..|p| - 1] == p[1..];
      BelowIsLonger(p[1..], q[1..]);
    }
  }

  // ---------------------------------------------------------------- what cleaning does

  // Components that say nothing are skipped, and ".." takes back the name before.
  lemma CleanLaws(rooted: bool, done: Path, name: string, rest: seq<string>)
    requires ProperName(name)
    ensures CleanParts(rooted, done, [""] + rest) == CleanParts(rooted, done, rest)
    ensures CleanParts(rooted, done, ["."] + rest) == CleanParts(rooted, done, rest)
    ensures CleanParts(rooted, done, [name, ".."] + rest) == CleanParts(rooted, done, rest)
  {
    assert ([name, ".."] + rest)[1..] == [".."] + rest && ([".."] + rest)[1..] == rest;
    assert CleanStep(rooted, done + [name], "..") == done by {
      assert (done + [name])[..|done|] == done;
    }
  }

  // Do the components lead above the place they start at, at any point?
  predicate Climbs(depth: nat, parts: seq<string>)
    decreases |parts|
  {
    && parts != []
    && if parts[0] == ".." then depth == 0 || Climbs(depth - 1, parts[1..])
       else Climbs(if parts[0] == "" || parts[0] == "." then depth else depth + 1, parts[1..])
  }

  // Once above, the path stays there.
  lemma {:induction false} AboveStaysAbove(done: Path, parts: seq<string>)
    requires done != [] && done[0] == ".."
    ensures CleanParts(false, done, parts) != [] && CleanParts(false, done, parts)[0] == ".."
    decreases |parts|
  {
    if parts != [] {
      AboveStaysAbove(CleanStep(false, done, parts[0]), parts[1..]);
    }
  }

  lemma {:induction false} CleanClimbsExactly(done: Path, parts: seq<string>)
    requires Proper(done) && forall i | 0 <= i < |parts| :: '/' !in parts[i]
    ensures Climbs(|done|, parts) <==> CleanParts(false, done, parts) != [] && CleanParts(false, done, parts)[0] == ".."
    decreases |parts|
  {
    if parts != [] {
      var next := CleanStep(false, done, parts[0]);
      if parts[0] == ".." && done == [] {
        AboveStaysAbove(next, parts[1..]);
      } else {
        CleanClimbsExactly(next, parts[1..]);
      }
    }
  }

  // Joined components are a local path exactly if there is anything to them, they
  // do not start at the root, and they never lead above the directory.
  lemma LocalExactly(elements: seq<string>)
    ensures IsLocal(elements) <==>
              Joined(elements) != "" && Joined(elements)[0] != '/' && !Climbs(0, Split(Joined(elements)))
  {
    CleanClimbsExactly([], Split(Joined(elements)));
  }

  // Proper names are a path as they are.
  lemma ProperIsItself(elements: seq<string>)
    requires elements != [] && Proper(elements)
    ensures LocalPath(elements) == Some(elements)
  {
    assert ProperName(elements[0]) && Joined(elements) == Slashed(elements);
    CleanRender(elements);
    assert Joined(elements)[0] == elements[0][0];
  }

  // What is below a name stays below it if it does not climb.
  lemma {:induction false} BelowName(name: string, done: Path, parts: seq<string>)
    requires ProperName(name) && Proper(done) && !Climbs(|done|, parts) && forall i | 0 <= i < |parts| :: '/' !in parts[i]
    ensures CleanParts(false, [name] + done, parts) == [name] + CleanParts(false, done, parts)
    decreases |parts|
  {
    if parts != [] {
      var next := CleanStep(false, done, parts[0]);
      assert CleanStep(false, [name] + done, parts[0]) == [name] + next;
      BelowName(name, next, parts[1..]);
    }
  }

  // Joining after a proper name loses nothing.
  lemma JoinedAfterName(name: string, parts: seq<string>)
    requires ProperName(name) && forall i | 0 <= i < |parts| :: '/' !in parts[i]
    ensures var text := Joined([name] + parts);
            text != "" && !Rooted(text) && Split(text) == [name] + parts
  {
    var elements := [name] + parts;
    assert elements[0] == name && elements[1..] == parts;
    SplitSlashed(elements);
    assert Joined(elements)[0] == name[0];
  }

  lemma CleanAfterName(name: string, parts: seq<string>)
    requires ProperName(name) && forall i | 0 <= i < |parts| :: '/' !in parts[i]
    ensures Clean(Joined([name] + parts)) == CleanParts(false, [name], parts)
  {
    hide Joined, Split;
    JoinedAfterName(name, parts);
    assert ([name] + parts)[1..] == parts;
    assert CleanStep(false, [], name) == [name];
  }

  lemma PathBelowName(name: string, parts: seq<string>)
    requires ProperName(name) && !Climbs(0, parts) && forall i | 0 <= i < |parts| :: '/' !in parts[i]
    ensures LocalPath([name] + parts) == Some([name] + CleanParts(false, [], parts))
  {
    hide Joined, Split, Clean, CleanParts;
    JoinedAfterName(name, parts);
    CleanAfterName(name, parts);
    BelowName(name, [], parts);
    assert [name] + [] == [name];
  }

  // ---------------------------------------------------------------- a torrent's files

  // A torrent's metadata, as far as its files go: `name` is `None` for a
  // torrent without one, and each file lists the rest of its path.
  datatype Info = Info(name: Option<string>, files: seq<seq<string>>)

  function PathElements(info: Info, file: seq<string>): seq<string> {
    (if info.name.Some? then [info.name.value] else []) + file
  }

  // A file lies below the torrent's name, if it has one.
  lemma FileIsWhereNamed(info: Info, file: seq<string>)
    ensures info.name.Some? && Proper([info.name.value] + file) ==>
              LocalPath(PathElements(info, file)) == Some([info.name.value] + file)
    ensures info.name.None? && file != [] && Proper(file) ==> LocalPath(PathElements(info, file)) == Some(file)
    ensures info.name == Some("") && file != [] && Proper(file) ==> LocalPath(PathElements(info, file)) == Some(file)
    ensures info.name.Some? && ProperName(info.name.value) && !Climbs(0, file) && (forall i | 0 <= i < |file| :: '/' !in file[i]) ==>
              LocalPath(PathElements(info, file)) == Some([info.name.value] + CleanParts(false, [], file))
  {
    if info.name.Some? {
      var elements := [info.name.value] + file;
      assert elements[1..] == file;
      if file != [] && Proper(file) {
        ProperIsItself(file);
      }
      if Proper(elements) {
        ProperIsItself(elements);
      }
      if ProperName(info.name.value) && !Climbs(0, file) && forall i | 0 <= i < |file| :: '/' !in file[i] {
        PathBelowName(info.name.value, file);
      }
    } else if file != [] && Proper(file) {
      assert [] + file == file;
      ProperIsItself(file);
    }
  }

  // A file that climbs out of the name does not: its path is the rest.
  lemma ClimbingFileLeavesName()
    ensures LocalPath(PathElements(Info(Some("film"), [["..", "a"]]), ["..", "a"])) == Some(["a"])
  {
    hide Joined, Split;
    assert ["film"] + ["..", "a"] == ["film", "..", "a"];
    JoinedAfterName("film", ["..", "a"]);
    CleanAfterName("film", ["..", "a"]);
    assert ["..", "a"][1..] == ["a"] && ["a"][1..] == [];
    assert CleanStep(false, ["film"], "..") == [];
    assert CleanParts(false, ["film"], ["..", "a"]) == CleanParts(false, [], ["a"]) == CleanParts(false, ["a"], []);
  }
}
