/** The session file: validation, the two-rename save and the load with its backup. */
module Store {
  import opened Model

  // ---------------------------------------------------------------- validity

  predicate CompleteRecord(r: Record) {
    r.source != "" && r.savePath != "" && (r.desired == Downloading || r.desired == Paused)
  }

  // What a session promises to the rest of the daemon.
  ghost predicate Valid(s: Session) {
    && s.order.Some?
    && s.torrents.Some?
    && NoDuplicates(Ids(s))
    && Elements(Ids(s)) == Records(s).Keys
    && "" !in Ids(s)
    && forall id | id in Records(s) :: CompleteRecord(Records(s)[id])
  }

  // What makes the id at i a bad one.
  ghost predicate BadAt(s: Session, i: nat)
    requires i < |Ids(s)|
  {
    var id := Ids(s)[i];
    id == "" || id in Ids(s)[..i] || id !in Records(s) || !CompleteRecord(Records(s)[id])
  }

  lemma BadIsInvalid(s: Session, i: nat)
    requires i < |Ids(s)| && BadAt(s, i)
    ensures !Valid(s)
  {
    var id := Ids(s)[i];
    assert id in Ids(s);
    if id in Ids(s)[..i] {
      var k :| 0 <= k < i && Ids(s)[..i][k] == id;
      assert Ids(s)[k] == Ids(s)[i];
    } else if id !in Records(s) {
      assert id in Elements(Ids(s));
    }
  }

  // Without a bad id the order lists some of the keys once each, so all of them
  // if there are as many.
  lemma GoodIsValidIfAsMany(s: Session)
    requires s.order.Some? && s.torrents.Some? && forall i | 0 <= i < |Ids(s)| :: !BadAt(s, i)
    ensures Valid(s) <==> |Elements(Ids(s))| == |Records(s)|
  {
    var order := Ids(s);
    forall i, j | 0 <= i < j < |order| ensures order[i] != order[j] {
      assert order[i] == order[..j][i] && !BadAt(s, j);
    }
    forall id | id in order ensures id in Records(s) && id != "" && CompleteRecord(Records(s)[id]) {
      var i :| 0 <= i < |order| && order[i] == id;
      assert !BadAt(s, i);
    }
    assert Elements(order) <= Records(s).Keys;
    if |Elements(order)| == |Records(s)| {
      SameSizeSubset(Elements(order), Records(s).Keys);
    }
  }

  method ValidateSession(session: Session) returns (ok: bool)
    ensures ok <==> Valid(session)
  {
    if session.order.None? || session.torrents.None? {
      return false;
    }
    hide Valid;
    var order, torrents := session.order.value, session.torrents.value;
    var seen: set<TorrentID> := {};
    for i := 0 to |order|
      invariant seen == Elements(order[..i])
      invariant forall k | 0 <= k < i :: !BadAt(session, k)
    {
      var id := order[i];
      if id == "" || id in seen || id !in torrents || !CompleteRecord(torrents[id]) {
        BadIsInvalid(session, i);
        return false;
      }
      assert order[..i + 1] == order[..i] + [id];
      seen := seen + {id};
    }
    assert order[..|order|] == order;
    GoodIsValidIfAsMany(session);
    return |seen| == |torrents|;
  }

  // ---------------------------------------------------------------- the disk

  // A decodable file holds a session, valid or not; anything else is corrupt.
  datatype Content = Encoded(session: Session) | Corrupt

  datatype Disk = Disk(primary: Option<Content>, backup: Option<Content>, temporary: Option<Content>)

  // Where a save fails: while the temporary file is prepared (or the primary
  // file cannot be examined), at the first rename, or at the second.
  datatype Fault = NoFault | Preparing | BackingUp | Publishing

  // No step of the save fails: without a primary file there is none to back up.
  predicate Works(d: Disk, f: Fault) {
    f == NoFault || (f == BackingUp && d.primary.None?)
  }

  // The disk after a save has returned, and whether it reported success.
  ghost function Save(d: Disk, s: Session, f: Fault): (Disk, bool) {
    if !Valid(s) then (d, false)
    else if f == Preparing || (f == BackingUp && d.primary.Some?) then (d.(temporary := None), false)
    else
      var saved := if d.primary.Some? then Disk(None, d.primary, None) else d.(temporary := None);
      if f == Publishing then (saved, false)
      else (saved.(primary := Some(Encoded(s))), true)
  }

  // "Primary if present, else backup", when that is a complete session.
  function Committed(d: Disk): Option<Session> {
    var c := if d.primary.Some? then d.primary else d.backup;
    if c.Some? && c.value.Encoded? then Some(c.value.session) else None
  }

  // Some named file holds the whole session.
  predicate Holds(d: Disk, s: Session) {
    d.primary == Some(Encoded(s)) || d.backup == Some(Encoded(s))
  }

  // The disk agrees with the session in memory.
  predicate Mirrors(d: Disk, s: Session) {
    d.primary == Some(Encoded(s)) || (d.primary.None? && d.backup == Some(Encoded(s)))
  }

  // Every disk a save of `s` can be cut off at, in order.
  function CrashPoints(d: Disk, s: Session): (r: seq<Disk>)
  {
    var full := d.(temporary := Some(Encoded(s)));
    [d, d.(temporary := Some(Corrupt)), full]
    + (if d.primary.Some? then [full.(primary := None, backup := d.primary)] else [])
    + [Disk(Some(Encoded(s)), if d.primary.Some? then d.primary else d.backup, None)]
  }

  // Equal up to the temporary file, whose name no reader looks for.
  predicate SameNames(a: Disk, b: Disk) {
    a.primary == b.primary && a.backup == b.backup
  }

  // What a crash during a save of `s` leaves.
  ghost predicate CutOff(d: Disk, s: Session, p: Disk) {
    exists k :: 0 <= k < |CrashPoints(d, s)| && SameNames(CrashPoints(d, s)[k], p)
  }

  // ---------------------------------------------------------------- saving

  class SessionFile {
    var primary: Option<Content>
    var backup: Option<Content>
    var temporary: Option<Content>
    // Every state the disk has been in: a crash leaves any one of them.
    ghost var history: seq<Disk>

    constructor (d: Disk)
      ensures View() == d && history == [d]
    {
      primary, backup, temporary := d.primary, d.backup, d.temporary;
      history := [d];
    }

    function View(): Disk
      reads this
    {
      Disk(primary, backup, temporary)
    }

    method SaveSession(session: Session, f: Fault) returns (ok: bool)
      modifies this
      ensures (View(), ok) == Save(old(View()), session, f)
      ensures old(history) <= history
      ensures forall k | |old(history)| <= k < |history| ::
                CutOff(old(View()), session, history[k])
    {
      var valid := ValidateSession(session);
      if !valid {
        return false;
      }
      ok := WriteJSON(session, f);
    }

    // `f` says which step the operating system refuses. The temporary file is
    // removed on every return; only a crash can leave it.
    method WriteJSON(session: Session, f: Fault) returns (ok: bool)
      modifies this
      ensures Valid(session) ==> (View(), ok) == Save(old(View()), session, f)
      ensures old(history) <= history
      ensures forall k | |old(history)| <= k < |history| ::
                CutOff(old(View()), session, history[k])
    {
      ghost var start := View();
      ghost var points := CrashPoints(start, session);
      assert SameNames(points[0], start);
      temporary := Some(Corrupt);
      history := history + [View()];
      if f == Preparing {
        temporary := None;
        history := history + [View()];
        return false;
      }
      temporary := Some(Encoded(session));
      history := history + [View()];
      if primary.Some? {
        if f == BackingUp {
          temporary := None;
          history := history + [View()];
          return false;
        }
        primary, backup := None, primary;
        history := history + [View()];
        assert SameNames(points[3], View());
      }
      assert SameNames(points[|points| - 2], View());
      if f == Publishing {
        temporary := None;
        history := history + [View()];
        return false;
      }
      primary, temporary := temporary, None;
      history := history + [View()];
      assert SameNames(points[|points| - 1], View());
      return true;
    }

    method LoadOrCreateSession(f: Fault) returns (r: Option<Session>)
      modifies this
      ensures (View(), r) == Load(old(View()), f)
    {
      if primary.None? {
        var ok := SaveSession(DefaultSession, f);
        return if ok then Some(DefaultSession) else None;
      }
      if primary.value.Corrupt? {
        if backup.Some? && backup.value.Encoded? {
          var usable := ValidateSession(backup.value.session);
          if usable {
            return Some(backup.value.session);
          }
        }
        return None;
      }
      var valid := ValidateSession(primary.value.session);
      return if valid then Some(primary.value.session) else None;
    }
  }

  ghost function Load(d: Disk, f: Fault): (Disk, Option<Session>) {
    match d.primary
    case None =>
      var (d', ok) := Save(d, DefaultSession, f);
      (d', if ok then Some(DefaultSession) else None)
    case Some(Encoded(s)) => (d, if Valid(s) then Some(s) else None)
    case Some(Corrupt) =>
      if d.backup.Some? && d.backup.value.Encoded? && Valid(d.backup.value.session)
      then (d, Some(d.backup.value.session)) else (d, None)
  }

  // ---------------------------------------------------------------- theorems

  // A saved session is complete, in elementary terms: nothing is missing, doubled
  // or unnamed, and each record says where from, where to, and whether to run.
  lemma ValidExactly(s: Session)
    ensures Valid(s) <==>
              && s.order.Some? && s.torrents.Some?
              && (forall i, j | 0 <= i < j < |s.order.value| :: s.order.value[i] != s.order.value[j])
              && (forall id :: id in s.order.value <==> id in s.torrents.value)
              && (forall id | id in s.torrents.value ::
                    && id != "" && s.torrents.value[id].source != "" && s.torrents.value[id].savePath != ""
                    && (s.torrents.value[id].desired == Downloading || s.torrents.value[id].desired == Paused))
  {
    if s.order.Some? && s.torrents.Some? {
      var order, torrents := s.order.value, s.torrents.value;
      assert Ids(s) == order && Records(s) == torrents;
      forall id ensures id in order <==> id in Elements(order) {}
      assert Elements(order) == torrents.Keys <==> forall id :: id in order <==> id in torrents;
    }
  }

  // What a start finds. The primary file counts, if there is one: a complete
  // session in it comes back, and an incomplete one stops the daemon. A corrupt
  // one is replaced by the very session of the backup, where that is complete.
  // Only without a primary file is there a first run, with an empty session.
  lemma LoadExactly(d: Disk, s: Session, f: Fault)
    ensures d.primary == Some(Encoded(s)) ==> Load(d, f) == (d, if Valid(s) then Some(s) else None)
    ensures d.primary == Some(Corrupt) && d.backup == Some(Encoded(s)) ==> Load(d, f) == (d, if Valid(s) then Some(s) else None)
    ensures d.primary == Some(Corrupt) && (d.backup.None? || d.backup.value.Corrupt?) ==> Load(d, f) == (d, None)
    ensures d.primary.None? ==>
              && (Load(d, f).1.Some? <==> f == NoFault || f == BackingUp)
              && (Load(d, f).1.Some? ==>
                    && Load(d, f).1.value.order == Some([]) && Load(d, f).1.value.torrents == Some(map[])
                    && Load(d, f).0 == Disk(Some(Encoded(Load(d, f).1.value)), d.backup, None))
  {
    assert Valid(DefaultSession);
  }

  // A file with an incomplete record does not load, nor does a backup with one.
  lemma IncompleteDoesNotLoad(d: Disk, s: Session, id: TorrentID, f: Fault)
    requires d.primary == Some(Encoded(s)) || (d.primary == Some(Corrupt) && d.backup == Some(Encoded(s)))
    requires id in Records(s)
    requires Records(s)[id].source == "" || Records(s)[id].savePath == "" || Records(s)[id].desired !in {Downloading, Paused}
    ensures Load(d, f).1.None?
  {
    ValidExactly(s);
    LoadExactly(d, s, f);
  }

  lemma MirrorsIsCommitted(d: Disk, s: Session)
    ensures Mirrors(d, s) <==> Committed(d) == Some(s)
  {
  }

  // A crash anywhere in a save leaves the complete old or the complete new
  // session as "primary if present, else backup".
  lemma CrashIsAtomic(d: Disk, s: Session, p: Disk)
    requires Committed(d).Some?
    requires p in CrashPoints(d, s)
    ensures Committed(p) == Committed(d) || Committed(p) == Some(s)
  {
    var points := CrashPoints(d, s);
    var k :| 0 <= k < |points| && points[k] == p;
    if d.primary.Some? && k == 3 {
      assert p.primary.None? && p.backup == d.primary;
    }
  }

  // The same at every state a run of the save really goes through, whichever
  // step fails; a failed save keeps the old session, a good one has the new.
  method SaveIsAtomic(file: SessionFile, session: Session, f: Fault) returns (ok: bool)
    requires Committed(file.View()).Some?
    modifies file
    ensures forall k | |old(file.history)| <= k < |file.history| ::
              Committed(file.history[k]) in {old(Committed(file.View())), Some(session)}
    ensures Committed(file.View()) == if ok then Some(session) else old(Committed(file.View()))
    ensures ok <==> Valid(session) && Works(old(file.View()), f)
    ensures ok ==> file.View() == Disk(Some(Encoded(session)),
                                       if old(file.primary).Some? then old(file.primary) else old(file.backup), None)
    ensures !Valid(session) ==> file.View() == old(file.View())
    ensures Valid(session) ==> file.temporary.None?
  {
    ghost var before := file.View();
    ok := file.SaveSession(session, f);
    forall k | |old(file.history)| <= k < |file.history|
      ensures Committed(file.history[k]) in {Committed(before), Some(session)}
    {
      var c :| 0 <= c < |CrashPoints(before, session)| && SameNames(CrashPoints(before, session)[c], file.history[k]);
      CrashIsAtomic(before, session, CrashPoints(before, session)[c]);
    }
  }

  // Memory is the saved session after a good save and the old one after a bad
  // one, so disk and memory stay in step over any series of saves.
  ghost function SaveAll(d: Disk, memory: Session, saves: seq<(Session, Fault)>): (Disk, Session)
    decreases |saves|
  {
    if saves == [] then (d, memory)
    else
      var (s, f) := saves[0];
      var (d', ok) := Save(d, s, f);
      SaveAll(d', if ok then s else memory, saves[1..])
  }

  lemma {:induction false} SavesKeepMirror(d: Disk, memory: Session, saves: seq<(Session, Fault)>)
    requires Mirrors(d, memory)
    ensures var (d', m') := SaveAll(d, memory, saves); Mirrors(d', m')
    ensures var (d', m') := SaveAll(d, memory, saves);
            m' == memory || exists k | 0 <= k < |saves| :: m' == saves[k].0
    decreases |saves|
  {
    if saves != [] {
      var (s, f) := saves[0];
      var (d', ok) := Save(d, s, f);
      var next := if ok then s else memory;
      SavesKeepMirror(d', next, saves[1..]);
      var m' := SaveAll(d', next, saves[1..]).1;
      if m' != next {
        var k :| 0 <= k < |saves[1..]| && m' == saves[1..][k].0;
        assert saves[k + 1].0 == m';
      } else if ok {
        assert saves[0].0 == m';
      }
    }
  }

  // What a start returns. An absent primary file counts as a first run: the
  // default session is written beside a backup that stays as it was.
  lemma LoadAfterRun(d: Disk, memory: Session)
    requires Mirrors(d, memory) && Valid(memory)
    ensures d.primary.Some? ==> Load(d, NoFault) == (d, Some(memory))
    ensures d.primary.None? ==>
              && Load(d, NoFault).1 == Some(DefaultSession)
              && Load(d, NoFault).0.primary == Some(Encoded(DefaultSession))
              && Load(d, NoFault).0.backup == Some(Encoded(memory))
    // The session in memory comes back exactly when the primary file is there
    // (or there was nothing to lose).
    ensures Load(d, NoFault).1 == Some(memory) <==> d.primary.Some? || memory == DefaultSession
  {
    assert Valid(DefaultSession);
  }

  // What becomes of the session beside an absent primary file after such a start:
  // the backup keeps it until a later save gets as far as its first rename, and
  // then only a session equal to it is left.
  lemma OldSessionSurvivesUntilFirstRename(d: Disk, memory: Session, s: Session, f: Fault)
    requires d.primary.None? && Mirrors(d, memory) && Valid(s)
    ensures var d' := Load(d, NoFault).0;
            && Holds(d', memory) && |CrashPoints(d', s)| == 5
            && (forall k | 0 <= k < 5 ::
                  Holds(CrashPoints(d', s)[k], memory) <==> k < 3 || memory == DefaultSession || (k == 4 && memory == s))
            && (Holds(Save(d', s, f).0, memory) <==>
                  f == Preparing || f == BackingUp || memory == DefaultSession || (f == NoFault && memory == s))
  {
    assert Valid(DefaultSession);
    var d' := Load(d, NoFault).0;
    assert d' == Disk(Some(Encoded(DefaultSession)), d.backup, None);
    assert CrashPoints(d', s)[3] == Disk(None, d'.primary, Some(Encoded(s)));
    assert CrashPoints(d', s)[4] == Disk(Some(Encoded(s)), d'.primary, None);
  }

  // After a start the disk mirrors memory, except when the session came from
  // the backup of a corrupt primary file.
  lemma LoadMirrors(d: Disk, f: Fault)
    requires Load(d, f).1.Some?
    ensures Mirrors(Load(d, f).0, Load(d, f).1.value) <==> d.primary != Some(Corrupt)
  {
  }

  // Memory and disk together keep at least one complete copy of the old or of
  // the new session at every crash point exactly when the primary file was not
  // corrupt: renaming a corrupt primary file replaces the good backup the
  // session was just loaded from.
  lemma CopySurvivesUnlessPrimaryCorrupt(d: Disk, old_: Session, new_: Session)
    requires Holds(d, old_) && Load(d, NoFault) == (d, Some(old_)) && Valid(new_)
    ensures (forall p | p in CrashPoints(d, new_) :: Holds(p, old_) || Holds(p, new_))
            <==> d.primary != Some(Corrupt)
  {
    var points := CrashPoints(d, new_);
    if d.primary == Some(Corrupt) {
      assert points[3] in points;
      assert !Holds(points[3], old_) && !Holds(points[3], new_);
    } else {
      forall p | p in points ensures Holds(p, old_) || Holds(p, new_) {
        var k :| 0 <= k < |points| && points[k] == p;
        if k == 3 {
          assert p.backup == d.primary || p.primary == Some(Encoded(new_));
        }
      }
    }
  }

  // A concrete disk on which the copy is lost.
  lemma CorruptPrimaryLosesBackup() returns (d: Disk, p: Disk)
    ensures Load(d, NoFault) == (d, Some(DefaultSession))
    ensures p in CrashPoints(d, DefaultSession) && Load(p, NoFault).0.backup == Some(Corrupt)
    ensures !Holds(p, DefaultSession)
  {
    d := Disk(Some(Corrupt), Some(Encoded(DefaultSession)), None);
    assert Valid(DefaultSession);
    p := CrashPoints(d, DefaultSession)[3];
  }
}
