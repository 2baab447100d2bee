/** What the session updates do, save failures included. */
module Sessions {
  import opened Model
  import opened Control
  import Store

  // Equal but for file priorities, which a failed save can leave changed.
  ghost predicate SameButPriorities(a: Session, b: Session) {
    && a.order == b.order && a.torrents.Some? == b.torrents.Some?
    && Records(a).Keys == Records(b).Keys
    && forall id | id in Records(a) ::
         Records(a)[id].(filePriorities := None) == Records(b)[id].(filePriorities := None)
  }

  // "Primary if present, else backup" is the session in memory, up to file priorities.
  ghost predicate Mirrored(st: State) {
    Store.Committed(st.disk).Some? && SameButPriorities(Store.Committed(st.disk).value, st.session)
  }

  // Only the session and its file change.
  ghost predicate OnlySession(a: State, b: State) {
    b == a.(session := b.session, disk := b.disk)
  }

  lemma CommitEffect(st: State, session: Session, f: Store.Fault)
    ensures var (st', ok) := Commit(st, session, f);
            && OnlySession(st, st')
            && (ok ==> Store.Valid(session) && st'.session == session && Store.Committed(st'.disk) == Some(session))
            && (!ok ==> st'.session == st.session)
            && (!ok ==> Store.Committed(st'.disk) == Store.Committed(st.disk))
            && (ok <==> Store.Valid(session) && Store.Works(st.disk, f))
            && (ok ==> st'.disk.primary.Some?)
  {
  }

  // A copy of a valid session can be saved exactly when it is not empty: the
  // copy of an empty order is nil.
  lemma CloneIsValidUnlessEmpty(s: Session)
    requires Store.Valid(s)
    ensures Store.Valid(CloneSession(s)) <==> Ids(s) != []
    ensures CloneSession(s) == s <==> Ids(s) != []
    ensures Records(CloneSession(s)) == Records(s) && Ids(CloneSession(s)) == Ids(s)
  {
  }

  lemma InOrder(s: Session, id: TorrentID)
    requires Store.Valid(s)
    ensures id in Ids(s) <==> id in Records(s)
  {
    assert id in Ids(s) <==> id in Elements(Ids(s));
  }

  lemma UpdateRecordEffect(st: State, id: TorrentID, e: Edit, f: Store.Fault)
    requires Store.Valid(st.session) && (e.Desire? ==> e.state in {Paused, Downloading})
    ensures var (st', ok) := UpdateRecord(st, id, e, f);
            && OnlySession(st, st') && Store.Valid(st'.session)
            && Ids(st'.session) == Ids(st.session)
            && (ok ==> id in Records(st.session)
                       && Records(st'.session) == Records(st.session)[id := Edited(Records(st.session)[id], e)])
            && (!ok ==> st'.session == st.session)
            && (ok ==> Store.Committed(st'.disk) == Some(st'.session))
            && (!ok ==> Store.Committed(st'.disk) == Store.Committed(st.disk))
            && (ok <==> id in Records(st.session) && Store.Works(st.disk, f))
  {
    if id in Records(st.session) {
      InOrder(st.session, id);
      var clone := CloneSession(st.session);
      var session := clone.(torrents := Some(Records(clone)[id := Edited(Records(clone)[id], e)]));
      assert Records(session).Keys == Records(st.session).Keys;
      CommitEffect(st, session, f);
    }
  }

  function WithPriorityIn(s: Session, id: TorrentID, index: int, p: FilePriority): Session
    requires id in Records(s)
  {
    s.(torrents := Some(Records(s)[id := WithFilePriority(Records(s)[id], index, p)]))
  }

  lemma PriorityKeepsValid(s: Session, id: TorrentID, index: int, p: FilePriority)
    requires Store.Valid(s) && id in Records(s)
    ensures var s' := WithPriorityIn(s, id, index, p);
            Store.Valid(s') && SameButPriorities(s, s') && Ids(s') == Ids(s)
    ensures WithPriorityIn(CloneSession(s), id, index, p) == WithPriorityIn(s, id, index, p)
  {
    InOrder(s, id);
    assert Records(WithPriorityIn(s, id, index, p)).Keys == Records(s).Keys;
  }

  lemma SameTransitive(a: Session, b: Session, c: Session)
    requires SameButPriorities(a, b) && SameButPriorities(b, c)
    ensures SameButPriorities(a, c)
  {
  }

  // The file-priority update: on success the record and the disk have the new
  // priority. On failure the disk keeps the old session, but memory has the new
  // priority all the same exactly when the record had any priorities before.
  lemma UpdateFilePriorityEffect(st: State, id: TorrentID, index: int, p: FilePriority, f: Store.Fault)
    requires Store.Valid(st.session)
    ensures var (st', ok) := UpdateFilePriority(st, id, index, p, f);
            && OnlySession(st, st') && Store.Valid(st'.session)
            && SameButPriorities(st.session, st'.session)
            && (ok ==> id in Records(st.session) && Store.Committed(st'.disk) == Some(st'.session))
            && (id in Records(st.session) ==>
                  st'.session == if ok || Records(st.session)[id].filePriorities.Some?
                                 then WithPriorityIn(st.session, id, index, p) else st.session)
            && (!ok ==> Store.Committed(st'.disk) == Store.Committed(st.disk))
            && (ok <==> id in Records(st.session) && Store.Works(st.disk, f))
  {
    if id in Records(st.session) {
      var session := WithPriorityIn(st.session, id, index, p);
      PriorityKeepsValid(st.session, id, index, p);
      var shared := if Records(st.session)[id].filePriorities.Some? then st.(session := session) else st;
      assert UpdateFilePriority(st, id, index, p, f) == Commit(shared, session, f);
      CommitEffect(shared, session, f);
    }
  }

  lemma RecordTorrentEffect(st: State, id: TorrentID, p: AddParams, t: Snapshot, f: Store.Fault)
    requires Store.Valid(st.session)
    ensures var (st', ok) := RecordTorrent(st, id, p, t, f);
            && OnlySession(st, st') && Store.Valid(st'.session)
            && (ok ==> id in Records(st'.session)
                       && Records(st'.session).Keys == Records(st.session).Keys + {id}
                       && (forall x | x in Records(st.session) && x != id :: Records(st'.session)[x] == Records(st.session)[x])
                       && Ids(st'.session) == (if id in Records(st.session) then Ids(st.session) else Ids(st.session) + [id])
                       && Records(st'.session)[id].desired == (if p.paused then Paused else Downloading)
                       && Records(st'.session)[id].sequential == p.sequential)
            && (!ok ==> st'.session == st.session)
            && (ok ==> Store.Committed(st'.disk) == Some(st'.session))
            && (!ok ==> Store.Committed(st'.disk) == Store.Committed(st.disk))
            && (ok <==> id != "" && p.source != "" && p.savePath != "" && Store.Works(st.disk, f))
  {
    var clone := CloneSession(st.session);
    var known := id in Records(clone);
    var record := Record(p.source, t.name, p.savePath, if p.paused then Paused else Downloading, t.addedAt, p.sequential,
                         if known then Records(clone)[id].filePriorities else None);
    var session := Session(if known then clone.order else Some(Ids(clone) + [id]), Some(Records(clone)[id := record]));
    InOrder(st.session, id);
    if !known {
      assert forall x :: x in Ids(session) <==> x in Ids(st.session) || x == id;
      assert Elements(Ids(session)) == Elements(Ids(st.session)) + {id};
    }
    CommitEffect(st, session, f);
  }

  // The rest of a recorded torrent: what was asked for, what the library knows,
  // and the file priorities the id had before.
  lemma RecordTorrentContents(st: State, id: TorrentID, p: AddParams, t: Snapshot, f: Store.Fault)
    requires Store.Valid(st.session) && RecordTorrent(st, id, p, t, f).1
    ensures var st' := RecordTorrent(st, id, p, t, f).0;
            && id in Records(st'.session)
            && var r := Records(st'.session)[id];
               && (r.source, r.savePath, r.name, r.addedAt) == (p.source, p.savePath, t.name, t.addedAt)
               && r.filePriorities == if id in Records(st.session) then Records(st.session)[id].filePriorities else None
  {
    RecordTorrentEffect(st, id, p, t, f);
  }

  lemma RemoveRecordEffect(st: State, id: TorrentID, f: Store.Fault)
    requires Store.Valid(st.session)
    ensures var (st', ok) := RemoveRecord(st, id, f);
            && OnlySession(st, st') && Store.Valid(st'.session)
            && (ok ==> id in Records(st.session)
                       && Records(st'.session) == Records(st.session) - {id}
                       && Ids(st'.session) == Without(Ids(st.session), id)
                       && st'.disk.primary.Some?)
            && (!ok ==> st'.session == st.session)
            && (ok ==> Store.Committed(st'.disk) == Some(st'.session))
            && (!ok ==> Store.Committed(st'.disk) == Store.Committed(st.disk))
            && (ok <==> id in Records(st.session) && Store.Works(st.disk, f))
  {
    if id in Records(st.session) {
      InOrder(st.session, id);
      var clone := CloneSession(st.session);
      var session := Session(if clone.order.None? then None else Some(Without(Ids(clone), id)), Some(Records(clone) - {id}));
      WithoutElements(Ids(st.session), id);
      assert "" !in Ids(session) by {
        assert "" in Ids(session) <==> "" in Elements(Ids(session));
        assert "" in Ids(st.session) <==> "" in Elements(Ids(st.session));
      }
      assert Store.Valid(session);
      CommitEffect(st, session, f);
    }
  }
}
