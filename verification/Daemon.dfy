/** The daemon itself: its commands change session, cache, actor, engine and file in place. */
module Daemon {
  import opened Model
  import opened Registry
  import Actor
  import C = Control
  import R = Restart
  import Sessions
  import Store

  class Daemon {
    const config: Config
    const engine: Engine
    const torrents: Actor.SessionState
    const file: Store.SessionFile
    var session: Session
    var scheduled: map<TorrentID, bool>

    constructor (config: Config, engine: Engine, torrents: Actor.SessionState, file: Store.SessionFile, session: Session)
      ensures View() == C.State(config, session, file.View(), torrents.View(), map[], engine.View())
      ensures this.engine == engine && this.torrents == torrents && this.file == file
    {
      this.config, this.engine, this.torrents, this.file := config, engine, torrents, file;
      this.session, this.scheduled := session, map[];
    }

    ghost function View(): C.State
      reads this, engine, torrents, file
    {
      C.State(config, session, file.View(), torrents.View(), scheduled, engine.View())
    }

    // ---------------------------------------------------------------- the session

    method ReplaceSession(next: Session, f: Store.Fault) returns (ok: bool)
      modifies this, file
      ensures (View(), ok) == C.Commit(old(View()), next, f)
    {
      ok := file.SaveSession(next, f);
      if ok {
        session := next;
      }
    }

    method UpdateRecord(id: TorrentID, edit: C.Edit, f: Store.Fault) returns (ok: bool)
      modifies this, file
      ensures (View(), ok) == C.UpdateRecord(old(View()), id, edit, f)
    {
      var clone := C.CloneSession(session);
      if id !in Records(clone) {
        return false;
      }
      var record := C.Edited(Records(clone)[id], edit);
      ok := ReplaceSession(clone.(torrents := Some(Records(clone)[id := record])), f);
    }

    // The clone's record shares its map with the session, which the update
    // writes to unless it has to make a new one.
    method UpdateFilePriority(id: TorrentID, index: int, priority: FilePriority, f: Store.Fault) returns (ok: bool)
      modifies this, file
      ensures (View(), ok) == C.UpdateFilePriority(old(View()), id, index, priority, f)
    {
      var clone := C.CloneSession(session);
      if id !in Records(clone) {
        return false;
      }
      var record := Records(clone)[id];
      var torrents := Some(Records(clone)[id := C.WithFilePriority(record, index, priority)]);
      if record.filePriorities.Some? {
        session := session.(torrents := torrents);
      }
      ok := ReplaceSession(clone.(torrents := torrents), f);
    }

    method RemoveRecord(id: TorrentID, f: Store.Fault) returns (previous: Session, ok: bool)
      modifies this, file
      ensures (View(), ok) == C.RemoveRecord(old(View()), id, f)
      ensures previous == C.CloneSession(old(session))
    {
      previous := C.CloneSession(session);
      var clone := C.CloneSession(session);
      if id !in Records(clone) {
        return previous, false;
      }
      var order := Ids(clone);
      var i := Actor.FindIndex(order, id);
      if i < |order| {
        WithoutIsPrefixAndSuffix(order, id, i);
        order := order[..i] + order[i + 1..];
      } else {
        WithoutAbsent(order, id);
      }
      ok := ReplaceSession(Session(if clone.order.None? then None else Some(order), Some(Records(clone) - {id})), f);
    }

    method RecordTorrent(id: TorrentID, params: C.AddParams, t: Snapshot, f: Store.Fault) returns (ok: bool)
      modifies this, file
      ensures (View(), ok) == C.RecordTorrent(old(View()), id, params, t, f)
    {
      var clone := C.CloneSession(session);
      var order := clone.order;
      var priorities := None;
      if id in Records(clone) {
        priorities := Records(clone)[id].filePriorities;
      } else {
        order := Some(Ids(clone) + [id]);
      }
      var record := Record(params.source, t.name, params.savePath, if params.paused then Paused else Downloading,
                           t.addedAt, params.sequential, priorities);
      ok := ReplaceSession(Session(order, Some(Records(clone)[id := record])), f);
    }

    // ---------------------------------------------------------------- commands

    method AddTorrent(p: C.AddParams, reply: AddReply, cut: bool, f: Store.Fault, undo: RemoveOutcome) returns (ok: bool)
      modifies this, engine, torrents, file
      ensures (View(), ok) == C.AddCommand(old(View()), p, reply, cut, f, undo)
    {
      hide C.Publish, Registry.TakeSnapshot;
      var params := C.Completed(config, p);
      var added := engine.AddTorrent(C.InputOf(params), reply);
      if added.Failed? || cut {
        return false;
      }
      var t := engine.Snapshot(added.id);
      if t.None? {
        return false;
      }
      if added.Known? {
        return true;
      }
      ok := Publish(added.id, params, t.value, f, undo);
    }

    // Records a created torrent and shows it, or takes it out of the engine again.
    method Publish(id: TorrentID, params: C.AddParams, t: Snapshot, f: Store.Fault, undo: RemoveOutcome) returns (ok: bool)
      modifies this, engine, torrents, file
      ensures (View(), ok) == C.Publish(old(View()), id, params, t, f, undo)
    {
      hide C.RecordTorrent, Registry.Remove;
      var saved := RecordTorrent(id, params, t, f);
      if !saved {
        var _ := engine.RemoveTorrent(id, false, undo);
        return false;
      }
      torrents.PutTorrent(t);
      return true;
    }

    method PauseTorrent(id: TorrentID, f: Store.Fault) returns (ok: bool)
      modifies this, engine, torrents, file
      ensures (View(), ok) == C.SetDesired(old(View()), id, true, f)
    {
      hide C.UpdateRecord;
      var torrent := torrents.Get(id);
      if torrent.None? {
        return false;
      }
      var paused := engine.Pause(id);
      if !paused {
        return false;
      }
      scheduled := scheduled - {id};
      var saved := UpdateRecord(id, C.Desire(Paused), f);
      if !saved {
        var _ := engine.Resume(id);
        return false;
      }
      torrents.PutTorrent(torrent.value.(state := Paused));
      return true;
    }

    method ResumeTorrent(id: TorrentID, f: Store.Fault) returns (ok: bool)
      modifies this, engine, torrents, file
      ensures (View(), ok) == C.SetDesired(old(View()), id, false, f)
    {
      hide C.UpdateRecord;
      var torrent := torrents.Get(id);
      if torrent.None? {
        return false;
      }
      var resumed := engine.Resume(id);
      if !resumed {
        return false;
      }
      scheduled := scheduled - {id};
      var saved := UpdateRecord(id, C.Desire(Downloading), f);
      if !saved {
        var _ := engine.Pause(id);
        return false;
      }
      torrents.PutTorrent(torrent.value.(state := Downloading));
      return true;
    }

    method VerifyTorrent(id: TorrentID, verified: bool, interruption: C.Interruption) returns (ok: bool)
      modifies this, engine, torrents, file
      ensures (View(), ok) == C.VerifyCommand(old(View()), id, verified, interruption)
    {
      hide Registry.TakeSnapshot;
      var torrent := torrents.Get(id);
      if torrent.None? {
        return false;
      }
      var wasPaused := torrent.value.state == Paused;
      if !wasPaused {
        var paused := engine.Pause(id);
        if !paused {
          return false;
        }
        scheduled := scheduled - {id};
      }
      if id !in engine.torrents || engine.torrents[id].torrent.pieceLength.None? || !verified {
        if !wasPaused {
          var _ := engine.Resume(id);
        }
        return false;
      }
      if !wasPaused {
        if interruption == C.BeforeResume {
          return false;
        }
        var _ := engine.Resume(id);
      }
      if interruption != C.Uninterrupted {
        return false;
      }
      var _ := engine.Snapshot(id);
      return true;
    }

    method SetSequential(id: TorrentID, enabled: bool, f: Store.Fault) returns (ok: bool)
      modifies this, engine, torrents, file
      ensures (View(), ok) == C.SetSequentialFlag(old(View()), id, enabled, f)
    {
      hide C.UpdateRecord;
      var t := torrents.Get(id);
      if t.None? {
        return false;
      }
      var done := engine.EnableSequential(id, enabled);
      if !done {
        return false;
      }
      var saved := UpdateRecord(id, C.Sequence(enabled), f);
      if !saved {
        var _ := engine.EnableSequential(id, t.value.sequential);
        return false;
      }
      torrents.PutTorrent(t.value.(sequential := enabled));
      return true;
    }

    method SetFilePriority(id: TorrentID, index: int, priority: FilePriority, f: Store.Fault) returns (ok: bool)
      modifies this, engine, torrents, file
      ensures (View(), ok) == C.SetFilePriorityOf(old(View()), id, index, priority, f)
    {
      hide C.UpdateFilePriority, C.FilePriorityOf;
      var torrent := torrents.Get(id);
      var previous := C.FilePriorityOf(session, id, index);
      if torrent.None? || previous.None? {
        return false;
      }
      var done := engine.PrioritizeFile(id, index, priority);
      if !done {
        return false;
      }
      ok := UpdateFilePriority(id, index, priority, f);
      if !ok {
        var _ := engine.PrioritizeFile(id, index, previous.value);
      }
    }

    // Takes the torrent out of the engine, or puts its record back.
    method Withdraw(previous: Session, id: TorrentID, deleteData: bool, o: RemoveOutcome, g: Store.Fault) returns (ok: bool)
      requires Actor.Consistent(torrents.View())
      modifies this, engine, torrents, file
      ensures (View(), ok) == C.Withdraw(old(View()), previous, id, deleteData, o, g)
    {
      hide C.Commit, Registry.Remove;
      var removed := engine.RemoveTorrent(id, deleteData, o);
      if !removed {
        var _ := ReplaceSession(previous, g);
        return false;
      }
      scheduled := scheduled - {id};
      ok := torrents.Remove(id);
    }

    method RemoveTorrent(id: TorrentID, deleteData: bool, o: RemoveOutcome, f: Store.Fault, g: Store.Fault) returns (ok: bool)
      requires Actor.Consistent(torrents.View())
      modifies this, engine, torrents, file
      ensures (View(), ok) == C.RemoveCommand(old(View()), id, deleteData, o, f, g)
    {
      hide C.RemoveRecord, C.Withdraw;
      var previous, gone := RemoveRecord(id, f);
      if !gone {
        return false;
      }
      ok := Withdraw(previous, id, deleteData, o, g);
    }

    method MoveTorrent(id: TorrentID, offset: int, f: Store.Fault, g: Store.Fault) returns (ok: bool)
      modifies this, engine, torrents, file
      ensures (View(), ok) == C.MoveCommand(old(View()), id, offset, f, g)
    {
      var previous, next := C.CloneSession(session), C.CloneSession(session);
      var order := Ids(next);
      var index := Actor.FindIndex(order, id);
      if index == |order| {
        return false;
      }
      var target := index + offset;
      if 0 <= target < |order| {
        order := order[index := order[target]][target := order[index]];
      }
      var saved := ReplaceSession(next.(order := Some(order)), f);
      if !saved {
        return false;
      }
      ok := torrents.MoveTorrent(id, offset);
      if !ok {
        var _ := ReplaceSession(previous, g);
      }
    }

    // ---------------------------------------------------------------- scheduling

    method SetScheduled(id: TorrentID, running: bool) returns (ok: bool)
      modifies this, engine
      ensures (View(), ok) == C.SetScheduled(old(View()), id, running)
    {
      if id in scheduled && scheduled[id] == running {
        return true;
      }
      if running {
        ok := engine.Resume(id);
      } else {
        ok := engine.Pause(id);
      }
      if ok {
        scheduled := scheduled[id := running];
      }
    }

    // Pauses a torrent and shows it in the given state.
    method Stop(torrent: Snapshot, state: TorrentState)
      modifies this, engine, torrents
      ensures View() == C.Stop(old(View()), torrent, state)
    {
      var _ := SetScheduled(torrent.id, false);
      var updated := engine.Snapshot(torrent.id);
      var shown := if updated.Some? then updated.value else torrent;
      torrents.PutTorrent(shown.(state := state));
    }

    // Starts a torrent, if the engine lets it.
    method Start(torrent: Snapshot) returns (ok: bool)
      modifies this, engine, torrents
      ensures (View(), ok) == C.Start(old(View()), torrent)
    {
      ok := SetScheduled(torrent.id, true);
      if ok {
        var updated := engine.Snapshot(torrent.id);
        torrents.PutTorrent(if updated.Some? then updated.value else torrent);
      }
    }

    // One turn of the pass's loop, with the counter of the torrent's class.
    method ScheduleOne(torrent: Snapshot, active: C.Active) returns (counted: C.Active)
      modifies this, engine, torrents
      ensures (View(), counted) == C.Schedule(old(View()), torrent, active)
    {
      counted := active;
      if torrent.id !in Records(session) {
        return;
      }
      if Records(session)[torrent.id].desired == Paused {
        Stop(torrent, Paused);
        return;
      }
      var isSeed := C.IsSeed(torrent);
      var limit := C.Limit(config, isSeed);
      if limit > 0 && active.Of(isSeed) >= limit {
        Stop(torrent, Queued);
        return;
      }
      var running := Start(torrent);
      if running {
        counted := active.Plus(isSeed);
      }
    }

    method ReconcileSchedule()
      requires Actor.Consistent(torrents.View())
      modifies this, engine, torrents
      ensures View() == C.Reconcile(old(View()))
    {
      var list := torrents.List();
      ghost var start := View();
      assert list == C.Listed(start.board);
      var active := C.Active(0, 0);
      var i := 0;
      while i < |list|
        invariant i <= |list|
        invariant C.Pass(View(), list[i..], active) == C.Pass(start, list, C.Active(0, 0))
      {
        assert list[i..][0] == list[i] && list[i..][1..] == list[i + 1..];
        active := ScheduleOne(list[i], active);
        i := i + 1;
      }
      assert list[|list|..] == [];
    }

    // ---------------------------------------------------------------- starting

    method RestoreOne(id: TorrentID, record: Record, reply: AddReply) returns (ghost answer: R.Answer)
      modifies engine, torrents
      ensures answer.reply == reply && R.IsReading(R.SavedPriorities(record), answer.priorities)
      ensures View() == R.RestoreOne(old(View()), id, record, answer)
    {
      var torrent := Snapshot(id, record.name, Error, 0.0, false, record.addedAt, false);
      var priorities := R.FilePriorities(R.SavedPriorities(record));
      answer := R.Answer(reply, priorities);
      var paused := record.desired == Paused;
      var added := engine.AddTorrent(AddInput(paused, record.source, record.savePath, record.sequential, priorities), reply);
      var ok := !added.Failed? && added.id == id;
      if ok && paused {
        ok := engine.Pause(id);
      }
      if ok {
        var snapshot := engine.Snapshot(id);
        if snapshot.Some? {
          torrent := snapshot.value.(addedAt := record.addedAt);
        } else {
          ok := false;
        }
      }
      if !ok {
        torrent := torrent.(error := true);
      }
      torrents.PutTorrent(torrent);
    }

    method RestoreSession(replies: map<TorrentID, AddReply>) returns (ghost answers: map<TorrentID, R.Answer>)
      requires Store.Valid(session) && replies.Keys == Records(session).Keys
      modifies engine, torrents
      ensures R.Answered(session, replies, answers, Ids(session))
      ensures View() == R.Restore(old(View()), Ids(session), answers)
    {
      answers := map[];
      ghost var start := View();
      var order := Ids(session);
      for i := 0 to |order|
        invariant R.Answered(session, replies, answers, order[..i])
        invariant View() == R.Restore(start, order[..i], answers)
      {
        var id := order[i];
        Sessions.InOrder(session, id);
        ghost var now := View();
        var answer := RestoreOne(id, Records(session)[id], replies[id]);
        R.RestoreTurn(start, now, replies, answers, i, answer);
        answers := answers[id := answer];
      }
      assert order[..|order|] == order;
    }
  }
}
