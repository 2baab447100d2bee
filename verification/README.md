# Verification of the torrent daemon

A model of torrcli's daemon `torrd` with proofs of what it promises: that torrents run when they should and wait
when they should, that its four copies of the truth agree, and that neither sessions nor downloaded files get lost.
`dafny verify dfyconfig.toml` checks all of it.

## What is modelled

The daemon keeps the session (saved in a file), the actor's ordered snapshots, a cache of the run states it last set
(`scheduled`), and the engine's entries above the BitTorrent library. Commands run one at a time under `controlMu`;
a tick every second runs the scheduling pass. The model has one state of all of these (`Control.State`) and one
`Command` for each request, for the tick, and for what the library does on its own. Everything the outside world
decides is part of the command: where a save fails, how far a removal gets. All requests share the daemon's context,
which only the stop of the daemon cancels; a request cut short by it is the last one.

Each operation is a method and a function that specifies it. The methods of the classes `Daemon.Daemon`,
`Registry.Engine`, `Actor.SessionState` and `Store.SessionFile` change their fields step by step, as the code does, and
are proved equal to the functions on the state; the properties are proved about the functions. The window of
sequential mode, the deletion of data and the migration of partial files are methods with loops, proved against an
independent description of their result.

| module | about | main results |
|---|---|---|
| `Model` | the values that are exchanged | |
| `Store` | the session file: validation, the two-rename save, the load | `SaveIsAtomic`, `LoadExactly`, `CopySurvivesUnlessPrimaryCorrupt` |
| `Sequential` | the bounded window of pieces, and its incremental update | `ComputeWindow`, `DiffRefinesClearThenSet`, `WindowAdvances` |
| `Registry` | the engine: entries, incarnations, the late metadata callback | `ReachableIsGood`, `StaleCallbackDoesNothing`, `CallbackCommutes` |
| `Actor`, `Decimal` | the ordered map of snapshots; indexes as text | `ParseFormat` |
| `Control`, `Daemon` | the commands and the pass, as functions and as methods | the methods' contracts |
| `Scheduling` | what one pass achieves | `PassEnforcesPolicy`, `PassShowsEntry`, `EngineObeysLimits`, `SecondPassIsIdle` |
| `Sessions`, `Invariants` | what each command does and keeps, over whole runs | `RemoveIsAllOrNothing`, `RunsKeepCore` |
| `Promises` | promises that hold on some inputs only, with the exact condition | `CacheStaysSoundExactly`, `OrdersStayEqualExactly`, `SequentialStaysExactly`, `PausedStaysPausedExactly`, `NoOrphansStayExactly`, `AddTakesEffect`, `DiskEffect`, `EveryRun` |
| `Restart` | starting again from a saved session | `EveryRunFromStartup`, `RestartRestoresPriorities` |
| `Witnesses` | concrete runs on which the conditional promises fail | |
| `Paths`, `Removal` | deleting a torrent's files | `RemoveDataFiles`, `RemoveData` |
| `Migration` | renaming partial files of earlier versions | `MigratePartFiles`, `NothingIsLost`, `RerunAfterCrash` |

## Where the code falls short of its promise

The model follows the code. Where a property one would expect fails, a lemma says exactly when.

- The cache can be wrong. `Engine.Remove` can fail after it has dropped the torrent (closing the storage fails, or
  restoring after a failed deletion does); the entry then stays registered although the library has forgotten it.
  Adding the torrent again overwrites the entry and leaves `scheduled` as it was (`RegisteredStayLiveExactly`,
  `CacheStaysSoundExactly`, `ReaddAfterBrokenRemovalBreaksCache`, `StaleCacheKeepsRunState`).
- A torrent the library refuses at startup, or gives another id, is in the session but not in the engine, so it cannot
  be removed (`UnrestoredCannotBeRemoved`).
- A record whose source was replaced comes back as another torrent. The library has that one, but unless some record
  has its id the session does not, nor does the actor: no command reaches it, no pass changes it, the limits overlook
  it, and adding it again does not record it (`StartupEstablishes`, `MisnamedIsOutOfReach`, `OrphanStaysUnrecorded`).
- A removal refused by the engine whose rollback save fails as well loses the record, while the actor still shows the
  torrent and the library may still run it (`OrdersStayEqualExactly`, `NoOrphansStayExactly`).
- Verifying a queued torrent starts it, over the limit until the next pass (`VerifyKeepsRunStateExactly`,
  `VerifyStartsQueued`).
- Pausing a paused torrent again, with a save that fails, resumes it until the next pass (`PausedStaysPausedExactly`).
- `cloneSession` shares the maps of file priorities, so a failed change can stay in memory
  (`UpdateFilePriorityEffect`, `DiskFollowsMemoryExactly`).
- The copy of an empty order is nil, which cannot be saved (`CloneIsValidUnlessEmpty`).
- An absent primary file counts as a first run even beside a good backup (`LoadAfterRun`), and the next save then
  replaces that backup (`OldSessionSurvivesUntilFirstRename`). After a load from the
  backup of a corrupt primary, the next save first renames the corrupt file over the backup
  (`CopySurvivesUnlessPrimaryCorrupt`).
- An add whose record cannot be saved, and whose undo breaks, leaves an entry of which the library knows nothing. It
  can disagree with the record on sequential mode (`SequentialStaysExactly`), and a failed deletion brings it back to
  life in its own run state (`PausedStaysPausedExactly`). Adding the torrent again replaces it.
- After a restart the actor shows each torrent with the time of its record until the first pass, which replaces it by the
  time of the restart: the engine is not told (`StartupForgetsTimeAdded`).
- The components of a file may climb out of the torrent's name as long as they stay below the save directory; a removal
  with data then deletes the file beside the name (`FileIsWhereNamed`, `ClimbingFileLeavesName`).
- A torrent of no bytes is shown as seeding but counted as a download (`SeedingIsCountedExactly`).

Module `Witnesses` has for each conditional promise a run from a startup state on which it fails.

## Model

| member | source | states |
|---|---|---|
| Scheduling.PassEnforcesPolicy | internal/daemon/scheduler.go:9-57 | from any state whose cache is right, one pass makes run, of each class, exactly the first `limit` wanted torrents the engine has, in actor order (all of them without a limit), and pauses every other recorded one; engine entry, cache and snapshot of every torrent are given exactly, unrecorded torrents and everything else are untouched |
| Scheduling.PassShowsEntry | internal/engine/anacrolix/engine.go:459-494 | after a pass a recorded torrent the engine has is shown as paused exactly if it is wanted paused and as queued exactly if it has to wait; one that runs, as fetching metadata exactly if it has none, as downloading exactly if bytes are missing, and as seeding otherwise; with the name and the time of the engine, and a progress that times the length gives the bytes completed |
| Scheduling.PassShowsAbsent | internal/daemon/scheduler.go:20-56 | a recorded torrent the engine lacks keeps all the actor has of it but the state, which stays or becomes paused or queued |
| Scheduling.LimitsHoldAndNoSlotIdles | internal/daemon/scheduler.go:34-56 | after a pass no class of recorded torrents runs more than its limit, and a torrent of the class that could run but waits means that all slots are taken |
| Scheduling.EarlierComesFirst | internal/daemon/scheduler.go:20-56 | where a torrent of a class runs after a pass, so do all of the class before it in actor order that are wanted and in the engine |
| Scheduling.EngineObeysLimits | internal/daemon/scheduler.go:34-56 | if every torrent the library has is in the session, after a pass all that runs belongs to a class and no class runs more than its limit |
| Promises.EngineObeysLimitsOverRuns | internal/daemon/scheduler.go:34-56 | so after every run that leaves no orphan and keeps the cache right, the next pass holds all the library runs to the limits |
| Scheduling.SecondPassIsIdle | internal/daemon/scheduler.go:9-73 | a second pass changes nothing at all, in engine, actor or cache, if the actor saw every torrent in its present class |
| Invariants.PassesSettle | internal/daemon/scheduler.go:9-73 | without that condition: the third pass changes nothing |
| Scheduling.SetScheduledEffect | internal/daemon/scheduler.go:59-73 | with a right cache, skipping the engine call on a hit gives the very state and result of making it, and the cache stays right |
| Scheduling.ScheduleEffect | internal/daemon/scheduler.go:20-56 | one turn of the loop: who runs, what is shown, which counter moves, and that nothing else changes |
| Scheduling.SwapExchangesAtMost | internal/daemon/scheduler.go:34-54 | exchanging two neighbours of the actor order changes who should run by at most exchanging these two, the earlier giving way to the later |
| Scheduling.SeedingIsCountedExactly | internal/engine/anacrolix/engine.go:459-494 | a running torrent is shown as seeding exactly when the pass counts it as a seed, except, precisely, a torrent of no bytes |
| Daemon.Daemon.ReconcileSchedule | internal/daemon/scheduler.go:9-57 | the loop over the actor list equals the pass as a function of the whole state |
| Daemon.Daemon.ScheduleOne | internal/daemon/scheduler.go:20-56 | one turn of the loop, with the counter it returns |
| Daemon.Daemon.SetScheduled | internal/daemon/scheduler.go:59-73 | new state and result of the cached engine call |
| Daemon.Daemon.Stop | internal/daemon/scheduler.go:26-31 | pauses, refreshes the snapshot and shows the given state |
| Daemon.Daemon.Start | internal/daemon/scheduler.go:48-55 | resumes and shows the fresh snapshot, unless the engine refuses |
| Restart.EveryRunFromStartup | internal/daemon/daemon.go:58-61 | from every start that loads a session, whatever ids the library gives the torrents, over every run of commands, ticks and library events with any save failures: the session is the one of the primary file, or if that is corrupt the very one of the backup, or without a primary file the empty one, and the actor shows it in its order; the start has a right cache, shown pauses, equal orders and no torrent running that is wanted paused, and with matching ids agreement on sequential mode and no orphan; each promise that holds at the start holds for as long as every step meets its exact condition; the disk agrees with memory from the start, or after a corrupt primary file from the first save |
| Promises.EveryRun | internal/daemon/scheduler.go:9-73 | from any state with the core invariant: each promise that holds there (cache, shown pauses, pausing, sequential mode, the two orders, no orphans) holds over the run for as long as every step meets its own condition |
| Promises.EveryRunKeepsDisk | internal/daemon/controls.go:178-225 | and so for the disk: agreement up to file priorities always, agreement while no file priority outruns the disk, and agreement regained by a save |
| Promises.LastCommandKeepsSession | internal/daemon/daemon.go:107 | the stop of the daemon cancels the one context of all requests and may cut the last one short: session and disk are then as after any other command, so the next start loads that session |
| Invariants.RunsKeepCore | internal/state/store.go:156-187 | over every run, whatever fails and whatever the disk looks like: the session is valid, the actor is consistent and shows every record, and the boosts are real |
| Invariants.StepKeepsCore | internal/daemon/rpc.go:12-148 | every command, tick and event keeps that invariant |
| Invariants.ReconcileAt | internal/daemon/scheduler.go:19-56 | with a right cache the pass keeps it right and makes the actor show exactly the pauses the user asked for |
| Invariants.ReconcileKeepsSequential | internal/daemon/scheduler.go:19-56 | whatever the cache says, the pass keeps the agreement of record, actor and engine on sequential mode |
| Promises.PausesStayShown | internal/daemon/controls.go:13-79 | with a right cache no step, whatever fails, parts the pause the user asked for from the pause the actor shows |
| Promises.SequentialStaysExactly | internal/daemon/controls.go:231-248 | a step keeps record, actor and engine agreed on sequential mode, saves failing or not, if and only if it is not an add of a torrent shown in the other mode whose record cannot be saved and whose undo breaks |
| Promises.CacheStaysSoundExactly | internal/daemon/scheduler.go:59-73 | a command, tick or event keeps the cache right if and only if it is not an add that creates a still cached torrent in the other run state or takes it back |
| Promises.AddKeepsCacheExactly | internal/daemon/rpc.go:18-51 | the same for the add alone: the exact condition under which a right cache stays right |
| Promises.ReaddAfterBrokenRemovalBreaksCache | internal/engine/anacrolix/engine.go:249-286 | the whole family on which it fails: a removal that breaks after the drop, then the torrent added again in the other run state |
| Promises.StaleCacheKeepsRunState | internal/daemon/scheduler.go:60-62 | what a stale entry does, whatever the rest of the cache says: the pass keeps the run state of the torrent; one wanted paused goes on running, and its entry stays stale, pass after pass |
| Promises.OrdersStayEqualExactly | internal/daemon/controls.go:116-163 | a step keeps session order and actor order equal if and only if it is not a removal refused by the engine whose rollback save fails |
| Promises.PausedStaysPausedExactly | internal/daemon/controls.go:13-31 | a step lets no torrent run (the library has it, not paused) that the user wants paused, if and only if it is neither a repeated pause whose save fails nor a failed deletion that revives an entry the library had forgotten |
| Promises.PassPausesThePaused | internal/daemon/scheduler.go:25-33 | whatever happened before, the next pass pauses every torrent wanted paused |
| Promises.VerifyNeverStartsPaused | internal/daemon/controls.go:53-79 | verifying changes neither run state nor cache of a torrent wanted paused |
| Promises.VerifyEffect | internal/daemon/controls.go:60-78 | verifying leaves a torrent the actor does not show as paused running, whatever it did before and whether the data was good; when it succeeds |
| Promises.VerifyExactly | internal/daemon/controls.go:53-79 | every ending, with the stop of the daemon between: it succeeds exactly for good data, with metadata and uninterrupted; cut before the torrent is resumed it leaves it paused; only success moves the window on, and nothing else changes |
| Promises.VerifyKeepsRunStateExactly | internal/daemon/controls.go:60-78 | it ends in the run state it found if and only if the actor shows the torrent as paused, or it ran already |
| Promises.VerifyStartsQueued | internal/daemon/controls.go:60-77 | the family on which it does not: a torrent the pass has queued is started, over the limit until the next pass |
| Promises.DiskEffect | internal/daemon/controls.go:178-225 | after every command, from any disk: "primary if present, else backup" is the session in memory if the command saves, and what it was otherwise; without a save memory stays as it was if and only if no file priority outruns the disk |
| Promises.DiskFollowsMemoryExactly | internal/daemon/controls.go:178-225 | every command keeps disk and memory in step, if and only if it is not a file-priority change that the engine takes, the disk refuses, and the record had priorities already |
| Promises.DiskCatchesUpExactly | internal/state/store.go:53-57 | with no session on the disk to offer, as after a load from the backup, a step brings disk and memory together if and only if it saves |
| Promises.RunCatchesUpExactly | internal/state/store.go:53-57 | and a run does if and only if some step of it saves |
| Promises.StepKeepsMirrored | internal/daemon/controls.go:104-109 | up to file priorities disk and memory never part |
| Promises.NoOrphansStayExactly | internal/daemon/controls.go:116-129 | a step keeps every torrent the library has in the session if and only if it is not a removal that loses the record and leaves the torrent with the library |
| Promises.OrphanRefusesCommands | internal/daemon/controls.go:13-163 | every command on a torrent the actor does not show fails without effect |
| Promises.OrphanStaysUnrecorded | internal/daemon/rpc.go:32-34 | adding a torrent the library has succeeds without recording it |
| Promises.OrphanIsPassedOver | internal/daemon/scheduler.go:20-24 | the pass leaves a torrent the actor does not show alone |
| Promises.AddSucceedsExactly | internal/daemon/rpc.go:18-51 | an add succeeds if and only if the library accepts it, the daemon is not stopped meanwhile, and the torrent is known already or its record can be saved |
| Promises.CutAddLeavesEntry | internal/daemon/rpc.go:28-34 | an add cut short by the stop of the daemon fails, and a torrent it created stays with the engine, neither recorded nor shown |
| Promises.AddTakesEffect | internal/daemon/rpc.go:18-51 | after an add that creates and records a torrent: the engine entry, the record and the snapshot, field by field; all have the path asked for, or the configured one if none was given, and the entry has no file priorities; the two orders, and the disk |
| Promises.AddedFilesAreNormal | internal/engine/anacrolix/engine.go:94-114 | and once the metadata is there and the callback has run, every file of it is a normal one |
| Promises.MoveKeepsContents | internal/daemon/controls.go:131-163 | a move keeps records, the multiset of ids, validity and the equality of the two orders; when it succeeds |
| Promises.MoveExchangesAtMost | internal/daemon/controls.go:131-163 | a move by one place changes who should run next by at most exchanging the torrent with the neighbour it passes, in the direction of the move |
| Promises.SetPriorityTakesEffect | internal/daemon/controls.go:90-114 | when a change succeeds; then it is in the record, on disk, in the engine entry, the file has the piece priority none for skip, high for high, and normal for normal and any other text, and other files and torrents keep theirs |
| Promises.FailedPriorityIsUndoneExactly | internal/daemon/controls.go:109-112 | after a change the disk refuses, the files in the engine are as before if and only if the file had the priority of the record, and the saved priorities if and only if the engine had saved that one |
| Invariants.SetDesiredEffect | internal/daemon/controls.go:13-51 | pause and resume end refused with nothing changed, saved, or rolled back in the engine; session, actor, cache and disk for each |
| Promises.DesireTakesEffect | internal/daemon/controls.go:13-51 | a pause or resume of a known torrent succeeds exactly if the save works, and is then in engine, record, actor and on disk; otherwise record and actor stay and the engine is left in the other run state, whatever it was in before; the cache forgets the torrent either way |
| Invariants.SetSequentialEffect | internal/daemon/controls.go:231-248 | the same for sequential mode: on a failed save the engine gets the actor's flag back |
| Promises.SequentialTakesEffect | internal/daemon/controls.go:231-248 | when it succeeds; then the flag is in engine, record, actor and on disk, and the boosts of a torrent with metadata are its window, or none |
| Invariants.RemoveIsAllOrNothing | internal/daemon/controls.go:116-129 | a removal succeeds if and only if the record can be removed from the session and the engine has the torrent and gets through (with its metadata, where data is to go); then exactly it is gone from session, engine, library, actor and cache. Otherwise actor and cache are unchanged, all other engine entries too, this one keeps its settings, and the session is as it was, position included, if the rollback save succeeds |
| Invariants.MoveEffect | internal/daemon/controls.go:131-163 | both orders move the same way or nothing changes; when it succeeds; disk follows |
| Invariants.RefusedMoveIsUndone | internal/daemon/controls.go:152-160 | a move the actor refuses fails, and the session has its order back, in memory and on disk |
| Daemon.Daemon.PauseTorrent | internal/daemon/controls.go:13-31 | new state and result of a pause |
| Daemon.Daemon.ResumeTorrent | internal/daemon/controls.go:33-51 | new state and result of a resume |
| Daemon.Daemon.VerifyTorrent | internal/daemon/controls.go:53-79 | new state and result of a verification, with every failure path |
| Daemon.Daemon.SetFilePriority | internal/daemon/controls.go:90-114 | new state and result of a file-priority change, with the rollback in the engine |
| Daemon.Daemon.RemoveTorrent | internal/daemon/controls.go:116-129 | new state and result of a removal: record first, then the engine |
| Daemon.Daemon.Withdraw | internal/daemon/controls.go:123-128 | the engine part of a removal, with the rollback save |
| Daemon.Daemon.MoveTorrent | internal/daemon/controls.go:131-163 | new state and result of a move |
| Daemon.Daemon.SetSequential | internal/daemon/controls.go:231-248 | new state and result of switching sequential mode |
| Daemon.Daemon.AddTorrent | internal/daemon/rpc.go:18-51 | new state and result of an add, with the undo of a failed record |
| Daemon.Daemon.Publish | internal/daemon/rpc.go:35-49 | the part of an add after the engine: record and show, or take out again |
| Daemon.Daemon.ReplaceSession | internal/daemon/controls.go:217-225 | memory takes the new session exactly if the save succeeds |
| Daemon.Daemon.UpdateRecord | internal/daemon/controls.go:178-193 | a record changed through a copy of the session |
| Daemon.Daemon.UpdateFilePriority | internal/daemon/controls.go:104-109 | the same through the map the copy shares with the session in memory |
| Daemon.Daemon.RemoveRecord | internal/daemon/controls.go:195-215 | the record and its place go; the previous session is returned |
| Daemon.Daemon.RecordTorrent | internal/daemon/daemon.go:201-225 | a record is written, appended to the order if new |
| Daemon.Daemon.RestoreOne | internal/daemon/daemon.go:161-187 | one record restored into engine and actor, errors included |
| Daemon.Daemon.RestoreSession | internal/daemon/daemon.go:159-189 | the loop over the order restores every record |
| Sessions.CommitEffect | internal/daemon/controls.go:217-225 | a save succeeds exactly for a valid session on a working disk; otherwise memory and the committed session stay |
| Sessions.CloneIsValidUnlessEmpty | internal/daemon/daemon.go:227-236 | a copy of a valid session can be saved, and equals it, if and only if its order is not empty |
| Sessions.UpdateRecordEffect | internal/daemon/controls.go:178-193 | exactly one record changes, order and validity stay; when it succeeds |
| Sessions.UpdateFilePriorityEffect | internal/daemon/controls.go:104-109 | on success record and disk have the priority; on failure the disk keeps the old session but memory has the new priority if and only if the record had any |
| Sessions.RecordTorrentEffect | internal/daemon/daemon.go:201-225 | the new key set and order, the other records, the desired state and validity; when it succeeds |
| Sessions.RecordTorrentContents | internal/daemon/daemon.go:206-219 | source, name, save path and time are the new ones, file priorities those the id had |
| Sessions.RemoveRecordEffect | internal/daemon/controls.go:195-215 | exactly this record goes, from map and order; when it succeeds |
| Restart.RestartRecreates | internal/daemon/daemon.go:159-189 | a restart re-creates the order and, for each torrent the library accepts, source, run state, sequential flag, save path and saved file priorities of its record, on the handle the library gave and shown under its name; the others are shown with an error, under the name and the time of their record |
| Restart.MisnamedIsShownAsFailed | internal/daemon/daemon.go:168-171 | a record whose source yields another torrent is shown with an error, even if the engine has a torrent under its id, which stays as it is |
| Restart.StartupEstablishes | internal/daemon/daemon.go:58-60 | after restoring a valid session, whatever the disk and whatever ids the library gives the torrents, one pass leaves the core invariant, a right cache, shown pauses, equal orders and nothing running that is wanted paused; the engine has exactly the torrents the library named, a record without one is shown with an error under its own name and time, and every torrent the library has is in the session if and only if all the ids it gave are |
| Restart.StartupForgetsTimeAdded | internal/daemon/daemon.go:181 | the restoration shows each torrent with the time of its record, and the first pass replaces that by the time of the restart |
| Restart.StartupAgrees | internal/daemon/daemon.go:58-60 | with matching ids record, actor and engine agree on sequential mode as well, and there is no orphan |
| Restart.MisnamedIsOutOfReach | internal/daemon/daemon.go:168-171 | a torrent that came back under an id no record has is with the library but not shown: every command on it leaves the state as it is, and so does the pass for it |
| Restart.LoadedDisk | internal/state/store.go:43-66 | a loaded session is valid; it is the one of the primary file, or for a corrupt one the very session of the backup with the disk left as it was, or the empty one if there is no primary file; the disk mirrors it, or has none to offer after a load from the backup |
| Restart.UnrestoredCannotBeRemoved | internal/daemon/controls.go:116-129 | every removal of a torrent that did not come back, refused by the library or under another id, fails, and gives the session back if the rollback save succeeds |
| Restart.RestartAfterRun | internal/daemon/daemon.go:142-189 | a daemon stopped after any run loads its session again, in the same order and with the same sequential modes, and what comes back paused did not run |
| Restart.FilePriorities | internal/daemon/daemon.go:191-199 | the loop yields a reading of the saved map: every usable key is read, and nothing else |
| Restart.CanonicalRoundTrip | internal/daemon/daemon.go:191-199 | priorities saved under written indexes come back under exactly these indexes |
| Restart.StepKeepsCanonical | internal/daemon/controls.go:104-109 | every guarded command keeps the saved keys such written indexes |
| Restart.RunKeepsCanonical | internal/daemon/controls.go:104-109 | and so does every run of guarded commands, whatever fails |
| Restart.SetPriorityKeepsCanonical | internal/daemon/controls.go:90-114 | a file-priority change does, also when its save fails |
| Restart.RestartReadsPriorities | internal/daemon/daemon.go:159-199 | after a startup the engine entry has for every index the priority the record has for it |
| Restart.RestartRestoresPriorities | internal/daemon/daemon.go:159-199 | and once the metadata is there and the callback has run, every file has the piece priority that asks for: none, high, or normal |
| Restart.RestartAfterRunRestoresPriorities | internal/daemon/daemon.go:142-199 | so after every run of guarded commands: each file gets the piece priority of the file priority the daemon had in its session when it stopped |
| Decimal.ParseFormat | internal/daemon/controls.go:108 | reading the decimal text of a 64-bit integer gives the integer back |
| Decimal.FormatIsPositional | internal/daemon/controls.go:108 | the text has the digits of the tens before that of the units, no zero in front, and a minus sign exactly for a negative integer |
| Decimal.ZeroInFront | internal/daemon/daemon.go:191-199 | zeros in front do not change what is read |
| Decimal.ParseSigns | internal/daemon/daemon.go:191-199 | a run of digits is read as its value, a plus sign changes nothing and a minus sign negates, exactly as far as 64-bit integers go |
| Decimal.ParseRefuses | internal/daemon/daemon.go:191-199 | nothing, a sign alone, and text with any other character are refused |
| Actor.SessionState.PutTorrent | internal/daemon/session.go:40-48 | the snapshot replaces the old one, or is appended |
| Actor.PutExactly | internal/daemon/session.go:40-48 | a known torrent keeps its place and a new one comes last; exactly its id is added |
| Actor.DeleteExactly | internal/daemon/session.go:75-89 | exactly the id goes from map and order, and the others keep theirs |
| Actor.ShiftedExactly | internal/daemon/session.go:91-110 | a move exchanges exactly the torrent and the one `offset` places on, or changes nothing if there is none |
| Actor.FindAfterChange | internal/daemon/session.go:40-110 | what `Get` finds: the snapshot put last under the id and not removed since, for exactly the listed ids and under its own id; a move changes nothing about it |
| Actor.SessionState.List | internal/daemon/session.go:63-73 | the snapshots in order, one for each id |
| Actor.SessionState.Remove | internal/daemon/session.go:75-89 | id and place go, or nothing changes |
| Actor.SessionState.MoveTorrent | internal/daemon/session.go:91-110 | the exchange with the torrent `offset` places on, if there is one |
| Actor.PutKeepsConsistent | internal/daemon/session.go:40-48 | the order lists the keys of the map once each after a put |
| Actor.DeleteKeepsConsistent | internal/daemon/session.go:75-89 | and after a removal, which succeeds exactly for an id in the order |
| Actor.MoveKeepsConsistent | internal/daemon/session.go:91-110 | and after a move |
| Actor.ShiftedKeepsElements | internal/daemon/session.go:91-110 | a move permutes the order |
| Actor.FindIndex | internal/daemon/session.go:82-88 | the first place of the id, or the length exactly if it has none |
| Sequential.ComputeWindow | internal/engine/anacrolix/sequential.go:34-56 | the nested loops choose exactly the lowest unfinished pieces of files not skipped, as many as the budget or all there are, each once, with now on the lowest and readahead on the rest |
| Sequential.WindowGrades | internal/engine/anacrolix/sequential.go:41-51 | piece by piece: now on the lowest, readahead on every other, each unfinished, of a file not skipped, and only in sequential mode |
| Sequential.WindowIsFull | internal/engine/anacrolix/sequential.go:34-56 | an unfinished piece of a file not skipped is in the window, or one more piece would not fit in 16 MiB and all of the window lie lower |
| Sequential.ScanFile | internal/engine/anacrolix/sequential.go:42-55 | the inner loop: a full window holds the lowest wanted pieces overall, otherwise the scan may go on with the next file |
| Sequential.NewPieceIsHighest | internal/engine/anacrolix/sequential.go:42-55 | although files share pieces, a piece chosen later lies above all chosen before |
| Sequential.WindowUnique | internal/engine/anacrolix/sequential.go:34-56 | there is one such window only, whatever the layout of the files |
| Sequential.BudgetIsLargest | internal/engine/anacrolix/sequential.go:36 | the budget is the most pieces that fit in 16 MiB, or one if none does |
| Sequential.LayoutIsOrdered | internal/engine/anacrolix/sequential.go:42-45 | files that do not overlap byte-wise have the ordered piece ranges the scan relies on |
| Sequential.PiecesOfFile | internal/engine/anacrolix/sequential.go:42-45 | the pieces of a file are exactly those that share a byte with it |
| Sequential.UpdateSequential | internal/engine/anacrolix/sequential.go:28-68 | the new entry, and that with real boosts the pieces written are exactly those whose priority changes |
| Sequential.ApplyWindow | internal/engine/anacrolix/sequential.go:57-67 | the two loops over maps apply the difference, in any order of the maps |
| Sequential.ClearStale | internal/engine/anacrolix/sequential.go:57-61 | the first of them clears exactly the boosts that are not kept |
| Sequential.WriteNew | internal/engine/anacrolix/sequential.go:62-66 | the second writes exactly the boosts that are new or others |
| Sequential.DiffRefinesClearThenSet | internal/engine/anacrolix/sequential.go:57-67 | the difference equals clearing all boosts and setting the window, wherever the remembered boosts are real |
| Sequential.WrittenAreChanged | internal/engine/anacrolix/sequential.go:57-67 | a piece is written exactly if its priority changes |
| Sequential.UpdatedIsWindow | internal/engine/anacrolix/sequential.go:28-68 | after an update each piece's own priority is its place in the window of the files as they are; without sequential mode there is none |
| Sequential.UpdatedIsStable | internal/engine/anacrolix/sequential.go:28-68 | a second update changes nothing |
| Sequential.WindowAdvances | internal/engine/anacrolix/sequential.go:36-56 | as pieces complete, unfinished pieces of the window stay in it, and its first piece never moves back |
| Registry.ReachableIsGood | internal/engine/anacrolix/sequential.go:57-67 | over every run of engine operations and library events each piece's own priority is the remembered boost, with none outside sequential mode, and every live torrent is the registered one |
| Registry.NextKeepsGood | internal/engine/anacrolix/engine.go:60-386 | every operation keeps that |
| Registry.RegisteredStayLiveExactly | internal/engine/anacrolix/engine.go:249-286 | a step leaves every registered torrent one the library runs, if and only if it is not a removal that breaks after the drop and gets no new handle |
| Registry.StaleCallbackDoesNothing | internal/engine/anacrolix/engine.go:94-114 | once an incarnation is gone, its late metadata callback never changes anything, over every run |
| Registry.RemovalEndsIncarnation | internal/engine/anacrolix/engine.go:249-286 | a removal, an add and a restore after a failed deletion each end the incarnation before |
| Registry.CallbackCommutes | internal/engine/anacrolix/engine.go:94-114 | the callback and a file-priority change of the same incarnation give the same entry in either order |
| Registry.CallbackSetsPriorities | internal/engine/anacrolix/engine.go:94-114 | after the callback each file has the piece priority its saved priority asks for: none for skip, high for high, normal for any other or none saved |
| Registry.HighFilesComeFirst | internal/engine/anacrolix/engine.go:437-446 | so without sequential mode every piece of a high file ranks strictly above every piece that no high file has |
| Registry.RestoreKeepsSettings | internal/engine/anacrolix/engine.go:256-281 | a failed deletion whose restore succeeds keeps source, time added, pause, sequential mode, file priorities and save path on a new live handle, with the window of its files |
| Registry.DisablingRestoresFilePolicy | internal/engine/anacrolix/sequential.go:26-33 | without sequential mode every piece has the priority of its files |
| Registry.SkippedFileIsUnwanted | internal/engine/anacrolix/engine.go:306-312 | exactly a skipped file is asked for no pieces, and a piece that keeps a boost is wanted by another file |
| Registry.Engine.AddTorrent | internal/engine/anacrolix/engine.go:60-116 | new state and result of an add |
| Registry.Engine.GotInfo | internal/engine/anacrolix/engine.go:94-114 | new state after the metadata callback |
| Registry.Engine.ApplySaved | internal/engine/anacrolix/engine.go:103-110 | the loop gives every file its saved priority, and the window follows |
| Registry.Engine.Pause | internal/engine/anacrolix/engine.go:118-139 | new state and result of a pause |
| Registry.Engine.Resume | internal/engine/anacrolix/engine.go:141-156 | new state and result of a resume |
| Registry.Engine.EnableSequential | internal/engine/anacrolix/sequential.go:10-24 | new state and result of switching sequential mode |
| Registry.Engine.PrioritizeFile | internal/engine/anacrolix/engine.go:289-314 | new state and result of a file-priority change, with its three refusals |
| Registry.Engine.Snapshot | internal/engine/anacrolix/engine.go:316-327 | new state and result of a snapshot, which moves the window on |
| Registry.SnapshotTellsEntry | internal/engine/anacrolix/engine.go:459-494 | the snapshot in elementary terms: paused, fetching metadata, downloading or seeding exactly when, progress times length equal to the bytes completed, name, time and sequential flag |
| Registry.Engine.RemoveTorrent | internal/engine/anacrolix/engine.go:215-287 | new state and result of a removal, with the failures before and after the drop |
| Registry.Engine.AddTorrentBack | internal/engine/anacrolix/engine.go:259-279 | the restored entry on its new handle |
| Store.ValidateSession | internal/state/store.go:156-187 | accepts exactly the sessions with an order and a map, whose order lists the keys once each, no id empty and every record complete |
| Store.ValidExactly | internal/state/store.go:156-187 | valid means: an order without repetition whose ids are exactly the keys of the map, no id empty, and each record with source, path, and wanted downloading or paused |
| Store.SessionFile.SaveSession | internal/state/store.go:68-76 | new disk and result, and that every state in between is one a cut-off save can leave |
| Store.SessionFile.WriteJSON | internal/state/store.go:88-138 | the same for the write with its two renames, whichever step fails |
| Store.SessionFile.LoadOrCreateSession | internal/state/store.go:43-66 | new disk and result of a load |
| Store.LoadExactly | internal/state/store.go:43-66 | what each disk loads: the session of the primary file if complete, else none; for a corrupt primary the very session of the backup if complete, with the disk left as it is, else none; without a primary file the empty session, written beside the backup |
| Store.IncompleteDoesNotLoad | internal/state/store.go:176-181 | a file with a record without source or path, or wanted in any state other than downloading or paused, does not load |
| Store.SaveIsAtomic | internal/state/store.go:88-138 | at every state a save goes through, "primary if present, else backup" is the complete old or new session; at its end the new one exactly on success, and then the backup is the primary file of before; the temporary file is gone however it ends, and an invalid session touches nothing; when it succeeds |
| Store.CrashIsAtomic | internal/state/store.go:120-130 | the same for every point at which a save can be cut off |
| Store.SavesKeepMirror | internal/state/store.go:68-76 | over any series of saves disk and memory keep agreeing, and memory is one of the sessions saved |
| Store.LoadAfterRun | internal/state/store.go:43-66 | a load returns the session in memory; without a primary file it returns and writes the default, with the backup intact |
| Store.OldSessionSurvivesUntilFirstRename | internal/state/store.go:120-130 | after that, at which points of the next save, and after which saves, a whole copy of the old session is left: up to the first rename |
| Store.LoadMirrors | internal/state/store.go:43-66 | after a successful load the disk mirrors the loaded session if and only if the primary file was not corrupt |
| Store.CopySurvivesUnlessPrimaryCorrupt | internal/state/store.go:120-130 | a save of a valid session, started from a loaded one, keeps a whole copy of either under some name at every point, if and only if the primary is not corrupt |
| Store.CorruptPrimaryLosesBackup | internal/state/store.go:53-57 | a concrete disk: loaded from its backup, and no whole copy left at a point of the next save |
| Witnesses.RecordGetsLost | internal/daemon/controls.go:116-129 | from a startup state: a removal refused for a shared file that loses the record, parts the two orders and leaves an orphan |
| Witnesses.StartLeavesOrphan | internal/daemon/daemon.go:168-171 | a start on which a replaced source yields another torrent, and leaves an orphan |
| Witnesses.AddLeavesEntry | internal/daemon/rpc.go:38-41 | from a startup state: a failed add whose undo breaks leaves an entry that neither library nor session has |
| Witnesses.PausedGetsStarted | internal/daemon/controls.go:20-27 | from a startup state: pausing a paused torrent starts it |
| Witnesses.PausedGetsRevived | internal/engine/anacrolix/engine.go:256-281 | from a startup state: a failed add and then a failed deletion let a torrent run whose record says paused |
| Witnesses.SequentialFlagsPart | internal/daemon/rpc.go:38-41 | from a startup state: a failed add whose undo breaks parts the sequential flags |
| Witnesses.PriorityGetsAhead | internal/daemon/controls.go:104-109 | from a startup state: a file priority that outruns the disk |
| Witnesses.CacheGoesWrong | internal/engine/anacrolix/engine.go:249-286 | from a startup state: a removal and an add that make the cache wrong |
| Witnesses.QueuedGetsStarted | internal/daemon/controls.go:60-77 | with one slot and two torrents: verifying the one that waits starts it |
| Removal.TorrentFilePaths | internal/engine/anacrolix/remove.go:14-28 | all paths of the metadata, exactly if every one is usable |
| Removal.UsableExactly | internal/engine/anacrolix/remove.go:14-28 | metadata is usable if and only if the joined components of each file name something below the save directory and never lead above it; its paths are then exactly these, cleaned |
| Removal.FilesAreWhereNamed | internal/engine/anacrolix/remove.go:14-28 | a file whose components are proper names has the path name and components, or the components alone in a torrent without a name |
| Removal.PrepareDataRemoval | internal/engine/anacrolix/remove.go:30-63 | accepts exactly usable paths with only directories on the way and regular files at the end, as far as entries exist |
| Removal.CheckPath | internal/engine/anacrolix/remove.go:45-60 | that check for one path |
| Removal.RemoveDataFiles | internal/engine/anacrolix/remove.go:65-88 | on success exactly the listed files and the directories on the way with nothing else below are gone; on failure a prefix of the files; when it succeeds |
| Removal.DeleteFiles | internal/engine/anacrolix/remove.go:69-77 | the first loop: files gone, and the strict ancestors of all of them collected |
| Removal.AddParents | internal/engine/anacrolix/remove.go:74-76 | the ancestor loop ends on local paths and collects exactly the strict ancestors |
| Removal.DeleteDirectories | internal/engine/anacrolix/remove.go:78-86 | the second loop, whatever order sorting by length gives |
| Removal.Sorted | internal/engine/anacrolix/remove.go:78-82 | the directories once each, longest text first |
| Removal.TurnOutcome | internal/engine/anacrolix/remove.go:82-86 | when its turn comes a directory is removed exactly if nothing foreign lies below it at any depth |
| Removal.SweepStep | internal/engine/anacrolix/remove.go:84-86 | one turn of the loop extends the set of emptied directories by exactly that |
| Removal.SurvivorsKeepAncestors | internal/engine/anacrolix/remove.go:83-86 | whatever survives keeps all its ancestors; nothing but listed files and directories on the way goes |
| Removal.SweepLeavesNoEmptyDirectory | internal/engine/anacrolix/remove.go:83-86 | a directory on the way that is still there was refused by the system or has something in it |
| Removal.AfterIsWellFormed | internal/engine/anacrolix/remove.go:65-88 | the tree stays a tree |
| Removal.CheckSharedFiles | internal/engine/anacrolix/remove.go:90-132 | accepts exactly if every other torrent with metadata and an existing save directory can be checked and shares no absolute path |
| Removal.RemoveData | internal/engine/anacrolix/engine.go:228-255 | on success every file of the torrent is gone from below its name (or from the save directory itself if it has none), and no directory on the way is left empty unless the system refuses it; however it ends, nothing outside the name goes if the name is a proper one and no file climbs out of it, and however save directories are nested, no file of another registered torrent with metadata goes, nor a directory above it; it succeeds if and only if all paths are usable and acceptable, the others can be checked and share none, and the system refuses none |
| Paths.LocalIsProper | internal/engine/anacrolix/remove.go:21-24 | a cleaned local path has proper names only |
| Paths.LocalExactly | internal/engine/anacrolix/remove.go:22 | joined components are a local path if and only if there is anything to them, they do not start at the root, and at no point do they lead above the directory |
| Paths.CleanLaws | internal/engine/anacrolix/remove.go:21 | cleaning skips empty components and ".", and ".." takes back the name before it |
| Paths.ProperIsItself | internal/engine/anacrolix/remove.go:17-24 | proper names are a path as they are |
| Paths.FileIsWhereNamed | internal/engine/anacrolix/remove.go:17-24 | the path of a file in a torrent with a proper name is that name and its own cleaned components, unless they climb; without a name it is the components |
| Paths.ClimbingFileLeavesName | internal/engine/anacrolix/remove.go:17-24 | a concrete file whose components climb out of the name, and is taken to lie beside it |
| Paths.CleanRender | internal/engine/anacrolix/remove.go:21 | writing a proper path and cleaning the text gives the path back |
| Paths.RenderInjective | internal/engine/anacrolix/remove.go:104 | different proper paths have different texts |
| Paths.BelowIsLonger | internal/engine/anacrolix/remove.go:82 | a path below another has the longer text |
| Migration.MigratePartFiles | internal/engine/anacrolix/storage.go:34-82 | on success exactly the partial twins have their new names, in whatever order the paths come: what was p.part is p, and p.part is no more; without faults it succeeds exactly if all paths are local and no name is taken by another file; every state on the way is one a migration may be cut off in |
| Migration.MigratedIsRenamed | internal/engine/anacrolix/storage.go:53-79 | the final names spelled out: what was there under the name of a torrent file with ".part", itself no torrent file, is there under the plain name and no more under the other |
| Migration.AllLocalExactly | internal/engine/anacrolix/storage.go:40-52 | the migration takes the metadata if and only if no file has components that come to nothing, start at the root or lead above the save directory; its names are then exactly these, cleaned |
| Migration.TextsAreNames | internal/engine/anacrolix/storage.go:40-52 | the names looked for are the components with slashes between them, below the name of the torrent if it has one |
| Migration.MigrateAll | internal/engine/anacrolix/storage.go:53-81 | the loop over the map of paths |
| Migration.MigrateOne | internal/engine/anacrolix/storage.go:54-79 | one turn: skip, refuse, or link and unlink |
| Migration.LinkTwin | internal/engine/anacrolix/storage.go:71-76 | the link, or the check that the name is the same file already |
| Migration.PathTexts | internal/engine/anacrolix/storage.go:40-52 | the texts of all paths, exactly if all are local |
| Migration.NothingIsLost | internal/engine/anacrolix/storage.go:53-79 | at every step, error exits included, every file is still reachable, no torrent file is rebound, and names outside the torrent and its twins are unchanged |
| Migration.RerunReachesTheSame | internal/engine/anacrolix/storage.go:53-80 | a rerun from any such state can succeed exactly if the first run could, and has the same result |
| Migration.RerunAfterCrash | internal/engine/anacrolix/storage.go:53-80 | the migration started again after a cut at any step ends as the uninterrupted one |

## Left out

- Promises.EveryRun: the commands are `Plausible`, which states what is assumed of the library: a new handle has no piece priorities, and the removal that undoes an add is not refused before it drops the torrent; and the daemon is not stopped during them (`LastCommandKeepsSession` is about the command that is).
- Registry.Engine.AddTorrent: what the library's client does with a magnet link or file of a torrent it already has is not modelled; neither are `MkdirAll` and the parsing of sources, whose failures are one rejection.
- Registry.Engine.RemoveTorrent: how far the library and the file system get is a parameter (`RemoveOutcome`); the deletion itself is `Removal.RemoveData`, whose tree is not part of the daemon's state.
- Removal.PrepareDataRemoval: errors of `Lstat` other than a missing entry are not modelled; the tree is keyed by real absolute paths and does not change from outside during a removal, and there are no hard links in it.
- Removal.RemoveData: a save directory that is itself reached through links counts as the directory it resolves to; links inside it are refused by the check, links below another torrent's save directory are not modelled.
- Migration.MigratePartFiles: failing to open the directory is not modelled; names are flat texts, so a link inside the directory, through which two names reach one entry, is not.
- Store.SessionFile.WriteJSON: encoding, permissions and `fsync` are not modelled; renames are atomic and ordered, and a file's content is a session or corrupt. What a failed decoding leaves in the session before the backup is read is not modelled.
- Daemon.Daemon.AddTorrent: the actor is taken as alive, so the undo of an add whose snapshot cannot be shown never occurs.
- Daemon.Daemon.VerifyTorrent: hashing is one answer, verified or not, and takes no time: what the library does meanwhile comes before or after.
- Library internals (peers, DHT, hashing, transfer) and what the library guarantees of piece ranges: handles carry files, pieces, completion and priorities only, and are told apart by serial numbers; sharing of the entries' priority maps is modelled by its effect.
- Progress is a real number, without the rounding of floats; list positions are unbounded integers, so the sum of index and offset cannot overflow.
- `findPeers`, details, events, rates, ETA and closing the engine: they change none of the modelled state.
- The terminal interface, the commands, RPC framing, parameter decoding, the socket, the lock, logging and the other settings.
- The actor's channel, and the rest of the shutdown: each command is one atomic step, and the actor answers to the last.
