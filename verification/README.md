# A verified model of the service supervisor and the package pipeline

This project models the hardest parts of the repository in Dafny and proves properties of the model: the process
supervisor and its per-service tasks, the control channel that waits on it, the one-shot task runner, the package
installer with its staging directories and download loop, and three small sequential cores (disk usage, path
validation, the MySQL option file). `dafny verify dfyconfig.toml` checks all of it.

## How the model is laid out

| file | what it models |
|---|---|
| `Events.dfy`, `Classify.dfy`, `LogRing.dfy` | states, the event stream and its replay; exit classification; the bounded log |
| `ServiceTask.dfy` | one run of a service task, cut at every point where another thread, the child or the clock can act |
| `SupervisorCore.dfy` | each block under the `entries` mutex as a function, and the `Supervisor` class whose methods refine them |
| `SupervisorSystem.dfy` | the labelled step machine: any number of callers and tasks, every interleaving |
| `SupervisorInvariant.dfy`, `SupervisorTheorems.dfy` | its invariant, and what follows for every run |
| `SupervisorSpecs.dfy`, `SupervisorProgress.dfy` | which registration a run is of; why no run is ever stuck |
| `SupervisorTails.dfy`, `SupervisorBroadcast.dfy`, `SupervisorOverlap.dfy` | whose lines a Failed state shows; the event stream against the tables; writes that overlap an unsent one |
| `Control.dfy` | `transition`, `await_settled`, `restart` over a lossy broadcast |
| `CommandProbe.dfy`, `TaskRunner.dfy` | the readiness-probe loop in time; `run_task` under every schedule |
| `Staging.dfy`, `Install.dfy`, `Download.dfy` | staging locks and the sweeper, the installer, the download loop; several processes, a crash before any step |
| `DiskUsage.dfy`, `Request.dfy`, `ConfigText.dfy` | the explicit-stack walk; validators and path builders; option-file printer and reader |

In `SupervisorSystem`, `Staging`, `Install` and `TaskRunner` a state machine has an enabling condition `Can`, a step
function `Do` and a run function (`Exec` or `ExecFrom`); a theorem about `Reached` states holds for every finite run.
In `SupervisorSystem` each locked block is one step and everything between two locks is a program counter; run numbers
count the accepted starts and stand for process identities and control channels alike.

## What the proofs found

* **Split sends can mislead an observer.** `register`, `unregister` and `set_state` write under the lock and send after
  releasing it. Sent and unsent events are together exactly the writes (`SplitStreamConserved`), and the row of an id is
  replayed correctly when each write about that id and its send act as one (`AtomicRowIsSnapshot`). The first write about
  an id that overlaps unsent ones is safe, whatever order the sends then take, if and only if every event still unsent
  leaves the row as this write does (`OverlapIsSafeIff`); `SplitStreamCanDiffer` is a run after which an observer keeps
  a row for an id that is gone.
* **The wait can lose a wakeup in one corner.** `await_settled` ignores `Registered`, and its comment says such an event
  can never describe the transition being waited on. It can when the receiver lagged past the id's removal and re-read a
  missing row: a later registration makes the id Stopped, which the loop never notices. `LosingCall` is such a call.
  A stream can cost a wait its wakeup if and only if it holds a removal, more than 256 events, and then a registration
  (`WakeupLostIff`); while nobody registers the id during the call none is lost (`NoLostWakeup`).
* **A reader that outlives its drain can put its lines into a later run's tail.** A start is safe from that if and only
  if no reader of an earlier run of the id can still push (`TailsAreOwnIff`); `ForeignTailHappens` shows that one can.
* **A ring of capacity 0 never drops anything** (`BoundedIffPositiveCapacity`); the code only uses 2000.
* **"current" is an accepted version.** Its directory is the place of the `current` link (`PackageDirIsCurrentIff`),
  it can be installed up to its link (`CurrentCanBeInstalled`), and from then on no other version of the series ever
  installs successfully (`CurrentVersionJamsSeries`).
* **A rename replaces an empty directory**, so exactly the non-empty version directories are immutable
  (`VersionDirsNeverChange`, `EmptyTreeCanBeReplaced`, `ImmutableIffNonEmpty`).
* **The sweeper spares a live staging exactly when it took its lock within 24 hours of making its directory**
  (`SparedIffLockedInTime`).
* **A my.cnf value reads back exactly if and only if its converted path does not end in white space**
  (`MyCnfExactlyIff`); an accepted datadir of "/d " reads back as "/d" (`TrailingSpaceIsLost`).

## Assumptions

* A lock is never poisoned; `rename`, the link swap and each other system call are atomic; a directory removal is one
  step and succeeds.
* Calls to the orphan registry may fail and waits may return errors. The ids whose last registry call failed
  (`badRegistry`), the runs whose child's wait failed (`faulty`) and those whose probe's wait failed (`leaked`) are kept
  apart, and each claim about a record, a child or a probe excludes only its own kind.
* Time is a counter that never runs backwards, in milliseconds or seconds or nanoseconds as the constants need.
* In `Control` a write and its send are one step, and the broadcast keeps the last 256 events.
* The events of pushed log lines are sent by nobody in particular, at any later time, in any order.
* SHA-256 and archive extraction are arbitrary functions of the bytes.
* Timestamps, log levels and the `detail` text of an event are dropped; the command of a service is a name.

## Model

| member | source | states |
|---|---|---|
| `Events.LegalPrefix` | crates/openvhost-proc/src/events.rs:49-90 | every prefix of a stream in which each event was admissible is such a stream |
| `SupervisorCore.Supervisor.constructor` | crates/openvhost-proc/src/supervisor.rs:142-180 | a new supervisor has no entries and has sent nothing |
| `SupervisorCore.Supervisor.Register` | crates/openvhost-proc/src/supervisor.rs:188-221 | a live id is left alone and nothing is sent; otherwise the entry is the given specification, Stopped, with no pid or channel, empty logs and a new lowered flag, nothing else changes, and exactly `Registered` is sent |
| `SupervisorCore.Supervisor.Unregister` | crates/openvhost-proc/src/supervisor.rs:257-273 | succeeds exactly for a registered id that is not live, removes its entry, changes nothing else and sends exactly `Unregistered`; an unknown id and a live id get their own errors, the latter naming its state, and change nothing |
| `SupervisorCore.Supervisor.Start` | crates/openvhost-proc/src/supervisor.rs:305-378 | hands out a run of the registered specification exactly for a registered id that is not live, with a fresh channel, a lowered flag, a cleared stderr tail and its log kept; touches no other id; sends Starting, then the log line; otherwise changes nothing |
| `SupervisorCore.Supervisor.Stop` | crates/openvhost-proc/src/supervisor.rs:380-398 | is accepted exactly for a live id; raises its flag, pushes and sends exactly one log line, changes nothing else and returns the channel of its current run; otherwise changes nothing and sends nothing |
| `SupervisorCore.Supervisor.SetState` | crates/openvhost-proc/src/supervisor.rs:402-427 | writes the state, clears pid and channel exactly on a terminal one, changes nothing else, sends it, and keeps the tables consistent for a live id |
| `SupervisorCore.Supervisor.PushLog` | crates/openvhost-proc/src/supervisor.rs:482-507 | afterwards the ring holds the last 2000 lines since registration and, for a stderr line, the tail the last 10 stderr lines since the start |
| `SupervisorCore.Supervisor.Snapshot` | crates/openvhost-proc/src/supervisor.rs:279-293 | lists exactly the registered ids, each once, in order of ids, with the display name, endpoint, state and pid of its entry |
| `SupervisorCore.SortedUnique` | crates/openvhost-proc/src/supervisor.rs:279-293 | a listing in order of ids is determined by what it lists, so that contract fixes the result whatever order the map was walked in |
| `SupervisorCore.Supervisor.StderrTailSnapshot` | crates/openvhost-proc/src/supervisor.rs:474-480 | the last 10 stderr lines since the latest start, or nothing for an unknown id |
| `SupervisorCore.PushLineKeepsWindows` | crates/openvhost-proc/src/supervisor.rs:482-500 | one push keeps both bounded windows equal to the newest part of their whole histories |
| `SupervisorCore.LockedBlocksKeepTables` | crates/openvhost-proc/src/supervisor.rs:188-398 | every locked block keeps windows, flag ownership, and channel and pid of exactly the live entries |
| `SupervisorCore.SetStateKeepsTables` | crates/openvhost-proc/src/supervisor.rs:402-420 | so does writing any state to a live entry |
| `ServiceTask.TaskKeepsRunOk` | crates/openvhost-proc/src/service_task.rs:441-531 | every step of a task's main line keeps what is known about its child, pipes, readiness, control channel and verdict |
| `ServiceTask.ProbeKeepsRunOk` | crates/openvhost-proc/src/service_task.rs:273-419 | so does every step of the readiness probe |
| `ServiceTask.NatureKeepsRunOk` | crates/openvhost-proc/src/service_task.rs:41-55 | so does everything the child, the probe process, their descendants and the pipes can do |
| `SupervisorInvariant.KeepsStep` | crates/openvhost-proc/src/supervisor.rs:188-507 | every step of every actor keeps the system invariant that links entries, runs, records, stop calls and logs |
| `SupervisorInvariant.Always` | crates/openvhost-proc/src/supervisor.rs:188-507 | the invariant holds in every state of every run from the empty supervisor |
| `SupervisorInvariant.InFlightUnique` | crates/openvhost-proc/src/supervisor.rs:305-350 | two runs in flight never share an id |
| `SupervisorTheorems.OneRunPerId` | crates/openvhost-proc/src/supervisor.rs:305-378 | in every interleaving an id has at most one run in flight; it is live exactly while it has one, on that run's channel, and Running exactly when that run wrote Running |
| `SupervisorTheorems.LiveEntryStays` | crates/openvhost-proc/src/supervisor.rs:188-273 | no step replaces or removes a live entry or starts a second run for it; only its own run's terminal write ends it |
| `SupervisorTheorems.TerminalMeansGone` | crates/openvhost-proc/src/service_task.rs:101-134 | a Stopped, Failed or unregistered id has no probe in flight, no living child in any run unless the wait for that very child failed, and no orphan record unless its last registry call failed |
| `SupervisorTheorems.CrashLeavesRecorded` | crates/openvhost-proc/src/service_task.rs:441-478 | a crash at any moment leaves only children that are recorded under their own identity or between spawn and record, except one whose own wait failed or whose id's last registry call failed, and probes whose run is waiting for them |
| `SupervisorTheorems.RecordsAreLive` | crates/openvhost-proc/src/service_task.rs:122-133 | unless the id's last registry call failed, a record exists only for its run in flight, before that run has removed it |
| `SupervisorTheorems.SentStopIsHeard` | crates/openvhost-proc/src/supervisor.rs:380-398 | a stop sends only after it has logged, and once it has sent, its own run has the message queued or is already ending |
| `SupervisorTheorems.NoStaleStop` | crates/openvhost-proc/src/supervisor.rs:319-340 | a queued message, a raised flag or a flag already read at classification always traces back to a stop accepted during that very run |
| `SupervisorTheorems.AcceptedStopForcesStopped` | crates/openvhost-proc/src/state.rs:10-55 | a stop accepted before classification forces Stopped, whatever happens afterwards |
| `SupervisorTheorems.ControlNeverCloses` | crates/openvhost-proc/src/service_task.rs:521-524 | the "sender dropped" branch of the run loop is unreachable |
| `SupervisorTheorems.RunningWasObserved` | crates/openvhost-proc/src/service_task.rs:371-497 | Running is written only after the alive bound has passed since the spawn, or after a probe that exited 0; with a command probe and no stop in time, a run that never was Running ends Failed whatever its exit status |
| `SupervisorTheorems.RowPidIsOwn` | crates/openvhost-proc/src/supervisor.rs:402-447 | a row shows a pid exactly while its id has a run in flight that has spawned and stored it, and then that run's |
| `SupervisorTheorems.StoppedIff` | crates/openvhost-proc/src/state.rs:10-55 | a run ends Stopped exactly when a stop was accepted before it was classified, or its own child exited with code 0 and it was Running or had only to stay alive; every other run ends Failed |
| `SupervisorTheorems.FailedExitIsOwn` | crates/openvhost-proc/src/state.rs:10-55 | a Failed state carries an exit code exactly when the run's own child was waited for and exited with that very code; a signal, a failed wait and a failed spawn leave none |
| `SupervisorTheorems.StopsInTwoPhases` | crates/openvhost-proc/src/service_task.rs:174-196 | a child is asked to stop only for a stop of its own run or a probe that ran out of time, is killed only after it was asked and its whole grace has passed, and is waited for without a deadline only after that |
| `SupervisorTheorems.LogsAreRecentHistory` | crates/openvhost-proc/src/log.rs:16-31 | in every state the ring is the last 2000 lines since registration and the tail the last 10 stderr lines since the start |
| `SupervisorSpecs.EntriesAreRegistered` | crates/openvhost-proc/src/supervisor.rs:188-221 | in every state of every run an entry holds what the last registration of its id that took effect gave it |
| `SupervisorSpecs.RunsAreOfTheirSpec` | crates/openvhost-proc/src/supervisor.rs:305-378 | every run was started by one start of its id, and has the readiness rule, the grace and the command of the last registration of that id before it |
| `SupervisorProgress.EveryRunCanEnd` | crates/openvhost-proc/src/service_task.rs:441-531 | from every reachable state every run can be brought to its end without help from another run and without a failure, and its id is idle then |
| `SupervisorProgress.ReadyAfterBound` | crates/openvhost-proc/src/service_task.rs:421-440 | a service that has only to stay alive can be Running once its bound has passed |
| `SupervisorProgress.ReadyAfterAttempts` | crates/openvhost-proc/src/service_task.rs:371-419 | any number of failed probe attempts of any outcomes, followed by one that exits 0, can make the service Running |
| `SupervisorProgress.StubbornChildIsKilled` | crates/openvhost-proc/src/service_task.rs:174-196 | a running service with a stop to read whose child ignores the request can be killed after its grace and ends Stopped |
| `SupervisorTails.AlwaysTails` | crates/openvhost-proc/src/supervisor.rs:319-338 | in every state of every run: while a run started with no feeding reader left over is in flight, nobody else can feed its tail and the id's stderr history since the start is its own; any tail taken is its own |
| `SupervisorTails.FailedTailIsOwn` | crates/openvhost-proc/src/service_task.rs:73-172 | if no reader of an earlier run could push when a run started, its Failed tail is the last of its own first lines plus the probe detail: of all it contributed unless its own drain was late, and of all it wrote when its reader saw the end in time |
| `SupervisorTails.UncleanMeansLate` | crates/openvhost-proc/src/service_task.rs:73-96 | a run starts with such a reader left over only if an earlier run of its id had a late drain |
| `SupervisorTails.DrainedTailIsWhole` | crates/openvhost-proc/src/service_task.rs:73-172 | if no drain of the id was ever late, every Failed state of it carries the last of all the stderr lines its own run contributed, then the probe detail |
| `SupervisorTails.LateReaderLeaks` | crates/openvhost-proc/src/service_task.rs:66-96 | if one could, some continuation ends the new run Failed with that reader's line last in its tail |
| `SupervisorTails.TailsAreOwnIff` | crates/openvhost-proc/src/supervisor.rs:319-338 | a start is safe, whatever happens afterwards, if and only if no reader of an earlier run of the id can still push a stderr line |
| `SupervisorTails.ReaderLeftOver` | crates/openvhost-proc/src/service_task.rs:73-96 | a run from the empty supervisor, through spawn, record, exit and a late drain to a terminal state, that leaves such a reader |
| `SupervisorTails.ForeignTailHappens` | crates/openvhost-proc/src/service_task.rs:140-154 | so some run from the empty supervisor ends with another run's line in a Failed tail |
| `SupervisorBroadcast.SplitStreamConserved` | crates/openvhost-proc/src/supervisor.rs:402-440 | with writes and sends split: the writes are a legal history that replays to the snapshot, and sent plus unsent events are the writes as a multiset |
| `SupervisorBroadcast.AtomicInOrder` | crates/openvhost-proc/src/supervisor.rs:402-440 | when each write about one id and its send act as one, the events about that id are sent as written, but for one still to be sent, whatever happens to other ids and to log lines |
| `SupervisorBroadcast.AtomicRowIsSnapshot` | crates/openvhost-proc/src/supervisor.rs:279-293 | then, with nothing about the id unsent, replaying everything sent gives the id exactly the row of the snapshot |
| `SupervisorBroadcast.AtomicStreamIsSnapshot` | crates/openvhost-proc/src/supervisor.rs:279-293 | when that holds of every id, the stream sent is a legal history that replays to the whole snapshot |
| `SupervisorBroadcast.LegalFromEach` | crates/openvhost-proc/src/events.rs:49-90 | a stream in which the events about each row are legal is legal |
| `SupervisorBroadcast.SplitStreamCanDiffer` | crates/openvhost-proc/src/supervisor.rs:257-273 | without that there is a run whose complete stream replays to something else: a row for an id that is gone |
| `SupervisorOverlap.OverlapIsSafeIff` | crates/openvhost-proc/src/supervisor.rs:402-440 | after a run in which each write about an id and its send acted as one, the next write about it is replayed right by every continuation that writes no more about it and sends all, if and only if each event still unsent leaves the same row as this write |
| `SupervisorOverlap.OvertakenMisleads` | crates/openvhost-proc/src/supervisor.rs:257-273 | an unsent event that leaves another row can always be overtaken: two sends end in a complete stream that replays to the wrong row |
| `SupervisorOverlap.LastDecides` | crates/openvhost-proc/src/events.rs:49-90 | in any stream the last event about an id alone decides its replayed row |
| `SupervisorBroadcast.StartsAreRuns` | crates/openvhost-proc/src/supervisor.rs:344-378 | the Starting events of an id are exactly as many as its runs, so they number them |
| `LogRing.WindowIsLastN` | crates/openvhost-proc/src/log.rs:16-28 | for a positive capacity the ring is always the last `cap` elements of everything pushed |
| `LogRing.ZeroCapacityKeepsAll` | crates/openvhost-proc/src/log.rs:23-28 | with capacity zero nothing is ever dropped |
| `LogRing.BoundedIffPositiveCapacity` | crates/openvhost-proc/src/log.rs:16-28 | the ring stays within its capacity on every history if and only if the capacity is positive |
| `LogRing.RingBuffer.Push` | crates/openvhost-proc/src/log.rs:23-28 | the object after a push holds the last `cap` elements of its extended history |
| `LogRing.RingBuffer.Tail` | crates/openvhost-proc/src/log.rs:29-34 | the newest `n` lines, which for `n` within the capacity are the last `n` of the whole history |
| `Control.StepIsRight` | apps/desktop/src-tauri/src/control.rs:167-182 | a wait ends exactly on a state with nothing alive, or Running for a start; the answer is "reached" exactly for the state asked for and "failed" exactly for a failure |
| `Control.NoLostWakeup` | apps/desktop/src-tauri/src/control.rs:440-551 | from an alert start and with no registration of the id since the loop began, a wait whose row is not live, or is Running for a start, has a state change to such a state or the removal unread, or is lagged; every answer fits a state the id held, or names its removal, after the subscription |
| `Control.WakeupLostIff` | apps/desktop/src-tauri/src/control.rs:461-509 | for every legal stream on which the row finally answers: some schedule loses the wakeup if and only if the id was removed after the subscription and, more than 256 events later and not before the loop began, registered again and not answered since |
| `Control.LosingCall` | apps/desktop/src-tauri/src/control.rs:383-551 | a whole `stop` call that times out on a Stopped row with nothing left to read |
| `Control.AwaitSettled` | apps/desktop/src-tauri/src/control.rs:440-551 | the receive loop computes the wait of its schedule and stops at the first answer |
| `Control.VerbOk` | apps/desktop/src-tauri/src/control.rs:383-438 | for every script of what others do: an unknown id and a service already where it should be are answered from the snapshot without touching the supervisor; any answer is true of some moment after the subscription; a timeout on a row that ends the wait means the ending event is unread, the receiver lagged, or a removal hidden by lag |
| `Control.VerbKicks` | apps/desktop/src-tauri/src/control.rs:367-438 | an admitted verb starts an idle service once or asks a live one once, and causes no other event; without `wait` it answers with the row as it then stands |
| `Control.Transition` | apps/desktop/src-tauri/src/control.rs:383-438 | the imperative verb computes that outcome, so its answers carry the same promise |
| `Control.LiveNeedsStart` | apps/desktop/src-tauri/src/control.rs:622-639 | between a moment with no live run and a later one with a live run, a new run was started |
| `Control.Restart` | apps/desktop/src-tauri/src/control.rs:622-639 | under any interference the start half begins after a moment of the call with no live run, and Reached with `wait` names a later run than any that existed at the call |
| `CommandProbe.ClockAdvances` | crates/openvhost-proc/src/service_task.rs:25-25 | successive attempts are at least 200 ms apart until the deadline |
| `CommandProbe.PromptLoopKeepsTime` | crates/openvhost-proc/src/service_task.rs:371-419 | when nobody is late, an attempt starts 200 ms after the one before was over or at the deadline, whichever is first, so the loop never outlasts its deadline |
| `CommandProbe.NeverGivesUpEarly` | crates/openvhost-proc/src/service_task.rs:273-419 | the loop gives up only at its deadline, and is ready only for an attempt begun before it that exited with 0 |
| `CommandProbe.ProbeAttemptRaced` | crates/openvhost-proc/src/service_task.rs:273-344 | one attempt: nothing is spawned past the deadline; otherwise the process it spawned has been waited for when it returns, after a kill unless it ended by itself, and the answer is the race's |
| `CommandProbe.NoProbeLeft` | crates/openvhost-proc/src/service_task.rs:273-419 | when the loop has ended every turn that spawned a process has it among those left, each was killed unless it had ended by itself, one is left unreaped only if that very wait failed, on any of the three paths, and only the last turn killed one |
| `CommandProbe.RunCommandProbe` | crates/openvhost-proc/src/service_task.rs:371-419 | the loop ends, spawns at most ceil(deadline / 200 ms) processes, has waited for each of them in every turn, and leaves exactly those; its answer is that of the first turn that did not go on, with the killed attempt's detail if there was one and the last completed attempt's otherwise |
| `TaskRunner.DeliversAllThenFinished` | crates/openvhost-proc/src/task.rs:84-115 | for every schedule with a live receiver a returned run delivered all stdout and all stderr lines, each in order, then exactly one `Finished` with the code it returns: the code the child exited with, or none for a signal |
| `TaskRunner.KilledIffNotWaited` | crates/openvhost-proc/src/task.rs:43-59 | dropping the future kills the group exactly when `wait` had not returned, and at most once |
| `TaskRunner.CanBeDropped` | crates/openvhost-proc/src/task.rs:43-59 | the future can be dropped at every point before its end, sends nothing more, and kills the group exactly when no wait had returned |
| `TaskRunner.EveryInterleavingHappens` | crates/openvhost-proc/src/task.rs:61-115 | every interleaving of the two streams is delivered by some schedule |
| `TaskRunner.EveryRunHappens` | crates/openvhost-proc/src/task.rs:84-115 | for every interleaving of all lines and every exit some whole run delivers just that, then `Finished` with that exit's code |
| `Staging.StepKeepsInv` | crates/openvhost-pkg/src/layout.rs:34-168 | every create, lock, write, drop, crash and sweep step keeps the lock, age and ownership invariant |
| `Staging.RemovalsAreJustified` | crates/openvhost-pkg/src/layout.rs:115-168 | only its own drop, or a sweep more than 24 hours after it was made and finding no timely live holder, ever removes a directory |
| `Staging.SweepSparesLive` | crates/openvhost-pkg/src/layout.rs:18-64 | a staging that locked in time keeps its directory and its lock as long as it lives, whatever its age |
| `Staging.SparedIffLockedInTime` | crates/openvhost-pkg/src/layout.rs:37-64 | a live staging's directory is safe in every run exactly when making-to-locking took at most 24 hours |
| `Staging.TouchedIsSpared` | crates/openvhost-pkg/src/layout.rs:130-140 | a directory that was made, given its lock file or written to is not even looked at by a sweep that begins within 24 hours of that |
| `Staging.LiveIsTakenOnlyUnlocked` | crates/openvhost-pkg/src/layout.rs:150-168 | a sweep takes the directory of a live staging only if it saw no lock file there |
| `Staging.LocksExclude` | crates/openvhost-pkg/src/layout.rs:48-61 | two sweeps, or a sweep and a live staging, never hold the lock of one directory at once |
| `Staging.DroppedIsGone` | crates/openvhost-pkg/src/layout.rs:28-61 | a staging that was dropped leaves no directory |
| `Staging.CrashedIsSwept` | crates/openvhost-pkg/src/layout.rs:108-168 | whatever happens meanwhile, a sweep begun when a crashed directory is stale has removed it when it ends, unless its lock file did not open or its lock was held |
| `Staging.ContendedMeansAnotherSweep` | crates/openvhost-pkg/src/layout.rs:150-168 | a crashed staging's lock is only ever held by another sweep that is about to remove the directory itself |
| `Staging.StagingRoot.RemoveIfUnlocked` | crates/openvhost-pkg/src/layout.rs:150-168 | removes the directory exactly when it has no lock file or one that opens and is free |
| `Staging.StagingRoot.SweepStale` | crates/openvhost-pkg/src/layout.rs:115-140 | the loop removes exactly the listed directories that are stale and unlocked, and no other |
| `Staging.UndisturbedSweep` | crates/openvhost-pkg/src/layout.rs:115-168 | left alone, the steps of a sweep leave exactly what that loop leaves |
| `Install.StepKeepsInv` | crates/openvhost-pkg/src/install.rs:187-271 | every step of every install, failure and crash keeps the filesystem and permit invariant |
| `Install.VersionDirsAreComplete` | crates/openvhost-pkg/src/install.rs:218-251 | a version directory that exists is the whole extraction of bytes of the digest pinned by a request for it |
| `Install.VersionDirsNeverChange` | crates/openvhost-pkg/src/layout.rs:89-108 | over any run a non-empty version directory stays as it is |
| `Install.EmptyTreeCanBeReplaced` | crates/openvhost-pkg/src/layout.rs:95-107 | an empty one can be replaced by a racing install of the same version from another pinned archive |
| `Install.ImmutableIffNonEmpty` | crates/openvhost-pkg/src/layout.rs:95-107 | exactly the non-empty trees are safe for ever, once there is an archive of nothing and one of something |
| `Install.StepTouchesOwnPlaces` | crates/openvhost-pkg/src/install.rs:251-254 | one step changes only the job's own version directory, absent or empty before, or its own series' `current` |
| `Install.CurrentNamesADir` | crates/openvhost-pkg/src/platform/unix.rs:24-50 | a link that exists is a `current` and names an existing version directory of its series |
| `Install.CurrentIsDirIff` | crates/openvhost-pkg/src/request.rs:75-80 | `current` is a directory instead of a link exactly when version "current" was installed |
| `Install.CurrentCanBeInstalled` | crates/openvhost-pkg/src/install.rs:251-254 | an install of version "current" gets its directory in place and is then refused its link |
| `Install.CurrentVersionJamsSeries` | crates/openvhost-pkg/src/platform/unix.rs:24-38 | once `current` is a directory, no install of the series that has not finished ever succeeds |
| `Install.ChangesComeFromFinishers` | crates/openvhost-pkg/src/install.rs:187-271 | over any run every change is due to a job that in that run got past its rename, for its directory, or succeeded, for its `current` |
| `Install.UnfinishedLeavesFilesAlone` | crates/openvhost-pkg/src/install.rs:187-271 | a run in which no job got past its rename changes no version directory and no `current` |
| `Install.FailureIff` | crates/openvhost-pkg/src/install.rs:209-254 | at every step of a reached state: which failure is reported exactly when |
| `Install.FailureMeans` | crates/openvhost-pkg/src/install.rs:209-254 | a reported hash mismatch is one, a bad archive has the pinned hash and does not extract, a refused link comes after the rename and every other named failure before it |
| `Install.SuccessIffCurrentNamesOwn` | crates/openvhost-pkg/src/install.rs:253-270 | the last step succeeds exactly when `current` then names this install's own version, whose directory is there |
| `Install.DoneIsInstalled` | crates/openvhost-pkg/src/install.rs:263-270 | after a reported success, from then on, the version directory holds the complete tree of this request, or, if that was empty, of one for the same version, and `current` is a link to a directory of the series |
| `Install.AtMostOneWins` | crates/openvhost-pkg/src/layout.rs:98-107 | of several installs of one version at most one puts a non-empty tree in place |
| `Install.OneInstallPerProcess` | crates/openvhost-pkg/src/install.rs:158-211 | in one process at most one install is past its permit, and the permit is out only while one is, however installs end |
| `Install.InstallCanSucceed` | crates/openvhost-pkg/src/install.rs:187-271 | undisturbed, an install adds its version directory, points `current` at it, gives its permit back and changes nothing else |
| `Download.CheckBody` | crates/openvhost-pkg/src/download.rs:178-217 | the checks after the last chunk: verified exactly when the declared length arrived, was synced and hashes to the pin |
| `Download.Receive` | crates/openvhost-pkg/src/download.rs:136-177 | the loop stops at the first arrival that is not a timely, written chunk under the cap; the archive never exceeds the cap |
| `Download.DownloadWith` | crates/openvhost-pkg/src/download.rs:82-217 | refines the declarative outcome of the timed stream; progress is Started, the running sizes, and Verified exactly on verification |
| `Download.SuccessIff` | crates/openvhost-pkg/src/download.rs:178-217 | success exactly when the body ended in time with the declared length and the pinned hash; the file is then the concatenation of the chunks |
| `Download.StalledIff` | crates/openvhost-pkg/src/download.rs:140-164 | Stalled, with the bytes received so far, exactly when the first abnormal event is a gap of at least the window |
| `Download.HashMismatchIff` | crates/openvhost-pkg/src/download.rs:199-211 | a hash mismatch, with both hashes, exactly when the body ended in time with the declared length, was synced, and hashes to something else than the pin |
| `Download.TooLargeIff` | crates/openvhost-pkg/src/download.rs:168-173 | the cap error exactly when a timely chunk takes the body past the cap |
| `Download.NetworkIff` | crates/openvhost-pkg/src/download.rs:163-197 | a network error exactly when the body breaks or ends in time with another length than declared |
| `Download.DiskErrorIff` | crates/openvhost-pkg/src/download.rs:175-215 | a disk error names the write, sync or seek that failed, exactly then; what reached the file stays |
| `Download.RefusedUpFront` | crates/openvhost-pkg/src/download.rs:124-133 | a declared length over the cap and an archive already there are refused and leave the path as it was |
| `Download.ArchiveRemovedIff` | crates/openvhost-pkg/src/download.rs:146-211 | exactly when nothing is left at the archive path |
| `Download.ChunkAt` | crates/openvhost-pkg/src/download.rs:174-176 | each chunk is in the file where the bytes before it end |
| `Download.SizesAre` | crates/openvhost-pkg/src/download.rs:177-177 | progress reports the bytes received, once for each chunk |
| `Download.FirstAbnormalUnique` | crates/openvhost-pkg/src/download.rs:119-177 | a stream has one first abnormal event |
| `Download.FailuresRemoveArchive` | crates/openvhost-pkg/src/download.rs:124-210 | the cap, stall, length and hash failures leave no archive; only body and disk errors leave one |
| `Download.TotalTimeIrrelevant` | crates/openvhost-pkg/src/download.rs:33-46 | while no single wait reaches the window the outcome does not depend on how long the transfer took |
| `DiskUsage.ScanEntries` | crates/openvhost-core/src/home.rs:89-104 | one directory's entries: files are added, directories pushed, links and the rest skipped, nothing lost |
| `DiskUsage.DirSizeNoFollow` | crates/openvhost-core/src/home.rs:82-106 | the walk ends with min(2^64 - 1, the sum of the regular files reachable through readable directories) |
| `DiskUsage.FileCountsItsSize` | crates/openvhost-core/src/home.rs:89-104 | one more regular file, at any depth below readable directories, adds exactly its size |
| `DiskUsage.NoFilesNoBytes` | crates/openvhost-core/src/home.rs:82-104 | links, special files, vanished entries and unreadable directories count nothing |
| `DiskUsage.SizeAllPermuted` | crates/openvhost-core/src/home.rs:89-104 | the order of a directory's entries does not matter |
| `DiskUsage.OrderAndLinksIrrelevant` | crates/openvhost-core/src/home.rs:73-106 | any number of reorderings and added symlinks, at any depth, leaves the figure as it was |
| `Request.RejoinSplit` | crates/openvhost-pkg/src/request.rs:201-226 | splitting a path and joining it again gives it back |
| `Request.SplitRejoin` | crates/openvhost-pkg/src/request.rs:201-226 | joining separator-free parts and splitting again gives them back |
| `Request.CollectIsRejoin` | crates/openvhost-pkg/src/request.rs:201-226 | pushing proper components one by one is joining them, and the path has exactly these components |
| `Request.ComponentAcceptedIff` | crates/openvhost-pkg/src/request.rs:82-134 | exactly which components are accepted: 1 to 64 characters of [a-z0-9._-], no leading dot or dash, no trailing dot, and not a device name with or without extension |
| `Request.PackageDirInjective` | crates/openvhost-pkg/src/request.rs:75-77 | two validated triples have the same directory exactly when they are equal |
| `Request.PackageDirAvoidsStaging` | crates/openvhost-pkg/src/request.rs:69-77 | a package directory is never the staging root, above it or inside it |
| `Request.PackageDirIsCurrentIff` | crates/openvhost-pkg/src/request.rs:75-80 | it is the place of the `current` link exactly when the version is "current" |
| `Request.PackageDirStaysBelow` | crates/openvhost-pkg/src/request.rs:72-134 | a validated triple's directory resolves to exactly three levels below any root |
| `Request.CurrentIsValid` | crates/openvhost-pkg/src/request.rs:93-134 | and "current" passes validation |
| `Request.WarmupAcceptedIff` | crates/openvhost-pkg/src/request.rs:182-227 | exactly which warm-up paths are accepted, and an accepted one is returned unchanged |
| `Request.AbsoluteEscapes` | crates/openvhost-pkg/src/request.rs:182-227 | an absolute path would replace any root it is joined to, and is refused |
| `Request.WarmupStaysBelow` | crates/openvhost-pkg/src/request.rs:166-227 | joined to any root, an accepted path resolves strictly below it, at most eight levels down |
| `ConfigText.ToConfigPathIdempotent` | crates/openvhost-conf/src/ctx.rs:158-188 | an accepted path has no backslash and no forbidden character, and converting it again changes nothing |
| `ConfigText.ToConfigPathIff` | crates/openvhost-conf/src/ctx.rs:158-188 | exactly which paths are accepted, verbatim prefixes included, and what is embedded or reported for each |
| `ConfigText.LinesOfUnlines` | crates/openvhost-conf/src/ctx.rs:190-197 | lines without breaks survive being written and read back |
| `ConfigText.LinesOfCrLf` | crates/openvhost-conf/src/ctx.rs:190-197 | lines that end in a carriage return and a line feed read the same |
| `ConfigText.CommentsAndIndents` | crates/openvhost-conf/src/ctx.rs:190-197 | a comment sets no key whatever its indentation, and indenting a line changes nothing |
| `ConfigText.LineDirectiveIs` | crates/openvhost-conf/src/ctx.rs:190-197 | a setting line gives its trimmed value to its own key, and no other line gives a key anything |
| `ConfigText.DirectiveIsFirstSetting` | crates/openvhost-conf/src/ctx.rs:190-197 | reading a key from any well-formed file finds the first line that sets it |
| `ConfigText.ConvertedIff` | crates/openvhost-conf/src/mysql.rs:123-135 | a context is accepted exactly when all eight paths convert, and refused with the error of the first that does not |
| `ConfigText.MyCnfReadsBack` | crates/openvhost-conf/src/mysql.rs:123-147 | every rendered file has 23 lines, and every path key reads back as the converted path of the field it came from, up to trailing white space |
| `ConfigText.MyCnfIncludesConfd` | crates/openvhost-conf/src/mysql.rs:123-147 | the include line, the header comment and the client's socket line carry the converted paths of their fields; the two sections start at their own lines and nowhere else |
| `ConfigText.MyCnfFixedKeys` | crates/openvhost-conf/src/mysql.rs:240-264 | the fixed keys read back as pinned, in every rendered file |
| `ConfigText.MyCnfExactlyIff` | crates/openvhost-conf/src/mysql.rs:123-147 | in an accepted context each of the seven path keys reads back exactly its converted path if and only if that path does not end in white space |
| `ConfigText.TrailingSpaceIsLost` | crates/openvhost-conf/src/ctx.rs:190-197 | an accepted context whose datadir ends in a blank reads back without it |

## Left out

* The orphan reaper at launch, process groups, signals and platform code: spawn, wait, kill and the registry are steps
  with arbitrary outcomes.
* `ReadinessProbe` details outside the loop: how the probe's own output pipes are drained, and how long that takes.
* `SupervisorCore.Supervisor.Snapshot`: the library sort is taken as insertion.
* The budget of the reader drain is not timed: a drain may run out at any moment.
* `Control.VerbOk`: error texts, the closed-broadcast answer and the I/O errors of `kick` are not modelled.
* `Control.Transition`: likewise.
* `SupervisorTheorems.TerminalMeansGone`: excludes the record of an id whose last registry call failed and a child whose own
  wait failed; the code only logs such failures and goes on.
* `SupervisorTheorems.CrashLeavesRecorded`: the same exclusions, for the same reason.
* `SupervisorTheorems.RecordsAreLive`: excludes ids whose last registry call failed.
* Bulk stop, quit, the request dispatcher and the transport of the control channel.
* `Install.VersionDirsAreComplete`: the tree a staging directory holds is the install's own, which `Staging` proves
  under its 24-hour condition; the warm-up execution is taken to leave the tree unchanged.
* Temporary links: the `current` swap's uniquely named temporary link is one step with its rename, so a crash that
  leaves it behind is not modelled. Windows junctions are not part of this model, nor is uninstalling.
* `Staging.CrashedIsSwept`: a removal that fails is not modelled; the code swallows it and the next sweep tries again.
* `Download.DownloadWith`: redirects, TLS, URL checks and HTTP framing are not modelled, only the timed body.
* `DiskUsage.DirSizeNoFollow`: the tree does not change during the walk, and a root that is itself a link is not
  modelled.
* Web-server and PHP rendering, settings persistence, Homebrew and version-banner parsing, the command-line front end
  and the user interface.
