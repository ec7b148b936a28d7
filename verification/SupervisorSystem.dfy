/**
 * The whole supervisor under every interleaving: any number of callers of `register`, `unregister`, `start` and
 * `stop`, and one service task per accepted start. Each locked block, each send and each wait is one step
 * (`crates/openvhost-proc/src/supervisor.rs`, `crates/openvhost-proc/src/service_task.rs`).
 */
module SupervisorSystem {
  import opened Prelude
  import opened Events
  import opened Classify
  import opened ServiceTask
  import opened SupervisorCore

  /** A `stop` call that was accepted under the lock: it still has to log and to send. */
  datatype StopCall = StopCall(id: Id, chan: Option<nat>, logged: bool, sent: bool)

  /**
   * Run `r` is the run of the `r`-th accepted start and uses control channel `r`; a process identity is the number of
   * the run that spawned it. `records` is the orphan registry. `callers` holds the events written by callers and log
   * pushes and not yet sent; a run's own unsent event is in its program counter. History: `writes` lists every event
   * in the order of the locked writes, `badRegistry` the ids whose last registry call failed, `clean` the runs that
   * started when no stderr reader of an earlier run of their id could push another line.
   */
  datatype Sys = Sys(
    t: Tables, runs: seq<Run>, records: map<Id, nat>, stops: seq<StopCall>,
    callers: multiset<Event>, sent: seq<Event>, writes: seq<Event>,
    now: nat, badRegistry: set<Id>, clean: set<nat>)

  const INITIAL := Sys(NO_TABLES, [], map[], [], multiset{}, [], [], 0, {}, {})

  /** A service that counts as running at once, for the runs that are exhibited. */
  const EXAMPLE := Spec("Example", None, "example", AliveAfter(0), 5000)

  datatype RecordOutcome = Written | AlreadyDead | RegistryError

  datatype Act =
    // callers
    | Register(id: Id, spec: Spec)
    | Unregister(id: Id)
    | Start(id: Id)
    | Stop(id: Id)
    | StopLogged(k: nat)
    | StopSent(k: nat)
    | CallerSent(event: Event)
    // service tasks
    | Task(r: nat, mv: TaskMove)
    | Probe(r: nat, pmv: ProbeMove)
    | Nature(r: nat, ev: Nature)
    | EventSent(r: nat)
    | LinePushed(r: nat, text: string)
    | PidStored(r: nat)
    | PidRecorded(r: nat, outcome: RecordOutcome)
    | RunningWritten(r: nat)
    | TailTaken(r: nat)
    | Judged(r: nat)
    | RecordRemoved(r: nat, ok: bool)
    | TerminalWritten(r: nat)
    | LineRead(r: nat, which: Which)
    | ControlClosed(r: nat)
    | Tick(elapsed: nat)

  // ---- what a run does at the shared tables ----

  predicate AtLogPoint(pc: PC) {
    match pc
    case Launch(at) => at.LogRequested? || at.LogSpawnFailed?
    case Setup(at) => at.LogSpawned?
    case AwaitReady(at) => at.LogNotReady? || at.LogDeadline? || at.LogReady?
    case Terminate(at, _) => at.LogKill?
    case Close(at, _) => at.LogTerminal?
    case _ => false
  }

  function LogSource(pc: PC): Which {
    if pc == Launch(LogSpawnFailed) then Stderr else Stdout
  }

  function LogText(pc: PC, text: string): string {
    if pc == Launch(LogSpawnFailed) then text
    else if pc == AwaitReady(LogDeadline) then "supervisor: readiness probe deadline elapsed: " + text
    else "supervisor: " + text
  }

  function AfterLog(run: Run, text: string): Run
    requires AtLogPoint(run.pc)
  {
    match run.pc
    case Launch(at) =>
      if at.LogRequested? then run.(pc := Launch(SpawnChild))
      else run.(pc := Drain(Plain, None), io := run.io.(spawnErr := [text]))
    case Setup(_) => run.(pc := Setup(TakePipes))
    case AwaitReady(at) =>
      if at.LogNotReady? then run.(pc := AwaitReady(ProbeSleep))
      else if at.LogReady? then run.(pc := AwaitReady(WriteRunning))
      else run.(pc := Terminate(AskChild, NeverReady), extra := ["probe: " + text])
    case Terminate(_, fin) => run.(pc := Terminate(KillChild, fin))
    case Close(_, state) => run.(pc := Close(RemoveRecord, state))
  }

  predicate AtEmit(pc: PC) {
    match pc
    case Launch(at) => at.EmitStarting?
    case Serve(at) => at.EmitRunning?
    case Close(at, _) => at.EmitTerminal?
    case _ => false
  }

  function EmittedState(pc: PC): ServiceState
    requires AtEmit(pc)
  {
    match pc
    case Launch(_) => Starting
    case Serve(_) => Running
    case Close(_, state) => state
  }

  /** The event a run has written and not yet sent. */
  function Unsent(run: Run): Option<Event> {
    if AtEmit(run.pc) then Some(StateChanged(run.id, EmittedState(run.pc))) else None
  }

  function AfterEmit(pc: PC): PC
    requires AtEmit(pc)
  {
    match pc
    case Launch(_) => Launch(LogRequested)
    case Serve(_) => Serve(RunLoop)
    case Close(_, state) => Close(Done, state)
  }

  /** Some sender of run `r`'s control channel still exists: the entry's or that of an unfinished stop call. */
  ghost predicate SenderAlive(s: Sys, r: nat) {
    || (exists id :: id in s.t.entries && s.t.entries[id].control == Some(r))
    || (exists k :: 0 <= k < |s.stops| && !s.stops[k].sent && s.stops[k].chan == Some(r))
  }

  // ---- the step relation ----

  ghost predicate Can(s: Sys, a: Act) {
    match a
    case Register(_, _) => true
    case Unregister(_) => true
    case Start(id) => id in s.t.entries ==> s.t.entries[id].flag < |s.t.flags|
    case Stop(id) => id in s.t.entries ==> s.t.entries[id].flag < |s.t.flags|
    case StopLogged(k) => k < |s.stops| && !s.stops[k].logged
    case StopSent(k) => k < |s.stops| && s.stops[k].logged && !s.stops[k].sent
    case CallerSent(e) => e in s.callers
    case Tick(_) => true
    case Task(r, mv) => r < |s.runs| && CanTask(s.runs[r], mv, s.now)
    case Probe(r, mv) => r < |s.runs| && CanProbe(s.runs[r], mv)
    case Nature(r, ev) => r < |s.runs| && CanNature(s.runs[r], ev)
    case EventSent(r) => r < |s.runs| && AtEmit(s.runs[r].pc)
    case LinePushed(r, _) => r < |s.runs| && AtLogPoint(s.runs[r].pc)
    case PidStored(r) => r < |s.runs| && s.runs[r].pc == Setup(SetPid)
    case PidRecorded(r, outcome) =>
      r < |s.runs| && s.runs[r].pc == Setup(RecordPid) && (outcome.AlreadyDead? ==> !s.runs[r].proc.child.Alive?)
    case RunningWritten(r) => r < |s.runs| && s.runs[r].pc == AwaitReady(WriteRunning)
    case TailTaken(r) => r < |s.runs| && s.runs[r].pc.Snapshot?
    case Judged(r) => r < |s.runs| && s.runs[r].pc.Judge? && s.runs[r].flag < |s.t.flags|
    case RecordRemoved(r, _) => r < |s.runs| && s.runs[r].pc.Close? && s.runs[r].pc.close.RemoveRecord?
    case TerminalWritten(r) => r < |s.runs| && s.runs[r].pc.Close? && s.runs[r].pc.close.WriteTerminal?
    case LineRead(r, which) =>
      r < |s.runs| &&
      var p := PipeOf(s.runs[r].io, which);
      p.reader.Reading? && p.read < |p.written|
    case ControlClosed(r) =>
      r < |s.runs| && s.runs[r].pc == Serve(RunLoop) && !s.runs[r].ctl.queued && !SenderAlive(s, r)
  }

  function WithRun(s: Sys, r: nat, run: Run): Sys
    requires r < |s.runs|
  {
    s.(runs := s.runs[r := run])
  }

  /** Pushes one log line for `id`; its `Log` event is sent later, by nobody in particular. */
  function Push(s: Sys, id: Id, source: Which, line: string): Sys {
    s.(t := PushLogLocked(s.t, id, source, line),
       writes := s.writes + [Log(id)],
       callers := s.callers + multiset{Log(id)})
  }

  function CallerWrote(s: Sys, t: Tables, e: Event): Sys {
    s.(t := t, writes := s.writes + [e], callers := s.callers + multiset{e})
  }

  /** The first stop accepted during a run is remembered. */
  function Accept(run: Run, k: nat): Run {
    if run.ctl.accepted.Some? then run
    else run.(ctl := run.ctl.(accepted := Some(k), early := run.pc.BeforeVerdict()))
  }

  /** `try_send` on the control channel: a message is queued unless one is already there or the receiver is gone. */
  function Deliver(run: Run): Run {
    run.(ctl := run.ctl.(queued := run.ctl.queued || run.pc.InFlight(), delivered := true))
  }

  function DoRegister(s: Sys, id: Id, spec: Spec): Sys {
    if s.t.Live(id) then s else CallerWrote(s, RegisterLocked(s.t, id, spec), Registered(id))
  }

  function DoUnregister(s: Sys, id: Id): Sys {
    if id !in s.t.entries || s.t.Live(id) then s
    else CallerWrote(s, UnregisterLocked(s.t, id), Unregistered(id))
  }

  function DoStop(s: Sys, id: Id): Sys
    requires id in s.t.entries ==> s.t.entries[id].flag < |s.t.flags|
  {
    if !s.t.Live(id) then s
    else
      var c := s.t.entries[id].control;
      s.(t := StopLocked(s.t, id),
         stops := s.stops + [StopCall(id, c, false, false)],
         runs := if c.Some? && c.value < |s.runs|
                 then s.runs[c.value := Accept(s.runs[c.value], |s.stops|)] else s.runs)
  }

  function DoStopLogged(s: Sys, k: nat): Sys
    requires k < |s.stops|
  {
    Push(s.(stops := s.stops[k := s.stops[k].(logged := true)]), s.stops[k].id, Stdout,
         "supervisor: stop requested by user")
  }

  function DoStopSent(s: Sys, k: nat): Sys
    requires k < |s.stops|
  {
    var c := s.stops[k].chan;
    s.(stops := s.stops[k := s.stops[k].(sent := true)],
       runs := if c.Some? && c.value < |s.runs| then s.runs[c.value := Deliver(s.runs[c.value])] else s.runs)
  }

  /** A reader that can still push a line: it is reading, and a line is unread or a writer holds the pipe. */
  predicate Feeds(p: Pipe) {
    p.reader.Reading? && (p.open || p.read < |p.written|)
  }

  predicate NoReaderLeft(runs: seq<Run>, id: Id) {
    forall q :: 0 <= q < |runs| && runs[q].id == id ==> !Feeds(runs[q].io.err)
  }

  function DoStart(s: Sys, id: Id): Sys
    requires id in s.t.entries ==> s.t.entries[id].flag < |s.t.flags|
  {
    if id !in s.t.entries || s.t.Live(id) then s
    else
      var e := s.t.entries[id];
      s.(t := StartLocked(s.t, id),
         runs := s.runs + [NewRun(id, e.flag, e.spec)],
         clean := if NoReaderLeft(s.runs, id) then s.clean + {|s.runs|} else s.clean,
         writes := s.writes + [StateChanged(id, Starting)])
  }

  function DoTask(s: Sys, r: nat, mv: TaskMove): Sys
    requires r < |s.runs| && CanTask(s.runs[r], mv, s.now)
  {
    WithRun(s, r, Tasked(s.runs[r], mv, s.now))
  }

  function DoPidRecorded(s: Sys, r: nat, outcome: RecordOutcome): Sys
    requires r < |s.runs|
  {
    var id := s.runs[r].id;
    WithRun(s, r, s.runs[r].(pc := Setup(LogSpawned)))
    .(records := if outcome.Written? then s.records[id := r] else s.records,
      badRegistry := match outcome
                     case Written => s.badRegistry - {id}
                     case AlreadyDead => s.badRegistry
                     case RegistryError => s.badRegistry + {id})
  }

  function DoRecordRemoved(s: Sys, r: nat, ok: bool): Sys
    requires r < |s.runs| && s.runs[r].pc.Close?
  {
    var id := s.runs[r].id;
    WithRun(s, r, s.runs[r].(pc := Close(WriteTerminal, s.runs[r].pc.state)))
    .(records := if ok then s.records - {id} else s.records,
      badRegistry := if ok then s.badRegistry - {id} else s.badRegistry + {id})
  }

  function DoTailTaken(s: Sys, r: nat): Sys
    requires r < |s.runs| && s.runs[r].pc.Snapshot?
  {
    var run := s.runs[r];
    var tail := if run.id in s.t.entries then s.t.entries[run.id].stderrTail else [];
    WithRun(s, r, run.(pc := Judge(run.pc.fin, run.pc.status, tail + run.extra)))
  }

  function DoJudged(s: Sys, r: nat): Sys
    requires r < |s.runs| && s.runs[r].pc.Judge? && s.runs[r].flag < |s.t.flags|
  {
    var run := s.runs[r];
    var j := Judgement(run.pc.fin, s.t.flags[run.flag].raised, run.pc.status, run.pc.tail);
    WithRun(s, r, run.(pc := Close(LogTerminal, Verdict(j.fin, j.flag, j.status, j.tail)), verdict := Some(j)))
  }

  function DoSetState(s: Sys, r: nat, state: ServiceState, run: Run): Sys
    requires r < |s.runs|
  {
    WithRun(s, r, run)
    .(t := SetStateLocked(s.t, run.id, state), writes := s.writes + [StateChanged(run.id, state)])
  }

  function DoRunningWritten(s: Sys, r: nat): Sys
    requires r < |s.runs|
  {
    DoSetState(s, r, Running, s.runs[r].(pc := Serve(EmitRunning), up := true))
  }

  function DoTerminalWritten(s: Sys, r: nat): Sys
    requires r < |s.runs| && s.runs[r].pc.Close?
  {
    var state := s.runs[r].pc.state;
    DoSetState(s, r, state, s.runs[r].(pc := Close(EmitTerminal, state)))
  }

  function DoEventSent(s: Sys, r: nat): Sys
    requires r < |s.runs| && AtEmit(s.runs[r].pc)
  {
    var run := s.runs[r];
    WithRun(s, r, run.(pc := AfterEmit(run.pc)))
    .(sent := s.sent + [StateChanged(run.id, EmittedState(run.pc))])
  }

  function DoLinePushed(s: Sys, r: nat, text: string): Sys
    requires r < |s.runs| && AtLogPoint(s.runs[r].pc)
  {
    var run := s.runs[r];
    Push(WithRun(s, r, AfterLog(run, text)), run.id, LogSource(run.pc), LogText(run.pc, text))
  }

  function DoPidStored(s: Sys, r: nat): Sys
    requires r < |s.runs|
  {
    var run := s.runs[r];
    WithRun(s, r, run.(pc := Setup(RecordPid))).(t := SetPidLocked(s.t, run.id, Some(r)))
  }

  function DoLineRead(s: Sys, r: nat, which: Which): Sys
    requires r < |s.runs|
    requires PipeOf(s.runs[r].io, which).read < |PipeOf(s.runs[r].io, which).written|
  {
    var run := s.runs[r];
    var p := PipeOf(run.io, which);
    Push(WithRun(s, r, run.(io := WithPipe(run.io, which, p.(read := p.read + 1)))), run.id, which, p.written[p.read])
  }

  function Do(s: Sys, a: Act): Sys
    requires Can(s, a)
  {
    match a
    case Register(id, spec) => DoRegister(s, id, spec)
    case Unregister(id) => DoUnregister(s, id)
    case Start(id) => DoStart(s, id)
    case Stop(id) => DoStop(s, id)
    case StopLogged(k) => DoStopLogged(s, k)
    case StopSent(k) => DoStopSent(s, k)
    case CallerSent(e) => s.(callers := s.callers - multiset{e}, sent := s.sent + [e])
    case Tick(elapsed) => s.(now := s.now + elapsed)
    case Task(r, mv) => DoTask(s, r, mv)
    case Probe(r, mv) => WithRun(s, r, Probed(s.runs[r], mv))
    case Nature(r, ev) => WithRun(s, r, Natured(s.runs[r], ev))
    case EventSent(r) => DoEventSent(s, r)
    case LinePushed(r, text) => DoLinePushed(s, r, text)
    case PidStored(r) => DoPidStored(s, r)
    case PidRecorded(r, outcome) => DoPidRecorded(s, r, outcome)
    case RunningWritten(r) => DoRunningWritten(s, r)
    case TailTaken(r) => DoTailTaken(s, r)
    case Judged(r) => DoJudged(s, r)
    case RecordRemoved(r, ok) => DoRecordRemoved(s, r, ok)
    case TerminalWritten(r) => DoTerminalWritten(s, r)
    case LineRead(r, which) => DoLineRead(s, r, which)
    case ControlClosed(_) => s
  }

  /** The state after a run of the whole system from the empty supervisor, if every step was possible where it stands. */
  ghost function Exec(acts: seq<Act>): Option<Sys> {
    if |acts| == 0 then Some(INITIAL)
    else
      match Exec(acts[..|acts| - 1])
      case None => None
      case Some(s) => if Can(s, acts[|acts| - 1]) then Some(Do(s, acts[|acts| - 1])) else None
  }

  ghost predicate Reached(acts: seq<Act>, s: Sys) {
    Exec(acts) == Some(s)
  }
}
