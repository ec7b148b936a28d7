/**
 * One run of a service task (`crates/openvhost-proc/src/service_task.rs`, function `run`), cut at every point
 * where another thread, the child, a descendant or the clock can act. The steps that touch the supervisor's
 * shared tables are in `SupervisorSystem`; the ones here touch nothing but the run itself.
 */
module ServiceTask {
  import opened Prelude
  import opened Events
  import opened Classify

  datatype Readiness = AliveAfter(bound: nat) | Command

  /** What a service is registered with. `spawn` stands for the command to run, `grace` is how long a stop may take. */
  datatype Spec = Spec(displayName: string, endpoint: Option<string>, spawn: string, readiness: Readiness, grace: nat)

  /** The supervised child. `Exited` is dead but not waited for. */
  datatype Child = Unborn | Alive | Exited(status: ExitStatus) | Reaped(status: ExitStatus)

  datatype Probe = NoProbe | ProbeAlive | ProbeExited(status: ExitStatus)

  datatype Reader = Idle | Reading | AtEof | Broken

  /** One output pipe: all the lines ever written to it, how many were read, and whether a writer still holds it. */
  datatype Pipe = Pipe(written: seq<string>, read: nat, open: bool, reader: Reader)

  const EMPTY_PIPE := Pipe([], 0, false, Idle)

  datatype Which = Stdout | Stderr

  datatype KillCause = ChildGone(status: Option<ExitStatus>) | DeadlineHit

  /** Points of `start` after its locked block, and of the task up to its spawn. */
  datatype LaunchPoint = EmitStarting | LogRequested | SpawnChild | LogSpawnFailed

  datatype SetupPoint = SetPid | RecordPid | LogSpawned | TakePipes

  datatype ReadyPoint =
    | AliveRace
    | ProbeTop | ProbeRace | ProbeKill(cause: KillCause) | LogNotReady | ProbeSleep | LogDeadline
    | LogReady | WriteRunning

  datatype ServePoint = EmitRunning | RunLoop

  datatype TerminatePoint = AskChild | GraceWait | LogKill | KillChild | WaitKilled

  datatype ClosePoint = LogTerminal | RemoveRecord | WriteTerminal | EmitTerminal | Done

  datatype PC =
    | Launch(launch: LaunchPoint)
    | Setup(setup: SetupPoint)
    | AwaitReady(ready: ReadyPoint)
    | Serve(serve: ServePoint)
    | Terminate(term: TerminatePoint, fin: Finish)
    | Drain(fin: Finish, status: Option<ExitStatus>)
    | Snapshot(fin: Finish, status: Option<ExitStatus>)
    | Judge(fin: Finish, status: Option<ExitStatus>, tail: seq<string>)
    | Close(close: ClosePoint, state: ServiceState)
  {
    /** The terminal state has not been written yet. */
    predicate InFlight() {
      !(Close? && (close.EmitTerminal? || close.Done?))
    }

    /** Nobody has decided to end the run yet. */
    predicate BeforeEnd() {
      Launch? || Setup? || AwaitReady? || Serve?
    }

    /** Classification is still to come. */
    predicate BeforeVerdict() {
      !Close?
    }

    /** The child, if it was born, has been waited for. */
    predicate PastChild() {
      Drain? || Snapshot? || Judge? || Close?
    }

    predicate PastDrain() {
      Snapshot? || Judge? || Close?
    }

    /** Where the orphan record of a living child exists. */
    predicate Recorded() {
      || (Setup? && (setup.LogSpawned? || setup.TakePipes?))
      || AwaitReady? || Serve? || Terminate? || Drain? || Snapshot? || Judge?
      || (Close? && (close.LogTerminal? || close.RemoveRecord?))
    }

    /** The window between spawning the child and recording it. */
    predicate SpawnToRecord() {
      Setup? && (setup.SetPid? || setup.RecordPid?)
    }

    predicate Probing() {
      AwaitReady? && !ready.AliveRace? && !ready.LogReady? && !ready.WriteRunning?
    }

    predicate ProbeInFlight() {
      AwaitReady? && (ready.ProbeRace? || ready.ProbeKill?)
    }

    predicate ReapedByProbe() {
      AwaitReady? && ready.ProbeKill? && ready.cause.ChildGone?
    }
  }

  /**
   * `faulty`: a wait for the child returned an error. `leaked`: one for a probe did, which was abandoned unreaped.
   * `born` is when the child was spawned, `asked` when it was asked to stop, `killed` whether it was then killed.
   */
  datatype Proc = Proc(child: Child, probe: Probe, probeExits: seq<ExitStatus>, faulty: bool, leaked: bool,
                       born: nat, asked: Option<nat>, killed: bool)

  /** `spawnErr` is the line a failed spawn wrote to stderr; `late` says the drain budget ran out. */
  datatype Io = Io(out: Pipe, err: Pipe, spawnErr: seq<string>, late: bool)

  /**
   * `queued` is the capacity-one control channel. History: the first stop accepted during this run, whether that was
   * before classification, and whether some stop's send on this run's channel has happened.
   */
  datatype Ctl = Ctl(queued: bool, accepted: Option<nat>, early: bool, delivered: bool)

  /** What classification looked at. */
  datatype Judgement = Judgement(fin: Finish, flag: bool, status: Option<ExitStatus>, tail: seq<string>)

  /** `flag` names the shared stop flag; `extra` are the probe diagnostics appended to the tail; `up`: Running was written. */
  datatype Run = Run(
    id: Id, flag: nat, spec: Spec, armed: nat, pc: PC, up: bool,
    proc: Proc, io: Io, ctl: Ctl, extra: seq<string>, verdict: Option<Judgement>)

  function NewRun(id: Id, flag: nat, spec: Spec): Run {
    Run(id, flag, spec, 0, Launch(EmitStarting), false,
        Proc(Unborn, NoProbe, [], false, false, 0, None, false), Io(EMPTY_PIPE, EMPTY_PIPE, [], false),
        Ctl(false, None, false, false), [], None)
  }

  /** The stderr lines this run has contributed to the log so far. */
  function OwnErr(io: Io): seq<string> {
    io.spawnErr + io.err.written[..if io.err.read <= |io.err.written| then io.err.read else 0]
  }

  // ---- steps of the task's main line ----

  datatype TaskMove =
    | SpawnOk
    | SpawnErr
    | PipesTaken(hasOut: bool, hasErr: bool)
    | BoundElapsed
    | ChildWaited(status: Option<ExitStatus>)
    | StopReceived
    | GracefulStopAsked
    | GraceElapsed
    | KillSent
    | ReadersDrained
    | DrainTimedOut

  /** Where a finished `child.wait()` leads, at the points that wait for the child. */
  function AfterReap(pc: PC, status: Option<ExitStatus>): Option<PC> {
    match pc
    case AwaitReady(at) =>
      (match at
       case AliveRace => Some(Drain(Plain, status))
       case ProbeRace => Some(AwaitReady(ProbeKill(ChildGone(status))))
       case ProbeSleep => Some(Drain(NeverReady, status))
       case _ => None)
    case Serve(at) => if at.RunLoop? then Some(Drain(Plain, status)) else None
    case Terminate(at, fin) => if at.GraceWait? || at.WaitKilled? then Some(Drain(fin, status)) else None
    case _ => None
  }

  predicate CanTask(run: Run, mv: TaskMove, now: nat) {
    match mv
    case SpawnOk => run.pc == Launch(SpawnChild)
    case SpawnErr => run.pc == Launch(SpawnChild)
    case PipesTaken(_, _) => run.pc == Setup(TakePipes)
    case BoundElapsed =>
      run.pc == AwaitReady(AliveRace) && run.spec.readiness.AliveAfter? && run.armed + run.spec.readiness.bound <= now
    case ChildWaited(status) =>
      AfterReap(run.pc, status).Some? && (status.Some? ==> run.proc.child == Exited(status.value))
    case StopReceived => run.pc == Serve(RunLoop) && run.ctl.queued
    case GracefulStopAsked => run.pc.Terminate? && run.pc.term.AskChild?
    case GraceElapsed =>
      && run.pc.Terminate? && run.pc.term.GraceWait?
      && run.proc.asked.Some? && run.proc.asked.value + run.spec.grace <= now
    case KillSent => run.pc.Terminate? && run.pc.term.KillChild?
    case ReadersDrained => run.pc.Drain? && !run.io.out.reader.Reading? && !run.io.err.reader.Reading?
    case DrainTimedOut => run.pc.Drain? && (run.io.out.reader.Reading? || run.io.err.reader.Reading?)
  }

  function Tasked(run: Run, mv: TaskMove, now: nat): Run
    requires CanTask(run, mv, now)
  {
    match mv
    case SpawnOk =>
      run.(pc := Setup(SetPid), proc := run.proc.(child := Alive, born := now),
           io := run.io.(out := EMPTY_PIPE.(open := true), err := EMPTY_PIPE.(open := true)))
    case SpawnErr => run.(pc := Launch(LogSpawnFailed))
    case PipesTaken(hasOut, hasErr) =>
      run.(pc := AwaitReady(if run.spec.readiness.AliveAfter? then AliveRace else ProbeTop),
           armed := now,
           io := run.io.(out := if hasOut then run.io.out.(reader := Reading) else run.io.out,
                         err := if hasErr then run.io.err.(reader := Reading) else run.io.err))
    case BoundElapsed => run.(pc := AwaitReady(LogReady))
    case ChildWaited(status) =>
      run.(pc := AfterReap(run.pc, status).value,
           proc := if status.Some? then run.proc.(child := Reaped(status.value)) else run.proc.(faulty := true))
    case StopReceived => run.(pc := Terminate(AskChild, Plain), ctl := run.ctl.(queued := false))
    case GracefulStopAsked => run.(pc := Terminate(GraceWait, run.pc.fin), proc := run.proc.(asked := Some(now)))
    case GraceElapsed => run.(pc := Terminate(LogKill, run.pc.fin))
    case KillSent => run.(pc := Terminate(WaitKilled, run.pc.fin), proc := run.proc.(killed := true))
    case ReadersDrained => run.(pc := Snapshot(run.pc.fin, run.pc.status))
    case DrainTimedOut => run.(pc := Snapshot(run.pc.fin, run.pc.status), io := run.io.(late := true))
  }

  // ---- steps of the readiness probe ----

  datatype ProbeMove =
    | DeadlineBetween
    | NotSpawned
    | Spawned
    | Waited(status: Option<ExitStatus>)
    | DeadlineInFlight
    | Killed(reaped: bool)
    | Retry

  predicate CanProbe(run: Run, mv: ProbeMove) {
    && run.pc.AwaitReady?
    && match mv
       case DeadlineBetween => run.pc.ready.ProbeTop?
       case NotSpawned => run.pc.ready.ProbeTop?
       case Spawned => run.pc.ready.ProbeTop?
       case Waited(status) =>
         run.pc.ready.ProbeRace? && (status.Some? ==> run.proc.probe == ProbeExited(status.value))
       case DeadlineInFlight => run.pc.ready.ProbeRace?
       case Killed(reaped) => run.pc.ready.ProbeKill? && (reaped ==> run.proc.probe.ProbeExited?)
       case Retry => run.pc.ready.ProbeSleep?
  }

  function Probed(run: Run, mv: ProbeMove): Run
    requires CanProbe(run, mv)
  {
    match mv
    case DeadlineBetween => run.(pc := AwaitReady(LogDeadline))
    case NotSpawned => run.(pc := AwaitReady(LogNotReady))
    case Spawned => run.(pc := AwaitReady(ProbeRace), proc := run.proc.(probe := ProbeAlive))
    case Waited(status) =>
      run.(pc := AwaitReady(if status.Some? && status.value.Success() then LogReady else LogNotReady),
           proc := if status.Some?
                   then run.proc.(probe := NoProbe, probeExits := run.proc.probeExits + [status.value])
                   else run.proc.(probe := NoProbe, leaked := true))
    case DeadlineInFlight => run.(pc := AwaitReady(ProbeKill(DeadlineHit)))
    case Killed(reaped) =>
      run.(pc := match run.pc.ready.cause
                 case ChildGone(status) => Drain(NeverReady, status)
                 case DeadlineHit => AwaitReady(LogDeadline),
           proc := if reaped then run.proc.(probe := NoProbe)
                   else run.proc.(probe := NoProbe, leaked := true))
    case Retry => run.(pc := AwaitReady(ProbeTop))
  }

  // ---- steps of the child, its descendants, the probe process and the readers ----

  datatype Nature =
    | ChildDies(death: ExitStatus)
    | ProbeDies(death: ExitStatus)
    | PipeWritten(which: Which, line: string)
    | PipeClosed(which: Which)
    | ReaderAtEof(which: Which)
    | ReaderBroke(which: Which)

  function PipeOf(io: Io, which: Which): Pipe {
    match which case Stdout => io.out case Stderr => io.err
  }

  function WithPipe(io: Io, which: Which, p: Pipe): Io {
    match which case Stdout => io.(out := p) case Stderr => io.(err := p)
  }

  predicate CanNature(run: Run, ev: Nature) {
    match ev
    case ChildDies(_) => run.proc.child.Alive?
    case ProbeDies(_) => run.proc.probe.ProbeAlive?
    case PipeWritten(which, _) => PipeOf(run.io, which).open
    case PipeClosed(which) => PipeOf(run.io, which).open
    case ReaderAtEof(which) =>
      var p := PipeOf(run.io, which);
      p.reader.Reading? && !p.open && p.read == |p.written|
    case ReaderBroke(which) => PipeOf(run.io, which).reader.Reading?
  }

  function Natured(run: Run, ev: Nature): Run
    requires CanNature(run, ev)
  {
    match ev
    case ChildDies(death) => run.(proc := run.proc.(child := Exited(death)))
    case ProbeDies(death) => run.(proc := run.proc.(probe := ProbeExited(death)))
    case PipeWritten(which, line) =>
      var p := PipeOf(run.io, which);
      run.(io := WithPipe(run.io, which, p.(written := p.written + [line])))
    case PipeClosed(which) => run.(io := WithPipe(run.io, which, PipeOf(run.io, which).(open := false)))
    case ReaderAtEof(which) => run.(io := WithPipe(run.io, which, PipeOf(run.io, which).(reader := AtEof)))
    case ReaderBroke(which) => run.(io := WithPipe(run.io, which, PipeOf(run.io, which).(reader := Broken)))
  }

  // ---- what every step of a run keeps ----

  ghost predicate PipeOk(p: Pipe) {
    && p.read <= |p.written|
    && (p.reader.Idle? ==> p.read == 0)
    && (p.reader.AtEof? ==> !p.open && p.read == |p.written|)
  }

  /** Readiness was really observed: the bound has passed, or the last completed probe exited 0. */
  ghost predicate ReadyObserved(run: Run, now: nat) {
    match run.spec.readiness
    case AliveAfter(bound) => run.armed + bound <= now
    case Command =>
      |run.proc.probeExits| > 0 && run.proc.probeExits[|run.proc.probeExits| - 1].Success()
  }

  ghost predicate ProcOk(pc: PC, proc: Proc) {
    && (pc.Launch? ==> proc.child.Unborn?)
    && (pc.BeforeEnd() && !pc.Launch? && !pc.ReapedByProbe() ==> proc.child.Alive? || proc.child.Exited?)
    && (pc.Terminate? ==> proc.child.Alive? || proc.child.Exited?)
    && (pc.ReapedByProbe() ==> proc.faulty || proc.child.Reaped?)
    && (pc.PastChild() ==> proc.faulty || proc.child.Unborn? || proc.child.Reaped?)
    && (pc.ProbeInFlight() <==> !proc.probe.NoProbe?)
    && (proc.faulty ==> !proc.child.Reaped? && (pc.ReapedByProbe() || pc.PastChild()))
  }

  ghost predicate IoOk(pc: PC, child: Child, io: Io) {
    && PipeOk(io.out) && PipeOk(io.err)
    && (child.Unborn? ==> io.out == EMPTY_PIPE && io.err == EMPTY_PIPE)
    && (pc.Launch? ==> io.spawnErr == [])
    && (!child.Unborn? ==> io.spawnErr == [])
    && (pc.Setup? ==> io.out.reader.Idle? && io.err.reader.Idle?)
    && (io.late ==> pc.PastDrain())
    && (pc.PastDrain() && !io.late ==> !io.out.reader.Reading? && !io.err.reader.Reading?)
  }

  /** One line, marked as the probe's. */
  predicate IsDetail(extra: seq<string>) {
    |extra| == 1 && "probe: " <= extra[0]
  }

  ghost predicate ReadinessOk(run: Run, now: nat) {
    && (run.pc == AwaitReady(AliveRace) ==> run.spec.readiness.AliveAfter?)
    && (run.pc.Setup? ==> run.proc.born <= now)
    && (run.pc.AwaitReady? || run.up ==> run.proc.born <= run.armed)
    && (run.pc.Probing() ==> run.spec.readiness.Command?)
    && (run.pc.BeforeEnd() ==> run.up == run.pc.Serve? && run.extra == [])
    && (run.up || run.pc == AwaitReady(LogReady) || run.pc == AwaitReady(WriteRunning) ==> ReadyObserved(run, now))
    && (run.pc.Terminate? ==>
          match run.pc.fin
          case Plain => run.up && run.extra == []
          case NeverReady => !run.up && run.spec.readiness.Command? && IsDetail(run.extra))
  }

  ghost predicate CtlOk(pc: PC, ctl: Ctl) {
    && (ctl.queued ==> ctl.accepted.Some?)
    && (ctl.delivered ==> ctl.accepted.Some?)
    && (ctl.delivered && pc.BeforeEnd() ==> ctl.queued)
    && (ctl.early ==> ctl.accepted.Some?)
    && (pc.BeforeVerdict() ==> (ctl.accepted.Some? <==> ctl.early))
  }

  /** What is known about a run that has stopped waiting for its child. */
  ghost predicate EndOk(run: Run, fin: Finish, status: Option<ExitStatus>) {
    && (run.proc.child.Unborn? ==> status.None? && fin.Plain? && !run.up)
    && (status.Some? ==> run.proc.child == Reaped(status.value))
    && (status.None? ==> run.proc.faulty || run.proc.child.Unborn?)
    && (fin.NeverReady? ==> run.spec.readiness.Command? && !run.up)
    && (fin.Plain? && !run.up && !run.proc.child.Unborn? ==> run.spec.readiness.AliveAfter?)
    && (fin.Plain? ==> run.extra == [])
    && (run.extra == [] || IsDetail(run.extra))
  }

  ghost predicate VerdictOk(run: Run) {
    match run.pc
    case Drain(fin, status) => run.verdict.None? && EndOk(run, fin, status)
    case Snapshot(fin, status) => run.verdict.None? && EndOk(run, fin, status)
    case Judge(fin, status, _) => run.verdict.None? && EndOk(run, fin, status)
    case Close(_, state) =>
      run.verdict.Some? &&
      var j := run.verdict.value;
      && EndOk(run, j.fin, j.status)
      && state == Verdict(j.fin, j.flag, j.status, j.tail)
      && j.flag == run.ctl.early
    case AwaitReady(at) =>
      run.verdict.None? &&
      (run.pc.ReapedByProbe() && at.cause.status.Some? ==> run.proc.child == Reaped(at.cause.status.value)) &&
      (run.pc.ReapedByProbe() ==> !run.proc.child.Unborn? && (at.cause.status.None? ==> run.proc.faulty))
    case _ => run.verdict.None?
  }

  /** A child is asked once, for a stop or for a probe that ran out of time, and killed only when its grace is over. */
  ghost predicate StopOk(run: Run, now: nat) {
    && (run.pc.BeforeEnd() ==> run.proc.asked.None? && !run.proc.killed)
    && (run.pc.Terminate? ==>
          && (run.proc.asked.None? <==> run.pc.term.AskChild?)
          && (run.pc.term.LogKill? || run.pc.term.KillChild? ==> GraceOver(run, now))
          && (run.proc.killed <==> run.pc.term.WaitKilled?)
          && (run.pc.fin.Plain? ==> run.ctl.accepted.Some?))
    && (run.proc.killed ==> GraceOver(run, now))
    && (run.proc.asked.Some? ==> run.ctl.accepted.Some? || (run.spec.readiness.Command? && !run.up))
  }

  predicate GraceOver(run: Run, now: nat) {
    run.proc.asked.Some? && run.proc.asked.value + run.spec.grace <= now
  }

  ghost predicate RunOk(run: Run, now: nat) {
    && ProcOk(run.pc, run.proc) && IoOk(run.pc, run.proc.child, run.io) && ReadinessOk(run, now)
    && CtlOk(run.pc, run.ctl) && VerdictOk(run) && StopOk(run, now)
  }

  lemma NewRunOk(id: Id, flag: nat, spec: Spec, now: nat)
    ensures RunOk(NewRun(id, flag, spec), now)
  {
  }

  lemma TaskKeepsProc(run: Run, mv: TaskMove, now: nat)
    requires RunOk(run, now) && CanTask(run, mv, now)
    ensures ProcOk(Tasked(run, mv, now).pc, Tasked(run, mv, now).proc)
  {
  }

  lemma TaskKeepsResources(run: Run, mv: TaskMove, now: nat)
    requires RunOk(run, now) && CanTask(run, mv, now)
    ensures var x := Tasked(run, mv, now);
            ProcOk(x.pc, x.proc) && IoOk(x.pc, x.proc.child, x.io) && CtlOk(x.pc, x.ctl)
  {
    TaskKeepsProc(run, mv, now);
  }

  lemma TaskKeepsReadiness(run: Run, mv: TaskMove, now: nat)
    requires ProcOk(run.pc, run.proc) && ReadinessOk(run, now) && CanTask(run, mv, now)
    ensures ReadinessOk(Tasked(run, mv, now), now)
  {
  }

  lemma TaskKeepsVerdict(run: Run, mv: TaskMove, now: nat)
    requires RunOk(run, now) && CanTask(run, mv, now)
    ensures VerdictOk(Tasked(run, mv, now))
  {
  }

  lemma TaskKeepsOutcome(run: Run, mv: TaskMove, now: nat)
    requires RunOk(run, now) && CanTask(run, mv, now)
    ensures var x := Tasked(run, mv, now);
            ReadinessOk(x, now) && VerdictOk(x)
  {
    TaskKeepsReadiness(run, mv, now);
    TaskKeepsVerdict(run, mv, now);
  }

  lemma TaskKeepsStop(run: Run, mv: TaskMove, now: nat)
    requires RunOk(run, now) && CanTask(run, mv, now)
    ensures StopOk(Tasked(run, mv, now), now)
  {
  }

  lemma TaskKeepsRunOk(run: Run, mv: TaskMove, now: nat)
    requires RunOk(run, now) && CanTask(run, mv, now)
    ensures RunOk(Tasked(run, mv, now), now)
  {
    TaskKeepsResources(run, mv, now);
    TaskKeepsOutcome(run, mv, now);
    TaskKeepsStop(run, mv, now);
  }

  lemma ProbeKeepsResources(run: Run, mv: ProbeMove, now: nat)
    requires RunOk(run, now) && CanProbe(run, mv)
    ensures var x := Probed(run, mv);
            ProcOk(x.pc, x.proc) && IoOk(x.pc, x.proc.child, x.io) && CtlOk(x.pc, x.ctl)
  {
  }

  lemma ProbeKeepsRunOk(run: Run, mv: ProbeMove, now: nat)
    requires RunOk(run, now) && CanProbe(run, mv)
    ensures RunOk(Probed(run, mv), now)
  {
    ProbeKeepsResources(run, mv, now);
  }

  lemma NatureKeepsIo(run: Run, ev: Nature, now: nat)
    requires RunOk(run, now) && CanNature(run, ev)
    ensures var x := Natured(run, ev); IoOk(x.pc, x.proc.child, x.io)
  {
  }

  lemma NatureKeepsOutcome(run: Run, ev: Nature, now: nat)
    requires RunOk(run, now) && CanNature(run, ev)
    ensures ReadinessOk(Natured(run, ev), now) && VerdictOk(Natured(run, ev))
  {
  }

  lemma NatureKeepsRunOk(run: Run, ev: Nature, now: nat)
    requires RunOk(run, now) && CanNature(run, ev)
    ensures RunOk(Natured(run, ev), now)
  {
    NatureKeepsIo(run, ev, now);
    NatureKeepsOutcome(run, ev, now);
  }
}
