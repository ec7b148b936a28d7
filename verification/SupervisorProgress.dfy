/** No run is ever stuck: from every reachable state each run can be brought to its end (`service_task.rs`). */
module SupervisorProgress {
  import opened Prelude
  import opened Events
  import opened Classify
  import opened ServiceTask
  import opened SupervisorCore
  import opened SupervisorSystem
  import opened SupervisorInvariant
  import opened SupervisorTheorems

  // ---- a way to the end ----

  /** The task waits for its child here. */
  predicate AwaitsChild(pc: PC) {
    || pc == AwaitReady(AliveRace) || pc == AwaitReady(ProbeSleep) || pc == Serve(RunLoop)
    || (pc.Terminate? && (pc.term.GraceWait? || pc.term.WaitKilled?))
  }

  /** A number that falls along the way chosen by `StepOn`. */
  function Left(pc: PC): nat {
    match pc
    case Launch(at) =>
      (match at case EmitStarting => 40 case LogRequested => 39 case SpawnChild => 38 case LogSpawnFailed => 14)
    case Setup(at) =>
      (match at case SetPid => 37 case RecordPid => 36 case LogSpawned => 35 case TakePipes => 34)
    case AwaitReady(at) =>
      (match at
       case LogNotReady => 33 case ProbeSleep => 32 case LogReady => 31 case WriteRunning => 30 case AliveRace => 30
       case ProbeTop => 27 case ProbeRace => 27 case LogDeadline => 25
       case ProbeKill(cause) => if cause.ChildGone? then 14 else 26)
    case Serve(at) => if at.EmitRunning? then 29 else 28
    case Terminate(at, _) =>
      (match at case AskChild => 24 case GraceWait => 23 case LogKill => 22 case KillChild => 21 case WaitKilled => 20)
    case Drain(_, _) => 13
    case Snapshot(_, _) => 12
    case Judge(_, _, _) => 11
    case Close(at, _) =>
      (match at
       case LogTerminal => 10 case RemoveRecord => 9 case WriteTerminal => 8 case EmitTerminal => 7 case Done => 0)
  }

  function Distance(run: Run): nat {
    3 * Left(run.pc) + (if run.proc.child.Alive? then 1 else 0) + (if run.proc.probe.ProbeAlive? then 1 else 0)
  }

  predicate AtEnd(pc: PC) {
    pc.Close? && pc.close.Done?
  }

  /** What the task itself does next: nothing fails, a probe is cut off by its deadline, and the child is waited for. */
  function TaskStepOn(run: Run, r: nat): Act
    requires !AtEnd(run.pc)
  {
    var text := "";
    match run.pc
    case Launch(at) => if at.EmitStarting? then EventSent(r) else if at.SpawnChild? then Task(r, SpawnOk) else LinePushed(r, text)
    case Setup(at) =>
      (match at
       case SetPid => PidStored(r)
       case RecordPid => PidRecorded(r, Written)
       case LogSpawned => LinePushed(r, text)
       case TakePipes => Task(r, PipesTaken(true, true)))
    case AwaitReady(at) =>
      (match at
       case AliveRace => Task(r, ChildWaited(StatusOf(run.proc.child)))
       case ProbeSleep => Task(r, ChildWaited(StatusOf(run.proc.child)))
       case ProbeTop => Probe(r, DeadlineBetween)
       case ProbeRace => Probe(r, DeadlineInFlight)
       case ProbeKill(_) => Probe(r, Killed(true))
       case WriteRunning => RunningWritten(r)
       case _ => LinePushed(r, text))
    case Serve(at) => if at.EmitRunning? then EventSent(r) else Task(r, ChildWaited(StatusOf(run.proc.child)))
    case Terminate(at, _) =>
      (match at
       case AskChild => Task(r, GracefulStopAsked)
       case LogKill => LinePushed(r, text)
       case KillChild => Task(r, KillSent)
       case _ => Task(r, ChildWaited(StatusOf(run.proc.child))))
    case Drain(_, _) =>
      Task(r, if run.io.out.reader.Reading? || run.io.err.reader.Reading? then DrainTimedOut else ReadersDrained)
    case Snapshot(_, _) => TailTaken(r)
    case Judge(_, _, _) => Judged(r)
    case Close(at, _) =>
      (match at
       case LogTerminal => LinePushed(r, text)
       case RemoveRecord => RecordRemoved(r, true)
       case WriteTerminal => TerminalWritten(r)
       case _ => EventSent(r))
  }

  function StatusOf(child: Child): Option<ExitStatus> {
    if child.Exited? then Some(child.status) else None
  }

  /** The next step: a process the task is about to wait for dies first. */
  function StepOn(run: Run, r: nat): Act
    requires !AtEnd(run.pc)
  {
    if run.proc.probe.ProbeAlive? then Nature(r, ProbeDies(Signal))
    else if AwaitsChild(run.pc) && run.proc.child.Alive? then Nature(r, ChildDies(Code(0)))
    else TaskStepOn(run, r)
  }

  /** `x` is `run` after a step that brought it nearer to its end and in which nothing failed. */
  predicate NearerRun(run: Run, x: Run) {
    && x.id == run.id && x.proc.faulty == run.proc.faulty && x.proc.leaked == run.proc.leaked
    && Distance(x) < Distance(run)
  }

  /** Only run `r` moved, it got nearer to its end, and nothing failed. */
  ghost predicate Nearer(s: Sys, s': Sys, r: nat) {
    && r < |s.runs| == |s'.runs| && s'.runs == s.runs[r := s'.runs[r]]
    && NearerRun(s.runs[r], s'.runs[r]) && s'.badRegistry <= s.badRegistry
  }

  lemma DeathIsNearer(s: Sys, r: nat)
    requires Inv(s) && r < |s.runs| && !AtEnd(s.runs[r].pc) && StepOn(s.runs[r], r).Nature?
    ensures var a := StepOn(s.runs[r], r); Can(s, a) && Nearer(s, Do(s, a), r)
  {
  }

  lemma WaitIsNearer(run: Run, now: nat)
    requires ProcOk(run.pc, run.proc) && AwaitsChild(run.pc) && !run.proc.child.Alive?
    ensures var mv := ChildWaited(StatusOf(run.proc.child)); CanTask(run, mv, now) && NearerRun(run, Tasked(run, mv, now))
  {
  }

  lemma OtherMoveIsNearer(run: Run, r: nat, now: nat)
    requires !AtEnd(run.pc) && StepOn(run, r).Task? && !AwaitsChild(run.pc)
    ensures var mv := StepOn(run, r).mv; CanTask(run, mv, now) && NearerRun(run, Tasked(run, mv, now))
  {
  }

  lemma TaskMoveIsNearer(run: Run, r: nat, now: nat)
    requires ProcOk(run.pc, run.proc) && !AtEnd(run.pc) && StepOn(run, r).Task?
    ensures var mv := StepOn(run, r).mv; CanTask(run, mv, now) && NearerRun(run, Tasked(run, mv, now))
  {
    if AwaitsChild(run.pc) {
      WaitIsNearer(run, now);
    } else {
      OtherMoveIsNearer(run, r, now);
    }
  }

  lemma ProbeMoveIsNearer(run: Run, r: nat, now: nat)
    requires ProcOk(run.pc, run.proc) && !AtEnd(run.pc) && StepOn(run, r).Probe?
    ensures var mv := StepOn(run, r).pmv;
            && CanProbe(run, mv)
            && NearerRun(run, Probed(run, mv))
  {
  }

  lemma LogIsNearer(run: Run, r: nat, text: string)
    requires !AtEnd(run.pc) && StepOn(run, r).LinePushed?
    ensures AtLogPoint(run.pc) && NearerRun(run, AfterLog(run, text))
  {
  }

  lemma EmitIsNearer(run: Run, r: nat)
    requires !AtEnd(run.pc) && StepOn(run, r).EventSent?
    ensures AtEmit(run.pc) && NearerRun(run, run.(pc := AfterEmit(run.pc)))
  {
  }

  lemma PushIsNearer(s: Sys, r: nat)
    requires Inv(s) && r < |s.runs| && !AtEnd(s.runs[r].pc)
    requires var a := StepOn(s.runs[r], r); a.LinePushed? || a.EventSent?
    ensures var a := StepOn(s.runs[r], r); Can(s, a) && Nearer(s, Do(s, a), r)
  {
    var a := StepOn(s.runs[r], r);
    if a.LinePushed? {
      LogIsNearer(s.runs[r], r, a.text);
      assert a.r == r;
      assert Do(s, a).runs == s.runs[r := AfterLog(s.runs[r], a.text)];
    } else {
      EmitIsNearer(s.runs[r], r);
      assert a == EventSent(r);
    }
  }

  lemma RecordIsNearer(s: Sys, r: nat)
    requires r < |s.runs| && !AtEnd(s.runs[r].pc)
    requires var a := StepOn(s.runs[r], r); a.PidRecorded? || a.RecordRemoved?
    ensures var a := StepOn(s.runs[r], r); Can(s, a) && Nearer(s, Do(s, a), r)
  {
  }

  /** All that is needed of the invariant. */
  lemma ProcAndFlag(s: Sys, r: nat)
    requires Inv(s) && r < |s.runs|
    ensures ProcOk(s.runs[r].pc, s.runs[r].proc) && (s.runs[r].pc.InFlight() ==> s.runs[r].flag < |s.t.flags|)
  {
    assert RunInv(s, r);
  }

  lemma TailIsNearer(s: Sys, r: nat)
    requires r < |s.runs| && s.runs[r].pc.Snapshot?
    ensures Can(s, TailTaken(r)) && Nearer(s, Do(s, TailTaken(r)), r)
  {
  }

  lemma JudgedIsNearer(s: Sys, r: nat)
    requires r < |s.runs| && s.runs[r].pc.Judge? && s.runs[r].flag < |s.t.flags|
    ensures Can(s, Judged(r)) && Nearer(s, Do(s, Judged(r)), r)
  {
  }

  lemma VerdictIsNearer(s: Sys, r: nat)
    requires Inv(s) && r < |s.runs| && (s.runs[r].pc.Snapshot? || s.runs[r].pc.Judge?)
    requires var a := StepOn(s.runs[r], r); a.TailTaken? || a.Judged?
    ensures var a := StepOn(s.runs[r], r); Can(s, a) && Nearer(s, Do(s, a), r)
  {
    if s.runs[r].pc.Snapshot? {
      TailIsNearer(s, r);
    } else {
      ProcAndFlag(s, r);
      JudgedIsNearer(s, r);
    }
  }

  lemma WriteIsNearer(s: Sys, r: nat)
    requires Inv(s) && r < |s.runs| && !AtEnd(s.runs[r].pc)
    requires var a := StepOn(s.runs[r], r); a.PidStored? || a.RunningWritten? || a.TerminalWritten?
    ensures var a := StepOn(s.runs[r], r); Can(s, a) && Nearer(s, Do(s, a), r)
  {
  }

  lemma MoveIsNearer(s: Sys, r: nat)
    requires r < |s.runs| && ProcOk(s.runs[r].pc, s.runs[r].proc) && !AtEnd(s.runs[r].pc)
    requires var a := StepOn(s.runs[r], r); a.Task? || a.Probe?
    ensures var a := StepOn(s.runs[r], r); Can(s, a) && Nearer(s, Do(s, a), r)
  {
    var a := StepOn(s.runs[r], r);
    assert a.r == r;
    if a.Task? {
      TaskMoveIsNearer(s.runs[r], r, s.now);
      assert Do(s, a).runs == s.runs[r := Tasked(s.runs[r], a.mv, s.now)];
    } else {
      ProbeMoveIsNearer(s.runs[r], r, s.now);
      assert Do(s, a).runs == s.runs[r := Probed(s.runs[r], a.pmv)];
    }
  }

  lemma StepIsNearer(s: Sys, r: nat)
    requires Inv(s) && r < |s.runs| && !AtEnd(s.runs[r].pc)
    ensures var a := StepOn(s.runs[r], r); Can(s, a) && Nearer(s, Do(s, a), r)
  {
    ProcAndFlag(s, r);
    match StepOn(s.runs[r], r)
    case Nature(_, _) => DeathIsNearer(s, r);
    case Task(_, _) => MoveIsNearer(s, r);
    case Probe(_, _) => MoveIsNearer(s, r);
    case LinePushed(_, _) => PushIsNearer(s, r);
    case EventSent(_) => PushIsNearer(s, r);
    case PidStored(_) => WriteIsNearer(s, r);
    case RunningWritten(_) => WriteIsNearer(s, r);
    case TerminalWritten(_) => WriteIsNearer(s, r);
    case PidRecorded(_, _) => RecordIsNearer(s, r);
    case RecordRemoved(_, _) => RecordIsNearer(s, r);
    case _ => VerdictIsNearer(s, r);
  }

  /** Run `r` has ended, by itself: no other run moved, and no wait and no registry call failed on the way. */
  ghost predicate Ended(s: Sys, t: Sys, r: nat) {
    && r < |s.runs| == |t.runs| && AtEnd(t.runs[r].pc) && t.runs[r].id == s.runs[r].id
    && (forall q :: 0 <= q < |s.runs| && q != r ==> t.runs[q] == s.runs[q])
    && t.runs[r].proc.faulty == s.runs[r].proc.faulty && t.runs[r].proc.leaked == s.runs[r].proc.leaked
    && t.badRegistry <= s.badRegistry
  }

  lemma {:induction false} CanEnd(s: Sys, r: nat) returns (more: seq<Act>, t: Sys)
    requires Inv(s) && r < |s.runs|
    ensures ExecFrom(s, more) == Some(t) && Ended(s, t, r)
    decreases Distance(s.runs[r])
  {
    assert ExecFrom(s, []) == Some(s);
    more, t := [], s;
    if !AtEnd(s.runs[r].pc) {
      var a := StepOn(s.runs[r], r);
      StepIsNearer(s, r);
      KeepsStep(s, a);
      var first, m := Extend(s, [], s, a);
      var rest;
      rest, t := CanEnd(m, r);
      ExecConcat(s, first, m, rest);
      more := first + rest;
    }
  }

  /**
   * Whatever has happened, a run can still end, without help from any other run and without a failure: no state of the
   * task is a dead end. When the run was in flight its id is idle then, and can be started again.
   */
  lemma EveryRunCanEnd(acts: seq<Act>, s: Sys, r: nat) returns (more: seq<Act>, t: Sys)
    requires Reached(acts, s) && r < |s.runs|
    ensures ExecFrom(s, more) == Some(t) && Ended(s, t, r)
    ensures s.runs[r].pc.InFlight() ==> !t.t.Live(s.runs[r].id)
  {
    Always(acts, s);
    more, t := CanEnd(s, r);
    if s.runs[r].pc.InFlight() {
      var id := s.runs[r].id;
      ReachedOn(acts, s, more, t);
      OneRunPerId(acts + more, t, id);
      if t.t.Live(id) {
        var q: nat :| FlightOf(t, q, id);
        InFlightUnique(s, q, r);
      }
    }
  }

  // ---- one more step of a run, as a function of the run ----

  lemma TaskStep(s: Sys, more: seq<Act>, m: Sys, r: nat, mv: TaskMove) returns (longer: seq<Act>, t: Sys)
    requires ExecFrom(s, more) == Some(m) && r < |m.runs| && CanTask(m.runs[r], mv, m.now)
    ensures ExecFrom(s, longer) == Some(t) && t == WithRun(m, r, Tasked(m.runs[r], mv, m.now))
  {
    longer, t := Extend(s, more, m, Task(r, mv));
  }

  lemma ProbeStep(s: Sys, more: seq<Act>, m: Sys, r: nat, mv: ProbeMove) returns (longer: seq<Act>, t: Sys)
    requires ExecFrom(s, more) == Some(m) && r < |m.runs| && CanProbe(m.runs[r], mv)
    ensures ExecFrom(s, longer) == Some(t) && t == WithRun(m, r, Probed(m.runs[r], mv))
  {
    longer, t := Extend(s, more, m, Probe(r, mv));
  }

  lemma NatureStep(s: Sys, more: seq<Act>, m: Sys, r: nat, ev: Nature) returns (longer: seq<Act>, t: Sys)
    requires ExecFrom(s, more) == Some(m) && r < |m.runs| && CanNature(m.runs[r], ev)
    ensures ExecFrom(s, longer) == Some(t) && t == WithRun(m, r, Natured(m.runs[r], ev))
  {
    longer, t := Extend(s, more, m, Nature(r, ev));
  }

  lemma LogStep(s: Sys, more: seq<Act>, m: Sys, r: nat, text: string) returns (longer: seq<Act>, t: Sys)
    requires ExecFrom(s, more) == Some(m) && r < |m.runs| && AtLogPoint(m.runs[r].pc)
    ensures ExecFrom(s, longer) == Some(t) && t.runs == m.runs[r := AfterLog(m.runs[r], text)]
  {
    longer, t := Extend(s, more, m, LinePushed(r, text));
  }

  // ---- a service gets ready, after however many attempts ----

  /** Run `r` is about to make an attempt, or to serve. */
  ghost predicate ProbeAt(s: Sys, r: nat, pc: PC, exits: seq<ExitStatus>) {
    r < |s.runs| && s.runs[r].pc == pc && s.runs[r].proc.probeExits == exits
  }

  /** An attempt whose probe process ends with `status`, up to the line that reports it. */
  lemma Attempted(s: Sys, r: nat, status: ExitStatus) returns (more: seq<Act>, t: Sys)
    requires r < |s.runs| && s.runs[r].pc == AwaitReady(ProbeTop)
    ensures ExecFrom(s, more) == Some(t)
    ensures ProbeAt(t, r, AwaitReady(if status == Code(0) then LogReady else LogNotReady), s.runs[r].proc.probeExits + [status])
  {
    assert ExecFrom(s, []) == Some(s);
    var m1, m2;
    more, m1 := ProbeStep(s, [], s, r, Spawned);
    assert ProbeAt(m1, r, AwaitReady(ProbeRace), s.runs[r].proc.probeExits) && m1.runs[r].proc.probe.ProbeAlive?;
    more, m2 := NatureStep(s, more, m1, r, ProbeDies(status));
    assert ProbeAt(m2, r, AwaitReady(ProbeRace), s.runs[r].proc.probeExits);
    assert m2.runs[r].proc.probe == ProbeExited(status);
    more, t := ProbeStep(s, more, m2, r, Waited(Some(status)));
  }

  lemma TriedAgain(s: Sys, r: nat, status: ExitStatus) returns (more: seq<Act>, t: Sys)
    requires r < |s.runs| && s.runs[r].pc == AwaitReady(ProbeTop) && status != Code(0)
    ensures ExecFrom(s, more) == Some(t)
    ensures ProbeAt(t, r, AwaitReady(ProbeTop), s.runs[r].proc.probeExits + [status])
  {
    var m1, m2;
    more, m1 := Attempted(s, r, status);
    more, m2 := LogStep(s, more, m1, r, "readiness probe not ready");
    assert ProbeAt(m2, r, AwaitReady(ProbeSleep), s.runs[r].proc.probeExits + [status]);
    more, t := ProbeStep(s, more, m2, r, Retry);
  }

  /** A run that is ready says so and serves. */
  lemma Served(s: Sys, more: seq<Act>, m: Sys, r: nat) returns (longer: seq<Act>, t: Sys)
    requires ExecFrom(s, more) == Some(m) && r < |m.runs| && m.runs[r].pc == AwaitReady(LogReady)
    ensures ExecFrom(s, longer) == Some(t)
    ensures ProbeAt(t, r, Serve(RunLoop), m.runs[r].proc.probeExits) && t.runs[r].up
  {
    var exits := m.runs[r].proc.probeExits;
    var m1, m2;
    longer, m1 := LogStep(s, more, m, r, "state Starting → Running");
    assert ProbeAt(m1, r, AwaitReady(WriteRunning), exits);
    longer, m2 := Extend(s, longer, m1, RunningWritten(r));
    assert ProbeAt(m2, r, Serve(EmitRunning), exits) && m2.runs[r].up;
    longer, t := Extend(s, longer, m2, EventSent(r));
  }

  /** Any number of failed attempts, of any outcomes, followed by one that exits with 0, makes the service Running. */
  lemma {:induction false} ReadyAfterAttempts(s: Sys, r: nat, failures: seq<ExitStatus>)
    returns (more: seq<Act>, t: Sys)
    requires r < |s.runs| && s.runs[r].pc == AwaitReady(ProbeTop)
    requires forall i :: 0 <= i < |failures| ==> failures[i] != Code(0)
    ensures ExecFrom(s, more) == Some(t)
    ensures ProbeAt(t, r, Serve(RunLoop), s.runs[r].proc.probeExits + failures + [Code(0)]) && t.runs[r].up
    decreases |failures|
  {
    if |failures| == 0 {
      var m;
      more, m := Attempted(s, r, Code(0));
      more, t := Served(s, more, m, r);
      assert s.runs[r].proc.probeExits + failures == s.runs[r].proc.probeExits;
    } else {
      var first, m := TriedAgain(s, r, failures[0]);
      var rest;
      rest, t := ReadyAfterAttempts(m, r, failures[1..]);
      ExecConcat(s, first, m, rest);
      more := first + rest;
      assert s.runs[r].proc.probeExits + [failures[0]] + failures[1..] == s.runs[r].proc.probeExits + failures;
    }
  }

  /** A service that has only to stay alive for its bound is Running once it has. */
  lemma ReadyAfterBound(s: Sys, r: nat) returns (more: seq<Act>, t: Sys)
    requires r < |s.runs| && s.runs[r].pc == AwaitReady(AliveRace) && s.runs[r].spec.readiness.AliveAfter?
    ensures ExecFrom(s, more) == Some(t)
    ensures ProbeAt(t, r, Serve(RunLoop), s.runs[r].proc.probeExits) && t.runs[r].up
  {
    assert ExecFrom(s, []) == Some(s);
    var m1, m2;
    more, m1 := Extend(s, [], s, Tick(s.runs[r].armed + s.runs[r].spec.readiness.bound));
    assert m1.runs == s.runs;
    more, m2 := TaskStep(s, more, m1, r, BoundElapsed);
    more, t := Served(s, more, m2, r);
  }

  // ---- a stop is carried out, by force if need be ----

  ghost predicate EndingAt(s: Sys, r: nat, pc: PC, proc: Proc) {
    r < |s.runs| && s.runs[r].pc == pc && s.runs[r].proc == proc
  }

  lemma AskedInVain(s: Sys, r: nat) returns (more: seq<Act>, t: Sys)
    requires r < |s.runs| && s.runs[r].pc == Serve(RunLoop) && s.runs[r].ctl.queued
    ensures ExecFrom(s, more) == Some(t)
    ensures EndingAt(t, r, Terminate(LogKill, Plain), s.runs[r].proc.(asked := Some(s.now)))
  {
    assert ExecFrom(s, []) == Some(s);
    var m1, m2, m3;
    var proc := s.runs[r].proc;
    more, m1 := TaskStep(s, [], s, r, StopReceived);
    assert EndingAt(m1, r, Terminate(AskChild, Plain), proc) && m1.now == s.now;
    more, m2 := TaskStep(s, more, m1, r, GracefulStopAsked);
    assert EndingAt(m2, r, Terminate(GraceWait, Plain), proc.(asked := Some(s.now))) && m2.now == s.now;
    more, m3 := Extend(s, more, m2, Tick(m2.runs[r].spec.grace));
    assert EndingAt(m3, r, Terminate(GraceWait, Plain), proc.(asked := Some(s.now)));
    more, t := TaskStep(s, more, m3, r, GraceElapsed);
  }

  lemma KilledAndReaped(s: Sys, r: nat) returns (more: seq<Act>, t: Sys)
    requires r < |s.runs| && s.runs[r].pc == Terminate(LogKill, Plain) && s.runs[r].proc.child.Alive?
    ensures ExecFrom(s, more) == Some(t)
    ensures EndingAt(t, r, Drain(Plain, Some(Signal)), s.runs[r].proc.(killed := true, child := Reaped(Signal)))
  {
    assert ExecFrom(s, []) == Some(s);
    var m1, m2, m3;
    more, m1 := LogStep(s, [], s, r, "grace deadline passed — killing");
    assert EndingAt(m1, r, Terminate(KillChild, Plain), s.runs[r].proc);
    more, m2 := TaskStep(s, more, m1, r, KillSent);
    assert EndingAt(m2, r, Terminate(WaitKilled, Plain), s.runs[r].proc.(killed := true));
    more, m3 := NatureStep(s, more, m2, r, ChildDies(Signal));
    assert EndingAt(m3, r, Terminate(WaitKilled, Plain), s.runs[r].proc.(killed := true, child := Exited(Signal)));
    more, t := TaskStep(s, more, m3, r, ChildWaited(Some(Signal)));
  }

  /** A running service that has a stop to read and ignores the request is killed after its grace and ends Stopped. */
  lemma StubbornChildIsKilled(acts: seq<Act>, s: Sys, r: nat) returns (first: seq<Act>, m: Sys, more: seq<Act>, t: Sys)
    requires Reached(acts, s) && r < |s.runs| && s.runs[r].pc == Serve(RunLoop)
    requires s.runs[r].ctl.queued && s.runs[r].proc.child.Alive?
    ensures ExecFrom(s, first) == Some(m) && r < |m.runs| && m.runs[r].proc.killed && m.runs[r].proc.child == Reaped(Signal)
    ensures ExecFrom(m, more) == Some(t) && r < |t.runs| && t.runs[r].pc == Close(Done, Stopped)
  {
    var a, s1 := AskedInVain(s, r);
    var b;
    b, m := KilledAndReaped(s1, r);
    ExecConcat(s, a, s1, b);
    first := a + b;
    ReachedOn(acts, s, first, m);
    more, t := EveryRunCanEnd(acts + first, m, r);
    ExecConcat(s, first, m, more);
    Always(acts, s);
    assert RunInv(s, r);
    AcceptedStopForcesStopped(acts, s, first + more, t, r);
  }
}
