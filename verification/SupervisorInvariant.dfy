/** What every step of the whole supervisor keeps. */
module SupervisorInvariant {
  import opened Prelude
  import opened Events
  import opened ServiceTask
  import opened SupervisorCore
  import opened SupervisorSystem

  /** The pid the entry shows while the run is in flight. */
  ghost predicate PidKnown(run: Run) {
    !run.pc.Launch? && run.pc != Setup(SetPid) && !run.proc.child.Unborn?
  }

  /** The orphan registry, seen from an in-flight run whose last registry call succeeded. */
  ghost predicate RecordLinked(s: Sys, r: nat)
    requires r < |s.runs|
  {
    var run := s.runs[r];
    && (run.id in s.records ==> s.records[run.id] == r && run.pc.Recorded() && !run.proc.child.Unborn?)
    && (run.pc.Recorded() && run.proc.child.Alive? ==> run.id in s.records)
  }

  /** An in-flight run and the entry of its id describe each other. */
  ghost predicate Linked(s: Sys, r: nat)
    requires r < |s.runs|
  {
    var run := s.runs[r];
    run.id in s.t.entries &&
    var e := s.t.entries[run.id];
    && e.control == Some(r)
    && e.state == (if run.up then Running else Starting)
    && e.flag == run.flag && run.flag < |s.t.flags|
    && s.t.flags[run.flag].raised == run.ctl.accepted.Some?
    && e.pid == (if PidKnown(run) then Some(r) else None)
    && (run.id !in s.badRegistry ==> RecordLinked(s, r))
  }

  /** The stop call that was accepted first during the run is known, and once it has sent, the run was delivered to. */
  ghost predicate AcceptedOk(s: Sys, r: nat)
    requires r < |s.runs|
  {
    match s.runs[r].ctl.accepted
    case None => true
    case Some(k) =>
      && k < |s.stops| && s.stops[k].chan == Some(r)
      && (s.stops[k].sent ==> s.runs[r].ctl.delivered)
  }

  ghost predicate RunInv(s: Sys, r: nat)
    requires r < |s.runs|
  {
    var run := s.runs[r];
    && RunOk(run, s.now)
    && AcceptedOk(s, r)
    && (run.pc.InFlight() ==> Linked(s, r))
  }

  ghost predicate EntryInv(s: Sys, id: Id)
    requires id in s.t.entries
  {
    var e := s.t.entries[id];
    && EntryShapeOk(s.t, id)
    && (e.state.Live() ==>
          e.control.value < |s.runs| && s.runs[e.control.value].id == id && s.runs[e.control.value].pc.InFlight())
    && (!e.state.Live() && id !in s.badRegistry ==> id !in s.records)
  }

  ghost predicate StopInv(s: Sys, k: nat)
    requires k < |s.stops|
  {
    var call := s.stops[k];
    && call.chan.Some? && call.chan.value < |s.runs|
    && s.runs[call.chan.value].id == call.id
    && s.runs[call.chan.value].ctl.accepted.Some?
    && (call.sent ==> call.logged && s.runs[call.chan.value].ctl.delivered)
  }

  ghost predicate RunsOk(s: Sys) {
    forall r :: 0 <= r < |s.runs| ==> RunInv(s, r)
  }

  ghost predicate Inv(s: Sys) {
    && s.t.nextRun == |s.runs|
    && RunsOk(s)
    && (forall id :: id in s.t.entries ==> EntryInv(s, id))
    && (forall id :: id in s.records && id !in s.badRegistry ==> id in s.t.entries)
    && (forall k :: 0 <= k < |s.stops| ==> StopInv(s, k))
  }

  // ---- the frame: a step of one in-flight run ----

  /** The two states agree on everything but run `r`, the entry and the record of its id. */
  ghost predicate OnlyRun(s: Sys, s': Sys, r: nat)
    requires r < |s.runs|
  {
    var id := s.runs[r].id;
    && |s'.runs| == |s.runs| && s'.runs[r].id == id
    && (forall q :: 0 <= q < |s.runs| && q != r ==> s'.runs[q] == s.runs[q])
    && s'.t.nextRun == s.t.nextRun && s'.t.flags == s.t.flags
    && s'.t.entries.Keys == s.t.entries.Keys
    && (forall i :: i in s.t.entries && i != id ==> s'.t.entries[i] == s.t.entries[i])
    && (forall i :: i != id ==> (i in s'.records <==> i in s.records))
    && (forall i :: i != id && i in s.records ==> s'.records[i] == s.records[i])
    && s'.stops == s.stops && s'.now == s.now
    && (forall i :: i != id ==> (i in s'.badRegistry <==> i in s.badRegistry))
    && s'.runs[r].ctl.accepted == s.runs[r].ctl.accepted
    && s'.runs[r].ctl.delivered == s.runs[r].ctl.delivered
  }

  /** Two in-flight runs never share an id. */
  lemma InFlightUnique(s: Sys, r: nat, q: nat)
    requires Inv(s) && r < |s.runs| && q < |s.runs|
    requires s.runs[r].pc.InFlight() && s.runs[q].pc.InFlight() && s.runs[r].id == s.runs[q].id
    ensures r == q
  {
    assert RunInv(s, r) && RunInv(s, q);
  }

  lemma OtherRuns(s: Sys, s': Sys, r: nat)
    requires Inv(s) && r < |s.runs| && s.runs[r].pc.InFlight() && OnlyRun(s, s', r)
    ensures forall q :: 0 <= q < |s.runs| && q != r ==> RunInv(s', q)
  {
    forall q | 0 <= q < |s.runs| && q != r ensures RunInv(s', q) {
      assert RunInv(s, q);
      if s.runs[q].pc.InFlight() && s.runs[q].id == s.runs[r].id {
        InFlightUnique(s, r, q);
      }
    }
  }

  lemma OtherEntry(s: Sys, s': Sys, r: nat, id: Id)
    requires Inv(s) && r < |s.runs| && OnlyRun(s, s', r)
    requires id in s.t.entries && id != s.runs[r].id
    ensures EntryInv(s', id)
  {
    assert EntryInv(s, id);
  }

  lemma Frame(s: Sys, s': Sys, r: nat)
    requires Inv(s) && r < |s.runs| && s.runs[r].pc.InFlight() && OnlyRun(s, s', r)
    requires RunInv(s', r)
    requires s.runs[r].id in s'.t.entries ==> EntryInv(s', s.runs[r].id)
    requires s.runs[r].id in s'.records && s.runs[r].id !in s'.badRegistry ==> s.runs[r].id in s'.t.entries
    ensures Inv(s')
  {
    OtherRuns(s, s', r);
    forall id | id in s'.t.entries ensures EntryInv(s', id) {
      if id != s.runs[r].id {
        OtherEntry(s, s', r, id);
      }
    }
    forall k | 0 <= k < |s'.stops| ensures StopInv(s', k) {
      assert StopInv(s, k);
    }
  }

  /** A step that changes nothing but one run, in flight or not. */
  lemma FrameLocal(s: Sys, r: nat, x: Run)
    requires Inv(s) && r < |s.runs|
    requires x.id == s.runs[r].id && x.ctl.accepted == s.runs[r].ctl.accepted
    requires x.ctl.delivered == s.runs[r].ctl.delivered
    requires s.runs[r].pc.InFlight() ==> x.pc.InFlight()
    requires RunInv(WithRun(s, r, x), r)
    ensures Inv(WithRun(s, r, x))
  {
    var s' := WithRun(s, r, x);
    forall q | 0 <= q < |s'.runs| ensures RunInv(s', q) {
      assert RunInv(s, q);
    }
    forall id | id in s'.t.entries ensures EntryInv(s', id) {
      assert EntryInv(s, id);
    }
    forall k | 0 <= k < |s'.stops| ensures StopInv(s', k) {
      assert StopInv(s, k);
    }
  }

  // ---- the steps, one by one ----

  /** What a step of the main line leaves alone. */
  lemma TaskEffect(run: Run, mv: TaskMove, now: nat)
    requires RunOk(run, now) && CanTask(run, mv, now)
    ensures var x := Tasked(run, mv, now);
            && x.id == run.id && x.flag == run.flag && x.up == run.up
            && run.pc.InFlight() && x.pc.InFlight() && !x.pc.Judge? && !x.pc.Close?
            && x.ctl.accepted == run.ctl.accepted && x.ctl.delivered == run.ctl.delivered
            && PidKnown(x) == PidKnown(run)
            && (run.pc.Recorded() ==> x.pc.Recorded()) && (x.proc.child.Unborn? ==> run.proc.child.Unborn?)
            && (x.pc.Recorded() && x.proc.child.Alive? ==> run.pc.Recorded() && run.proc.child.Alive?)
  {
  }

  lemma KeepsTask(s: Sys, r: nat, mv: TaskMove)
    requires Inv(s) && r < |s.runs| && CanTask(s.runs[r], mv, s.now)
    ensures Inv(DoTask(s, r, mv))
  {
    assert RunInv(s, r);
    TaskKeepsRunOk(s.runs[r], mv, s.now);
    TaskEffect(s.runs[r], mv, s.now);
    FrameLocal(s, r, Tasked(s.runs[r], mv, s.now));
  }

  lemma ProbeEffect(run: Run, mv: ProbeMove, now: nat)
    requires RunOk(run, now) && CanProbe(run, mv)
    ensures var x := Probed(run, mv);
            && x.id == run.id && x.flag == run.flag && x.up == run.up && x.ctl == run.ctl
            && run.pc.InFlight() && x.pc.InFlight() && !x.pc.Judge? && !x.pc.Close?
            && PidKnown(x) && PidKnown(run)
            && run.pc.Recorded() && x.pc.Recorded() && x.proc.child == run.proc.child
  {
  }

  lemma KeepsProbe(s: Sys, r: nat, mv: ProbeMove)
    requires Inv(s) && r < |s.runs| && CanProbe(s.runs[r], mv)
    ensures Inv(WithRun(s, r, Probed(s.runs[r], mv)))
  {
    assert RunInv(s, r);
    ProbeKeepsRunOk(s.runs[r], mv, s.now);
    ProbeEffect(s.runs[r], mv, s.now);
    FrameLocal(s, r, Probed(s.runs[r], mv));
  }

  lemma NatureEffect(run: Run, ev: Nature, now: nat)
    requires RunOk(run, now) && CanNature(run, ev)
    ensures var x := Natured(run, ev);
            && x.id == run.id && x.flag == run.flag && x.up == run.up && x.ctl == run.ctl && x.pc == run.pc
            && PidKnown(x) == PidKnown(run)
            && (x.proc.child.Alive? ==> run.proc.child.Alive?) && x.proc.child.Unborn? == run.proc.child.Unborn?
  {
  }

  lemma KeepsNature(s: Sys, r: nat, ev: Nature)
    requires Inv(s) && r < |s.runs| && CanNature(s.runs[r], ev)
    ensures Inv(WithRun(s, r, Natured(s.runs[r], ev)))
  {
    assert RunInv(s, r);
    NatureKeepsRunOk(s.runs[r], ev, s.now);
    NatureEffect(s.runs[r], ev, s.now);
    FrameLocal(s, r, Natured(s.runs[r], ev));
  }

  // The program counters that only the shared steps move.

  lemma SetupRunOk(run: Run, at: SetupPoint, now: nat)
    requires RunOk(run, now) && run.pc.Setup?
    ensures RunOk(run.(pc := Setup(at)), now)
  {
  }

  lemma CloseRunOk(run: Run, at: ClosePoint, now: nat)
    requires RunOk(run, now) && run.pc.Close?
    ensures RunOk(run.(pc := Close(at, run.pc.state)), now)
  {
  }

  lemma RunningRunOk(run: Run, now: nat)
    requires RunOk(run, now) && run.pc == AwaitReady(WriteRunning)
    ensures RunOk(run.(pc := Serve(EmitRunning), up := true), now)
  {
  }

  lemma TailRunOk(run: Run, tail: seq<string>, now: nat)
    requires RunOk(run, now) && run.pc.Snapshot?
    ensures RunOk(run.(pc := Judge(run.pc.fin, run.pc.status, tail)), now)
  {
  }

  lemma AfterLogKeepsResources(run: Run, text: string, now: nat)
    requires RunOk(run, now) && AtLogPoint(run.pc)
    ensures var x := AfterLog(run, text);
            ProcOk(x.pc, x.proc) && IoOk(x.pc, x.proc.child, x.io) && CtlOk(x.pc, x.ctl)
  {
  }

  lemma AfterLogRunOk(run: Run, text: string, now: nat)
    requires RunOk(run, now) && AtLogPoint(run.pc)
    ensures RunOk(AfterLog(run, text), now)
  {
    AfterLogKeepsResources(run, text, now);
  }

  /** Passing a log point moves the run on and changes nothing the tables depend on. */
  lemma AfterLogSame(run: Run, text: string, now: nat)
    requires RunOk(run, now) && AtLogPoint(run.pc)
    ensures var x := AfterLog(run, text);
            && run.pc.InFlight() && x.pc.InFlight()
            && x.id == run.id && x.flag == run.flag && x.up == run.up && x.ctl == run.ctl && x.proc == run.proc
            && PidKnown(x) == PidKnown(run)
            && (x.pc.Recorded() == run.pc.Recorded() || x.proc.child.Unborn?)
            && (run.pc.Recorded() ==> x.pc.Recorded())
  {
  }

  /** A pushed line changes only the logs. */
  lemma KeepsPush(s: Sys, id: Id, source: Which, line: string)
    requires Inv(s)
    ensures Inv(Push(s, id, source, line))
  {
    var s' := Push(s, id, source, line);
    if id in s.t.entries {
      assert EntryInv(s, id);
      PushLineKeepsWindows(s.t.entries[id], source, line);
    }
    forall q | 0 <= q < |s'.runs| ensures RunInv(s', q) {
      assert RunInv(s, q);
    }
    forall i | i in s'.t.entries ensures EntryInv(s', i) {
      assert EntryInv(s, i);
    }
    forall k | 0 <= k < |s'.stops| ensures StopInv(s', k) {
      assert StopInv(s, k);
    }
  }

  lemma KeepsLinePushed(s: Sys, r: nat, text: string)
    requires Inv(s) && r < |s.runs| && AtLogPoint(s.runs[r].pc)
    ensures Inv(DoLinePushed(s, r, text))
  {
    var run := s.runs[r];
    assert RunInv(s, r);
    AfterLogRunOk(run, text, s.now);
    AfterLogSame(run, text, s.now);
    FrameLocal(s, r, AfterLog(run, text));
    KeepsPush(WithRun(s, r, AfterLog(run, text)), run.id, LogSource(run.pc), LogText(run.pc, text));
  }

  function LineTaken(run: Run, which: Which): Run {
    var p := PipeOf(run.io, which);
    run.(io := WithPipe(run.io, which, p.(read := p.read + 1)))
  }

  lemma ReadRunOk(run: Run, which: Which, now: nat)
    requires RunOk(run, now) && PipeOf(run.io, which).reader.Reading?
    requires PipeOf(run.io, which).read < |PipeOf(run.io, which).written|
    ensures RunOk(LineTaken(run, which), now)
  {
  }

  lemma KeepsLineRead(s: Sys, r: nat, which: Which)
    requires Inv(s) && r < |s.runs|
    requires PipeOf(s.runs[r].io, which).reader.Reading?
    requires PipeOf(s.runs[r].io, which).read < |PipeOf(s.runs[r].io, which).written|
    ensures Inv(DoLineRead(s, r, which))
  {
    var run := s.runs[r];
    var p := PipeOf(run.io, which);
    assert RunInv(s, r);
    ReadRunOk(run, which, s.now);
    FrameLocal(s, r, LineTaken(run, which));
    KeepsPush(WithRun(s, r, LineTaken(run, which)), run.id, which, p.written[p.read]);
  }

  lemma KeepsEventSent(s: Sys, r: nat)
    requires Inv(s) && r < |s.runs| && AtEmit(s.runs[r].pc)
    ensures Inv(DoEventSent(s, r))
  {
    assert RunInv(s, r);
    var x := s.runs[r].(pc := AfterEmit(s.runs[r].pc));
    FrameLocal(s, r, x);
    KeepsUnseen(WithRun(s, r, x), DoEventSent(s, r));
  }

  /** The broadcast log, the write history and the callers' unsent events are not part of the invariant. */
  lemma KeepsUnseen(s: Sys, s': Sys)
    requires Inv(s)
    requires s' == s.(callers := s'.callers, sent := s'.sent, writes := s'.writes)
    ensures Inv(s')
  {
    forall q | 0 <= q < |s'.runs| ensures RunInv(s', q) {
      assert RunInv(s, q);
    }
    forall i | i in s'.t.entries ensures EntryInv(s', i) {
      assert EntryInv(s, i);
    }
    forall k | 0 <= k < |s'.stops| ensures StopInv(s', k) {
      assert StopInv(s, k);
    }
  }

  lemma PidStoredEntry(s: Sys, r: nat)
    requires Inv(s) && r < |s.runs| && s.runs[r].pc == Setup(SetPid)
    ensures s.runs[r].id in s.t.entries && EntryInv(DoPidStored(s, r), s.runs[r].id)
  {
    assert RunInv(s, r) && EntryInv(s, s.runs[r].id);
  }

  lemma PidStoredRun(s: Sys, r: nat)
    requires Inv(s) && r < |s.runs| && s.runs[r].pc == Setup(SetPid)
    ensures RunInv(DoPidStored(s, r), r)
  {
    assert RunInv(s, r);
    SetupRunOk(s.runs[r], RecordPid, s.now);
  }

  lemma KeepsPidStored(s: Sys, r: nat)
    requires Inv(s) && r < |s.runs| && s.runs[r].pc == Setup(SetPid)
    ensures Inv(DoPidStored(s, r))
  {
    PidStoredEntry(s, r);
    PidStoredRun(s, r);
    Frame(s, DoPidStored(s, r), r);
  }

  lemma PidRecordedRun(s: Sys, r: nat, outcome: RecordOutcome)
    requires Inv(s) && r < |s.runs| && s.runs[r].pc == Setup(RecordPid)
    requires outcome.AlreadyDead? ==> !s.runs[r].proc.child.Alive?
    ensures RunInv(DoPidRecorded(s, r, outcome), r)
  {
    assert RunInv(s, r) && EntryInv(s, s.runs[r].id);
    SetupRunOk(s.runs[r], LogSpawned, s.now);
  }

  lemma PidRecordedEntry(s: Sys, r: nat, outcome: RecordOutcome)
    requires Inv(s) && r < |s.runs| && s.runs[r].pc == Setup(RecordPid)
    ensures s.runs[r].id in s.t.entries && EntryInv(DoPidRecorded(s, r, outcome), s.runs[r].id)
  {
    assert RunInv(s, r) && EntryInv(s, s.runs[r].id);
  }

  lemma KeepsPidRecorded(s: Sys, r: nat, outcome: RecordOutcome)
    requires Inv(s) && r < |s.runs| && s.runs[r].pc == Setup(RecordPid)
    requires outcome.AlreadyDead? ==> !s.runs[r].proc.child.Alive?
    ensures Inv(DoPidRecorded(s, r, outcome))
  {
    PidRecordedEntry(s, r, outcome);
    PidRecordedRun(s, r, outcome);
    Frame(s, DoPidRecorded(s, r, outcome), r);
  }

  lemma RunningEntry(s: Sys, r: nat)
    requires Inv(s) && r < |s.runs| && s.runs[r].pc == AwaitReady(WriteRunning)
    ensures s.runs[r].id in s.t.entries && EntryInv(DoRunningWritten(s, r), s.runs[r].id)
  {
    assert RunInv(s, r) && EntryInv(s, s.runs[r].id);
  }

  lemma RunningRun(s: Sys, r: nat)
    requires Inv(s) && r < |s.runs| && s.runs[r].pc == AwaitReady(WriteRunning)
    ensures RunInv(DoRunningWritten(s, r), r)
  {
    assert RunInv(s, r);
    RunningRunOk(s.runs[r], s.now);
  }

  lemma KeepsRunningWritten(s: Sys, r: nat)
    requires Inv(s) && r < |s.runs| && s.runs[r].pc == AwaitReady(WriteRunning)
    ensures Inv(DoRunningWritten(s, r))
  {
    RunningEntry(s, r);
    RunningRun(s, r);
    Frame(s, DoRunningWritten(s, r), r);
  }

  lemma KeepsTailTaken(s: Sys, r: nat)
    requires Inv(s) && r < |s.runs| && s.runs[r].pc.Snapshot?
    ensures Inv(DoTailTaken(s, r))
  {
    assert RunInv(s, r) && EntryInv(s, s.runs[r].id);
    var s' := DoTailTaken(s, r);
    TailRunOk(s.runs[r], s'.runs[r].pc.tail, s.now);
    FrameLocal(s, r, s'.runs[r]);
  }

  lemma KeepsJudged(s: Sys, r: nat)
    requires Inv(s) && r < |s.runs| && s.runs[r].pc.Judge? && s.runs[r].flag < |s.t.flags|
    ensures Inv(DoJudged(s, r))
  {
    assert RunInv(s, r);
    var s' := DoJudged(s, r);
    FrameLocal(s, r, s'.runs[r]);
  }

  lemma RecordRemovedRun(s: Sys, r: nat, ok: bool)
    requires Inv(s) && r < |s.runs| && s.runs[r].pc.Close? && s.runs[r].pc.close.RemoveRecord?
    ensures RunInv(DoRecordRemoved(s, r, ok), r)
  {
    assert RunInv(s, r);
    CloseRunOk(s.runs[r], WriteTerminal, s.now);
  }

  lemma KeepsRecordRemoved(s: Sys, r: nat, ok: bool)
    requires Inv(s) && r < |s.runs| && s.runs[r].pc.Close? && s.runs[r].pc.close.RemoveRecord?
    ensures Inv(DoRecordRemoved(s, r, ok))
  {
    assert RunInv(s, r) && EntryInv(s, s.runs[r].id);
    RecordRemovedRun(s, r, ok);
    Frame(s, DoRecordRemoved(s, r, ok), r);
  }

  lemma TerminalEntry(s: Sys, r: nat)
    requires Inv(s) && r < |s.runs| && s.runs[r].pc.Close? && s.runs[r].pc.close.WriteTerminal?
    ensures s.runs[r].id in s.t.entries && EntryInv(DoTerminalWritten(s, r), s.runs[r].id)
  {
    assert RunInv(s, r) && EntryInv(s, s.runs[r].id);
    assert !s.runs[r].pc.state.Live();
  }

  lemma TerminalRun(s: Sys, r: nat)
    requires Inv(s) && r < |s.runs| && s.runs[r].pc.Close? && s.runs[r].pc.close.WriteTerminal?
    ensures RunInv(DoTerminalWritten(s, r), r)
  {
    assert RunInv(s, r);
    CloseRunOk(s.runs[r], EmitTerminal, s.now);
  }

  lemma KeepsTerminalWritten(s: Sys, r: nat)
    requires Inv(s) && r < |s.runs| && s.runs[r].pc.Close? && s.runs[r].pc.close.WriteTerminal?
    ensures Inv(DoTerminalWritten(s, r))
  {
    TerminalEntry(s, r);
    TerminalRun(s, r);
    Frame(s, DoTerminalWritten(s, r), r);
  }

  // ---- callers ----

  lemma KeepsRegister(s: Sys, id: Id, spec: Spec)
    requires Inv(s)
    ensures Inv(DoRegister(s, id, spec))
  {
    var s' := DoRegister(s, id, spec);
    if !s.t.Live(id) {
      forall q | 0 <= q < |s'.runs| ensures RunInv(s', q) {
        assert RunInv(s, q);
      }
      if id in s.t.entries {
        assert EntryInv(s, id);
      }
      forall i | i in s'.t.entries ensures EntryInv(s', i) {
        assert i != id ==> EntryInv(s, i);
      }
      forall k | 0 <= k < |s'.stops| ensures StopInv(s', k) {
        assert StopInv(s, k);
      }
    }
  }

  lemma KeepsUnregister(s: Sys, id: Id)
    requires Inv(s)
    ensures Inv(DoUnregister(s, id))
  {
    var s' := DoUnregister(s, id);
    if id in s.t.entries && !s.t.Live(id) {
      assert EntryInv(s, id);
      forall q | 0 <= q < |s'.runs| ensures RunInv(s', q) {
        assert RunInv(s, q);
      }
      forall i | i in s'.t.entries ensures EntryInv(s', i) {
        assert EntryInv(s, i);
      }
      forall k | 0 <= k < |s'.stops| ensures StopInv(s', k) {
        assert StopInv(s, k);
      }
    }
  }

  lemma KeepsStartRuns(s: Sys, id: Id)
    requires Inv(s) && id in s.t.entries && !s.t.Live(id) && s.t.entries[id].flag < |s.t.flags|
    ensures RunsOk(DoStart(s, id))
  {
    var e, s' := s.t.entries[id], DoStart(s, id);
    assert EntryInv(s, id);
    NewRunOk(id, e.flag, e.spec, s.now);
    forall q | 0 <= q < |s'.runs| ensures RunInv(s', q) {
      if q < |s.runs| {
        assert RunInv(s, q);
        if s.runs[q].pc.InFlight() {
          assert EntryInv(s, s.runs[q].id);
        }
      }
    }
  }

  lemma KeepsStart(s: Sys, id: Id)
    requires Inv(s) && (id in s.t.entries ==> s.t.entries[id].flag < |s.t.flags|)
    ensures Inv(DoStart(s, id))
  {
    var s' := DoStart(s, id);
    if id in s.t.entries && !s.t.Live(id) {
      KeepsStartRuns(s, id);
      forall i | i in s'.t.entries ensures EntryInv(s', i) {
        assert EntryInv(s, i);
      }
      forall k | 0 <= k < |s'.stops| ensures StopInv(s', k) {
        assert StopInv(s, k);
      }
    }
  }

  lemma AcceptRunOk(run: Run, k: nat, now: nat)
    requires RunOk(run, now)
    ensures RunOk(Accept(run, k), now)
  {
  }

  lemma DeliverRunOk(run: Run, now: nat)
    requires RunOk(run, now) && run.ctl.accepted.Some?
    ensures RunOk(Deliver(run), now)
  {
  }

  lemma StoppedRun(s: Sys, id: Id)
    requires Inv(s) && s.t.Live(id) && s.t.entries[id].flag < |s.t.flags|
    ensures EntryInv(s, id) && RunInv(DoStop(s, id), s.t.entries[id].control.value)
  {
    assert EntryInv(s, id);
    var c := s.t.entries[id].control.value;
    assert RunInv(s, c);
    AcceptRunOk(s.runs[c], |s.stops|, s.now);
  }

  lemma KeepsStopRuns(s: Sys, id: Id)
    requires Inv(s) && s.t.Live(id) && s.t.entries[id].flag < |s.t.flags|
    ensures RunsOk(DoStop(s, id))
  {
    StoppedRun(s, id);
    forall q | 0 <= q < |s.runs| ensures RunInv(DoStop(s, id), q) {
      if q != s.t.entries[id].control.value {
        assert RunInv(s, q);
        if s.runs[q].pc.InFlight() {
          assert EntryInv(s, s.runs[q].id);
        }
      }
    }
  }

  lemma KeepsStop(s: Sys, id: Id)
    requires Inv(s) && (id in s.t.entries ==> s.t.entries[id].flag < |s.t.flags|)
    ensures Inv(DoStop(s, id))
  {
    var s' := DoStop(s, id);
    if s.t.Live(id) {
      assert EntryInv(s, id);
      KeepsStopRuns(s, id);
      forall i | i in s'.t.entries ensures EntryInv(s', i) {
        assert EntryInv(s, i);
      }
      forall k | 0 <= k < |s'.stops| ensures StopInv(s', k) {
        assert k < |s.stops| ==> StopInv(s, k);
      }
    }
  }

  lemma KeepsStopLogged(s: Sys, k: nat)
    requires Inv(s) && k < |s.stops|
    ensures Inv(DoStopLogged(s, k))
  {
    var m := s.(stops := s.stops[k := s.stops[k].(logged := true)]);
    forall q | 0 <= q < |m.runs| ensures RunInv(m, q) {
      assert RunInv(s, q);
    }
    forall i | i in m.t.entries ensures EntryInv(m, i) {
      assert EntryInv(s, i);
    }
    forall j | 0 <= j < |m.stops| ensures StopInv(m, j) {
      assert StopInv(s, j);
    }
    KeepsPush(m, s.stops[k].id, Stdout, "supervisor: stop requested by user");
  }

  lemma StopSentRun(s: Sys, k: nat, q: nat)
    requires Inv(s) && k < |s.stops| && q < |s.runs|
    ensures RunInv(DoStopSent(s, k), q)
  {
    assert StopInv(s, k) && RunInv(s, q);
    if s.stops[k].chan == Some(q) {
      DeliverRunOk(s.runs[q], s.now);
    }
  }

  lemma StopSentRuns(s: Sys, k: nat)
    requires Inv(s) && k < |s.stops|
    ensures RunsOk(DoStopSent(s, k))
  {
    forall q | 0 <= q < |s.runs| ensures RunInv(DoStopSent(s, k), q) {
      StopSentRun(s, k, q);
    }
  }

  lemma KeepsStopSent(s: Sys, k: nat)
    requires Inv(s) && k < |s.stops| && s.stops[k].logged
    ensures Inv(DoStopSent(s, k))
  {
    var s' := DoStopSent(s, k);
    assert StopInv(s, k);
    StopSentRuns(s, k);
    forall i | i in s'.t.entries ensures EntryInv(s', i) {
      assert EntryInv(s, i);
    }
    forall j | 0 <= j < |s'.stops| ensures StopInv(s', j) {
      assert StopInv(s, j);
    }
  }

  lemma LaterRunOk(run: Run, now: nat, later: nat)
    requires RunOk(run, now) && now <= later
    ensures RunOk(run, later)
  {
  }

  lemma KeepsTick(s: Sys, elapsed: nat)
    requires Inv(s)
    ensures Inv(s.(now := s.now + elapsed))
  {
    var s' := s.(now := s.now + elapsed);
    forall q | 0 <= q < |s'.runs| ensures RunInv(s', q) {
      assert RunInv(s, q);
      LaterRunOk(s.runs[q], s.now, s'.now);
    }
    forall i | i in s'.t.entries ensures EntryInv(s', i) {
      assert EntryInv(s, i);
    }
    forall k | 0 <= k < |s'.stops| ensures StopInv(s', k) {
      assert StopInv(s, k);
    }
  }

  /** Steps of one run that touch no table and write no event. */
  predicate WithinRun(a: Act) {
    || a.Task? || a.Probe? || a.Nature? || a.PidRecorded? || a.TailTaken? || a.Judged? || a.RecordRemoved?
    || a.ControlClosed?
  }

  lemma WithinRunFrame(s: Sys, a: Act)
    requires Can(s, a) && WithinRun(a)
    ensures var s' := Do(s, a);
            && s'.t == s.t && s'.writes == s.writes && s'.sent == s.sent && s'.callers == s.callers && s'.clean == s.clean
            && |s'.runs| == |s.runs| && s'.runs == s.runs[a.r := s'.runs[a.r]]
            && s'.runs[a.r].id == s.runs[a.r].id
  {
    if a.Task? {
      TaskKeepsId(s.runs[a.r], a.mv, s.now);
    }
  }

  lemma TaskKeepsId(run: Run, mv: TaskMove, now: nat)
    requires CanTask(run, mv, now)
    ensures Tasked(run, mv, now).id == run.id
    ensures Tasked(run, mv, now).ctl.early == run.ctl.early
  {
  }

  /** The steps of callers and of the clock, as opposed to those of the service tasks. */
  predicate ByCaller(a: Act) {
    a.Register? || a.Unregister? || a.Start? || a.Stop? || a.StopLogged? || a.StopSent? || a.CallerSent? || a.Tick?
  }

  lemma KeepsCallerStep(s: Sys, a: Act)
    requires Inv(s) && Can(s, a)
    requires ByCaller(a)
    ensures Inv(Do(s, a))
  {
    match a
    case Register(id, spec) => KeepsRegister(s, id, spec);
    case Unregister(id) => KeepsUnregister(s, id);
    case Start(id) => KeepsStart(s, id);
    case Stop(id) => KeepsStop(s, id);
    case StopLogged(k) => KeepsStopLogged(s, k);
    case StopSent(k) => KeepsStopSent(s, k);
    case CallerSent(_) => KeepsUnseen(s, Do(s, a));
    case Tick(elapsed) => KeepsTick(s, elapsed);
  }

  lemma KeepsTaskStep(s: Sys, a: Act)
    requires Inv(s) && Can(s, a)
    requires !ByCaller(a)
    ensures Inv(Do(s, a))
  {
    match a
    case Task(r, mv) => KeepsTask(s, r, mv);
    case Probe(r, mv) => KeepsProbe(s, r, mv);
    case Nature(r, ev) => KeepsNature(s, r, ev);
    case EventSent(r) => KeepsEventSent(s, r);
    case LinePushed(r, text) => KeepsLinePushed(s, r, text);
    case PidStored(r) => KeepsPidStored(s, r);
    case PidRecorded(r, outcome) => KeepsPidRecorded(s, r, outcome);
    case RunningWritten(r) => KeepsRunningWritten(s, r);
    case TailTaken(r) => KeepsTailTaken(s, r);
    case Judged(r) => KeepsJudged(s, r);
    case RecordRemoved(r, ok) => KeepsRecordRemoved(s, r, ok);
    case TerminalWritten(r) => KeepsTerminalWritten(s, r);
    case LineRead(r, which) => KeepsLineRead(s, r, which);
    case ControlClosed(_) =>
  }

  /** Every possible step, of anyone, keeps the invariant. */
  lemma KeepsStep(s: Sys, a: Act)
    requires Inv(s) && Can(s, a)
    ensures Inv(Do(s, a))
  {
    if ByCaller(a) {
      KeepsCallerStep(s, a);
    } else {
      KeepsTaskStep(s, a);
    }
  }

  /** The invariant holds after every run of the whole system. */
  lemma {:induction false} Always(acts: seq<Act>, s: Sys)
    requires Reached(acts, s)
    ensures Inv(s)
  {
    if |acts| > 0 {
      var init := acts[..|acts| - 1];
      var before := Exec(init).value;
      Always(init, before);
      var a := acts[|acts| - 1];
      KeepsStep(before, a);
    }
  }
}
