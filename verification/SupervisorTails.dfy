/**
 * Whose lines a Failed state shows. `start` clears `stderr_tail` (`crates/openvhost-proc/src/supervisor.rs`), the drain
 * before classification is bounded (`crates/openvhost-proc/src/service_task.rs`, `drain_readers`), and a reader that
 * outlives it goes on pushing.
 */
module SupervisorTails {
  import opened Prelude
  import opened Events
  import opened Classify
  import opened LogRing
  import opened ServiceTask
  import opened SupervisorSystem
  import opened SupervisorInvariant
  import opened SupervisorTheorems

  /** The tail the run was or is about to be classified with. */
  function TailOf(run: Run): Option<seq<string>> {
    match run.pc
    case Judge(_, _, tail) => Some(tail)
    case Close(_, _) => if run.verdict.Some? then Some(run.verdict.value.tail) else None
    case _ => None
  }

  /** The tail is the last lines among the run's own first `n` stderr lines, all of them unless its drain was late. */
  ghost predicate CutAt(run: Run, tail: seq<string>, n: nat) {
    && n <= |OwnErr(run.io)|
    && tail == LastN(OwnErr(run.io)[..n], STDERR_TAIL) + run.extra
    && (!run.io.late ==> n == |OwnErr(run.io)|)
  }

  ghost predicate OwnTail(run: Run, tail: seq<string>) {
    exists n: nat :: CutAt(run, tail, n)
  }

  /** No other run of the id can push another stderr line. */
  ghost predicate Sole(s: Sys, r: nat)
    requires r < |s.runs|
  {
    forall q :: 0 <= q < |s.runs| && q != r && s.runs[q].id == s.runs[r].id ==> !Feeds(s.runs[q].io.err)
  }

  ghost predicate TailInv(s: Sys, r: nat)
    requires r < |s.runs|
  {
    var run := s.runs[r];
    r in s.clean ==>
      && (run.pc.InFlight() ==>
            Sole(s, r) && run.id in s.t.entries && s.t.entries[run.id].errSinceStart == OwnErr(run.io))
      && (TailOf(run).Some? ==> OwnTail(run, TailOf(run).value))
  }

  ghost predicate Tails(s: Sys) {
    && (forall r :: r in s.clean ==> r < |s.runs|)
    && (forall r :: 0 <= r < |s.runs| ==> TailInv(s, r))
  }

  // ---- what a step can do to a tail ----

  /** A step of one run that contributes the stderr lines `more`. */
  ghost predicate Tame(run: Run, x: Run, more: seq<string>) {
    && x.id == run.id && (x.pc.InFlight() ==> run.pc.InFlight())
    && (Feeds(x.io.err) ==> Feeds(run.io.err) || run.pc.InFlight())
    && (more != [] ==> Feeds(run.io.err) || run.pc.InFlight())
    && OwnErr(x.io) == OwnErr(run.io) + more
    && (TailOf(x).Some? ==>
          TailOf(x) == TailOf(run) && x.extra == run.extra && x.io.late == run.io.late && (more == [] || run.io.late))
  }

  /** The lines `more` were pushed to `id`, and to nobody else. */
  ghost predicate Contributed(s: Sys, s': Sys, id: Id, more: seq<string>) {
    && s'.t.entries.Keys == s.t.entries.Keys
    && forall i :: i in s.t.entries ==>
         s'.t.entries[i].errSinceStart == s.t.entries[i].errSinceStart + if i == id then more else []
  }

  lemma TameKeepsOwn(run: Run, x: Run, more: seq<string>)
    requires Tame(run, x, more) && TailOf(x).Some? && OwnTail(run, TailOf(x).value)
    ensures OwnTail(x, TailOf(x).value)
  {
    var n: nat :| CutAt(run, TailOf(x).value, n);
    assert OwnErr(x.io)[..n] == OwnErr(run.io)[..n];
    assert CutAt(x, TailOf(x).value, n);
  }

  lemma TameKeepsTails(s: Sys, s': Sys, r: nat, more: seq<string>)
    requires Inv(s) && Tails(s) && r < |s.runs| == |s'.runs| && s'.clean == s.clean
    requires s'.runs == s.runs[r := s'.runs[r]] && Tame(s.runs[r], s'.runs[r], more)
    requires Contributed(s, s', s.runs[r].id, more)
    ensures Tails(s')
  {
    assert TailInv(s, r);
    if r in s.clean && TailOf(s'.runs[r]).Some? {
      TameKeepsOwn(s.runs[r], s'.runs[r], more);
    }
    forall q | 0 <= q < |s'.runs| ensures TailInv(s', q) {
      assert TailInv(s, q);
      if q != r && q in s.clean && s.runs[q].pc.InFlight() && s.runs[q].id == s.runs[r].id {
        if s.runs[r].pc.InFlight() {
          InFlightUnique(s, q, r);
        }
      }
    }
  }

  // ---- the steps of the service tasks ----

  lemma TaskTame(run: Run, mv: TaskMove, now: nat)
    requires RunOk(run, now) && CanTask(run, mv, now)
    ensures Tame(run, Tasked(run, mv, now), [])
  {
  }

  lemma ProbeTame(run: Run, mv: ProbeMove)
    requires CanProbe(run, mv)
    ensures Tame(run, Probed(run, mv), [])
  {
  }

  lemma NatureTame(run: Run, ev: Nature, now: nat)
    requires RunOk(run, now) && CanNature(run, ev)
    ensures Tame(run, Natured(run, ev), [])
  {
  }

  lemma LogTame(run: Run, text: string, now: nat)
    requires RunOk(run, now) && AtLogPoint(run.pc)
    ensures Tame(run, AfterLog(run, text), if run.pc == Launch(LogSpawnFailed) then [text] else [])
  {
  }

  lemma ReadTame(run: Run, which: Which, now: nat)
    requires RunOk(run, now) && PipeOf(run.io, which).reader.Reading?
    requires PipeOf(run.io, which).read < |PipeOf(run.io, which).written|
    ensures var p := PipeOf(run.io, which);
            Tame(run, LineTaken(run, which), if which.Stderr? then [p.written[p.read]] else [])
  {
    var p := PipeOf(run.io, which);
    assert p.written[..p.read + 1] == p.written[..p.read] + [p.written[p.read]];
  }

  lemma PushContributes(s: Sys, x: Sys, id: Id, source: Which, line: string)
    requires x.t == s.t
    ensures Contributed(s, Push(x, id, source, line), id, if source.Stderr? then [line] else [])
  {
  }

  lemma PushedKeepsTails(s: Sys, r: nat, x: Run, source: Which, line: string)
    requires Inv(s) && Tails(s) && r < |s.runs|
    requires Tame(s.runs[r], x, if source.Stderr? then [line] else [])
    ensures Tails(Push(WithRun(s, r, x), x.id, source, line))
  {
    PushContributes(s, WithRun(s, r, x), x.id, source, line);
    TameKeepsTails(s, Push(WithRun(s, r, x), x.id, source, line), r, if source.Stderr? then [line] else []);
  }

  lemma LinePushedKeepsTails(s: Sys, r: nat, text: string)
    requires Inv(s) && Tails(s) && r < |s.runs| && AtLogPoint(s.runs[r].pc)
    ensures Tails(DoLinePushed(s, r, text))
  {
    var run := s.runs[r];
    assert RunInv(s, r);
    LogTame(run, text, s.now);
    PushedKeepsTails(s, r, AfterLog(run, text), LogSource(run.pc), LogText(run.pc, text));
  }

  lemma LineReadKeepsTails(s: Sys, r: nat, which: Which)
    requires Inv(s) && Tails(s) && r < |s.runs| && PipeOf(s.runs[r].io, which).reader.Reading?
    requires PipeOf(s.runs[r].io, which).read < |PipeOf(s.runs[r].io, which).written|
    ensures Tails(DoLineRead(s, r, which))
  {
    var p := PipeOf(s.runs[r].io, which);
    assert RunInv(s, r);
    ReadTame(s.runs[r], which, s.now);
    PushedKeepsTails(s, r, LineTaken(s.runs[r], which), which, p.written[p.read]);
  }

  /** The snapshot of a run that alone feeds its id's tail is the run's own. */
  lemma TailTakenOwn(s: Sys, r: nat)
    requires Inv(s) && TailsAt(s, r) && s.runs[r].pc.Snapshot? && r in s.clean
    ensures OwnTail(DoTailTaken(s, r).runs[r], DoTailTaken(s, r).runs[r].pc.tail)
  {
    var x := DoTailTaken(s, r).runs[r];
    assert RunInv(s, r) && EntryInv(s, x.id);
    assert OwnErr(x.io)[..|OwnErr(x.io)|] == OwnErr(x.io);
    assert CutAt(x, x.pc.tail, |OwnErr(x.io)|);
  }

  ghost predicate TailsAt(s: Sys, r: nat) {
    r < |s.runs| && TailInv(s, r)
  }

  lemma TailTakenKeepsTails(s: Sys, r: nat)
    requires Inv(s) && Tails(s) && r < |s.runs| && s.runs[r].pc.Snapshot?
    ensures Tails(DoTailTaken(s, r))
  {
    var s' := DoTailTaken(s, r);
    assert TailInv(s, r);
    if r in s.clean {
      TailTakenOwn(s, r);
    }
    forall q | 0 <= q < |s'.runs| ensures TailInv(s', q) {
      assert TailInv(s, q);
    }
  }

  /** The remaining steps of a run: no pipe moves and no line is pushed. */
  predicate TablesOnly(a: Act) {
    a.EventSent? || a.PidStored? || a.PidRecorded? || a.RunningWritten? || a.Judged? || a.RecordRemoved?
    || a.TerminalWritten?
  }

  lemma TablesOnlyShape(s: Sys, a: Act)
    requires Can(s, a) && TablesOnly(a)
    ensures var s' := Do(s, a);
            |s'.runs| == |s.runs| && s'.runs == s.runs[a.r := s'.runs[a.r]] && s'.clean == s.clean
  {
  }

  lemma TablesOnlyTame(s: Sys, a: Act)
    requires Can(s, a) && TablesOnly(a) && RunOk(s.runs[a.r], s.now)
    ensures a.r < |Do(s, a).runs| && Tame(s.runs[a.r], Do(s, a).runs[a.r], [])
  {
    TablesOnlyShape(s, a);
  }

  lemma SetStateContributes(s: Sys, r: nat, state: ServiceState, x: Run, id: Id)
    requires r < |s.runs|
    ensures Contributed(s, DoSetState(s, r, state, x), id, [])
  {
  }

  /** Of these, the ones that write no table at all. */
  lemma SameTablesContribute(s: Sys, a: Act)
    requires Can(s, a) && (a.EventSent? || a.PidRecorded? || a.Judged? || a.RecordRemoved?)
    ensures Contributed(s, Do(s, a), s.runs[a.r].id, [])
  {
    assert Do(s, a).t == s.t;
  }

  lemma TablesOnlyContributes(s: Sys, a: Act)
    requires Can(s, a) && TablesOnly(a)
    ensures Contributed(s, Do(s, a), s.runs[a.r].id, [])
  {
    match a
    case RunningWritten(r) =>
      SetStateContributes(s, r, Running, s.runs[r].(pc := Serve(EmitRunning), up := true), s.runs[r].id);
    case TerminalWritten(r) =>
      var state := s.runs[r].pc.state;
      SetStateContributes(s, r, state, s.runs[r].(pc := Close(EmitTerminal, state)), s.runs[r].id);
    case PidStored(_) =>
    case _ => SameTablesContribute(s, a);
  }

  lemma RunKeepsTails(s: Sys, r: nat, x: Run)
    requires Inv(s) && Tails(s) && r < |s.runs| && Tame(s.runs[r], x, [])
    ensures Tails(WithRun(s, r, x))
  {
    TameKeepsTails(s, WithRun(s, r, x), r, []);
  }

  lemma TablesOnlyKeepsTails(s: Sys, a: Act)
    requires Inv(s) && Tails(s) && Can(s, a) && TablesOnly(a)
    ensures Tails(Do(s, a))
  {
    assert RunInv(s, a.r);
    TablesOnlyShape(s, a);
    TablesOnlyTame(s, a);
    TablesOnlyContributes(s, a);
    TameKeepsTails(s, Do(s, a), a.r, []);
  }

  lemma MoveKeepsTails(s: Sys, a: Act)
    requires Inv(s) && Tails(s) && Can(s, a) && (a.Task? || a.Probe? || a.Nature?)
    ensures Tails(Do(s, a))
  {
    assert RunInv(s, a.r);
    match a
    case Task(r, mv) =>
      TaskTame(s.runs[r], mv, s.now);
      RunKeepsTails(s, r, Tasked(s.runs[r], mv, s.now));
    case Probe(r, mv) =>
      ProbeTame(s.runs[r], mv);
      RunKeepsTails(s, r, Probed(s.runs[r], mv));
    case Nature(r, ev) =>
      NatureTame(s.runs[r], ev, s.now);
      RunKeepsTails(s, r, Natured(s.runs[r], ev));
  }

  lemma TaskKeepsTails(s: Sys, a: Act)
    requires Inv(s) && Tails(s) && Can(s, a) && !ByCaller(a)
    ensures Tails(Do(s, a))
  {
    if TablesOnly(a) {
      TablesOnlyKeepsTails(s, a);
    } else if a.Task? || a.Probe? || a.Nature? {
      MoveKeepsTails(s, a);
    } else {
      match a
      case LinePushed(r, text) => LinePushedKeepsTails(s, r, text);
      case LineRead(r, which) => LineReadKeepsTails(s, r, which);
      case TailTaken(r) => TailTakenKeepsTails(s, r);
      case ControlClosed(_) =>
    }
  }

  // ---- the steps of callers ----

  /** Nothing a tail depends on differs between the two runs. */
  predicate SameTailParts(run: Run, x: Run) {
    x.id == run.id && x.pc == run.pc && x.io == run.io && x.extra == run.extra && x.verdict == run.verdict
  }

  ghost predicate SameParts(s: Sys, s': Sys) {
    && |s'.runs| == |s.runs| && s'.clean == s.clean
    && forall r :: 0 <= r < |s.runs| ==> SameTailParts(s.runs[r], s'.runs[r])
  }

  lemma StopSameParts(s: Sys, a: Act)
    requires Can(s, a) && (a.Stop? || a.StopSent?)
    ensures SameParts(s, Do(s, a))
  {
  }

  lemma CallerSameParts(s: Sys, a: Act)
    requires Can(s, a) && ByCaller(a) && !a.Start?
    ensures SameParts(s, Do(s, a))
  {
    if a.Stop? || a.StopSent? {
      StopSameParts(s, a);
    } else {
      assert Do(s, a).runs == s.runs && Do(s, a).clean == s.clean;
    }
  }

  lemma CallerSameErr(s: Sys, a: Act, id: Id)
    requires Can(s, a) && ByCaller(a) && s.t.Live(id)
    ensures id in Do(s, a).t.entries && Do(s, a).t.entries[id].errSinceStart == s.t.entries[id].errSinceStart
  {
  }

  lemma SamePartsOwn(run: Run, x: Run)
    requires SameTailParts(run, x) && (TailOf(run).Some? ==> OwnTail(run, TailOf(run).value))
    ensures TailOf(x).Some? ==> OwnTail(x, TailOf(x).value)
  {
    if TailOf(run).Some? {
      var n: nat :| CutAt(run, TailOf(run).value, n);
      assert CutAt(x, TailOf(run).value, n);
    }
  }

  lemma CallerKeepsTails(s: Sys, a: Act)
    requires Inv(s) && Tails(s) && Can(s, a) && ByCaller(a) && !a.Start?
    ensures Tails(Do(s, a))
  {
    var s' := Do(s, a);
    CallerSameParts(s, a);
    forall q | 0 <= q < |s'.runs| ensures TailInv(s', q) {
      CallerKeepsTail(s, a, q);
    }
  }

  lemma CallerKeepsTail(s: Sys, a: Act, q: nat)
    requires Inv(s) && Tails(s) && Can(s, a) && ByCaller(a) && SameParts(s, Do(s, a)) && q < |s.runs|
    ensures TailInv(Do(s, a), q)
  {
    var s' := Do(s, a);
    assert TailInv(s, q) && RunInv(s, q) && SameTailParts(s.runs[q], s'.runs[q]);
    if q in s.clean {
      if s.runs[q].pc.InFlight() {
        CallerSameErr(s, a, s.runs[q].id);
      }
      SamePartsOwn(s.runs[q], s'.runs[q]);
    }
  }

  lemma StartKeepsTail(s: Sys, id: Id, q: nat)
    requires Inv(s) && Tails(s) && Can(s, Start(id)) && id in s.t.entries && !s.t.Live(id) && q < |s.runs|
    ensures TailInv(DoStart(s, id), q)
  {
    assert TailInv(s, q) && RunInv(s, q);
    assert DoStart(s, id).runs[q] == s.runs[q];
  }

  lemma StartMakesTail(s: Sys, id: Id)
    requires Tails(s) && Can(s, Start(id)) && id in s.t.entries && !s.t.Live(id)
    ensures TailInv(DoStart(s, id), |s.runs|)
  {
  }

  lemma StartKeepsTails(s: Sys, id: Id)
    requires Inv(s) && Tails(s) && Can(s, Start(id))
    ensures Tails(DoStart(s, id))
  {
    var s' := DoStart(s, id);
    if id in s.t.entries && !s.t.Live(id) {
      forall q | 0 <= q < |s'.runs| ensures TailInv(s', q) {
        if q < |s.runs| {
          StartKeepsTail(s, id, q);
        } else {
          StartMakesTail(s, id);
        }
      }
    }
  }

  lemma StepKeepsTails(s: Sys, a: Act)
    requires Inv(s) && Tails(s) && Can(s, a)
    ensures Tails(Do(s, a))
  {
    if a.Start? {
      StartKeepsTails(s, a.id);
    } else if ByCaller(a) {
      CallerKeepsTails(s, a);
    } else {
      TaskKeepsTails(s, a);
    }
  }

  lemma {:induction false} AlwaysTails(acts: seq<Act>, s: Sys)
    requires Reached(acts, s)
    ensures Inv(s) && Tails(s)
  {
    Always(acts, s);
    if |acts| > 0 {
      var init := acts[..|acts| - 1];
      AlwaysTails(init, Exec(init).value);
      StepKeepsTails(Exec(init).value, acts[|acts| - 1]);
    }
  }

  lemma {:induction false} RunKeepsInvAndTails(s: Sys, more: seq<Act>, t: Sys)
    requires Inv(s) && Tails(s) && ExecFrom(s, more) == Some(t)
    ensures Inv(t) && Tails(t) && |s.runs| <= |t.runs| && (forall r :: r in s.clean ==> r in t.clean)
  {
    if |more| > 0 {
      var m := ExecFrom(s, more[..|more| - 1]).value;
      RunKeepsInvAndTails(s, more[..|more| - 1], m);
      KeepsStep(m, more[|more| - 1]);
      StepKeepsTails(m, more[|more| - 1]);
      CleanGrows(m, more[|more| - 1]);
    }
  }

  lemma CleanGrows(s: Sys, a: Act)
    requires Can(s, a)
    ensures |s.runs| <= |Do(s, a).runs| && forall r :: r in s.clean ==> r in Do(s, a).clean
  {
    if WithinRun(a) {
      WithinRunFrame(s, a);
    } else if ByCaller(a) && !a.Start? {
      CallerSameParts(s, a);
    } else if TablesOnly(a) {
      TablesOnlyShape(s, a);
    }
  }

  /**
   * If no reader left over from an earlier run could push a line when run `r` started, a Failed state of `r` carries
   * the last of the run's own first lines, then the probe diagnostics: all it contributed unless its drain was late,
   * and all it wrote when its stderr reader reached the end in time.
   */
  lemma FailedTailIsOwn(acts: seq<Act>, s: Sys, r: nat)
    requires Reached(acts, s) && r < |s.runs| && s.runs[r].pc.Close? && s.runs[r].pc.state.Failed? && r in s.clean
    ensures var run := s.runs[r];
            && OwnTail(run, run.pc.state.stderrTail)
            && (run.io.err.reader.AtEof? ==> OwnErr(run.io) == run.io.err.written)
            && (run.proc.child.Unborn? ==> OwnErr(run.io) == run.io.spawnErr && run.extra == [])
            && run.verdict.Some? && (run.verdict.value.fin.Plain? ==> run.extra == [])
            && (run.extra == [] || IsDetail(run.extra))
  {
    AlwaysTails(acts, s);
    assert RunInv(s, r) && TailInv(s, r);
  }

  // ---- a late drain is the only way to leave a reader ----

  ghost predicate LateBefore(s: Sys, r: nat) {
    exists q: nat :: q < r <= |s.runs| && r < |s.runs| && s.runs[q].id == s.runs[r].id && s.runs[q].io.late
  }

  /** Runs stay, keep their ids, and a drain that was late stays late. */
  ghost predicate LateKept(s: Sys, s': Sys) {
    |s.runs| <= |s'.runs| && forall q :: 0 <= q < |s.runs| ==>
                               s'.runs[q].id == s.runs[q].id && (s.runs[q].io.late ==> s'.runs[q].io.late)
  }

  lemma MoveKeepsLate(s: Sys, a: Act)
    requires Can(s, a) && WithinRun(a)
    ensures LateKept(s, Do(s, a))
  {
    WithinRunFrame(s, a);
    if a.Task? {
      TaskKeepsId(s.runs[a.r], a.mv, s.now);
    }
  }

  lemma StepKeepsLate(s: Sys, a: Act)
    requires Can(s, a) && !a.Start?
    ensures LateKept(s, Do(s, a)) && |Do(s, a).runs| == |s.runs|
  {
    if WithinRun(a) {
      WithinRunFrame(s, a);
      MoveKeepsLate(s, a);
    } else if ByCaller(a) {
      CallerSameParts(s, a);
    }
  }

  lemma StartUnclean(s: Sys, id: Id)
    requires Inv(s) && Can(s, Start(id)) && id in s.t.entries && !s.t.Live(id) && !NoReaderLeft(s.runs, id)
    ensures LateBefore(DoStart(s, id), |s.runs|)
  {
    var q :| 0 <= q < |s.runs| && s.runs[q].id == id && Feeds(s.runs[q].io.err);
    assert RunInv(s, q);
    assert DoStart(s, id).runs[q] == s.runs[q];
  }

  lemma StartKeepsLate(s: Sys, id: Id)
    requires Can(s, Start(id))
    ensures LateKept(s, DoStart(s, id))
  {
  }

  lemma LateBeforeKept(s: Sys, s': Sys, r: nat)
    requires LateBefore(s, r) && LateKept(s, s')
    ensures LateBefore(s', r)
  {
    var q: nat :| q < r && s.runs[q].id == s.runs[r].id && s.runs[q].io.late;
    assert s'.runs[q].id == s'.runs[r].id && s'.runs[q].io.late;
  }

  lemma StepLeavesLate(s: Sys, a: Act, r: nat)
    requires Inv(s) && Tails(s) && Can(s, a) && r < |Do(s, a).runs| && r !in Do(s, a).clean
    requires r < |s.runs| ==> LateBefore(s, r)
    ensures LateBefore(Do(s, a), r)
  {
    if a.Start? {
      StartKeepsLate(s, a.id);
      if r == |s.runs| {
        StartUnclean(s, a.id);
      } else {
        LateBeforeKept(s, Do(s, a), r);
      }
    } else {
      StepKeepsLate(s, a);
      LateBeforeKept(s, Do(s, a), r);
    }
  }

  /** A run that did not start clean came after a run of its id whose drain was late. */
  lemma {:induction false} UncleanMeansLate(acts: seq<Act>, s: Sys, r: nat)
    requires Reached(acts, s) && r < |s.runs| && r !in s.clean
    ensures LateBefore(s, r)
  {
    var init := acts[..|acts| - 1];
    var before, a := Exec(init).value, acts[|acts| - 1];
    AlwaysTails(init, before);
    CleanGrows(before, a);
    if r < |before.runs| {
      UncleanMeansLate(init, before, r);
    }
    StepLeavesLate(before, a, r);
  }

  /**
   * If no drain of the id was ever late, every Failed state of it carries the last of all the stderr lines its own run
   * contributed, then the probe diagnostics.
   */
  lemma DrainedTailIsWhole(acts: seq<Act>, s: Sys, r: nat)
    requires Reached(acts, s) && r < |s.runs| && s.runs[r].pc.Close? && s.runs[r].pc.state.Failed?
    requires forall q :: 0 <= q < |s.runs| && s.runs[q].id == s.runs[r].id ==> !s.runs[q].io.late
    ensures var run := s.runs[r];
            && run.pc.state.stderrTail == LastN(OwnErr(run.io), 10) + run.extra
            && (run.io.err.reader.AtEof? ==> OwnErr(run.io) == run.io.err.written)
  {
    if r !in s.clean {
      UncleanMeansLate(acts, s, r);
    }
    FailedTailIsOwn(acts, s, r);
    var run := s.runs[r];
    var n: nat :| CutAt(run, run.pc.state.stderrTail, n);
    assert OwnErr(run.io)[..n] == OwnErr(run.io);
  }

  // ---- a reader that is left over does leak ----

  /** Run `r` is exactly `run`, its id is registered, and nobody asked it to stop. */
  ghost predicate At(s: Sys, r: nat, run: Run) {
    && r < |s.runs| && s.runs[r] == run && run.id in s.t.entries
    && run.flag < |s.t.flags| && !s.t.flags[run.flag].raised
  }

  /** `t` is `s` after run `r` moved; the logs and flags of its id are as they were. */
  ghost predicate OnlyMoved(s: Sys, t: Sys, r: nat) {
    && r < |s.runs| == |t.runs| && t.runs == s.runs[r := t.runs[r]] && t.runs[r].id == s.runs[r].id
    && t.t.flags == s.t.flags && t.t.entries.Keys == s.t.entries.Keys
    && (s.runs[r].id in s.t.entries ==>
          t.t.entries[s.runs[r].id].stderrTail == s.t.entries[s.runs[r].id].stderrTail)
  }

  lemma Launched(s: Sys, r: nat, run: Run) returns (more: seq<Act>, t: Sys)
    requires At(s, r, run) && run.pc == Launch(EmitStarting)
    ensures ExecFrom(s, more) == Some(t) && At(t, r, run.(pc := Launch(SpawnChild))) && OnlyMoved(s, t, r)
  {
    assert ExecFrom(s, []) == Some(s);
    var m;
    more, m := Extend(s, [], s, EventSent(r));
    more, t := Extend(s, more, m, LinePushed(r, "state"));
  }

  lemma SpawnErrPushed(s: Sys, r: nat, run: Run, line: string) returns (more: seq<Act>, t: Sys)
    requires At(s, r, run) && run.pc == Launch(SpawnChild)
    requires s.t.entries[run.id].stderrTail == []
    ensures ExecFrom(s, more) == Some(t)
    ensures At(t, r, run.(pc := Drain(Plain, None), io := run.io.(spawnErr := [line])))
    ensures t.runs == s.runs[r := t.runs[r]] && t.t.entries[run.id].stderrTail == [line]
  {
    assert ExecFrom(s, []) == Some(s);
    var m;
    more, m := Extend(s, [], s, Task(r, SpawnErr));
    more, t := Extend(s, more, m, LinePushed(r, line));
  }

  /** From its start to its snapshot, a run whose spawn fails pushes one stderr line. */
  lemma SpawnFails(s: Sys, r: nat, run: Run, line: string) returns (more: seq<Act>, t: Sys)
    requires At(s, r, run) && run.pc == Launch(EmitStarting) && run.io == NewRun(run.id, 0, run.spec).io
    requires s.t.entries[run.id].stderrTail == []
    ensures ExecFrom(s, more) == Some(t)
    ensures At(t, r, run.(pc := Snapshot(Plain, None), io := run.io.(spawnErr := [line])))
    ensures t.runs == s.runs[r := t.runs[r]] && t.t.entries[run.id].stderrTail == [line]
  {
    var first, t1 := Launched(s, r, run);
    var second, t2 := SpawnErrPushed(t1, r, t1.runs[r], line);
    ExecConcat(s, first, t1, second);
    DrainedFacts(t2, r);
    more, t := Extend(s, first + second, t2, Task(r, ReadersDrained));
  }

  lemma DrainedFacts(s: Sys, r: nat)
    requires r < |s.runs| && s.runs[r].pc == Drain(Plain, None)
    requires !s.runs[r].io.out.reader.Reading? && !s.runs[r].io.err.reader.Reading?
    ensures Can(s, Task(r, ReadersDrained))
    ensures var t := Do(s, Task(r, ReadersDrained));
            t == s.(runs := s.runs[r := s.runs[r].(pc := Snapshot(Plain, None))])
  {
  }

  /** What reading one stderr line does. */
  lemma LineReadFacts(s: Sys, q: nat)
    requires q < |s.runs| && s.runs[q].id in s.t.entries
    requires s.runs[q].io.err.read < |s.runs[q].io.err.written|
    ensures var t := DoLineRead(s, q, Stderr);
            var line := s.runs[q].io.err.written[s.runs[q].io.err.read];
            && t.t.flags == s.t.flags && |t.runs| == |s.runs| && t.runs == s.runs[q := t.runs[q]]
            && t.runs[q].id == s.runs[q].id && s.runs[q].id in t.t.entries
            && t.t.entries[s.runs[q].id].stderrTail == Pushed(s.t.entries[s.runs[q].id].stderrTail, STDERR_TAIL, line)
            && OwnErr(t.runs[q].io) == OwnErr(s.runs[q].io) + [line]
  {
    var p := s.runs[q].io.err;
    assert p.written[..p.read + 1] == p.written[..p.read] + [p.written[p.read]];
  }

  /** The pipe of run `q` holds an unread line, if need be because a descendant writes one. */
  lemma LineWaits(s: Sys, q: nat) returns (more: seq<Act>, t: Sys)
    requires q < |s.runs| && Feeds(s.runs[q].io.err) && s.runs[q].io.err.read <= |s.runs[q].io.err.written|
    ensures ExecFrom(s, more) == Some(t) && t.t == s.t
    ensures |t.runs| == |s.runs| && t.runs == s.runs[q := t.runs[q]] && t.runs[q].id == s.runs[q].id
    ensures t.runs[q].io.err.reader.Reading? && t.runs[q].io.err.read < |t.runs[q].io.err.written|
    ensures OwnErr(t.runs[q].io) == OwnErr(s.runs[q].io)
  {
    assert ExecFrom(s, []) == Some(s);
    more, t := [], s;
    if s.runs[q].io.err.read == |s.runs[q].io.err.written| {
      more, t := Extend(s, [], s, Nature(q, PipeWritten(Stderr, "late")));
    }
  }

  /** A left-over reader of run `q` with a line to push does so now. */
  lemma LateLine(s: Sys, q: nat) returns (more: seq<Act>, t: Sys, line: string)
    requires q < |s.runs| && Feeds(s.runs[q].io.err) && s.runs[q].id in s.t.entries
    requires s.runs[q].io.err.read <= |s.runs[q].io.err.written|
    ensures ExecFrom(s, more) == Some(t) && t.t.flags == s.t.flags
    ensures |t.runs| == |s.runs| && t.runs == s.runs[q := t.runs[q]] && t.runs[q].id == s.runs[q].id
    ensures s.runs[q].id in t.t.entries
    ensures t.t.entries[s.runs[q].id].stderrTail == Pushed(s.t.entries[s.runs[q].id].stderrTail, STDERR_TAIL, line)
    ensures OwnErr(t.runs[q].io) == OwnErr(s.runs[q].io) + [line]
  {
    var first, m := LineWaits(s, q);
    line := m.runs[q].io.err.written[m.runs[q].io.err.read];
    LineReadFacts(m, q);
    more, t := Extend(s, first, m, LineRead(q, Stderr));
  }

  lemma ClassifiedFailed(s: Sys, r: nat, run: Run, tail: seq<string>) returns (more: seq<Act>, t: Sys)
    requires At(s, r, run) && run.pc == Snapshot(Plain, None) && run.extra == []
    requires s.t.entries[run.id].stderrTail == tail
    ensures ExecFrom(s, more) == Some(t) && r < |t.runs|
    ensures t.runs[r].pc == Close(LogTerminal, Failed(None, tail)) && t.runs[r].io == run.io && t.runs[r].extra == []
    ensures forall q: nat :: q < |s.runs| && q != r ==> q < |t.runs| && t.runs[q] == s.runs[q]
  {
    assert ExecFrom(s, []) == Some(s);
    var m;
    more, m := Extend(s, [], s, TailTaken(r));
    assert tail + [] == tail;
    more, t := Extend(s, more, m, Judged(r));
  }

  /** The steps of the leak, for a run that has just been started. */
  lemma LeakSteps(s: Sys, r: nat, run: Run, q: nat) returns (more: seq<Act>, t: Sys, line: string)
    requires At(s, r, run) && run.pc == Launch(EmitStarting) && run.io == NewRun(run.id, 0, run.spec).io
    requires run.extra == [] && s.t.entries[run.id].stderrTail == []
    requires q < |s.runs| && q != r && s.runs[q].id == run.id && Feeds(s.runs[q].io.err)
    requires s.runs[q].io.err.read <= |s.runs[q].io.err.written|
    ensures ExecFrom(s, more) == Some(t) && r < |t.runs| && q < |t.runs|
    ensures t.runs[r].pc == Close(LogTerminal, Failed(None, ["ERROR spawn failed", line]))
    ensures OwnErr(t.runs[r].io) == ["ERROR spawn failed"] && t.runs[r].extra == []
    ensures OwnErr(t.runs[q].io) == OwnErr(s.runs[q].io) + [line]
  {
    var first, t1 := SpawnFails(s, r, run, "ERROR spawn failed");
    var failed := t1.runs[r];
    assert t1.runs[q] == s.runs[q];
    var second, t2;
    second, t2, line := LateLine(t1, q);
    assert t2.runs[r] == failed;
    var third;
    third, t := ClassifiedFailed(t2, r, failed, ["ERROR spawn failed", line]);
    ExecConcat(s, first, t1, second);
    ExecConcat(s, first + second, t2, third);
    more := first + second + third;
  }

  /** A run started while run `q` can still push: it can end Failed with a line of `q` as the last of its tail. */
  lemma LateReaderLeaks(s: Sys, id: Id, q: nat) returns (more: seq<Act>, t: Sys)
    requires Inv(s) && Can(s, Start(id)) && id in s.t.entries && !s.t.Live(id)
    requires q < |s.runs| && s.runs[q].id == id && Feeds(s.runs[q].io.err)
    ensures ExecFrom(DoStart(s, id), more) == Some(t) && |s.runs| < |t.runs|
    ensures var x := t.runs[|s.runs|];
            && x.pc.Close? && x.pc.state.Failed? && !OwnTail(x, x.pc.state.stderrTail)
            && |OwnErr(t.runs[q].io)| > 0 && |x.pc.state.stderrTail| > 0
            && x.pc.state.stderrTail[|x.pc.state.stderrTail| - 1] ==
               OwnErr(t.runs[q].io)[|OwnErr(t.runs[q].io)| - 1]
  {
    var begun := DoStart(s, id);
    assert RunInv(s, q);
    assert begun.runs[q] == s.runs[q];
    var line;
    more, t, line := LeakSteps(begun, |s.runs|, begun.runs[|s.runs|], q);
    NotOwn(t.runs[|s.runs|], line);
  }

  lemma NotOwn(x: Run, line: string)
    requires OwnErr(x.io) == ["ERROR spawn failed"] && x.extra == []
    ensures !OwnTail(x, ["ERROR spawn failed", line])
  {
    forall n: nat ensures !CutAt(x, ["ERROR spawn failed", line], n) {
      if n <= |OwnErr(x.io)| {
        assert |LastN(OwnErr(x.io)[..n], STDERR_TAIL) + x.extra| <= 1;
      }
    }
  }

  /** If run `r` has been classified Failed, it was with its own tail. */
  ghost predicate EndsOwn(s: Sys, r: nat) {
    && r < |s.runs|
    && (s.runs[r].pc.Close? && s.runs[r].pc.state.Failed? ==> OwnTail(s.runs[r], s.runs[r].pc.state.stderrTail))
  }

  lemma CleanEndsOwn(s: Sys, r: nat)
    requires Inv(s) && Tails(s) && r in s.clean
    ensures EndsOwn(s, r)
  {
    assert RunInv(s, r) && TailInv(s, r);
  }

  /**
   * Exactly when a start is safe: whatever happens afterwards the new run's Failed tail is its own, if and only if no
   * reader of an earlier run of the id can still push a stderr line when it starts.
   */
  lemma TailsAreOwnIff(acts: seq<Act>, s: Sys, id: Id)
    requires Reached(acts, s) && Can(s, Start(id)) && id in s.t.entries && !s.t.Live(id)
    ensures (forall more, t :: ExecFrom(DoStart(s, id), more) == Some(t) ==> EndsOwn(t, |s.runs|))
            <==> NoReaderLeft(s.runs, id)
  {
    AlwaysTails(acts, s);
    if NoReaderLeft(s.runs, id) {
      KeepsStep(s, Start(id));
      StepKeepsTails(s, Start(id));
      forall more, t | ExecFrom(DoStart(s, id), more) == Some(t) ensures EndsOwn(t, |s.runs|) {
        RunKeepsInvAndTails(DoStart(s, id), more, t);
        CleanEndsOwn(t, |s.runs|);
      }
    } else {
      var q :| 0 <= q < |s.runs| && s.runs[q].id == id && Feeds(s.runs[q].io.err);
      var more, t := LateReaderLeaks(s, id, q);
      assert !EndsOwn(t, |s.runs|);
    }
  }

  // ---- and such readers do get left over ----

  /** Run `r` of `id` is at `pc`, its id is registered, and nobody asked it to stop. */
  ghost predicate Stands(s: Sys, r: nat, id: Id, pc: PC) {
    At(s, r, if r < |s.runs| then s.runs[r] else NewRun(id, 0, EXAMPLE)) && s.runs[r].id == id && s.runs[r].pc == pc
  }

  lemma SpawnedAndRecorded(s: Sys, r: nat, id: Id) returns (more: seq<Act>, t: Sys)
    requires Stands(s, r, id, Launch(SpawnChild)) && s.runs[r].spec.readiness.AliveAfter?
    ensures ExecFrom(s, more) == Some(t) && Stands(t, r, id, Setup(LogSpawned))
    ensures t.runs[r].io.err.open && t.runs[r].proc.child.Alive? && t.runs[r].spec.readiness.AliveAfter?
  {
    assert ExecFrom(s, []) == Some(s);
    var m1, m2;
    more, m1 := Extend(s, [], s, Task(r, SpawnOk));
    assert Stands(m1, r, id, Setup(SetPid));
    more, m2 := Extend(s, more, m1, PidStored(r));
    more, t := Extend(s, more, m2, PidRecorded(r, Written));
  }

  lemma ReadersAttached(s: Sys, r: nat, id: Id) returns (more: seq<Act>, t: Sys)
    requires Stands(s, r, id, Setup(LogSpawned)) && s.runs[r].spec.readiness.AliveAfter?
    requires s.runs[r].io.err.open && s.runs[r].proc.child.Alive?
    ensures ExecFrom(s, more) == Some(t) && Stands(t, r, id, AwaitReady(AliveRace))
    ensures t.runs[r].io.err.open && t.runs[r].io.err.reader.Reading? && t.runs[r].proc.child.Alive?
  {
    assert ExecFrom(s, []) == Some(s);
    var m;
    more, m := Extend(s, [], s, LinePushed(r, "spawned"));
    assert Stands(m, r, id, Setup(TakePipes)) && m.runs[r].io == s.runs[r].io && m.runs[r].proc == s.runs[r].proc;
    assert m.runs[r].spec.readiness == s.runs[r].spec.readiness;
    more, t := Extend(s, more, m, Task(r, PipesTaken(true, true)));
  }

  /** The child dies at once. */
  lemma ChildLost(s: Sys, r: nat, id: Id) returns (more: seq<Act>, t: Sys)
    requires Stands(s, r, id, AwaitReady(AliveRace)) && s.runs[r].proc.child.Alive?
    requires s.runs[r].io.err.open && s.runs[r].io.err.reader.Reading?
    ensures ExecFrom(s, more) == Some(t) && Stands(t, r, id, Drain(Plain, Some(Code(1))))
    ensures t.runs[r].io.err.open && t.runs[r].io.err.reader.Reading?
  {
    assert ExecFrom(s, []) == Some(s);
    var m;
    more, m := Extend(s, [], s, Nature(r, ChildDies(Code(1))));
    assert Stands(m, r, id, AwaitReady(AliveRace)) && m.runs[r].proc.child == Exited(Code(1));
    assert m.runs[r].io == s.runs[r].io;
    more, t := Extend(s, more, m, Task(r, ChildWaited(Some(Code(1)))));
  }

  /** A descendant keeps its stderr open, so the drain runs out of its budget. */
  lemma DrainedLate(s: Sys, r: nat, id: Id) returns (more: seq<Act>, t: Sys)
    requires Stands(s, r, id, Drain(Plain, Some(Code(1))))
    requires s.runs[r].io.err.open && s.runs[r].io.err.reader.Reading?
    ensures ExecFrom(s, more) == Some(t) && Stands(t, r, id, Snapshot(Plain, Some(Code(1))))
    ensures t.runs[r].io.err.open && t.runs[r].io.err.reader.Reading?
  {
    assert ExecFrom(s, []) == Some(s);
    more, t := Extend(s, [], s, Task(r, DrainTimedOut));
  }

  lemma ClassifiedLate(s: Sys, r: nat, id: Id) returns (more: seq<Act>, t: Sys)
    requires Stands(s, r, id, Snapshot(Plain, Some(Code(1))))
    requires s.runs[r].io.err.open && s.runs[r].io.err.reader.Reading?
    ensures ExecFrom(s, more) == Some(t) && r < |t.runs| && t.runs[r].pc.Close?
    ensures Stands(t, r, id, Close(LogTerminal, t.runs[r].pc.state)) && t.runs[r].pc.state.Failed?
    ensures t.runs[r].io.err.open && t.runs[r].io.err.reader.Reading?
  {
    assert ExecFrom(s, []) == Some(s);
    var m;
    more, m := Extend(s, [], s, TailTaken(r));
    assert m.t == s.t && m.runs[r].io == s.runs[r].io;
    more, t := Extend(s, more, m, Judged(r));
  }

  lemma RecordGone(s: Sys, r: nat, id: Id, state: ServiceState) returns (more: seq<Act>, t: Sys)
    requires Stands(s, r, id, Close(LogTerminal, state))
    ensures ExecFrom(s, more) == Some(t) && Stands(t, r, id, Close(WriteTerminal, state))
    ensures t.runs[r].io == s.runs[r].io
  {
    assert ExecFrom(s, []) == Some(s);
    var m;
    more, m := Extend(s, [], s, LinePushed(r, "state"));
    assert Stands(m, r, id, Close(RemoveRecord, state)) && m.runs[r].io == s.runs[r].io;
    more, t := Extend(s, more, m, RecordRemoved(r, true));
  }

  lemma Idle(s: Sys, r: nat, id: Id, state: ServiceState) returns (more: seq<Act>, t: Sys)
    requires Stands(s, r, id, Close(WriteTerminal, state)) && state.Failed?
    ensures ExecFrom(s, more) == Some(t) && id in t.t.entries && !t.t.Live(id)
    ensures r < |t.runs| && t.runs[r].id == id && t.runs[r].io == s.runs[r].io
  {
    assert ExecFrom(s, []) == Some(s);
    more, t := Extend(s, [], s, TerminalWritten(r));
    assert t == DoTerminalWritten(s, r);
  }

  lemma RegisteredAndStarted() returns (acts: seq<Act>, s: Sys)
    ensures Reached(acts, s) && Stands(s, 0, "a", Launch(EmitStarting)) && s.runs[0].spec.readiness.AliveAfter?
  {
    var a1 := [Register("a", EXAMPLE)];
    acts := a1 + [Start("a")];
    assert a1[..0] == [] && acts[..1] == a1;
    var s1 := Do(INITIAL, a1[0]);
    assert Reached(a1, s1);
    s := Do(s1, acts[1]);
  }

  /** A run of the whole supervisor after which an idle id has a reader that can still push. */
  lemma ReaderLeftOver() returns (acts: seq<Act>, s: Sys)
    ensures Reached(acts, s) && "a" in s.t.entries && !s.t.Live("a") && !NoReaderLeft(s.runs, "a")
  {
    var begun, s1 := RegisteredAndStarted();
    var a2, s2 := Launched(s1, 0, s1.runs[0]);
    var a3, s3 := SpawnedAndRecorded(s2, 0, "a");
    var a4, s4 := ReadersAttached(s3, 0, "a");
    var a5, s5 := ChildLost(s4, 0, "a");
    var a6, s6 := DrainedLate(s5, 0, "a");
    var a7, s7 := ClassifiedLate(s6, 0, "a");
    var a8, s8 := RecordGone(s7, 0, "a", s7.runs[0].pc.state);
    var a9, s9 := Idle(s8, 0, "a", s7.runs[0].pc.state);
    assert Feeds(s9.runs[0].io.err);
    ReachedOn(begun, s1, a2, s2);
    ReachedOn(begun + a2, s2, a3, s3);
    ReachedOn(begun + a2 + a3, s3, a4, s4);
    ReachedOn(begun + a2 + a3 + a4, s4, a5, s5);
    ReachedOn(begun + a2 + a3 + a4 + a5, s5, a6, s6);
    ReachedOn(begun + a2 + a3 + a4 + a5 + a6, s6, a7, s7);
    ReachedOn(begun + a2 + a3 + a4 + a5 + a6 + a7, s7, a8, s8);
    ReachedOn(begun + a2 + a3 + a4 + a5 + a6 + a7 + a8, s8, a9, s9);
    acts, s := begun + a2 + a3 + a4 + a5 + a6 + a7 + a8 + a9, s9;
  }

  /** So a Failed state with another run's line in its tail really happens. */
  lemma ForeignTailHappens()
    ensures exists acts, s, r: nat :: Reached(acts, s) && !EndsOwn(s, r) && r < |s.runs|
  {
    var acts, s := ReaderLeftOver();
    Always(acts, s);
    assert EntryInv(s, "a");
    var q :| 0 <= q < |s.runs| && s.runs[q].id == "a" && Feeds(s.runs[q].io.err);
    var more, t := LateReaderLeaks(s, "a", q);
    var begun := Do(s, Start("a"));
    var started := acts + [Start("a")];
    assert started[..|acts|] == acts;
    assert Reached(started, begun);
    ReachedOn(started, begun, more, t);
    assert !EndsOwn(t, |s.runs|);
  }
}
