/** What the invariant means for every run of the whole supervisor. */
module SupervisorTheorems {
  import opened Prelude
  import opened Events
  import opened Classify
  import opened ServiceTask
  import opened SupervisorSystem
  import opened SupervisorInvariant

  // ---- one run per id ----

  /** Run `r` is run `id`'s run in flight. */
  ghost predicate FlightOf(s: Sys, r: nat, id: Id) {
    r < |s.runs| && s.runs[r].id == id && s.runs[r].pc.InFlight()
  }

  /**
   * At every moment an id has at most one run in flight; it is live exactly while it has one, and then its row says
   * Running exactly when that run has written Running.
   */
  lemma OneRunPerId(acts: seq<Act>, s: Sys, id: Id)
    requires Reached(acts, s)
    ensures forall r: nat, q: nat :: FlightOf(s, r, id) && FlightOf(s, q, id) ==> r == q
    ensures s.t.Live(id) <==> exists r: nat :: FlightOf(s, r, id)
    ensures forall r: nat :: FlightOf(s, r, id) ==>
              s.t.Live(id) && s.t.entries[id].control == Some(r) && (s.t.entries[id].state.Running? <==> s.runs[r].up)
  {
    Always(acts, s);
    forall r: nat, q: nat | FlightOf(s, r, id) && FlightOf(s, q, id) ensures r == q {
      InFlightUnique(s, r, q);
    }
    if s.t.Live(id) {
      assert EntryInv(s, id);
      assert FlightOf(s, s.t.entries[id].control.value, id);
    }
    forall r: nat | FlightOf(s, r, id)
      ensures s.t.Live(id) && s.t.entries[id].control == Some(r) && (s.t.entries[id].state.Running? <==> s.runs[r].up)
    {
      assert RunInv(s, r);
    }
  }

  /**
   * No step replaces or removes a live entry or starts a second run for it: only its own run's terminal write ends it.
   */
  lemma LiveEntryStays(acts: seq<Act>, s: Sys, a: Act, id: Id)
    requires Reached(acts, s) && Can(s, a) && s.t.Live(id)
    requires !(a.TerminalWritten? && s.t.entries[id].control == Some(a.r))
    ensures var s' := Do(s, a);
            && s'.t.Live(id) && s'.t.entries[id].control == s.t.entries[id].control
            && s'.t.entries[id].flag == s.t.entries[id].flag
            && (forall q: nat :: FlightOf(s', q, id) <==> FlightOf(s, q, id))
  {
    Always(acts, s);
    assert EntryInv(s, id);
    var c := s.t.entries[id].control.value;
    assert RunInv(s, c);
    var s' := Do(s, a);
    KeepsStep(s, a);
    EntrySurvives(s, a, id);
    assert EntryInv(s', id);
    forall q: nat ensures FlightOf(s', q, id) <==> FlightOf(s, q, id) {
      if FlightOf(s, q, id) {
        InFlightUnique(s, q, c);
      }
      if FlightOf(s', q, id) {
        InFlightUnique(s', q, c);
      }
    }
  }

  lemma EntrySurvives(s: Sys, a: Act, id: Id)
    requires Inv(s) && Can(s, a) && s.t.Live(id)
    requires !(a.TerminalWritten? && s.t.entries[id].control == Some(a.r))
    ensures SameLiveEntry(s, Do(s, a), id)
  {
    if ByCaller(a) {
      EntrySurvivesCaller(s, a, id);
    } else {
      EntrySurvivesTask(s, a, id);
    }
  }

  ghost predicate SameLiveEntry(s: Sys, s': Sys, id: Id)
    requires s.t.Live(id)
  {
    && s'.t.Live(id) && s'.t.entries[id].control == s.t.entries[id].control
    && s'.t.entries[id].flag == s.t.entries[id].flag
  }

  lemma RegisterSurvives(s: Sys, other: Id, spec: Spec, id: Id)
    requires s.t.Live(id)
    ensures SameLiveEntry(s, DoRegister(s, other, spec), id)
  {
  }

  lemma UnregisterSurvives(s: Sys, other: Id, id: Id)
    requires s.t.Live(id)
    ensures SameLiveEntry(s, DoUnregister(s, other), id)
  {
  }

  lemma StartSurvives(s: Sys, other: Id, id: Id)
    requires s.t.Live(id) && Can(s, Start(other))
    ensures SameLiveEntry(s, DoStart(s, other), id)
  {
  }

  lemma StopSurvives(s: Sys, other: Id, id: Id)
    requires s.t.Live(id) && Can(s, Stop(other))
    ensures SameLiveEntry(s, DoStop(s, other), id)
  {
  }

  lemma StopLoggedSurvives(s: Sys, k: nat, id: Id)
    requires s.t.Live(id) && k < |s.stops|
    ensures SameLiveEntry(s, DoStopLogged(s, k), id)
  {
    PushSurvives(s, s.(stops := s.stops[k := s.stops[k].(logged := true)]), s.stops[k].id, Stdout,
                 "supervisor: stop requested by user", id);
  }

  lemma EntrySurvivesCaller(s: Sys, a: Act, id: Id)
    requires Inv(s) && Can(s, a) && s.t.Live(id) && ByCaller(a)
    ensures SameLiveEntry(s, Do(s, a), id)
  {
    match a
    case Register(other, spec) => RegisterSurvives(s, other, spec, id);
    case Unregister(other) => UnregisterSurvives(s, other, id);
    case Start(other) => StartSurvives(s, other, id);
    case Stop(other) => StopSurvives(s, other, id);
    case StopLogged(k) => StopLoggedSurvives(s, k, id);
    case _ =>
  }

  lemma EntrySurvivesTask(s: Sys, a: Act, id: Id)
    requires Inv(s) && Can(s, a) && s.t.Live(id) && !ByCaller(a)
    requires !(a.TerminalWritten? && s.t.entries[id].control == Some(a.r))
    ensures SameLiveEntry(s, Do(s, a), id)
  {
    if WithinRun(a) {
      WithinRunFrame(s, a);
    } else {
      EntrySurvivesWrite(s, a, id);
    }
  }

  lemma EntrySurvivesWrite(s: Sys, a: Act, id: Id)
    requires Inv(s) && Can(s, a) && s.t.Live(id) && !ByCaller(a) && !WithinRun(a)
    requires !(a.TerminalWritten? && s.t.entries[id].control == Some(a.r))
    ensures SameLiveEntry(s, Do(s, a), id)
  {
    match a
    case TerminalWritten(r) =>
      assert RunInv(s, r);
      SetStateOfOther(s, r, s.runs[r].pc.state, id);
    case RunningWritten(r) =>
      assert RunInv(s, r);
      SetStateOfOther(s, r, Running, id);
    case LinePushed(r, text) =>
      var run := s.runs[r];
      PushSurvives(s, WithRun(s, r, AfterLog(run, text)), run.id, LogSource(run.pc), LogText(run.pc, text), id);
    case LineRead(r, which) =>
      var p := PipeOf(s.runs[r].io, which);
      PushSurvives(s, WithRun(s, r, LineTaken(s.runs[r], which)), s.runs[r].id, which, p.written[p.read], id);
    case _ =>
  }

  lemma PushSurvives(s: Sys, x: Sys, pushed: Id, source: Which, line: string, id: Id)
    requires s.t.Live(id) && x.t == s.t
    ensures SameLiveEntry(s, Push(x, pushed, source, line), id)
  {
  }

  lemma SetStateOfOther(s: Sys, r: nat, state: ServiceState, id: Id)
    requires Inv(s) && r < |s.runs| && s.t.Live(id)
    requires s.runs[r].id == id ==> state.Live()
    ensures forall x: Run :: x.id == s.runs[r].id ==> SameLiveEntry(s, DoSetState(s, r, state, x), id)
  {
  }

  // ---- nothing is forgotten ----

  /**
   * An id that is Stopped, Failed or not registered has no orphan record and no process: every child of its runs was
   * reaped or never born, and no probe is in flight. (Not claimed: of a record whose id's last registry call failed, and
   * of a child whose own wait failed.)
   */
  lemma TerminalMeansGone(acts: seq<Act>, s: Sys, id: Id)
    requires Reached(acts, s) && !s.t.Live(id)
    ensures id !in s.badRegistry ==> id !in s.records
    ensures forall r :: 0 <= r < |s.runs| && s.runs[r].id == id ==>
              && (s.runs[r].proc.faulty || s.runs[r].proc.child.Unborn? || s.runs[r].proc.child.Reaped?)
              && s.runs[r].proc.probe.NoProbe?
  {
    Always(acts, s);
    if id in s.t.entries {
      assert EntryInv(s, id);
    }
    forall r | 0 <= r < |s.runs| && s.runs[r].id == id
      ensures s.runs[r].proc.faulty || s.runs[r].proc.child.Unborn? || s.runs[r].proc.child.Reaped?
      ensures s.runs[r].proc.probe.NoProbe?
    {
      assert RunInv(s, r);
    }
  }

  /**
   * If the application dies at this moment, every living child it leaves behind is in the orphan registry under its
   * own identity, or its run is between spawning and recording it; a living probe belongs to a run that is waiting
   * for it; and no id has two such runs.
   */
  lemma CrashLeavesRecorded(acts: seq<Act>, s: Sys, r: nat)
    requires Reached(acts, s) && r < |s.runs|
    ensures var run := s.runs[r];
            && (run.proc.child.Alive? && !run.proc.faulty && run.id !in s.badRegistry ==>
                  (run.id in s.records && s.records[run.id] == r) || run.pc.SpawnToRecord())
            && (run.proc.probe.ProbeAlive? ==> run.pc.ProbeInFlight())
            && (run.pc.InFlight() ==> forall q: nat :: FlightOf(s, q, run.id) ==> q == r)
  {
    Always(acts, s);
    assert RunInv(s, r);
    if s.runs[r].pc.InFlight() {
      OneRunPerId(acts, s, s.runs[r].id);
      assert FlightOf(s, r, s.runs[r].id);
    }
  }

  /** The record of a child exists only while its run is in flight and has not yet passed its removal. */
  lemma RecordsAreLive(acts: seq<Act>, s: Sys, id: Id)
    requires Reached(acts, s) && id in s.records && id !in s.badRegistry
    ensures FlightOf(s, s.records[id], id) && s.runs[s.records[id]].pc.Recorded()
  {
    Always(acts, s);
    assert EntryInv(s, id);
    assert RunInv(s, s.t.entries[id].control.value);
  }

  // ---- stops ----

  /** Once a stop call has sent, its own run has the message queued or is already on its way to a terminal state. */
  lemma SentStopIsHeard(acts: seq<Act>, s: Sys, k: nat)
    requires Reached(acts, s) && k < |s.stops| && s.stops[k].sent
    ensures s.stops[k].chan.Some? && s.stops[k].chan.value < |s.runs|
    ensures var run := s.runs[s.stops[k].chan.value];
            run.id == s.stops[k].id && s.stops[k].logged && (run.ctl.queued || !run.pc.BeforeEnd())
  {
    Always(acts, s);
    assert StopInv(s, k);
    assert RunInv(s, s.stops[k].chan.value);
  }

  /**
   * Whatever can stop run `r` was a stop accepted during run `r` itself: a queued message, the raised flag its
   * classification would read, and the flag it did read all trace back to a stop call on its own channel.
   */
  lemma NoStaleStop(acts: seq<Act>, s: Sys, r: nat)
    requires Reached(acts, s) && r < |s.runs|
    requires var run := s.runs[r];
             || run.ctl.queued || run.ctl.early
             || (run.pc.InFlight() && run.flag < |s.t.flags| && s.t.flags[run.flag].raised)
             || (run.verdict.Some? && run.verdict.value.flag)
    ensures var run := s.runs[r];
            && run.ctl.accepted.Some? && run.ctl.accepted.value < |s.stops|
            && s.stops[run.ctl.accepted.value].chan == Some(r)
            && s.stops[run.ctl.accepted.value].id == run.id
  {
    Always(acts, s);
    assert RunInv(s, r);
    assert StopInv(s, s.runs[r].ctl.accepted.value);
  }

  /** The branch of the run loop for a control channel without senders is never taken. */
  lemma ControlNeverCloses(acts: seq<Act>, s: Sys, r: nat)
    requires Reached(acts, s)
    ensures !Can(s, ControlClosed(r))
  {
    Always(acts, s);
    if r < |s.runs| && s.runs[r].pc == Serve(RunLoop) {
      FlightHasSender(s, r);
    }
  }

  lemma FlightHasSender(s: Sys, r: nat)
    requires Inv(s) && r < |s.runs| && s.runs[r].pc.InFlight()
    ensures SenderAlive(s, r)
  {
    assert RunInv(s, r);
    assert s.t.entries[s.runs[r].id].control == Some(r);
  }

  /** `more` continues a run of the whole system from state `s`. */
  ghost function ExecFrom(s: Sys, more: seq<Act>): Option<Sys> {
    if |more| == 0 then Some(s)
    else
      match ExecFrom(s, more[..|more| - 1])
      case None => None
      case Some(m) => if Can(m, more[|more| - 1]) then Some(Do(m, more[|more| - 1])) else None
  }

  /** Appends one more step to a run of the system. */
  lemma Extend(s: Sys, more: seq<Act>, m: Sys, a: Act) returns (longer: seq<Act>, t: Sys)
    requires ExecFrom(s, more) == Some(m) && Can(m, a)
    ensures longer == more + [a] && t == Do(m, a) && ExecFrom(s, longer) == Some(t)
  {
    longer, t := more + [a], Do(m, a);
    assert longer[..|longer| - 1] == more;
  }

  lemma {:induction false} ExecConcat(s: Sys, first: seq<Act>, m: Sys, second: seq<Act>)
    requires ExecFrom(s, first) == Some(m)
    ensures ExecFrom(s, first + second) == ExecFrom(m, second)
  {
    if second == [] {
      assert first + second == first;
    } else {
      var init := second[..|second| - 1];
      assert (first + second)[..|first + second| - 1] == first + init;
      ExecConcat(s, first, m, init);
    }
  }

  lemma {:induction false} ReachedOn(acts: seq<Act>, s: Sys, more: seq<Act>, t: Sys)
    requires Reached(acts, s) && ExecFrom(s, more) == Some(t)
    ensures Reached(acts + more, t)
  {
    if more == [] {
      assert acts + more == acts;
    } else {
      var init := more[..|more| - 1];
      assert (acts + more)[..|acts + more| - 1] == acts + init;
      ReachedOn(acts, s, init, ExecFrom(s, init).value);
    }
  }

  ghost predicate EarlyIn(s: Sys, r: nat, id: Id) {
    r < |s.runs| && s.runs[r].ctl.early && s.runs[r].id == id
  }

  lemma CallerKeepsEarly(s: Sys, a: Act, r: nat, id: Id)
    requires Inv(s) && Can(s, a) && EarlyIn(s, r, id) && ByCaller(a)
    ensures EarlyIn(Do(s, a), r, id)
  {
    assert RunInv(s, r);
  }

  lemma TaskKeepsEarly(s: Sys, a: Act, r: nat, id: Id)
    requires Can(s, a) && EarlyIn(s, r, id) && !ByCaller(a)
    ensures EarlyIn(Do(s, a), r, id)
  {
    if a.Task? {
      TaskKeepsId(s.runs[a.r], a.mv, s.now);
    } else if !WithinRun(a) {
      WriteKeepsEarly(s, a, r, id);
    }
  }

  lemma WriteKeepsEarly(s: Sys, a: Act, r: nat, id: Id)
    requires Can(s, a) && EarlyIn(s, r, id) && !ByCaller(a) && !WithinRun(a)
    ensures EarlyIn(Do(s, a), r, id)
  {
  }

  lemma {:induction false} EarlyStaysEarly(s: Sys, more: seq<Act>, s': Sys, r: nat)
    requires Inv(s) && ExecFrom(s, more) == Some(s')
    requires r < |s.runs| && EarlyIn(s, r, s.runs[r].id)
    ensures Inv(s') && EarlyIn(s', r, s.runs[r].id)
  {
    if |more| > 0 {
      var m := ExecFrom(s, more[..|more| - 1]).value;
      EarlyStaysEarly(s, more[..|more| - 1], m, r);
      var a := more[|more| - 1];
      if ByCaller(a) {
        CallerKeepsEarly(m, a, r, s.runs[r].id);
      } else {
        TaskKeepsEarly(m, a, r, s.runs[r].id);
      }
      KeepsStep(m, a);
    }
  }

  /**
   * A stop accepted while run `r` has not been classified forces `Stopped`: whatever happens afterwards, `r` never
   * holds any other terminal state.
   */
  lemma AcceptedStopForcesStopped(acts: seq<Act>, s: Sys, more: seq<Act>, s': Sys, r: nat)
    requires Reached(acts, s) && r < |s.runs| && s.runs[r].ctl.accepted.Some? && s.runs[r].pc.BeforeVerdict()
    requires ExecFrom(s, more) == Some(s')
    ensures r < |s'.runs| && (s'.runs[r].pc.Close? ==> s'.runs[r].pc.state == Stopped)
  {
    Always(acts, s);
    assert RunInv(s, r);
    EarlyStaysEarly(s, more, s', r);
    assert RunInv(s', r);
  }

  // ---- readiness and classification ----

  /**
   * Running is written only after readiness was observed: the bound has passed since the child was spawned, or the last
   * probe to end exited with 0. With a command probe and no stop accepted in time, a run
   * that never wrote Running ends Failed whatever its exit status, so one that ends Stopped was Running first.
   */
  lemma RunningWasObserved(acts: seq<Act>, s: Sys, r: nat)
    requires Reached(acts, s) && r < |s.runs|
    ensures s.runs[r].up ==>
              match s.runs[r].spec.readiness
              case AliveAfter(bound) => s.runs[r].proc.born + bound <= s.now
              case Command =>
                var exits := s.runs[r].proc.probeExits; |exits| > 0 && exits[|exits| - 1] == Code(0)
    ensures s.runs[r].pc.Close? && s.runs[r].spec.readiness.Command? && !s.runs[r].ctl.early && !s.runs[r].up ==>
              s.runs[r].pc.state.Failed?
    ensures s.runs[r].verdict.Some? && s.runs[r].verdict.value.fin.NeverReady? && !s.runs[r].ctl.early ==>
              s.runs[r].pc.Close? && s.runs[r].pc.state.Failed? && !s.runs[r].up
    ensures s.runs[r].pc.Close? && s.runs[r].ctl.early ==> s.runs[r].pc.state == Stopped
  {
    Always(acts, s);
    assert RunInv(s, r);
  }

  /**
   * A row shows a pid exactly while its id has a run in flight whose child was spawned and whose pid was stored, and
   * then that run's; a row that is not live shows none.
   */
  lemma RowPidIsOwn(acts: seq<Act>, s: Sys, id: Id)
    requires Reached(acts, s) && id in s.t.entries
    ensures forall r: nat :: s.t.entries[id].pid == Some(r) <==>
              && FlightOf(s, r, id) && !s.runs[r].proc.child.Unborn? && s.runs[r].pc != Setup(SetPid)
    ensures s.t.entries[id].pid.Some? ==> s.t.entries[id].control == s.t.entries[id].pid
  {
    Always(acts, s);
    assert EntryInv(s, id);
    if s.t.Live(id) {
      assert RunInv(s, s.t.entries[id].control.value);
    }
    forall r: nat | FlightOf(s, r, id) ensures s.t.Live(id) && s.t.entries[id].control == Some(r) {
      OneRunPerId(acts, s, id);
    }
  }

  // ---- stopping in two phases ----

  /**
   * A child is asked to stop only because a stop was accepted during its own run or because its probe ran out of time;
   * it is killed only after it was asked and its whole grace has passed; and the task waits for it without a deadline
   * only before anything was asked of it or after it was killed.
   */
  lemma StopsInTwoPhases(acts: seq<Act>, s: Sys, r: nat)
    requires Reached(acts, s) && r < |s.runs|
    ensures var run := s.runs[r];
            && (run.proc.asked.Some? ==> run.ctl.accepted.Some? || (run.spec.readiness.Command? && !run.up))
            && (run.proc.killed ==>
                  run.proc.asked.Some? && run.proc.asked.value + run.spec.grace <= s.now)
            && (run.pc.Terminate? && run.pc.term.WaitKilled? ==> run.proc.killed)
            && (run.pc.BeforeEnd() ==> run.proc.asked.None? && !run.proc.killed)
            && (run.pc.Terminate? && run.pc.term.GraceWait? ==> run.proc.asked.Some? && !run.proc.killed)
  {
    Always(acts, s);
    assert RunInv(s, r);
  }

  /**
   * Exactly when a run ends Stopped: a stop was accepted before it was classified, or its child was waited for, exited
   * with code 0, and either was Running or had only to stay alive. Every other run ends Failed: one that was killed by
   * a signal, that could not be spawned or waited for, or that was never confirmed ready by its probe.
   */
  lemma StoppedIff(acts: seq<Act>, s: Sys, r: nat)
    requires Reached(acts, s) && r < |s.runs| && s.runs[r].pc.Close?
    ensures var run := s.runs[r];
            && (run.pc.state == Stopped <==>
                  || run.ctl.early
                  || (run.proc.child == Reaped(Code(0)) && (run.up || run.spec.readiness.AliveAfter?)))
            && (run.pc.state == Stopped || run.pc.state.Failed?)
  {
    Always(acts, s);
    assert RunInv(s, r);
  }

  /**
   * A Failed state carries an exit code exactly when the run's own child was waited for and exited with that code: a
   * child ended by a signal, one whose wait failed and one that was never born leave none.
   */
  lemma FailedExitIsOwn(acts: seq<Act>, s: Sys, r: nat)
    requires Reached(acts, s) && r < |s.runs| && s.runs[r].pc.Close? && s.runs[r].pc.state.Failed?
    ensures var run := s.runs[r];
            && (forall c :: run.pc.state.exit == Some(c) <==> run.proc.child == Reaped(Code(c)))
            && (run.proc.child == Reaped(Signal) ==> run.pc.state.exit == None)
            && (!run.proc.faulty && !run.proc.child.Unborn? ==> run.proc.child.Reaped?)
            && (run.proc.child.Unborn? || run.proc.faulty ==> run.pc.state.exit == None)
  {
    Always(acts, s);
    assert RunInv(s, r);
  }

  // ---- diagnostics ----

  /** The ring is the last 2000 lines pushed since registration, the tail the last 10 stderr lines since the start. */
  lemma LogsAreRecentHistory(acts: seq<Act>, s: Sys, id: Id)
    requires Reached(acts, s) && id in s.t.entries
    ensures s.t.entries[id].logs == LastN(s.t.entries[id].pushed, 2000)
    ensures s.t.entries[id].stderrTail == LastN(s.t.entries[id].errSinceStart, 10)
  {
    Always(acts, s);
    assert EntryInv(s, id);
  }
}
