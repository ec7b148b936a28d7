/**
 * The broadcast stream against the tables. `set_state`, `register` and `unregister` write under the lock and send
 * after releasing it (`crates/openvhost-proc/src/supervisor.rs`), so another thread's event can overtake.
 */
module SupervisorBroadcast {
  import opened Prelude
  import opened Events
  import opened ServiceTask
  import opened SupervisorCore
  import opened SupervisorSystem
  import opened SupervisorInvariant

  /** How many runs have written `e` and not sent it. */
  function RunsHolding(runs: seq<Run>, e: Event): nat {
    if |runs| == 0 then 0
    else RunsHolding(runs[..|runs| - 1], e) + Holds(runs[|runs| - 1], e)
  }

  function Holds(run: Run, e: Event): nat {
    if Unsent(run) == Some(e) then 1 else 0
  }

  /** How many times `e` is written and not yet sent. */
  function Pending(s: Sys, e: Event): nat {
    s.callers[e] + RunsHolding(s.runs, e)
  }

  lemma {:induction false} HoldingUpdate(runs: seq<Run>, r: nat, x: Run, e: Event)
    requires r < |runs|
    ensures RunsHolding(runs[r := x], e) == RunsHolding(runs, e) - Holds(runs[r], e) + Holds(x, e)
  {
    var last := |runs| - 1;
    if r == last {
      assert runs[r := x][..last] == runs[..last];
    } else {
      HoldingUpdate(runs[..last], r, x, e);
      assert runs[r := x][..last] == runs[..last][r := x];
    }
  }

  lemma HoldingAppend(runs: seq<Run>, x: Run, e: Event)
    ensures RunsHolding(runs + [x], e) == RunsHolding(runs, e) + Holds(x, e)
  {
    assert (runs + [x])[..|runs|] == runs;
  }

  /** What a step writes, if anything: at most one event. */
  ghost predicate Wrote(s: Sys, s': Sys, e: Event) {
    s'.writes == s.writes + [e]
  }

  /** `e` was sent or is waiting to be sent exactly as often as it was written. */
  ghost predicate Conserved(s: Sys, e: Event) {
    multiset(s.sent)[e] + Pending(s, e) == multiset(s.writes)[e]
  }

  ghost predicate Truthful(s: Sys) {
    Legal(s.writes) && Replay(s.writes) == Rows(s.t)
  }

  // ---- writes follow the tables ----

  lemma WroteTruthfully(s: Sys, s': Sys, e: Event)
    requires Truthful(s) && Wrote(s, s', e)
    requires Admissible(Rows(s.t), e) && Rows(s'.t) == Observe(Rows(s.t), e)
    ensures Truthful(s')
  {
    ReplaySnoc(s.writes, e);
  }

  lemma PushKeepsRows(t: Tables, id: Id, source: Which, line: string)
    ensures Rows(PushLogLocked(t, id, source, line)) == Rows(t)
  {
  }

  lemma RegisterTruthful(s: Sys, id: Id, spec: Spec)
    requires Truthful(s)
    ensures Truthful(DoRegister(s, id, spec))
  {
    if !s.t.Live(id) {
      WroteTruthfully(s, DoRegister(s, id, spec), Registered(id));
    }
  }

  lemma UnregisterTruthful(s: Sys, id: Id)
    requires Truthful(s)
    ensures Truthful(DoUnregister(s, id))
  {
    if id in s.t.entries && !s.t.Live(id) {
      WroteTruthfully(s, DoUnregister(s, id), Unregistered(id));
    }
  }

  lemma StartTruthful(s: Sys, id: Id)
    requires Truthful(s) && (id in s.t.entries ==> s.t.entries[id].flag < |s.t.flags|)
    ensures Truthful(DoStart(s, id))
  {
    if id in s.t.entries && !s.t.Live(id) {
      WroteTruthfully(s, DoStart(s, id), StateChanged(id, Starting));
    }
  }

  lemma CallerKeepsTruthful(s: Sys, a: Act)
    requires Can(s, a) && Truthful(s) && ByCaller(a)
    ensures Truthful(Do(s, a))
  {
    match a
    case Register(id, spec) => RegisterTruthful(s, id, spec);
    case Unregister(id) => UnregisterTruthful(s, id);
    case Start(id) => StartTruthful(s, id);
    case StopLogged(k) =>
      PushTruthful(s, s.(stops := s.stops[k := s.stops[k].(logged := true)]), s.stops[k].id, Stdout,
                   "supervisor: stop requested by user");
    case _ =>
  }

  lemma SetStateTruthful(s: Sys, r: nat, state: ServiceState, run: Run)
    requires Inv(s) && Truthful(s) && r < |s.runs| && run.id == s.runs[r].id && s.runs[r].pc.InFlight()
    requires Admissible(Rows(s.t), StateChanged(run.id, state))
    ensures Truthful(DoSetState(s, r, state, run))
  {
    assert RunInv(s, r);
    SetStateRows(s.t, run.id, state);
    WroteTruthfully(s, DoSetState(s, r, state, run), StateChanged(run.id, state));
  }

  lemma SetStateRows(t: Tables, id: Id, state: ServiceState)
    requires id in t.entries
    ensures Rows(SetStateLocked(t, id, state)) == Observe(Rows(t), StateChanged(id, state))
  {
  }

  lemma PushTruthful(s: Sys, x: Sys, id: Id, source: Which, line: string)
    requires Truthful(s) && x.t == s.t && x.writes == s.writes
    ensures Truthful(Push(x, id, source, line))
  {
    PushKeepsRows(s.t, id, source, line);
    WroteTruthfully(s, Push(x, id, source, line), Log(id));
  }

  lemma RunningTruthful(s: Sys, r: nat)
    requires Inv(s) && Truthful(s) && r < |s.runs| && s.runs[r].pc == AwaitReady(WriteRunning)
    ensures Truthful(DoRunningWritten(s, r))
  {
    assert RunInv(s, r);
    SetStateTruthful(s, r, Running, s.runs[r].(pc := Serve(EmitRunning), up := true));
  }

  lemma TerminalTruthful(s: Sys, r: nat)
    requires Inv(s) && Truthful(s) && r < |s.runs| && s.runs[r].pc.Close? && s.runs[r].pc.close.WriteTerminal?
    ensures Truthful(DoTerminalWritten(s, r))
  {
    assert RunInv(s, r);
    var state := s.runs[r].pc.state;
    SetStateTruthful(s, r, state, s.runs[r].(pc := Close(EmitTerminal, state)));
  }

  lemma PidTruthful(s: Sys, r: nat)
    requires Truthful(s) && r < |s.runs|
    ensures Truthful(DoPidStored(s, r))
  {
    assert Rows(DoPidStored(s, r).t) == Rows(s.t);
  }

  lemma TaskKeepsTruthful(s: Sys, a: Act)
    requires Inv(s) && Can(s, a) && Truthful(s) && !ByCaller(a)
    ensures Truthful(Do(s, a))
  {
    match a
    case LinePushed(r, text) =>
      var run := s.runs[r];
      PushTruthful(s, WithRun(s, r, AfterLog(run, text)), run.id, LogSource(run.pc), LogText(run.pc, text));
    case LineRead(r, which) =>
      var p := PipeOf(s.runs[r].io, which);
      PushTruthful(s, WithRun(s, r, LineTaken(s.runs[r], which)), s.runs[r].id, which, p.written[p.read]);
    case RunningWritten(r) => RunningTruthful(s, r);
    case TerminalWritten(r) => TerminalTruthful(s, r);
    case PidStored(r) => PidTruthful(s, r);
    case _ =>
  }

  // ---- no event is lost or invented ----

  /** One run changes; what leaves or enters its hands is balanced by what is written, sent or held by callers. */
  lemma RunBalance(s: Sys, s': Sys, r: nat, e: Event)
    requires Conserved(s, e) && r < |s.runs| && |s'.runs| == |s.runs| && s'.runs == s.runs[r := s'.runs[r]]
    requires multiset(s'.sent)[e] + s'.callers[e] + Holds(s'.runs[r], e) + multiset(s.writes)[e]
          == multiset(s.sent)[e] + s.callers[e] + Holds(s.runs[r], e) + multiset(s'.writes)[e]
    ensures Conserved(s', e)
  {
    HoldingUpdate(s.runs, r, s'.runs[r], e);
  }

  lemma LastOccurrences(log: seq<Event>, x: Event, e: Event)
    ensures multiset(log + [x])[e] == multiset(log)[e] + if x == e then 1 else 0
  {
  }

  lemma StartKeepsConserved(s: Sys, id: Id, e: Event)
    requires Conserved(s, e) && (id in s.t.entries ==> s.t.entries[id].flag < |s.t.flags|)
    ensures Conserved(DoStart(s, id), e)
  {
    if id in s.t.entries && !s.t.Live(id) {
      var run := NewRun(id, s.t.entries[id].flag, s.t.entries[id].spec);
      HoldingAppend(s.runs, run, e);
      LastOccurrences(s.writes, StateChanged(id, Starting), e);
      assert Holds(run, e) == if e == StateChanged(id, Starting) then 1 else 0;
    }
  }

  lemma StopKeepsConserved(s: Sys, id: Id, e: Event)
    requires Inv(s) && Conserved(s, e) && (id in s.t.entries ==> s.t.entries[id].flag < |s.t.flags|)
    ensures Conserved(DoStop(s, id), e)
  {
    if s.t.Live(id) {
      assert EntryInv(s, id);
      RunBalance(s, DoStop(s, id), s.t.entries[id].control.value, e);
    }
  }

  lemma StopSentKeepsConserved(s: Sys, k: nat, e: Event)
    requires Inv(s) && k < |s.stops| && Conserved(s, e)
    ensures Conserved(DoStopSent(s, k), e)
  {
    assert StopInv(s, k);
    RunBalance(s, DoStopSent(s, k), s.stops[k].chan.value, e);
  }

  /** A caller writes one event and keeps it to send. */
  lemma CallerWriteConserved(s: Sys, s': Sys, x: Event, e: Event)
    requires Conserved(s, e) && s'.runs == s.runs && s'.sent == s.sent
    requires s'.writes == s.writes + [x] && s'.callers == s.callers + multiset{x}
    ensures Conserved(s', e)
  {
    LastOccurrences(s.writes, x, e);
  }

  lemma TablesKeepConserved(s: Sys, a: Act, e: Event)
    requires Can(s, a) && Conserved(s, e) && (a.Register? || a.Unregister? || a.StopLogged?)
    ensures Conserved(Do(s, a), e)
  {
    match a
    case Register(id, _) => if !s.t.Live(id) { CallerWriteConserved(s, Do(s, a), Registered(id), e); }
    case Unregister(id) =>
      if id in s.t.entries && !s.t.Live(id) { CallerWriteConserved(s, Do(s, a), Unregistered(id), e); }
    case StopLogged(k) => CallerWriteConserved(s, Do(s, a), Log(s.stops[k].id), e);
  }

  lemma CallerKeepsConserved(s: Sys, a: Act, e: Event)
    requires Inv(s) && Can(s, a) && Conserved(s, e) && ByCaller(a)
    ensures Conserved(Do(s, a), e)
  {
    match a
    case Start(id) => StartKeepsConserved(s, id, e);
    case Stop(id) => StopKeepsConserved(s, id, e);
    case StopSent(k) => StopSentKeepsConserved(s, k, e);
    case CallerSent(x) => LastOccurrences(s.sent, x, e);
    case Tick(_) =>
    case _ => TablesKeepConserved(s, a, e);
  }

  lemma WriteKeepsConserved(s: Sys, r: nat, state: ServiceState, run: Run, e: Event)
    requires Conserved(s, e) && r < |s.runs| && Unsent(s.runs[r]).None?
    requires Unsent(run) == Some(StateChanged(run.id, state))
    ensures Conserved(DoSetState(s, r, state, run), e)
  {
    RunBalance(s, DoSetState(s, r, state, run), r, e);
  }

  lemma PushKeepsConserved(s: Sys, r: nat, x: Run, source: Which, line: string, e: Event)
    requires Conserved(s, e) && r < |s.runs| && Unsent(x) == Unsent(s.runs[r])
    ensures Conserved(Push(WithRun(s, r, x), x.id, source, line), e)
  {
    RunBalance(s, Push(WithRun(s, r, x), x.id, source, line), r, e);
  }

  lemma SendKeepsConserved(s: Sys, r: nat, e: Event)
    requires Conserved(s, e) && r < |s.runs| && AtEmit(s.runs[r].pc)
    ensures Conserved(DoEventSent(s, r), e)
  {
    RunBalance(s, DoEventSent(s, r), r, e);
  }

  lemma PidKeepsConserved(s: Sys, r: nat, e: Event)
    requires Conserved(s, e) && r < |s.runs| && s.runs[r].pc == Setup(SetPid)
    ensures Conserved(DoPidStored(s, r), e)
  {
    RunBalance(s, DoPidStored(s, r), r, e);
  }

  lemma MoveUnsent(s: Sys, a: Act)
    requires Can(s, a) && (a.Task? || a.Probe? || a.Nature?)
    ensures a.r < |Do(s, a).runs| && Unsent(Do(s, a).runs[a.r]) == Unsent(s.runs[a.r])
  {
  }

  lemma WithinRunUnsent(s: Sys, a: Act)
    requires Can(s, a) && WithinRun(a)
    ensures a.r < |Do(s, a).runs| && Unsent(Do(s, a).runs[a.r]) == Unsent(s.runs[a.r])
  {
    if a.Task? || a.Probe? || a.Nature? {
      MoveUnsent(s, a);
    }
  }

  lemma TaskKeepsConserved(s: Sys, a: Act, e: Event)
    requires Can(s, a) && Conserved(s, e) && !ByCaller(a)
    ensures Conserved(Do(s, a), e)
  {
    if WithinRun(a) {
      WithinRunFrame(s, a);
      WithinRunUnsent(s, a);
      RunBalance(s, Do(s, a), a.r, e);
    } else {
      SharedKeepsConserved(s, a, e);
    }
  }

  lemma LinePushedKeepsConserved(s: Sys, r: nat, text: string, e: Event)
    requires Conserved(s, e) && r < |s.runs| && AtLogPoint(s.runs[r].pc)
    ensures Conserved(DoLinePushed(s, r, text), e)
  {
    var run := s.runs[r];
    PushKeepsConserved(s, r, AfterLog(run, text), LogSource(run.pc), LogText(run.pc, text), e);
  }

  lemma LineReadKeepsConserved(s: Sys, r: nat, which: Which, e: Event)
    requires Conserved(s, e) && r < |s.runs|
    requires PipeOf(s.runs[r].io, which).read < |PipeOf(s.runs[r].io, which).written|
    ensures Conserved(DoLineRead(s, r, which), e)
  {
    var p := PipeOf(s.runs[r].io, which);
    PushKeepsConserved(s, r, LineTaken(s.runs[r], which), which, p.written[p.read], e);
  }

  lemma SharedKeepsConserved(s: Sys, a: Act, e: Event)
    requires Can(s, a) && Conserved(s, e) && !ByCaller(a) && !WithinRun(a)
    ensures Conserved(Do(s, a), e)
  {
    match a
    case EventSent(r) => SendKeepsConserved(s, r, e);
    case PidStored(r) => PidKeepsConserved(s, r, e);
    case LinePushed(r, text) => LinePushedKeepsConserved(s, r, text, e);
    case LineRead(r, which) => LineReadKeepsConserved(s, r, which, e);
    case RunningWritten(r) =>
      WriteKeepsConserved(s, r, Running, s.runs[r].(pc := Serve(EmitRunning), up := true), e);
    case TerminalWritten(r) =>
      WriteKeepsConserved(s, r, s.runs[r].pc.state, s.runs[r].(pc := Close(EmitTerminal, s.runs[r].pc.state)), e);
  }

  lemma {:induction false} AlwaysConserved(acts: seq<Act>, s: Sys, e: Event)
    requires Reached(acts, s)
    ensures Conserved(s, e)
  {
    if |acts| > 0 {
      var init := acts[..|acts| - 1];
      var before := Exec(init).value;
      AlwaysConserved(init, before, e);
      var a := acts[|acts| - 1];
      if ByCaller(a) {
        Always(init, before);
        CallerKeepsConserved(before, a, e);
      } else {
        TaskKeepsConserved(before, a, e);
      }
    }
  }

  lemma {:induction false} AlwaysTruthful(acts: seq<Act>, s: Sys)
    requires Reached(acts, s)
    ensures Truthful(s)
  {
    if |acts| > 0 {
      var init := acts[..|acts| - 1];
      var before := Exec(init).value;
      AlwaysTruthful(init, before);
      Always(init, before);
      if ByCaller(acts[|acts| - 1]) {
        CallerKeepsTruthful(before, acts[|acts| - 1]);
      } else {
        TaskKeepsTruthful(before, acts[|acts| - 1]);
      }
    }
  }

  /**
   * With writes and sends split, in every interleaving: replaying the writes gives exactly the snapshot, the writes
   * are a legal history, and the sent and unsent events together are exactly the events written.
   */
  lemma SplitStreamConserved(acts: seq<Act>, s: Sys)
    requires Reached(acts, s)
    ensures Replay(s.writes) == Rows(s.t) && Legal(s.writes)
    ensures forall e :: multiset(s.sent)[e] + Pending(s, e) == multiset(s.writes)[e]
  {
    AlwaysTruthful(acts, s);
    forall e ensures multiset(s.sent)[e] + Pending(s, e) == multiset(s.writes)[e] {
      AlwaysConserved(acts, s, e);
    }
  }

  // ---- the order of events ----

  ghost predicate Quiet(s: Sys) {
    forall e :: Pending(s, e) == 0
  }

  /** `e` is about the row of `id`; log lines are not. */
  predicate Concerns(e: Event, id: Id) {
    !e.Log? && e.id == id
  }

  /** The events about one row, in order. */
  function Of(log: seq<Event>, id: Id): seq<Event> {
    if |log| == 0 then []
    else if Concerns(log[|log| - 1], id) then Of(log[..|log| - 1], id) + [log[|log| - 1]]
    else Of(log[..|log| - 1], id)
  }

  lemma OfSnoc(log: seq<Event>, e: Event, id: Id)
    ensures Of(log + [e], id) == if Concerns(e, id) then Of(log, id) + [e] else Of(log, id)
  {
    assert (log + [e])[..|log|] == log;
  }

  lemma {:induction false} OfCount(log: seq<Event>, id: Id, e: Event)
    requires Concerns(e, id)
    ensures multiset(Of(log, id))[e] == multiset(log)[e]
  {
    if |log| > 0 {
      var init, last := log[..|log| - 1], log[|log| - 1];
      OfCount(init, id, e);
      assert log == init + [last];
      LastOccurrences(init, last, e);
      LastOccurrences(Of(init, id), last, e);
    }
  }

  /** A row is what the events about it make it. */
  lemma {:induction false} RowOf(log: seq<Event>, id: Id)
    ensures id in Replay(log) <==> id in Replay(Of(log, id))
    ensures id in Replay(log) ==> Replay(log)[id] == Replay(Of(log, id))[id]
  {
    if |log| > 0 {
      var init, last := log[..|log| - 1], log[|log| - 1];
      RowOf(init, id);
      if Concerns(last, id) {
        ReplaySnoc(Of(init, id), last);
      }
    }
  }

  /** Whether an event about a row may come next depends on that row alone. */
  lemma AdmissibleOf(log: seq<Event>, e: Event, id: Id)
    requires Concerns(e, id)
    ensures Admissible(Replay(log), e) == Admissible(Replay(Of(log, id)), e)
  {
    RowOf(log, id);
  }

  lemma {:induction false} LegalOf(log: seq<Event>, id: Id)
    requires Legal(log)
    ensures Legal(Of(log, id))
  {
    if |log| > 0 {
      var init, last := log[..|log| - 1], log[|log| - 1];
      LegalOf(init, id);
      if Concerns(last, id) {
        AdmissibleOf(init, last, id);
        ReplaySnoc(Of(init, id), last);
      }
    }
  }

  /** A stream in which the events about each row are legal is legal. */
  lemma {:induction false} LegalFromEach(log: seq<Event>)
    requires forall id :: Legal(Of(log, id))
    ensures Legal(log)
  {
    if |log| > 0 {
      var init, last := log[..|log| - 1], log[|log| - 1];
      forall id ensures Legal(Of(init, id)) {
        assert Legal(Of(log, id));
        if Concerns(last, id) {
          ReplaySnoc(Of(init, id), last);
        }
      }
      LegalFromEach(init);
      if !last.Log? {
        assert Legal(Of(log, last.id));
        ReplaySnoc(Of(init, last.id), last);
        AdmissibleOf(init, last, last.id);
      }
    }
  }

  /** No event about the row of `id` is written and not sent. */
  ghost predicate QuietFor(s: Sys, id: Id) {
    forall e :: Concerns(e, id) ==> Pending(s, e) == 0
  }

  /** `acts` never writes about `id` while an earlier event about it is unsent: each such write and send act as one. */
  ghost predicate AtomicFor(acts: seq<Act>, id: Id)
    requires Exec(acts).Some?
  {
    |acts| == 0 ||
    var init := acts[..|acts| - 1];
    && AtomicFor(init, id)
    && (Of(Exec(acts).value.writes, id) != Of(Exec(init).value.writes, id) ==> QuietFor(Exec(init).value, id))
  }

  /** The events sent about `id` are those written, in order, but for one that is still to be sent. */
  ghost predicate InOrder(s: Sys, id: Id) {
    var sent, written := Of(s.sent, id), Of(s.writes, id);
    || sent == written
    || (|written| == |sent| + 1 && sent == written[..|sent|])
  }

  /** A step writes one event, or sends one, or neither. */
  ghost predicate OneAtATime(s: Sys, s': Sys) {
    || (s'.writes == s.writes && s'.sent == s.sent)
    || (s'.sent == s.sent && |s'.writes| == |s.writes| + 1 && s'.writes[..|s.writes|] == s.writes)
    || (s'.writes == s.writes && |s'.sent| == |s.sent| + 1 && s'.sent[..|s.sent|] == s.sent)
  }

  lemma StepShape(s: Sys, a: Act)
    requires Can(s, a)
    ensures OneAtATime(s, Do(s, a))
  {
  }

  /** In order, nothing about `id` is unsent exactly when all that was written about it was sent. */
  lemma QuietIffAllSent(s: Sys, id: Id)
    requires InOrder(s, id) && forall e :: Conserved(s, e)
    ensures QuietFor(s, id) <==> Of(s.sent, id) == Of(s.writes, id)
  {
    var sent, written := Of(s.sent, id), Of(s.writes, id);
    forall e | Concerns(e, id) ensures multiset(sent)[e] + Pending(s, e) == multiset(written)[e] {
      assert Conserved(s, e);
      OfCount(s.sent, id, e);
      OfCount(s.writes, id, e);
    }
    if sent != written {
      var last := written[|sent|];
      assert written == sent + [last];
      LastOccurrences(sent, last, last);
      OnlyConcerned(s.writes, id, |sent|);
      assert Pending(s, last) == 1;
    }
  }

  lemma {:induction false} OnlyConcerned(log: seq<Event>, id: Id, i: nat)
    requires i < |Of(log, id)|
    ensures Concerns(Of(log, id)[i], id)
  {
    if i < |Of(log[..|log| - 1], id)| {
      OnlyConcerned(log[..|log| - 1], id, i);
    }
  }

  /** What is sent next about `id` is the one event that was still to be sent. */
  lemma SendInOrder(s: Sys, s': Sys, id: Id, x: Event)
    requires InOrder(s, id) && (forall e :: Conserved(s', e)) && Concerns(x, id)
    requires s'.writes == s.writes && Of(s'.sent, id) == Of(s.sent, id) + [x]
    ensures Of(s'.sent, id) == Of(s'.writes, id)
  {
    var sent, written := Of(s.sent, id), Of(s.writes, id);
    assert Conserved(s', x);
    OfCount(s'.sent, id, x);
    OfCount(s'.writes, id, x);
    LastOccurrences(sent, x, x);
    if sent != written {
      var last := written[|sent|];
      assert written == sent + [last];
      LastOccurrences(sent, last, x);
    }
  }

  lemma StepInOrder(s: Sys, s': Sys, id: Id)
    requires InOrder(s, id) && OneAtATime(s, s') && (forall e :: Conserved(s, e)) && (forall e :: Conserved(s', e))
    requires Of(s'.writes, id) != Of(s.writes, id) ==> QuietFor(s, id)
    ensures InOrder(s', id)
  {
    QuietIffAllSent(s, id);
    if |s'.writes| > |s.writes| {
      var x := s'.writes[|s.writes|];
      assert s'.writes == s.writes + [x];
      OfSnoc(s.writes, x, id);
    } else if |s'.sent| > |s.sent| {
      var x := s'.sent[|s.sent|];
      assert s'.sent == s.sent + [x];
      OfSnoc(s.sent, x, id);
      if Concerns(x, id) {
        SendInOrder(s, s', id, x);
      }
    }
  }

  /** When each write about `id` and its send act as one, the events about it are sent as they were written. */
  lemma {:induction false} AtomicInOrder(acts: seq<Act>, s: Sys, id: Id)
    requires Reached(acts, s) && AtomicFor(acts, id)
    ensures InOrder(s, id)
  {
    if |acts| > 0 {
      var init := acts[..|acts| - 1];
      var before := Exec(init).value;
      AtomicInOrder(init, before, id);
      StepShape(before, acts[|acts| - 1]);
      SplitStreamConserved(init, before);
      SplitStreamConserved(acts, s);
      StepInOrder(before, s, id);
    }
  }

  /**
   * An observer that has everything that was sent sees the row of `id` exactly as the snapshot has it, whenever nothing
   * about `id` is unsent and each write about it and its send acted as one, whatever happened to other ids and to logs.
   */
  lemma AtomicRowIsSnapshot(acts: seq<Act>, s: Sys, id: Id)
    requires Reached(acts, s) && AtomicFor(acts, id) && QuietFor(s, id)
    ensures id in Replay(s.sent) <==> id in Rows(s.t)
    ensures id in Replay(s.sent) ==> Replay(s.sent)[id] == Rows(s.t)[id]
    ensures Of(s.sent, id) == Of(s.writes, id)
  {
    AtomicInOrder(acts, s, id);
    SplitStreamConserved(acts, s);
    QuietIffAllSent(s, id);
    RowOf(s.sent, id);
    RowOf(s.writes, id);
  }

  /** When that holds of every id, the stream as a whole is a legal history that replays to the snapshot. */
  lemma AtomicStreamIsSnapshot(acts: seq<Act>, s: Sys)
    requires Reached(acts, s) && forall id :: AtomicFor(acts, id) && QuietFor(s, id)
    ensures Replay(s.sent) == Rows(s.t) && Legal(s.sent)
  {
    SplitStreamConserved(acts, s);
    forall id
      ensures id in Replay(s.sent) <==> id in Rows(s.t)
      ensures id in Replay(s.sent) ==> Replay(s.sent)[id] == Rows(s.t)[id]
      ensures Legal(Of(s.sent, id))
    {
      AtomicRowIsSnapshot(acts, s, id);
      LegalOf(s.writes, id);
    }
    LegalFromEach(s.sent);
  }

  lemma RegisterThenRemove() returns (acts: seq<Act>, s: Sys)
    ensures Reached(acts, s)
    ensures s.t.entries == map[] && s.runs == [] && s.sent == []
    ensures s.callers == multiset{Registered("a"), Unregistered("a")}
  {
    var a1 := [Register("a", EXAMPLE)];
    acts := a1 + [Unregister("a")];
    assert a1[..0] == [] && acts[..1] == a1;
    var s1 := Do(INITIAL, a1[0]);
    assert Reached(a1, s1);
    s := Do(s1, acts[1]);
  }

  lemma RemovedSentFirst() returns (acts: seq<Act>, s: Sys)
    ensures Reached(acts, s)
    ensures s.t.entries == map[] && s.runs == [] && s.sent == [Unregistered("a")]
    ensures s.callers == multiset{Registered("a")}
  {
    var before, s2 := RegisterThenRemove();
    acts := before + [CallerSent(Unregistered("a"))];
    assert acts[..|before|] == before;
    s := Do(s2, CallerSent(Unregistered("a")));
  }

  /** Without that discipline it fails: a registration's event can overtake the removal that came after it. */
  lemma SplitStreamCanDiffer()
    ensures exists acts, s :: Reached(acts, s) && Quiet(s) && Replay(s.sent) != Rows(s.t)
  {
    var before, s3 := RemovedSentFirst();
    var acts := before + [CallerSent(Registered("a"))];
    assert acts[..|before|] == before;
    var s4 := Do(s3, CallerSent(Registered("a")));
    assert Reached(acts, s4);
    assert s4.callers == multiset{};
    ReplaySnoc(s3.sent, Registered("a"));
    assert "a" in Replay(s4.sent);
    assert Quiet(s4);
  }

  // ---- run numbers ----

  function RunsOf(runs: seq<Run>, id: Id): nat {
    if |runs| == 0 then 0
    else RunsOf(runs[..|runs| - 1], id) + (if runs[|runs| - 1].id == id then 1 else 0)
  }

  lemma {:induction false} RunsOfSameIds(runs: seq<Run>, runs': seq<Run>, id: Id)
    requires |runs| == |runs'| && forall r :: 0 <= r < |runs| ==> runs[r].id == runs'[r].id
    ensures RunsOf(runs, id) == RunsOf(runs', id)
  {
    if |runs| > 0 {
      RunsOfSameIds(runs[..|runs| - 1], runs'[..|runs| - 1], id);
    }
  }

  ghost predicate StartsRun(s: Sys, a: Act) {
    a.Start? && a.id in s.t.entries && !s.t.Live(a.id)
  }

  ghost predicate SameIds(s: Sys, s': Sys) {
    |s'.runs| == |s.runs| && forall r :: 0 <= r < |s.runs| ==> s'.runs[r].id == s.runs[r].id
  }

  /** The last event written, if one was, does not say Starting. */
  ghost predicate NoStartWritten(s: Sys, s': Sys) {
    |s'.writes| > |s.writes| ==>
      var e := s'.writes[|s'.writes| - 1]; e.StateChanged? ==> !e.state.Starting?
  }

  lemma CallerStartsNothing(s: Sys, a: Act)
    requires Inv(s) && Can(s, a) && !StartsRun(s, a) && ByCaller(a)
    ensures SameIds(s, Do(s, a)) && NoStartWritten(s, Do(s, a))
  {
  }

  lemma TaskStartsNothing(s: Sys, a: Act)
    requires Inv(s) && Can(s, a) && !ByCaller(a)
    ensures SameIds(s, Do(s, a)) && NoStartWritten(s, Do(s, a))
  {
    if WithinRun(a) {
      WithinRunFrame(s, a);
    } else {
      assert RunInv(s, a.r);
      SharedStartsNothing(s, a);
    }
  }

  lemma SharedStartsNothing(s: Sys, a: Act)
    requires Can(s, a) && !ByCaller(a) && !WithinRun(a)
    requires a.TerminalWritten? ==> !s.runs[a.r].pc.state.Starting?
    ensures SameIds(s, Do(s, a)) && NoStartWritten(s, Do(s, a))
  {
  }

  lemma StartWrites(s: Sys, a: Act, id: Id)
    requires Can(s, a) && StartsRun(s, a)
    ensures var s' := Do(s, a);
            RunsOf(s'.runs, id) - RunsOf(s.runs, id) == Starts(s'.writes, id) - Starts(s.writes, id)
  {
    var run := NewRun(a.id, s.t.entries[a.id].flag, s.t.entries[a.id].spec);
    assert (s.runs + [run])[..|s.runs|] == s.runs;
    StartsSnoc(s.writes, StateChanged(a.id, Starting), id);
  }

  lemma OtherWrites(s: Sys, s': Sys, id: Id)
    requires SameIds(s, s') && OneAtATime(s, s') && NoStartWritten(s, s')
    ensures RunsOf(s'.runs, id) == RunsOf(s.runs, id) && Starts(s'.writes, id) == Starts(s.writes, id)
  {
    RunsOfSameIds(s.runs, s'.runs, id);
    if |s'.writes| > |s.writes| {
      assert s'.writes == s.writes + [s'.writes[|s.writes|]];
      StartsSnoc(s.writes, s'.writes[|s.writes|], id);
    }
  }

  /** The starts an id shows in the writes are exactly its runs. */
  lemma {:induction false} StartsAreRuns(acts: seq<Act>, s: Sys, id: Id)
    requires Reached(acts, s)
    ensures Starts(s.writes, id) == RunsOf(s.runs, id)
  {
    if |acts| > 0 {
      var init := acts[..|acts| - 1];
      var before := Exec(init).value;
      StartsAreRuns(init, before, id);
      Always(init, before);
      if StartsRun(before, acts[|acts| - 1]) {
        StartWrites(before, acts[|acts| - 1], id);
      } else {
        if ByCaller(acts[|acts| - 1]) {
          CallerStartsNothing(before, acts[|acts| - 1]);
        } else {
          TaskStartsNothing(before, acts[|acts| - 1]);
        }
        StepShape(before, acts[|acts| - 1]);
        OtherWrites(before, s, id);
      }
    }
  }
}
