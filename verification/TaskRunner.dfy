/** The one-shot runner (`crates/openvhost-proc/src/task.rs`): two pumps, one `wait`, one `Finished`. */
module TaskRunner {
  import opened Prelude
  import opened Classify

  datatype Stream = Stdout | Stderr

  datatype TaskEvent = Line(stream: Stream, text: string) | Finished(code: Option<int>)

  /** `lines` is what the pipe yields before its end or a read error, `sent` how many of them were forwarded. */
  datatype Pump = Pump(lines: seq<string>, sent: nat, done: bool)

  datatype PC = Waiting | JoinOut | JoinErr | SendFinished | Returned(code: Option<int>) | FailedWait | Dropped

  /**
   * `sent` is what the receiver has got, `listening` whether it still exists, `finished` the guard's flag, and `kills`
   * how often the process group was killed.
   */
  datatype State = State(
    out: Pump, err: Pump, pc: PC, sent: seq<TaskEvent>, listening: bool,
    status: Option<ExitStatus>, finished: bool, kills: nat)

  datatype Act =
    | Pumped(stream: Stream)
    | PumpEnded(stream: Stream)
    | ChildWaited(exit: ExitStatus)
    | WaitFailed
    | OutJoined
    | ErrJoined
    | FinishedSent
    | FutureDropped
    | ReceiverGone

  function Spawned(outLines: seq<string>, errLines: seq<string>): State {
    State(Pump(outLines, 0, false), Pump(errLines, 0, false), Waiting, [], true, None, false, 0)
  }

  function PumpOf(s: State, which: Stream): Pump {
    match which case Stdout => s.out case Stderr => s.err
  }

  function WithPump(s: State, which: Stream, p: Pump): State {
    match which case Stdout => s.(out := p) case Stderr => s.(err := p)
  }

  /** The future still exists. */
  predicate Running(pc: PC) {
    pc.Waiting? || pc.JoinOut? || pc.JoinErr? || pc.SendFinished?
  }

  predicate Can(s: State, a: Act) {
    match a
    case Pumped(which) => !PumpOf(s, which).done && PumpOf(s, which).sent < |PumpOf(s, which).lines|
    case PumpEnded(which) => !PumpOf(s, which).done && PumpOf(s, which).sent == |PumpOf(s, which).lines|
    case ChildWaited(_) => s.pc.Waiting?
    case WaitFailed => s.pc.Waiting?
    case OutJoined => s.pc.JoinOut? && s.out.done
    case ErrJoined => s.pc.JoinErr? && s.err.done
    case FinishedSent => s.pc.SendFinished?
    case FutureDropped => Running(s.pc)
    case ReceiverGone => s.listening
  }

  /** Dropping the guard: the group is killed unless `wait` had returned. */
  function DropGuard(s: State, pc: PC): State {
    s.(pc := pc, kills := if s.finished then s.kills else s.kills + 1)
  }

  /** A send to a receiver that is gone fails and delivers nothing. */
  function Sent(s: State, e: TaskEvent): State {
    if s.listening then s.(sent := s.sent + [e]) else s
  }

  function Do(s: State, a: Act): State
    requires Can(s, a)
  {
    match a
    case Pumped(which) =>
      var p := PumpOf(s, which);
      WithPump(Sent(s, Line(which, p.lines[p.sent])), which,
               if s.listening then p.(sent := p.sent + 1) else p.(done := true))
    case PumpEnded(which) => WithPump(s, which, PumpOf(s, which).(done := true))
    case ChildWaited(exit) => s.(pc := JoinOut, status := Some(exit), finished := true)
    case WaitFailed => DropGuard(s, FailedWait)
    case OutJoined => s.(pc := JoinErr)
    case ErrJoined => s.(pc := SendFinished)
    case FinishedSent =>
      var code := if s.status.Some? then s.status.value.CodeOf() else None;
      DropGuard(Sent(s, Finished(code)), Returned(code))
    case FutureDropped => DropGuard(s, Dropped)
    case ReceiverGone => s.(listening := false)
  }

  ghost function Exec(s: State, acts: seq<Act>): Option<State>
    decreases |acts|
  {
    if |acts| == 0 then Some(s)
    else if Can(s, acts[0]) then Exec(Do(s, acts[0]), acts[1..])
    else None
  }

  /** The lines of one stream among the events, in order. */
  function LinesOf(events: seq<TaskEvent>, which: Stream): seq<string> {
    if |events| == 0 then []
    else if events[0].Line? && events[0].stream == which then [events[0].text] + LinesOf(events[1..], which)
    else LinesOf(events[1..], which)
  }

  function FinishedOf(events: seq<TaskEvent>): nat {
    if |events| == 0 then 0 else (if events[0].Finished? then 1 else 0) + FinishedOf(events[1..])
  }

  lemma {:induction false} EventsSnoc(events: seq<TaskEvent>, e: TaskEvent, which: Stream)
    ensures LinesOf(events + [e], which) ==
            LinesOf(events, which) + (if e.Line? && e.stream == which then [e.text] else [])
    ensures FinishedOf(events + [e]) == FinishedOf(events) + (if e.Finished? then 1 else 0)
  {
    if |events| > 0 {
      EventsSnoc(events[1..], e, which);
      assert (events + [e])[1..] == events[1..] + [e];
    }
  }

  ghost predicate PumpOk(p: Pump, listening: bool) {
    p.sent <= |p.lines| && (p.done && listening ==> p.sent == |p.lines|)
  }

  ghost predicate Inv(s: State) {
    && PumpOk(s.out, s.listening) && PumpOk(s.err, s.listening)
    && LinesOf(s.sent, Stdout) == s.out.lines[..s.out.sent]
    && LinesOf(s.sent, Stderr) == s.err.lines[..s.err.sent]
    && (s.pc.JoinErr? || s.pc.SendFinished? || s.pc.Returned? ==> s.out.done)
    && (s.pc.SendFinished? || s.pc.Returned? ==> s.err.done)
    && (s.pc.JoinOut? || s.pc.JoinErr? || s.pc.SendFinished? || s.pc.Returned? ==> s.status.Some?)
    && (s.finished <==> s.status.Some?)
    && (s.pc.Waiting? || s.pc.FailedWait? ==> !s.finished)
    && (s.pc.Returned? ==> s.pc.code == s.status.value.CodeOf())
    && s.kills == (if !Running(s.pc) && !s.finished then 1 else 0)
  }

  /** `Finished` is sent once, last, and only on return. */
  ghost predicate FinishedOk(s: State) {
    && FinishedOf(s.sent) <= (if s.pc.Returned? then 1 else 0)
    && (s.pc.Returned? && s.listening ==>
          FinishedOf(s.sent) == 1 && |s.sent| > 0 && s.sent[|s.sent| - 1] == Finished(s.pc.code))
  }

  lemma StepKeepsInv(s: State, a: Act)
    requires Inv(s) && Can(s, a)
    ensures Inv(Do(s, a))
    ensures Do(s, a).out.lines == s.out.lines && Do(s, a).err.lines == s.err.lines
  {
    match a
    case Pumped(which) =>
      var p := PumpOf(s, which);
      EventsSnoc(s.sent, Line(which, p.lines[p.sent]), Stdout);
      EventsSnoc(s.sent, Line(which, p.lines[p.sent]), Stderr);
    case FinishedSent =>
      EventsSnoc(s.sent, Finished(s.status.value.CodeOf()), Stdout);
      EventsSnoc(s.sent, Finished(s.status.value.CodeOf()), Stderr);
    case _ =>
  }

  lemma StepKeepsFinished(s: State, a: Act)
    requires Inv(s) && FinishedOk(s) && Can(s, a)
    ensures FinishedOk(Do(s, a))
  {
    match a
    case Pumped(which) =>
      var p := PumpOf(s, which);
      EventsSnoc(s.sent, Line(which, p.lines[p.sent]), which);
      assert s.pc.Returned? ==> p.done;
    case FinishedSent => EventsSnoc(s.sent, Finished(s.status.value.CodeOf()), Stdout);
    case _ =>
  }

  lemma {:induction false} Always(s: State, acts: seq<Act>, s': State)
    requires Inv(s) && FinishedOk(s) && Exec(s, acts) == Some(s')
    ensures Inv(s') && FinishedOk(s') && s'.out.lines == s.out.lines && s'.err.lines == s.err.lines
    decreases |acts|
  {
    if |acts| > 0 {
      StepKeepsInv(s, acts[0]);
      StepKeepsFinished(s, acts[0]);
      Always(Do(s, acts[0]), acts[1..], s');
    }
  }

  /** The status is that of the one `wait` that returned. */
  lemma {:induction false} StatusIsWaited(s: State, acts: seq<Act>, s': State)
    requires Inv(s) && Exec(s, acts) == Some(s')
    ensures s.status.Some? ==> s'.status == s.status
    ensures s'.status.Some? ==> s'.status == s.status || ChildWaited(s'.status.value) in acts
    ensures forall exit :: ChildWaited(exit) in acts ==> s'.status == Some(exit)
    decreases |acts|
  {
    if |acts| > 0 {
      StepKeepsInv(s, acts[0]);
      StatusIsWaited(Do(s, acts[0]), acts[1..], s');
      assert acts == [acts[0]] + acts[1..];
    }
  }

  /**
   * For every schedule with a live receiver: a run that returned has delivered an interleaving of all its stdout lines
   * and all its stderr lines, each in order, and then exactly one `Finished`, as the last event, with the code it
   * returns: the child's exit code, or none when a signal ended it. A run that has not returned has sent no `Finished`.
   */
  lemma DeliversAllThenFinished(outLines: seq<string>, errLines: seq<string>, acts: seq<Act>, s: State)
    requires Exec(Spawned(outLines, errLines), acts) == Some(s)
    ensures !s.pc.Returned? ==> FinishedOf(s.sent) == 0
    ensures s.pc.Returned? && s.listening ==>
              && LinesOf(s.sent, Stdout) == outLines && LinesOf(s.sent, Stderr) == errLines
              && FinishedOf(s.sent) == 1
              && |s.sent| > 0 && s.sent[|s.sent| - 1] == Finished(s.pc.code)
    ensures s.pc.Returned? ==>
              && (forall c :: ChildWaited(Code(c)) in acts ==> s.pc.code == Some(c))
              && (ChildWaited(Signal) in acts ==> s.pc.code == None)
              && exists exit :: ChildWaited(exit) in acts
  {
    Always(Spawned(outLines, errLines), acts, s);
    StatusIsWaited(Spawned(outLines, errLines), acts, s);
    if s.pc.Returned? {
      assert ChildWaited(s.status.value) in acts;
    }
  }

  /** Once the future is gone, the process group was killed exactly when `wait` had not returned, and only once. */
  lemma KilledIffNotWaited(outLines: seq<string>, errLines: seq<string>, acts: seq<Act>, s: State)
    requires Exec(Spawned(outLines, errLines), acts) == Some(s)
    ensures Running(s.pc) ==> s.kills == 0
    ensures !Running(s.pc) ==> s.kills == (if s.status.None? then 1 else 0)
    ensures s.pc.Returned? ==> s.kills == 0
    ensures s.pc.FailedWait? ==> s.kills == 1
  {
    Always(Spawned(outLines, errLines), acts, s);
  }

  /** The future can be dropped at any point before it ends, and from then on does nothing more of its own. */
  lemma CanBeDropped(outLines: seq<string>, errLines: seq<string>, acts: seq<Act>, s: State)
    requires Exec(Spawned(outLines, errLines), acts) == Some(s)
    ensures Can(s, FutureDropped) <==> !(s.pc.Returned? || s.pc.FailedWait? || s.pc.Dropped?)
    ensures Can(s, FutureDropped) ==>
              && Do(s, FutureDropped).sent == s.sent
              && Do(s, FutureDropped).kills == (if exists exit :: ChildWaited(exit) in acts then 0 else 1)
              && forall a :: Can(Do(s, FutureDropped), a) ==> a.Pumped? || a.PumpEnded? || a.ReceiverGone?
  {
    Always(Spawned(outLines, errLines), acts, s);
    StatusIsWaited(Spawned(outLines, errLines), acts, s);
    if s.status.Some? {
      assert ChildWaited(s.status.value) in acts;
    }
  }

  lemma FirstLine(events: seq<TaskEvent>, lines: seq<string>, sent: nat)
    requires |events| > 0 && events[0].Line? && sent <= |lines|
    requires LinesOf(events, events[0].stream) == lines[sent..]
    ensures sent < |lines| && events[0].text == lines[sent] && LinesOf(events[1..], events[0].stream) == lines[sent + 1..]
  {
    assert lines[sent..][1..] == lines[sent + 1..];
  }

  /** `s` with `events` sent and every line of both pipes forwarded. */
  function Delivered(s: State, events: seq<TaskEvent>): State {
    s.(sent := s.sent + events, out := s.out.(sent := |s.out.lines|), err := s.err.(sent := |s.err.lines|))
  }

  /** Conversely every interleaving of the two streams is delivered by some schedule. */
  lemma {:induction false} EveryInterleavingHappens(s: State, events: seq<TaskEvent>) returns (acts: seq<Act>)
    requires s.listening && !s.out.done && !s.err.done
    requires s.out.sent <= |s.out.lines| && s.err.sent <= |s.err.lines|
    requires forall i :: 0 <= i < |events| ==> events[i].Line?
    requires LinesOf(events, Stdout) == s.out.lines[s.out.sent..]
    requires LinesOf(events, Stderr) == s.err.lines[s.err.sent..]
    ensures Exec(s, acts) == Some(Delivered(s, events))
    decreases |events|
  {
    acts := [];
    if |events| == 0 {
      assert s.sent + events == s.sent;
      assert |s.out.lines[s.out.sent..]| == 0 && |s.err.lines[s.err.sent..]| == 0;
    } else {
      var which := events[0].stream;
      FirstLine(events, PumpOf(s, which).lines, PumpOf(s, which).sent);
      var first := Pumped(which);
      var rest := EveryInterleavingHappens(Do(s, first), events[1..]);
      acts := [first] + rest;
      FirstAct(s, first, rest);
      assert s.sent + [events[0]] + events[1..] == s.sent + events;
      assert Delivered(Do(s, first), events[1..]) == Delivered(s, events);
    }
  }

  lemma {:induction false} ExecConcat(s: State, first: seq<Act>, second: seq<Act>)
    requires Exec(s, first).Some?
    ensures Exec(s, first + second) == Exec(Exec(s, first).value, second)
    decreases |first|
  {
    if |first| == 0 {
      assert first + second == second;
    } else {
      assert (first + second)[1..] == first[1..] + second;
      ExecConcat(Do(s, first[0]), first[1..], second);
    }
  }

  /** What is left to do once both pumps have forwarded everything. */
  function Ending(exit: ExitStatus): seq<Act> {
    [PumpEnded(Stdout)] + [PumpEnded(Stderr), ChildWaited(exit), OutJoined, ErrJoined, FinishedSent]
  }

  lemma EndingReturns(s: State, exit: ExitStatus)
    requires s.pc.Waiting? && s.listening && !s.out.done && !s.err.done
    requires s.out.sent == |s.out.lines| && s.err.sent == |s.err.lines|
    ensures Exec(s, Ending(exit)).Some?
    ensures var t := Exec(s, Ending(exit)).value;
            t.pc == Returned(exit.CodeOf()) && t.sent == s.sent + [Finished(exit.CodeOf())]
  {
    var s1 := Do(s, PumpEnded(Stdout));
    var s2 := Do(s1, PumpEnded(Stderr));
    var s3 := Do(s2, ChildWaited(exit));
    var s4 := Do(s3, OutJoined);
    var s5 := Do(s4, ErrJoined);
    FirstAct(s5, FinishedSent, []);
    FirstAct(s4, ErrJoined, [FinishedSent]);
    FirstAct(s3, OutJoined, [ErrJoined, FinishedSent]);
    FirstAct(s2, ChildWaited(exit), [OutJoined, ErrJoined, FinishedSent]);
    FirstAct(s1, PumpEnded(Stderr), [ChildWaited(exit), OutJoined, ErrJoined, FinishedSent]);
    FirstAct(s, PumpEnded(Stdout), [PumpEnded(Stderr), ChildWaited(exit), OutJoined, ErrJoined, FinishedSent]);
  }

  lemma FirstAct(s: State, a: Act, rest: seq<Act>)
    requires Can(s, a)
    ensures Exec(s, [a] + rest) == Exec(Do(s, a), rest)
  {
    assert ([a] + rest)[1..] == rest;
  }

  /** Every interleaving of all the lines, followed by the outcome of any exit, is what some whole run delivers. */
  lemma EveryRunHappens(outLines: seq<string>, errLines: seq<string>, events: seq<TaskEvent>, exit: ExitStatus)
    returns (acts: seq<Act>)
    requires forall i :: 0 <= i < |events| ==> events[i].Line?
    requires LinesOf(events, Stdout) == outLines && LinesOf(events, Stderr) == errLines
    ensures Exec(Spawned(outLines, errLines), acts).Some?
    ensures var t := Exec(Spawned(outLines, errLines), acts).value;
            && t.pc == Returned(if exit.Code? then Some(exit.code) else None)
            && t.sent == events + [Finished(t.pc.code)]
  {
    var s := Spawned(outLines, errLines);
    var lines := EveryInterleavingHappens(s, events);
    var delivered := Exec(s, lines).value;
    assert [] + events == events;
    EndingReturns(delivered, exit);
    ExecConcat(s, lines, Ending(exit));
    acts := lines + Ending(exit);
  }
}
