/**
 * The command readiness probe in time (`crates/openvhost-proc/src/service_task.rs`, `run_command_probe` and
 * `probe_attempt_raced`). The clock counts nanoseconds; what the child, the probes and the scheduler do is a schedule
 * of turns, one per attempt.
 */
module CommandProbe {
  import opened Prelude
  import opened Classify

  const PROBE_RETRY_INTERVAL: nat := 200_000_000

  const NO_ATTEMPT_DETAIL := "probe deadline elapsed before any attempt completed"

  /**
   * Which branch of the attempt's race won, and how long after its start. A `None` status is a failed wait, and
   * `waited` says whether the wait after a kill succeeded. `SpawnFailed` is the attempt that never had a process.
   */
  datatype Race =
    | SpawnFailed(message: string)
    | ProbeEnded(after: nat, status: Option<ExitStatus>, stdout: string, stderr: string)
    | ChildEnded(after: nat, childStatus: Option<ExitStatus>, waited: bool)
    | CutOff(after: nat, stdout: string, stderr: string, waited: bool)

  /** The pause between attempts: slept through (and woken `over` late), or cut short by the child's exit. */
  datatype Pause = Slept(over: nat) | ChildDied(childStatus: Option<ExitStatus>)

  /** `lag` passes before the attempt looks at the clock. */
  datatype Turn = Turn(lag: nat, race: Race, pause: Pause)

  datatype ReadyOutcome =
    | Ready
    | ChildExitedDuringProbe(status: Option<ExitStatus>)
    | ProbeDeadlineElapsed(diagnostics: seq<string>)

  /** A probe process: the turn that spawned it, whether it was killed, and how waiting for it ended, once it has. */
  datatype Proc = Proc(turn: nat, killed: bool, waited: Option<bool>)

  /** What one attempt tells the loop. */
  datatype Attempt =
    | Success
    | Unready(detail: string)
    | ChildExited(status: Option<ExitStatus>)
    | DeadlineElapsed(killed: Option<string>)

  function Digits(n: nat): string {
    if n < 10 then [('0' as int + n) as char] else Digits(n / 10) + [('0' as int + n % 10) as char]
  }

  function Decimal(n: int): string {
    if n < 0 then "-" + Digits(-n) else Digits(n)
  }

  function WithOutput(headline: string, stdout: string, stderr: string): string {
    if stderr != "" then headline + ": " + stderr
    else if stdout != "" then headline + ": " + stdout
    else headline
  }

  function FormatProbeDetail(code: Option<int>, stdout: string, stderr: string): string {
    WithOutput(match code case Some(c) => "probe exited " + Decimal(c) case None => "probe terminated by signal",
               stdout, stderr)
  }

  function FormatDeadlineKillDetail(stdout: string, stderr: string): string {
    WithOutput("probe still running when the deadline elapsed (killed)", stdout, stderr)
  }

  predicate NotReady(argv: seq<string>, race: Race) {
    || argv == []
    || race.SpawnFailed?
    || (race.ProbeEnded? && !(race.status.Some? && race.status.value.Success()))
  }

  function NotReadyDetail(argv: seq<string>, race: Race): string
    requires NotReady(argv, race)
  {
    if argv == [] then "probe argv is empty"
    else match race
      case SpawnFailed(message) => "probe spawn failed: " + message + " — " + argv[0]
      case ProbeEnded(_, status, stdout, stderr) =>
        (match status
         case Some(s) => FormatProbeDetail(s.CodeOf(), stdout, stderr)
         case None => "probe wait failed")
  }

  /** When the turn's race was over; a race lost to the deadline lasted at least that long. */
  function RaceOver(argv: seq<string>, race: Race, now: nat, deadlineAt: nat): nat {
    if argv == [] then now
    else match race
      case SpawnFailed(_) => now
      case ProbeEnded(after, _, _, _) => now + after
      case ChildEnded(after, _, _) => now + after
      case CutOff(after, _, _, _) => if now + after < deadlineAt then deadlineAt else now + after
  }

  function AfterPause(t: nat, deadlineAt: nat, over: nat): nat {
    if t >= deadlineAt then t
    else t + (if PROBE_RETRY_INTERVAL < deadlineAt - t then PROBE_RETRY_INTERVAL else deadlineAt - t) + over
  }

  /** When turn `i` looks at the clock, if every earlier turn went on to the next. */
  function Clock(argv: seq<string>, start: nat, deadlineAt: nat, env: nat -> Turn, i: nat): nat {
    if i == 0 then start + env(0).lag
    else
      var t := RaceOver(argv, env(i - 1).race, Clock(argv, start, deadlineAt, env, i - 1), deadlineAt);
      AfterPause(t, deadlineAt, if env(i - 1).pause.Slept? then env(i - 1).pause.over else 0) + env(i).lag
  }

  /** Turn `i` went on to another attempt. */
  predicate GoesOn(argv: seq<string>, start: nat, deadlineAt: nat, env: nat -> Turn, i: nat) {
    var now := Clock(argv, start, deadlineAt, env, i);
    && now < deadlineAt
    && NotReady(argv, env(i).race)
    && (RaceOver(argv, env(i).race, now, deadlineAt) < deadlineAt ==> env(i).pause.Slept?)
  }

  ghost predicate AllWentOn(argv: seq<string>, start: nat, deadlineAt: nat, env: nat -> Turn, n: nat) {
    forall i :: 0 <= i < n ==> GoesOn(argv, start, deadlineAt, env, i)
  }

  /** Attempts are at least one retry interval apart, up to the deadline. */
  lemma {:induction false} ClockAdvances(argv: seq<string>, start: nat, deadlineAt: nat, env: nat -> Turn, i: nat)
    ensures Clock(argv, start, deadlineAt, env, i) >= start + i * PROBE_RETRY_INTERVAL
         || Clock(argv, start, deadlineAt, env, i) >= deadlineAt
  {
    if i > 0 {
      ClockAdvances(argv, start, deadlineAt, env, i - 1);
    }
  }

  /** Nobody is late: turns and pauses take no longer than they should, and a race ends by the deadline. */
  ghost predicate Prompt(argv: seq<string>, start: nat, deadlineAt: nat, env: nat -> Turn, n: nat) {
    forall i :: 0 <= i <= n ==>
      && env(i).lag == 0 && (env(i).pause.Slept? ==> env(i).pause.over == 0)
      && RaceOver(argv, env(i).race, Clock(argv, start, deadlineAt, env, i), deadlineAt) <= deadlineAt
  }

  /**
   * If nobody is late, an attempt starts 200 ms after the one before it was over, or at the deadline if that comes
   * first: the loop never outlasts its deadline.
   */
  lemma {:induction false} PromptLoopKeepsTime(
    argv: seq<string>, start: nat, deadlineAt: nat, env: nat -> Turn, i: nat)
    requires start <= deadlineAt && Prompt(argv, start, deadlineAt, env, i)
    ensures Clock(argv, start, deadlineAt, env, 0) == start
    ensures i > 0 ==>
              var over := RaceOver(argv, env(i - 1).race, Clock(argv, start, deadlineAt, env, i - 1), deadlineAt);
              Clock(argv, start, deadlineAt, env, i) ==
              if over + 200_000_000 < deadlineAt then over + 200_000_000 else deadlineAt
    ensures Clock(argv, start, deadlineAt, env, i) <= deadlineAt
  {
    if i > 0 {
      PromptLoopKeepsTime(argv, start, deadlineAt, env, i - 1);
    }
  }

  /** The number a decimal text stands for. */
  function Value(digits: string): int {
    if |digits| == 0 then 0
    else Value(digits[..|digits| - 1]) * 10 + (digits[|digits| - 1] as int - '0' as int)
  }

  lemma {:induction false} DigitsStandFor(n: nat)
    ensures Value(Digits(n)) == n && |Digits(n)| > 0
    ensures forall i :: 0 <= i < |Digits(n)| ==> '0' <= Digits(n)[i] <= '9'
    ensures n > 0 ==> Digits(n)[0] != '0'
  {
    if n < 10 {
      assert Digits(n)[..0] == "";
    } else {
      DigitsStandFor(n / 10);
      assert Digits(n)[..|Digits(n)| - 1] == Digits(n / 10);
    }
  }

  /** The exit code of a probe can be read off its detail, and its stderr comes before its stdout. */
  lemma DetailTells(code: int, stdout: string, stderr: string)
    ensures "probe exited " + Decimal(code) <= FormatProbeDetail(Some(code), stdout, stderr)
    ensures if code < 0 then Decimal(code) == "-" + Digits(-code) && Value(Digits(-code)) == -code
            else Decimal(code) == Digits(code) && Value(Digits(code)) == code
    ensures stderr != "" ==>
              forall code' :: FormatProbeDetail(code', stdout, stderr) == FormatProbeDetail(code', "", "") + ": " + stderr
    ensures stderr == "" && stdout != "" ==>
              forall code' :: FormatProbeDetail(code', stdout, stderr) == FormatProbeDetail(code', "", "") + ": " + stdout
  {
    if code < 0 {
      DigitsStandFor(-code);
    } else {
      DigitsStandFor(code);
    }
  }

  /** The detail of the last completed attempt before turn `i`. */
  function DetailBefore(argv: seq<string>, env: nat -> Turn, i: nat): string {
    if i > 0 && NotReady(argv, env(i - 1).race) then NotReadyDetail(argv, env(i - 1).race) else NO_ATTEMPT_DETAIL
  }

  /** What turn `i` ended with, given the detail of the turn before. */
  ghost predicate EndsWith(argv: seq<string>, start: nat, deadlineAt: nat, env: nat -> Turn, i: nat, out: ReadyOutcome) {
    var now := Clock(argv, start, deadlineAt, env, i);
    var race := env(i).race;
    var earlier := DetailBefore(argv, env, i);
    match out
    case Ready =>
      now < deadlineAt && argv != [] && race.ProbeEnded? && race.status.Some? && race.status.value.Success()
    case ChildExitedDuringProbe(status) =>
      && now < deadlineAt
      && (if NotReady(argv, race)
          then RaceOver(argv, race, now, deadlineAt) < deadlineAt && env(i).pause == ChildDied(status)
          else race.ChildEnded? && race.childStatus == status)
    case ProbeDeadlineElapsed(diagnostics) =>
      if now >= deadlineAt then diagnostics == ["probe: " + earlier]
      else
        && argv != [] && race.CutOff?
        && diagnostics == ["probe: " + FormatDeadlineKillDetail(race.stdout, race.stderr)]
  }

  predicate Spawns(argv: seq<string>, race: Race) {
    argv != [] && !race.SpawnFailed?
  }

  /** One of the three waits for the probe process returned an error. */
  predicate WaitFails(race: Race) {
    match race
    case SpawnFailed(_) => false
    case ProbeEnded(_, status, _, _) => status.None?
    case ChildEnded(_, _, waited) => !waited
    case CutOff(_, _, _, waited) => !waited
  }

  /** The probe processes the first `n` turns leave, in order: each spawned one, however its turn ended. */
  function ProcsAfter(argv: seq<string>, env: nat -> Turn, n: nat): seq<Proc> {
    if n == 0 then []
    else
      var race := env(n - 1).race;
      ProcsAfter(argv, env, n - 1) +
      if Spawns(argv, race) then [Proc(n - 1, !race.ProbeEnded?, Some(!WaitFails(race)))] else []
  }

  ghost predicate AllWaited(procs: seq<Proc>) {
    forall i :: 0 <= i < |procs| ==> procs[i].waited.Some?
  }

  /** How many turns made an attempt, when the loop ended in turn `turn`. */
  function Attempts(argv: seq<string>, start: nat, deadlineAt: nat, env: nat -> Turn, turn: nat): nat {
    if Clock(argv, start, deadlineAt, env, turn) < deadlineAt then turn + 1 else turn
  }

  lemma {:induction false} ProcsAreWaited(argv: seq<string>, env: nat -> Turn, n: nat)
    ensures |ProcsAfter(argv, env, n)| <= n
    ensures forall i :: 0 <= i < |ProcsAfter(argv, env, n)| ==>
              var p := ProcsAfter(argv, env, n)[i];
              && p.turn < n && Spawns(argv, env(p.turn).race) && p.waited == Some(!WaitFails(env(p.turn).race))
              && p.killed == !env(p.turn).race.ProbeEnded?
    ensures forall k :: 0 <= k < n && Spawns(argv, env(k).race) ==>
              Proc(k, !env(k).race.ProbeEnded?, Some(!WaitFails(env(k).race))) in ProcsAfter(argv, env, n)
  {
    if n > 0 {
      ProcsAreWaited(argv, env, n - 1);
    }
  }

  /**
   * When the loop has ended, every turn that spawned a probe process has it among the processes, each of them has been
   * waited for, one is left unreaped only if that very wait failed, and only the last turn killed one.
   */
  lemma NoProbeLeft(argv: seq<string>, start: nat, deadlineAt: nat, env: nat -> Turn, turn: nat)
    requires AllWentOn(argv, start, deadlineAt, env, turn)
    ensures var n := Attempts(argv, start, deadlineAt, env, turn);
            var procs := ProcsAfter(argv, env, n);
            && (forall k :: 0 <= k < n && Spawns(argv, env(k).race) ==> exists p :: p in procs && p.turn == k)
            && (forall p :: p in procs ==> p.waited.Some?)
            && (forall p :: p in procs && p.waited == Some(false) ==> WaitFails(env(p.turn).race))
            && (forall p :: p in procs && p.killed ==> p.turn == turn)
            && (forall p :: p in procs && !p.killed ==> env(p.turn).race.ProbeEnded?)
  {
    var n := Attempts(argv, start, deadlineAt, env, turn);
    ProcsAreWaited(argv, env, n);
    var procs := ProcsAfter(argv, env, n);
    forall k | 0 <= k < n && Spawns(argv, env(k).race) ensures exists p :: p in procs && p.turn == k {
      assert Proc(k, !env(k).race.ProbeEnded?, Some(!WaitFails(env(k).race))) in procs;
    }
    forall p | p in procs && p.killed ensures p.turn == turn {
      assert p.turn < turn ==> GoesOn(argv, start, deadlineAt, env, p.turn);
    }
  }

  /** What an attempt says of its race: its own detail when it was killed in flight, none when it never began. */
  predicate Tells(argv: seq<string>, now: nat, deadlineAt: nat, race: Race, result: Attempt) {
    if now >= deadlineAt then result == DeadlineElapsed(None)
    else if NotReady(argv, race) then result == Unready(NotReadyDetail(argv, race))
    else match race
      case ProbeEnded(_, _, _, _) => result == Success
      case ChildEnded(_, status, _) => result == ChildExited(status)
      case CutOff(_, stdout, stderr, _) => result == DeadlineElapsed(Some(FormatDeadlineKillDetail(stdout, stderr)))
  }

  /** What an attempt that ends the loop ends it with. */
  function Ending(result: Attempt, lastDetail: string): ReadyOutcome
    requires !result.Unready?
  {
    match result
    case Success => Ready
    case ChildExited(status) => ChildExitedDuringProbe(status)
    case DeadlineElapsed(killed) =>
      ProbeDeadlineElapsed(["probe: " + match killed case Some(detail) => detail case None => lastDetail])
  }

  lemma AttemptEnds(argv: seq<string>, start: nat, deadlineAt: nat, env: nat -> Turn, turn: nat, result: Attempt)
    requires Tells(argv, Clock(argv, start, deadlineAt, env, turn), deadlineAt, env(turn).race, result)
    requires !result.Unready?
    ensures EndsWith(argv, start, deadlineAt, env, turn, Ending(result, DetailBefore(argv, env, turn)))
  {
  }

  /** `probe_attempt_raced`: `procs` are the probe processes there have been. */
  method ProbeAttemptRaced(argv: seq<string>, now: nat, deadlineAt: nat, turn: nat, race: Race, procs0: seq<Proc>)
    returns (result: Attempt, over: nat, procs: seq<Proc>)
    ensures now >= deadlineAt ==> over == now && procs == procs0
    ensures now < deadlineAt ==> over == RaceOver(argv, race, now, deadlineAt)
    ensures now < deadlineAt ==>
              procs == procs0 + if Spawns(argv, race)
                                then [Proc(turn, !race.ProbeEnded?, Some(!WaitFails(race)))] else []
    ensures AllWaited(procs0) ==> AllWaited(procs)
    ensures Tells(argv, now, deadlineAt, race, result)
  {
    over, procs := now, procs0;
    if now >= deadlineAt {
      return DeadlineElapsed(None), over, procs;
    }
    over := RaceOver(argv, race, now, deadlineAt);
    if argv == [] {
      return Unready("probe argv is empty"), over, procs;
    }
    if race.SpawnFailed? {
      return Unready("probe spawn failed: " + race.message + " — " + argv[0]), over, procs;
    }
    var probe := Proc(turn, false, None);
    match race {
      case ProbeEnded(_, status, stdout, stderr) =>
        probe := probe.(waited := Some(status.Some?));
        result := match status
          case Some(s) => if s.Success() then Success else Unready(FormatProbeDetail(s.CodeOf(), stdout, stderr))
          case None => Unready("probe wait failed");
      case ChildEnded(_, status, waited) =>
        probe := probe.(killed := true);
        probe := probe.(waited := Some(waited));
        result := ChildExited(status);
      case CutOff(_, stdout, stderr, waited) =>
        probe := probe.(killed := true);
        probe := probe.(waited := Some(waited));
        result := DeadlineElapsed(Some(FormatDeadlineKillDetail(stdout, stderr)));
    }
    procs := procs + [probe];
  }

  /**
   * The loop gives up only when its deadline is there: at once if an attempt finds it passed, and otherwise when an
   * attempt still running has been cut off. It is ready only if an attempt begun before the deadline exited with 0.
   */
  lemma NeverGivesUpEarly(
    argv: seq<string>, start: nat, deadlineAt: nat, env: nat -> Turn, turn: nat, out: ReadyOutcome)
    requires EndsWith(argv, start, deadlineAt, env, turn, out)
    ensures var now := Clock(argv, start, deadlineAt, env, turn);
            && (out.ProbeDeadlineElapsed? ==>
                  now >= deadlineAt || (env(turn).race.CutOff? && RaceOver(argv, env(turn).race, now, deadlineAt) >= deadlineAt))
            && (out.Ready? ==> now < deadlineAt && env(turn).race.ProbeEnded? && env(turn).race.status == Some(Code(0)))
  {
  }

  /**
   * The probe loop always ends. It spawns at most `ceil(deadline / 200 ms)` probe processes, and leaves exactly those
   * `NoProbeLeft` speaks of; its answer is the one of the first turn that did not go on, reporting the killed attempt
   * if the deadline caught one and the last completed attempt otherwise.
   */
  method RunCommandProbe(argv: seq<string>, deadline: nat, start: nat, env: nat -> Turn)
    returns (out: ReadyOutcome, turn: nat, procs: seq<Proc>)
    ensures AllWentOn(argv, start, start + deadline, env, turn)
    ensures EndsWith(argv, start, start + deadline, env, turn, out)
    ensures procs == ProcsAfter(argv, env, Attempts(argv, start, start + deadline, env, turn))
    ensures AllWaited(procs)
    ensures |procs| * PROBE_RETRY_INTERVAL < deadline + PROBE_RETRY_INTERVAL
  {
    var deadlineAt := start + deadline;
    var lastDetail := NO_ATTEMPT_DETAIL;
    var now := start + env(0).lag;
    turn, procs := 0, [];
    while true
      invariant now == Clock(argv, start, deadlineAt, env, turn)
      invariant AllWentOn(argv, start, deadlineAt, env, turn)
      invariant lastDetail == DetailBefore(argv, env, turn)
      invariant procs == ProcsAfter(argv, env, turn)
      invariant AllWaited(procs)
      invariant |procs| * PROBE_RETRY_INTERVAL < deadline + PROBE_RETRY_INTERVAL
      decreases if now < deadlineAt then deadlineAt - now else 0, if now < deadlineAt then 1 else 0
    {
      if now < deadlineAt {
        FewProcs(argv, start, deadline, env, turn);
      }
      var attempt, over;
      attempt, over, procs := ProbeAttemptRaced(argv, now, deadlineAt, turn, env(turn).race, procs);
      if !attempt.Unready? {
        AttemptEnds(argv, start, deadlineAt, env, turn, attempt);
        return Ending(attempt, lastDetail), turn, procs;
      }
      lastDetail := attempt.detail;
      var late := 0;
      if over < deadlineAt {
        match env(turn).pause {
          case ChildDied(status) =>
            return ChildExitedDuringProbe(status), turn, procs;
          case Slept(l) =>
            late := l;
        }
      }
      NextTurn(argv, start, deadlineAt, env, turn, over, late);
      turn := turn + 1;
      now := AfterPause(over, deadlineAt, late) + env(turn).lag;
    }
  }

  /** A turn that went on leads to the next. */
  lemma NextTurn(argv: seq<string>, start: nat, deadlineAt: nat, env: nat -> Turn, turn: nat, over: nat, late: nat)
    requires AllWentOn(argv, start, deadlineAt, env, turn)
    requires Clock(argv, start, deadlineAt, env, turn) < deadlineAt && NotReady(argv, env(turn).race)
    requires over == RaceOver(argv, env(turn).race, Clock(argv, start, deadlineAt, env, turn), deadlineAt)
    requires over < deadlineAt ==> env(turn).pause == Slept(late)
    ensures AllWentOn(argv, start, deadlineAt, env, turn + 1)
    ensures Clock(argv, start, deadlineAt, env, turn + 1) ==
            AfterPause(over, deadlineAt, late) + env(turn + 1).lag
    ensures DetailBefore(argv, env, turn + 1) == NotReadyDetail(argv, env(turn).race)
    ensures Clock(argv, start, deadlineAt, env, turn) < Clock(argv, start, deadlineAt, env, turn + 1)
         || Clock(argv, start, deadlineAt, env, turn + 1) >= deadlineAt
  {
    assert GoesOn(argv, start, deadlineAt, env, turn);
  }

  /** One more attempt, made before the deadline, stays within the count. */
  lemma FewProcs(argv: seq<string>, start: nat, deadline: nat, env: nat -> Turn, turn: nat)
    requires Clock(argv, start, start + deadline, env, turn) < start + deadline
    ensures |ProcsAfter(argv, env, turn + 1)| * PROBE_RETRY_INTERVAL < deadline + PROBE_RETRY_INTERVAL
  {
    ClockAdvances(argv, start, start + deadline, env, turn);
    ProcsAreWaited(argv, env, turn);
  }
}
