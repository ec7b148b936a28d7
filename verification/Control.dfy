/**
 * The control channel's verbs over a lossy broadcast (`apps/desktop/src-tauri/src/control.rs`): subscribe, admit, kick,
 * wait. Writes and sends are one step here, so the authoritative rows are the replay of the stream
 * (`SupervisorBroadcast.AtomicStreamIsSnapshot`); everything other actors do arrives as events.
 */
module Control {
  import opened Prelude
  import opened Events

  /** How many events the broadcast channel retains for a slow receiver. */
  const CAPACITY: nat := 256

  datatype Target = ToRunning | ToStopped

  datatype Step = Pending | Arrived | Broken | Diverted

  function StepOf(target: Target, state: ServiceState): Step {
    match (target, state)
    case (ToRunning, Running) => Arrived
    case (ToRunning, Failed(_, _)) => Broken
    case (ToRunning, Stopped) => Diverted
    case (ToRunning, Starting) => Pending
    case (ToStopped, Stopped) => Arrived
    case (ToStopped, Failed(_, _)) => Broken
    case (ToStopped, Running) => Pending
    case (ToStopped, Starting) => Pending
  }

  /** The state a verb is after. */
  function Goal(target: Target): ServiceState {
    match target case ToRunning => Running case ToStopped => Stopped
  }

  /** A state a wait cannot outlast: nothing is alive any more, or a start has got its service running. */
  predicate Ends(target: Target, state: ServiceState) {
    !state.Live() || (target.ToRunning? && state.Running?)
  }

  /** How an ending state answers: reached only when it is the goal, broken exactly when the service failed. */
  predicate AnswerFits(target: Target, state: ServiceState, step: Step) {
    && Ends(target, state) && !step.Pending?
    && (step.Arrived? <==> state == Goal(target)) && (step.Broken? <==> state.Failed?)
  }

  /** A state ends a wait exactly when its step says so, and then with the answer that fits it. */
  lemma StepIsRight(target: Target, state: ServiceState)
    ensures !StepOf(target, state).Pending? <==> Ends(target, state)
    ensures Ends(target, state) ==> AnswerFits(target, state, StepOf(target, state))
  {
  }

  predicate Settled(target: Target, state: ServiceState) {
    match target
    case ToRunning => state.Running?
    case ToStopped => state.Stopped? || state.Failed?
  }

  /** The row `status(id)` reads, if there is one. */
  function Status(log: seq<Event>, id: Id): Option<ServiceState> {
    var rows := Replay(log);
    if id in rows then Some(rows[id]) else None
  }

  /** The authoritative row answers the wait, one way or another. */
  predicate RowResolves(log: seq<Event>, target: Target, id: Id) {
    Status(log, id).Some? && Ends(target, Status(log, id).value)
  }

  predicate RowPending(log: seq<Event>, target: Target, id: Id) {
    Status(log, id).Some? && !Ends(target, Status(log, id).value)
  }

  // ---- the wait loop ----

  /** `at` is the length of the stream at which the answer's state was the authoritative one. */
  datatype Answer =
    | Waiting
    | Resolved(step: Step, state: ServiceState, at: nat)
    | Removed(at: nat)

  /** A wait in progress: the receiver's position and the answer so far. */
  datatype Wait = Wait(pos: nat, answer: Answer)

  /** What arrives while `recv` is pending, and between a lagged `recv` and the re-read of the row. */
  datatype Round = Round(before: seq<Event>, between: seq<Event>)

  predicate Lagged(log: seq<Event>, pos: nat) {
    |log| > pos + CAPACITY
  }

  /** One received event: only the id's own state changes and its removal matter. */
  function Heard(w: Wait, target: Target, id: Id, e: Event): Wait {
    var w := w.(pos := w.pos + 1);
    match e
    case StateChanged(changed, state) =>
      if changed != id || StepOf(target, state).Pending? then w
      else w.(answer := Resolved(StepOf(target, state), state, w.pos))
    case Unregistered(gone) => if gone == id then w.(answer := Removed(w.pos)) else w
    case Registered(_) => w
    case Log(_) => w
  }

  /** The row as re-read after a lag; no row is no answer. */
  function Reread(w: Wait, target: Target, row: Option<ServiceState>, at: nat): Wait {
    match row
    case None => w
    case Some(state) =>
      if StepOf(target, state).Pending? then w else w.(answer := Resolved(StepOf(target, state), state, at))
  }

  /** One iteration of the loop; with nothing to receive, `recv` keeps waiting. */
  function Iterate(log: seq<Event>, w: Wait, target: Target, id: Id, round: Round): (seq<Event>, Wait) {
    var log := log + round.before;
    if Lagged(log, w.pos) then
      var w := w.(pos := |log| - CAPACITY);
      var log := log + round.between;
      (log, Reread(w, target, Status(log, id), |log|))
    else if w.pos < |log| then (log, Heard(w, target, id, log[w.pos]))
    else (log, w)
  }

  /** The loop over a schedule; its end is the deadline. */
  function Iterated(log: seq<Event>, w: Wait, target: Target, id: Id, rounds: seq<Round>): (seq<Event>, Wait) {
    if |rounds| == 0 then (log, w)
    else
      var (log, w) := Iterated(log, w, target, id, rounds[..|rounds| - 1]);
      if w.answer.Waiting? then Iterate(log, w, target, id, rounds[|rounds| - 1]) else (log, w)
  }

  // ---- no lost wakeup ----

  predicate Resolves(target: Target, id: Id, e: Event) {
    || (e.StateChanged? && e.id == id && Ends(target, e.state))
    || e == Unregistered(id)
  }

  ghost predicate Unread(log: seq<Event>, pos: nat, target: Target, id: Id) {
    exists i :: pos <= i < |log| && Resolves(target, id, log[i])
  }

  ghost predicate PendingAt(log: seq<Event>, n: nat, target: Target, id: Id) {
    n <= |log| && RowPending(log[..n], target, id)
  }

  ghost predicate Silent(log: seq<Event>, lo: nat, hi: nat, target: Target, id: Id) {
    forall i :: lo <= i < hi && i < |log| ==> !Resolves(target, id, log[i])
  }

  ghost predicate NotRegistered(log: seq<Event>, lo: nat, hi: nat, id: Id) {
    forall i :: lo <= i < hi && i < |log| ==> log[i] != Registered(id)
  }

  /** At length `n` the row was re-read and missing; its removal at `u` had been dropped, and nothing since answers. */
  ghost predicate LapsedAt(
    log: seq<Event>, pos: nat, target: Target, id: Id, from: nat, start: nat, u: nat, n: nat)
  {
    && from <= u && u + CAPACITY < n && start <= n <= |log|
    && log[u] == Unregistered(id) && NotRegistered(log, u + 1, n, id) && Status(log[..n], id).None?
    && Silent(log, u + 1, pos, target, id)
  }

  ghost predicate Lapsed(log: seq<Event>, pos: nat, target: Target, id: Id, from: nat, start: nat) {
    exists u: nat, n: nat :: LapsedAt(log, pos, target, id, from, start, u, n)
  }

  /** A waiting receiver still has its answer ahead of it, or the row is still pending, or the removal was dropped. */
  ghost predicate Alert(log: seq<Event>, pos: nat, target: Target, id: Id, from: nat, start: nat) {
    Unread(log, pos, target, id) || RowPending(log, target, id) || Lapsed(log, pos, target, id, from, start)
  }

  /** What holds at every turn of a loop that began at length `start`, subscribed at length `from`. */
  ghost predicate WaitOk(log: seq<Event>, w: Wait, target: Target, id: Id, from: nat, start: nat) {
    && from <= w.pos <= |log| && start <= |log|
    && match w.answer
       case Waiting => Alert(log, w.pos, target, id, from, start)
       case Resolved(step, state, at) =>
         from <= at <= |log| && Status(log[..at], id) == Some(state) && AnswerFits(target, state, step)
       case Removed(at) => from < at <= |log| && log[at - 1] == Unregistered(id) && Status(log[..at], id).None?
  }

  /** While a row is pending, the only legal way for it to stop being so is an event that resolves the wait. */
  lemma {:induction false} PendingUntilResolved(log: seq<Event>, m: nat, n: nat, target: Target, id: Id)
    requires Legal(log) && m <= n <= |log| && PendingAt(log, m, target, id)
    ensures PendingAt(log, n, target, id) || exists i :: m <= i < n && Resolves(target, id, log[i])
    decreases n - m
  {
    if m < n && !Resolves(target, id, log[m]) {
      LegalPrefix(log, m + 1);
      assert log[..m + 1] == log[..m] + [log[m]];
      ReplaySnoc(log[..m], log[m]);
      assert PendingAt(log, m + 1, target, id);
      PendingUntilResolved(log, m + 1, n, target, id);
    }
  }

  lemma StatusAfter(log: seq<Event>, n: nat, id: Id)
    requires n < |log|
    ensures Replay(log[..n + 1]) == Observe(Replay(log[..n]), log[n])
    ensures log[n].StateChanged? && log[n].id == id && Legal(log) ==> Status(log[..n + 1], id) == Some(log[n].state)
    ensures log[n] == Unregistered(id) ==> Status(log[..n + 1], id).None?
    ensures Legal(log) ==> Admissible(Replay(log[..n]), log[n])
  {
    assert log[..n + 1] == log[..n] + [log[n]];
    ReplaySnoc(log[..n], log[n]);
    if Legal(log) {
      LegalPrefix(log, n + 1);
    }
  }

  /** From a removal to the next registration there is no row, and nothing that could answer a wait. */
  lemma {:induction false} AbsentIsSilent(log: seq<Event>, u: nat, n: nat, target: Target, id: Id)
    requires Legal(log) && u < n <= |log| && log[u] == Unregistered(id) && NotRegistered(log, u + 1, n, id)
    ensures Status(log[..n], id).None? && Silent(log, u + 1, n, target, id)
    decreases n
  {
    StatusAfter(log, n - 1, id);
    if u + 1 < n {
      AbsentIsSilent(log, u, n - 1, target, id);
    }
  }

  /** A row that was there at some event and is missing now went with a removal that no registration followed. */
  lemma {:induction false} LastRemoval(log: seq<Event>, i: nat, n: nat, id: Id) returns (u: nat)
    requires Legal(log) && i < n <= |log| && Status(log[..n], id).None?
    requires log[i] == Unregistered(id) || Status(log[..i + 1], id).Some?
    ensures i <= u < n && log[u] == Unregistered(id) && NotRegistered(log, u + 1, n, id)
    decreases n
  {
    StatusAfter(log, n - 1, id);
    if Status(log[..n - 1], id).Some? || n - 1 == i {
      u := n - 1;
      assert log[u] == Unregistered(id);
    } else {
      u := LastRemoval(log, i, n - 1, id);
      assert log[n - 1] != Registered(id);
    }
  }

  lemma GrownOk(log: seq<Event>, more: seq<Event>, w: Wait, target: Target, id: Id, from: nat, start: nat)
    requires WaitOk(log, w, target, id, from, start) && w.answer.Waiting? && Legal(log + more)
    ensures WaitOk(log + more, w, target, id, from, start)
  {
    var grown := log + more;
    assert grown[..|log|] == log && grown[..|grown|] == grown;
    if Unread(log, w.pos, target, id) {
      var i :| w.pos <= i < |log| && Resolves(target, id, log[i]);
      assert Resolves(target, id, grown[i]);
    } else if RowPending(log, target, id) {
      PendingUntilResolved(grown, |log|, |grown|, target, id);
    } else {
      var u: nat, n: nat :| LapsedAt(log, w.pos, target, id, from, start, u, n);
      assert grown[..n] == log[..n];
      assert LapsedAt(grown, w.pos, target, id, from, start, u, n);
    }
  }

  lemma SilentHeardOk(log: seq<Event>, w: Wait, target: Target, id: Id, from: nat, start: nat)
    requires WaitOk(log, w, target, id, from, start) && w.answer.Waiting? && w.pos < |log|
    requires !Resolves(target, id, log[w.pos])
    ensures Alert(log, w.pos + 1, target, id, from, start)
  {
    if Unread(log, w.pos, target, id) {
      var i :| w.pos <= i < |log| && Resolves(target, id, log[i]);
      assert i != w.pos;
    } else if !RowPending(log, target, id) {
      var u: nat, n: nat :| LapsedAt(log, w.pos, target, id, from, start, u, n);
      assert LapsedAt(log, w.pos + 1, target, id, from, start, u, n);
    }
  }

  lemma HeardOk(log: seq<Event>, w: Wait, target: Target, id: Id, from: nat, start: nat)
    requires Legal(log) && WaitOk(log, w, target, id, from, start) && w.answer.Waiting? && w.pos < |log|
    ensures WaitOk(log, Heard(w, target, id, log[w.pos]), target, id, from, start)
  {
    StatusAfter(log, w.pos, id);
    if !Resolves(target, id, log[w.pos]) {
      SilentHeardOk(log, w, target, id, from, start);
    }
  }

  /** An alert receiver that skips ahead and finds no row has the removal ahead of it or has skipped it. */
  lemma SkippedOk(log: seq<Event>, w: Wait, pos: nat, target: Target, id: Id, from: nat, start: nat)
    requires Legal(log) && WaitOk(log, w, target, id, from, start) && w.answer.Waiting?
    requires w.pos <= pos && pos + CAPACITY <= |log| && Status(log, id).None?
    ensures Alert(log, pos, target, id, from, start)
  {
    assert log[..|log|] == log;
    var i: nat;
    if Unread(log, w.pos, target, id) {
      i :| w.pos <= i < |log| && Resolves(target, id, log[i]);
      StatusAfter(log, i, id);
    } else {
      var u: nat, n: nat :| LapsedAt(log, w.pos, target, id, from, start, u, n);
      i := u;
    }
    var u := LastRemoval(log, i, |log|, id);
    if u < pos {
      AbsentIsSilent(log, u, |log|, target, id);
      assert LapsedAt(log, pos, target, id, from, start, u, |log|);
    } else {
      assert Resolves(target, id, log[u]);
    }
  }

  lemma IterateOk(log: seq<Event>, w: Wait, target: Target, id: Id, round: Round, from: nat, start: nat)
    requires WaitOk(log, w, target, id, from, start) && w.answer.Waiting?
    requires Legal(Iterate(log, w, target, id, round).0)
    ensures var (log', w') := Iterate(log, w, target, id, round); WaitOk(log', w', target, id, from, start)
  {
    var log1 := log + round.before;
    if Lagged(log1, w.pos) {
      var log2 := log1 + round.between;
      assert log2[..|log2|] == log2 && log + (round.before + round.between) == log2;
      GrownOk(log, round.before + round.between, w, target, id, from, start);
      if Status(log2, id).None? {
        SkippedOk(log2, w, |log1| - CAPACITY, target, id, from, start);
      }
    } else {
      GrownOk(log, round.before, w, target, id, from, start);
      if w.pos < |log1| {
        HeardOk(log1, w, target, id, from, start);
      }
    }
  }

  /** The stream only grows, and what holds of a waiting receiver holds after every schedule. */
  lemma {:induction false} IteratedOk(
    log: seq<Event>, w: Wait, target: Target, id: Id, rounds: seq<Round>, from: nat, start: nat)
    requires WaitOk(log, w, target, id, from, start)
    requires Legal(Iterated(log, w, target, id, rounds).0)
    ensures var (log', w') := Iterated(log, w, target, id, rounds);
            log <= log' && WaitOk(log', w', target, id, from, start)
  {
    if |rounds| > 0 {
      var (log1, w1) := Iterated(log, w, target, id, rounds[..|rounds| - 1]);
      var (log2, w2) := Iterated(log, w, target, id, rounds);
      assert log2[..|log1|] == log1;
      LegalPrefix(log2, |log1|);
      IteratedOk(log, w, target, id, rounds[..|rounds| - 1], from, start);
      if w1.answer.Waiting? {
        IterateOk(log1, w1, target, id, rounds[|rounds| - 1], from, start);
      }
    }
  }

  /** The id was removed, more than a channel's capacity of events went by, and then it was registered again. */
  ghost predicate HiddenAt(log: seq<Event>, target: Target, id: Id, from: nat, start: nat, u: nat, r: nat) {
    && from <= u && u + CAPACITY < r < |log| && start <= r
    && log[u] == Unregistered(id) && log[r] == Registered(id)
    && NotRegistered(log, u + 1, r, id) && Silent(log, u + 1, |log|, target, id)
  }

  ghost predicate HiddenRemoval(log: seq<Event>, target: Target, id: Id, from: nat, start: nat) {
    exists u: nat, r: nat :: HiddenAt(log, target, id, from, start, u, r)
  }

  /** A missing row that is there later was registered in between. */
  lemma {:induction false} FirstRegistration(log: seq<Event>, m: nat, n: nat, id: Id) returns (r: nat)
    requires Legal(log) && m <= n <= |log| && Status(log[..m], id).None? && Status(log[..n], id).Some?
    ensures m <= r < n && log[r] == Registered(id) && NotRegistered(log, m, r, id)
    decreases n - m
  {
    StatusAfter(log, m, id);
    if log[m] == Registered(id) {
      r := m;
    } else {
      r := FirstRegistration(log, m + 1, n, id);
    }
  }

  lemma LostNeedsHiddenRemoval(log: seq<Event>, w: Wait, target: Target, id: Id, from: nat, start: nat)
    requires Legal(log) && WaitOk(log, w, target, id, from, start) && w.answer.Waiting?
    requires RowResolves(log, target, id) && !Unread(log, w.pos, target, id)
    ensures HiddenRemoval(log, target, id, from, start)
  {
    assert log[..|log|] == log;
    var u: nat, n: nat :| LapsedAt(log, w.pos, target, id, from, start, u, n);
    var r := FirstRegistration(log, n, |log|, id);
    forall i | u + 1 <= i < |log| ensures !Resolves(target, id, log[i]) {
      assert i >= w.pos ==> !Resolves(target, id, log[i]);
    }
    assert HiddenAt(log, target, id, from, start, u, r);
  }

  /**
   * No lost wakeup: however long the loop has run, if it is still waiting, the authoritative row resolves the wait, and
   * nobody registered the id since the loop began, then an event that resolves the wait is unread or the receiver is
   * marked lagged. And an answer names a state the id really held, or its removal, after the subscription.
   */
  lemma NoLostWakeup(log: seq<Event>, w: Wait, target: Target, id: Id, rounds: seq<Round>)
    requires w.answer.Waiting? && w.pos <= |log|
    requires Unread(log, w.pos, target, id) || RowPending(log, target, id)
    requires Legal(Iterated(log, w, target, id, rounds).0)
    ensures var (log', w') := Iterated(log, w, target, id, rounds);
            && (w'.answer.Waiting? && RowResolves(log', target, id) && NotRegistered(log', |log|, |log'|, id) ==>
                  Unread(log', w'.pos, target, id) || Lagged(log', w'.pos))
            && (w'.answer.Resolved? ==>
                  && w.pos <= w'.answer.at <= |log'|
                  && Status(log'[..w'.answer.at], id) == Some(w'.answer.state)
                  && AnswerFits(target, w'.answer.state, w'.answer.step))
            && (w'.answer.Removed? ==>
                  && w.pos < w'.answer.at <= |log'| && log'[w'.answer.at - 1] == Unregistered(id))
  {
    IteratedOk(log, w, target, id, rounds, w.pos, |log|);
    var (log', w') := Iterated(log, w, target, id, rounds);
    if w'.answer.Waiting? && RowResolves(log', target, id) && !Unread(log', w'.pos, target, id) {
      LostNeedsHiddenRemoval(log', w', target, id, w.pos, |log|);
    }
  }

  // ---- exactly when a wakeup is lost ----

  /** The schedule ends with the whole stream read, the row answering the wait, and nothing left to wake the waiter. */
  ghost predicate LosesIn(
    log: seq<Event>, w: Wait, target: Target, id: Id, whole: seq<Event>, rounds: seq<Round>)
  {
    var (log', w') := Iterated(log, w, target, id, rounds);
    && log' == whole && w'.answer.Waiting? && RowResolves(whole, target, id)
    && !Unread(whole, w'.pos, target, id) && !Lagged(whole, w'.pos)
  }

  lemma {:induction false} IteratedConcat(
    log: seq<Event>, w: Wait, target: Target, id: Id, first: seq<Round>, second: seq<Round>)
    requires Iterated(log, w, target, id, first).1.answer.Waiting?
    ensures var (log1, w1) := Iterated(log, w, target, id, first);
            Iterated(log, w, target, id, first + second) == Iterated(log1, w1, target, id, second)
  {
    if second == [] {
      assert first + second == first;
    } else {
      var init := second[..|second| - 1];
      assert (first + second)[..|first + second| - 1] == first + init;
      IteratedConcat(log, w, target, id, first, init);
    }
  }

  lemma IteratedSnoc(log: seq<Event>, w: Wait, target: Target, id: Id, rounds: seq<Round>, last: Round)
    ensures var (log1, w1) := Iterated(log, w, target, id, rounds);
            Iterated(log, w, target, id, rounds + [last]) ==
            if w1.answer.Waiting? then Iterate(log1, w1, target, id, last) else (log1, w1)
  {
    assert (rounds + [last])[..|rounds|] == rounds;
  }

  lemma ReadsSilent(log: seq<Event>, pos: nat, target: Target, id: Id)
    requires pos < |log| <= pos + CAPACITY && !Resolves(target, id, log[pos])
    ensures Iterate(log, Wait(pos, Waiting), target, id, Round([], [])) == (log, Wait(pos + 1, Waiting))
  {
    assert log + [] == log;
  }

  /** Reading what is there, one event at a time, when none of it answers. */
  lemma {:induction false} CatchesUp(log: seq<Event>, pos: nat, target: Target, id: Id, n: nat)
    returns (rounds: seq<Round>)
    requires pos + n <= |log| <= pos + CAPACITY && Silent(log, pos, pos + n, target, id)
    ensures Iterated(log, Wait(pos, Waiting), target, id, rounds) == (log, Wait(pos + n, Waiting))
  {
    rounds := [];
    if n > 0 {
      var init := CatchesUp(log, pos, target, id, n - 1);
      IteratedSnoc(log, Wait(pos, Waiting), target, id, init, Round([], []));
      ReadsSilent(log, pos + n - 1, target, id);
      rounds := init + [Round([], [])];
    }
  }

  /** Events that do not answer, each read as soon as it arrives. */
  lemma {:induction false} KeepsUp(log: seq<Event>, target: Target, id: Id, more: seq<Event>)
    returns (rounds: seq<Round>)
    requires Silent(more, 0, |more|, target, id)
    ensures Iterated(log, Wait(|log|, Waiting), target, id, rounds) ==
            (log + more, Wait(|log| + |more|, Waiting))
  {
    rounds := [];
    if more == [] {
      assert log + more == log;
    } else {
      var init, last := more[..|more| - 1], more[|more| - 1];
      var before := KeepsUp(log, target, id, init);
      IteratedSnoc(log, Wait(|log|, Waiting), target, id, before, Round([last], []));
      ArrivesSilent(log + init, target, id, last);
      rounds := before + [Round([last], [])];
      assert log + init + [last] == log + more;
    }
  }

  lemma ArrivesSilent(log: seq<Event>, target: Target, id: Id, last: Event)
    requires !Resolves(target, id, last)
    ensures Iterate(log, Wait(|log|, Waiting), target, id, Round([last], [])) ==
            (log + [last], Wait(|log| + 1, Waiting))
  {
  }

  /** The receiver sleeps through the removal and re-reads the row before it is registered again. */
  lemma SleepsThrough(log: seq<Event>, pos: nat, target: Target, id: Id, early: seq<Event>) returns (rounds: seq<Round>)
    requires log <= early && pos + CAPACITY < |early| && Status(early, id).None?
    ensures Iterated(log, Wait(pos, Waiting), target, id, rounds) == (early, Wait(|early| - CAPACITY, Waiting))
  {
    var round := Round(early[|log|..], []);
    rounds := [round];
    assert rounds[..0] == [];
    assert log + round.before == early && early + [] == early;
    assert Iterated(log, Wait(pos, Waiting), target, id, rounds) == Iterate(log, Wait(pos, Waiting), target, id, round);
  }

  lemma SilentParts(whole: seq<Event>, target: Target, id: Id, u: nat, r: nat)
    requires u + CAPACITY < r < |whole| && Silent(whole, u + 1, |whole|, target, id)
    ensures Silent(whole[..r], r - CAPACITY, r, target, id) && Silent(whole[r..], 0, |whole| - r, target, id)
  {
    forall i | 0 <= i < |whole| - r ensures !Resolves(target, id, whole[r..][i]) {
      assert !Resolves(target, id, whole[r + i]);
    }
  }

  /** Having slept through the removal it keeps up from then on. */
  lemma ReadsPast(log: seq<Event>, pos: nat, target: Target, id: Id, early: seq<Event>, late: seq<Event>)
    returns (rounds: seq<Round>)
    requires log <= early && pos + CAPACITY < |early| && Status(early, id).None?
    requires Silent(early, |early| - CAPACITY, |early|, target, id) && Silent(late, 0, |late|, target, id)
    ensures Iterated(log, Wait(pos, Waiting), target, id, rounds) ==
            (early + late, Wait(|early| + |late|, Waiting))
  {
    var from := |early| - CAPACITY;
    var sleep := SleepsThrough(log, pos, target, id, early);
    var catchUp := CatchesUp(early, from, target, id, CAPACITY);
    assert Iterated(early, Wait(from, Waiting), target, id, catchUp) == (early, Wait(|early|, Waiting)) by {
      assert from + CAPACITY == |early|;
    }
    var keepUp := KeepsUp(early, target, id, late);
    ThreeParts(log, Wait(pos, Waiting), target, id, early, from, sleep, catchUp, keepUp);
    rounds := sleep + catchUp + keepUp;
  }

  lemma HiddenRemovalLoses(log: seq<Event>, pos: nat, target: Target, id: Id, whole: seq<Event>, u: nat, r: nat)
    returns (rounds: seq<Round>)
    requires Legal(whole) && log <= whole && pos <= |log| && RowResolves(whole, target, id)
    requires HiddenAt(whole, target, id, pos, |log|, u, r)
    ensures LosesIn(log, Wait(pos, Waiting), target, id, whole, rounds)
  {
    AbsentIsSilent(whole, u, r, target, id);
    SilentParts(whole, target, id, u, r);
    rounds := ReadsPast(log, pos, target, id, whole[..r], whole[r..]);
    assert whole[..r] + whole[r..] == whole;
  }

  lemma ThreeParts(log: seq<Event>, w: Wait, target: Target, id: Id, early: seq<Event>, pos: nat,
                   sleep: seq<Round>, catchUp: seq<Round>, keepUp: seq<Round>)
    requires Iterated(log, w, target, id, sleep) == (early, Wait(pos, Waiting))
    requires Iterated(early, Wait(pos, Waiting), target, id, catchUp) == (early, Wait(|early|, Waiting))
    ensures Iterated(log, w, target, id, sleep + catchUp + keepUp) ==
            Iterated(early, Wait(|early|, Waiting), target, id, keepUp)
  {
    IteratedConcat(log, w, target, id, sleep, catchUp);
    IteratedConcat(log, w, target, id, sleep + catchUp, keepUp);
  }

  /**
   * Exactly which streams can cost a wait its wakeup: one on which the id is removed, more than 256 events later, and
   * not before the loop began, registered again, and not started since. On every other stream no schedule loses one.
   */
  lemma WakeupLostIff(log: seq<Event>, w: Wait, target: Target, id: Id, whole: seq<Event>)
    requires w.answer.Waiting? && w.pos <= |log|
    requires Unread(log, w.pos, target, id) || RowPending(log, target, id)
    requires Legal(whole) && log <= whole && RowResolves(whole, target, id)
    ensures (exists rounds :: LosesIn(log, w, target, id, whole, rounds))
            <==> HiddenRemoval(whole, target, id, w.pos, |log|)
  {
    forall rounds | LosesIn(log, w, target, id, whole, rounds)
      ensures HiddenRemoval(whole, target, id, w.pos, |log|)
    {
      IteratedOk(log, w, target, id, rounds, w.pos, |log|);
      LostNeedsHiddenRemoval(whole, Iterated(log, w, target, id, rounds).1, target, id, w.pos, |log|);
    }
    if HiddenRemoval(whole, target, id, w.pos, |log|) {
      var u: nat, r: nat :| HiddenAt(whole, target, id, w.pos, |log|, u, r);
      var rounds := HiddenRemovalLoses(log, w.pos, target, id, whole, u, r);
    }
  }

  // ---- the verbs ----

  /** Everything other actors do during one verb, cut at the points where this one looks. */
  datatype Script = Script(
    beforeSnapshot: seq<Event>, beforeKick: seq<Event>, beforeRow: seq<Event>, rounds: seq<Round>)

  /** As for `Answer`, `at` is the length of the stream at which the named state was the authoritative one. */
  datatype Outcome =
    | Reached(state: ServiceState, at: nat, changed: bool)
    | UnknownService(at: nat)
    | OperationFailed(state: ServiceState, at: nat)
    | TimedOut(last: Wait)

  ghost predicate StateAt(log: seq<Event>, n: nat, id: Id, state: ServiceState) {
    n <= |log| && Status(log[..n], id) == Some(state)
  }

  /** A row that was not Running and is Running now was Starting in between. */
  lemma {:induction false} StartingBeforeRunning(log: seq<Event>, k: nat, id: Id) returns (j: nat)
    requires Legal(log) && k <= |log| && StateAt(log, |log|, id, Running) && !StateAt(log, k, id, Running)
    ensures k <= j <= |log| && StateAt(log, j, id, Starting)
  {
    assert log[..|log|] == log;
    var last := |log| - 1;
    var init := log[..last];
    assert log == init + [log[last]];
    ReplaySnoc(init, log[last]);
    if StateAt(init, last, id, Running) {
      assert init[..k] == log[..k];
      assert init[..last] == init;
      j := StartingBeforeRunning(init, k, id);
      assert init[..j] == log[..j];
    } else {
      assert init[..last] == init;
      j := last;
    }
  }

  /** Admission and kick leave the wait alert: the row was pending at some moment since the subscription. */
  lemma AdmittedIsAlert(log: seq<Event>, pos: nat, k: nat, target: Target, id: Id, before: ServiceState)
    requires Legal(log) && pos <= k <= |log| && StateAt(log, k, id, before) && !Settled(target, before)
    requires target.ToRunning? ==> Status(log, id).Some? && Status(log, id).value.Live()
    ensures Unread(log, pos, target, id) || RowPending(log, target, id)
  {
    var j := k;
    assert log[..|log|] == log;
    if target.ToRunning? {
      j := |log|;
      if Status(log, id).value.Running? {
        j := StartingBeforeRunning(log, k, id);
      }
    }
    assert PendingAt(log, j, target, id);
    PendingUntilResolved(log, j, |log|, target, id);
  }

  lemma {:induction false} AnswerStands(
    log: seq<Event>, w: Wait, target: Target, id: Id, rounds: seq<Round>, n: nat)
    requires n <= |rounds| && !Iterated(log, w, target, id, rounds[..n]).1.answer.Waiting?
    ensures Iterated(log, w, target, id, rounds) == Iterated(log, w, target, id, rounds[..n])
    decreases |rounds|
  {
    if n == |rounds| {
      assert rounds[..n] == rounds;
    } else {
      var init := rounds[..|rounds| - 1];
      assert init[..n] == rounds[..n];
      AnswerStands(log, w, target, id, init, n);
    }
  }

  method AwaitSettled(log0: seq<Event>, w0: Wait, target: Target, id: Id, rounds: seq<Round>)
    returns (w: Wait, log: seq<Event>)
    requires w0.answer.Waiting?
    ensures (log, w) == Iterated(log0, w0, target, id, rounds)
  {
    w, log := w0, log0;
    var n := 0;
    while n < |rounds|
      invariant 0 <= n <= |rounds| && w.answer.Waiting?
      invariant (log, w) == Iterated(log0, w0, target, id, rounds[..n])
    {
      assert rounds[..n + 1][..n] == rounds[..n];
      var round := rounds[n];
      log := log + round.before;
      if Lagged(log, w.pos) {
        w := w.(pos := |log| - CAPACITY);
        log := log + round.between;
        w := Reread(w, target, Status(log, id), |log|);
      } else if w.pos < |log| {
        w := Heard(w, target, id, log[w.pos]);
      }
      n := n + 1;
      if !w.answer.Waiting? {
        AnswerStands(log0, w0, target, id, rounds, n);
        return;
      }
    }
    assert rounds[..n] == rounds;
  }

  /** What an outcome claims, for a verb that subscribed when the stream had length `from`. */
  ghost predicate OutcomeOk(out: Outcome, log: seq<Event>, target: Target, id: Id, wait: bool, from: nat) {
    match out
    case Reached(state, at, changed) =>
      && from <= at && StateAt(log, at, id, state)
      && (target.ToRunning? && (wait || !changed) ==> state.Running?)
      && (target.ToStopped? && wait && changed ==> state.Stopped?)
      && (target.ToStopped? && !changed ==> !state.Live())
    case UnknownService(at) => from <= at <= |log| && Status(log[..at], id).None?
    case OperationFailed(state, at) =>
      && from <= at && StateAt(log, at, id, state)
      && (state.Failed? || (target.ToRunning? && state.Stopped?))
    case TimedOut(last) =>
      && wait && from <= last.pos <= |log| && last.answer.Waiting?
      && (RowResolves(log, target, id) && !HiddenRemoval(log, target, id, from, from) ==>
            Unread(log, last.pos, target, id) || Lagged(log, last.pos))
  }

  /** `start` or `stop` at the supervisor: a start of an idle service writes Starting, a stop only asks. */
  function Kicked(log: seq<Event>, target: Target, id: Id, state: ServiceState): seq<Event> {
    match target
    case ToRunning => if state.Live() then log else log + [StateChanged(id, Starting), Log(id)]
    case ToStopped => if state.Live() then log + [Log(id)] else log
  }

  /** The end of the wait as the verb reports it. */
  function Answered(w: Wait): Outcome {
    match w.answer
    case Waiting => TimedOut(w)
    case Removed(at) => UnknownService(at)
    case Resolved(step, state, at) => if step.Arrived? then Reached(state, at, true) else OperationFailed(state, at)
  }

  /** One verb as a function of what others do: subscribe, admit, kick, wait. */
  function Verb(log0: seq<Event>, target: Target, id: Id, wait: bool, script: Script): (Outcome, seq<Event>) {
    var shot := log0 + script.beforeSnapshot;
    match Status(shot, id)
    case None => (UnknownService(|shot|), shot)
    case Some(before) =>
      if Settled(target, before) then (Outcome.Reached(before, |shot|, false), shot)
      else
        var admitted := shot + script.beforeKick;
        match Status(admitted, id)
        case None => (UnknownService(|admitted|), admitted)
        case Some(row) =>
          var kicked := Kicked(admitted, target, id, row);
          if !wait then
            var log := kicked + script.beforeRow;
            match Status(log, id)
            case None => (Outcome.Reached(before, |shot|, true), log)
            case Some(now) => (Outcome.Reached(now, |log|, true), log)
          else
            var (log, w) := Iterated(kicked, Wait(|log0|, Waiting), target, id, script.rounds);
            (Answered(w), log)
  }

  lemma AwaitedOk(log0: seq<Event>, pos: nat, k: nat, target: Target, id: Id, before: ServiceState, rounds: seq<Round>)
    requires pos <= k <= |log0| && StateAt(log0, k, id, before) && !Settled(target, before)
    requires target.ToRunning? ==> Status(log0, id).Some? && Status(log0, id).value.Live()
    requires Legal(Iterated(log0, Wait(pos, Waiting), target, id, rounds).0)
    ensures var (log, w) := Iterated(log0, Wait(pos, Waiting), target, id, rounds);
            OutcomeOk(Answered(w), log, target, id, true, pos)
  {
    var w0 := Wait(pos, Waiting);
    var (log, w) := Iterated(log0, w0, target, id, rounds);
    IteratedGrows(log0, w0, target, id, rounds);
    assert log[..|log0|] == log0;
    LegalPrefix(log, |log0|);
    AdmittedIsAlert(log0, pos, k, target, id, before);
    IteratedOk(log0, w0, target, id, rounds, pos, |log0|);
    if w.answer.Waiting? && RowResolves(log, target, id) && !Unread(log, w.pos, target, id) {
      LostNeedsHiddenRemoval(log, w, target, id, pos, |log0|);
      var u: nat, r: nat :| HiddenAt(log, target, id, pos, |log0|, u, r);
      assert HiddenAt(log, target, id, pos, pos, u, r);
    }
  }

  /** What the snapshot decides: an unknown id, or nothing to do, and then the supervisor is not touched. */
  ghost predicate AdmissionOk(shot: seq<Event>, out: Outcome, log: seq<Event>, target: Target, id: Id) {
    var row := Status(shot, id);
    && (row.None? ==> out == UnknownService(|shot|) && log == shot)
    && ((out.Reached? && !out.changed) <==>
          row.Some? && match target case ToRunning => row.value.Running? case ToStopped => !row.value.Live())
    && (out.Reached? && !out.changed ==> out.state == row.value && out.at == |shot| && log == shot)
  }

  /** The events a verb itself causes, on a row it finds in `state`: those of one start, of one stop request, or none. */
  predicate IsKick(kick: seq<Event>, target: Target, id: Id, state: ServiceState) {
    match target
    case ToRunning => if state.Starting? || state.Running? then kick == [] else kick == [StateChanged(id, Starting), Log(id)]
    case ToStopped => if state.Starting? || state.Running? then kick == [Log(id)] else kick == []
  }

  /**
   * A verb that is admitted kicks once, after what others did before it; without `wait` it answers with the row as it
   * then stands, or as it stood before if that is gone.
   */
  lemma VerbKicks(log0: seq<Event>, target: Target, id: Id, wait: bool, script: Script)
    requires var row := Status(log0 + script.beforeSnapshot, id); row.Some? && !Settled(target, row.value)
    ensures var (out, log) := Verb(log0, target, id, wait, script);
            var admitted := log0 + script.beforeSnapshot + script.beforeKick;
            match Status(admitted, id)
            case None => out == UnknownService(|admitted|) && log == admitted
            case Some(state) =>
              exists kick ::
                && IsKick(kick, target, id, state)
                && admitted + kick <= log
                && (!wait ==>
                      && log == admitted + kick + script.beforeRow && out.Reached? && out.changed
                      && out.state == (if Status(log, id).Some? then Status(log, id).value
                                       else Status(log0 + script.beforeSnapshot, id).value))
  {
    var admitted := log0 + script.beforeSnapshot + script.beforeKick;
    if Status(admitted, id).Some? {
      var state := Status(admitted, id).value;
      var kicked := Kicked(admitted, target, id, state);
      var kick := kicked[|admitted|..];
      KickKeepsLive(admitted, target, id, state);
      assert kicked == admitted + kick && IsKick(kick, target, id, state);
      if wait {
        IteratedGrows(kicked, Wait(|log0|, Waiting), target, id, script.rounds);
      }
    }
  }

  /** Whatever a verb answers is true, for every script of what others do. */
  lemma VerbOk(log0: seq<Event>, target: Target, id: Id, wait: bool, script: Script)
    ensures var (out, log) := Verb(log0, target, id, wait, script);
            log0 <= log && (Legal(log) ==> OutcomeOk(out, log, target, id, wait, |log0|))
    ensures var (out, log) := Verb(log0, target, id, wait, script);
            AdmissionOk(log0 + script.beforeSnapshot, out, log, target, id)
  {
    var shot := log0 + script.beforeSnapshot;
    assert shot[..|shot|] == shot;
    var row := Status(shot, id);
    if row.Some? && !Settled(target, row.value) {
      var admitted := shot + script.beforeKick;
      assert admitted[..|admitted|] == admitted && admitted[..|shot|] == shot;
      if Status(admitted, id).Some? {
        KickedOk(log0, shot, admitted, target, id, wait, script, row.value);
      }
    }
  }

  /** The same, once the kick has been dispatched. */
  lemma KickedOk(log0: seq<Event>, shot: seq<Event>, admitted: seq<Event>, target: Target, id: Id, wait: bool,
                 script: Script, before: ServiceState)
    requires log0 <= shot <= admitted && admitted == shot + script.beforeKick && shot == log0 + script.beforeSnapshot
    requires Status(shot, id) == Some(before) && !Settled(target, before) && Status(admitted, id).Some?
    ensures var (out, log) := Verb(log0, target, id, wait, script);
            log0 <= log && (Legal(log) ==> OutcomeOk(out, log, target, id, wait, |log0|))
  {
    var kicked := Kicked(admitted, target, id, Status(admitted, id).value);
    KickKeepsLive(admitted, target, id, Status(admitted, id).value);
    assert kicked[..|shot|] == shot;
    if wait {
      IteratedGrows(kicked, Wait(|log0|, Waiting), target, id, script.rounds);
      if Legal(Iterated(kicked, Wait(|log0|, Waiting), target, id, script.rounds).0) {
        AwaitedOk(kicked, |log0|, |shot|, target, id, before, script.rounds);
      }
    } else {
      var log := kicked + script.beforeRow;
      assert log[..|log|] == log && log[..|shot|] == shot;
    }
  }

  /**
   * One verb: subscribe, admit, kick, wait. Whatever it answers is true of some moment after its subscription, and it
   * times out on a row that answers it only with the answer still unread, or after a removal hidden by lag.
   */
  method Transition(log0: seq<Event>, target: Target, id: Id, wait: bool, script: Script)
    returns (out: Outcome, log: seq<Event>)
    ensures log0 <= log && (out, log) == Verb(log0, target, id, wait, script)
    ensures Legal(log) ==> OutcomeOk(out, log, target, id, wait, |log0|)
  {
    VerbOk(log0, target, id, wait, script);
    var pos := |log0|;
    log := log0 + script.beforeSnapshot;
    var k := |log|;
    var row := Status(log, id);
    if row.None? {
      return UnknownService(k), log;
    }
    var before := row.value;
    if Settled(target, before) {
      return Reached(before, k, false), log;
    }
    log := log + script.beforeKick;
    row := Status(log, id);
    if row.None? {
      return UnknownService(|log|), log;
    }
    log := Kicked(log, target, id, row.value);
    if !wait {
      log := log + script.beforeRow;
      row := Status(log, id);
      return if row.Some? then Reached(row.value, |log|, true) else Reached(before, k, true), log;
    }
    var w;
    w, log := AwaitSettled(log, Wait(pos, Waiting), target, id, script.rounds);
    return Answered(w), log;
  }

  lemma KickKeepsLive(log: seq<Event>, target: Target, id: Id, state: ServiceState)
    requires Status(log, id) == Some(state)
    ensures log <= Kicked(log, target, id, state)
    ensures target.ToRunning? ==>
              var row := Status(Kicked(log, target, id, state), id); row.Some? && row.value.Live()
  {
    ReplaySnoc(log, StateChanged(id, Starting));
    ReplaySnoc(log + [StateChanged(id, Starting)], Log(id));
    assert log + [StateChanged(id, Starting)] + [Log(id)] == log + [StateChanged(id, Starting), Log(id)];
  }

  lemma {:induction false} IteratedGrows(log: seq<Event>, w: Wait, target: Target, id: Id, rounds: seq<Round>)
    ensures log <= Iterated(log, w, target, id, rounds).0
  {
    if |rounds| > 0 {
      IteratedGrows(log, w, target, id, rounds[..|rounds| - 1]);
    }
  }

  // ---- a call that loses its wakeup ----

  function Logs(id: Id, n: nat): seq<Event> {
    if n == 0 then [] else Logs(id, n - 1) + [Log(id)]
  }

  lemma {:induction false} LogsAreLogs(id: Id, n: nat)
    ensures |Logs(id, n)| == n && forall i :: 0 <= i < n ==> Logs(id, n)[i] == Log(id)
  {
    if n > 0 {
      LogsAreLogs(id, n - 1);
    }
  }

  lemma LogIsLegal(log: seq<Event>, id: Id)
    requires Legal(log)
    ensures Legal(log + [Log(id)]) && Replay(log + [Log(id)]) == Replay(log)
  {
    ReplaySnoc(log, Log(id));
  }

  lemma OneMoreLog(log: seq<Event>, id: Id, n: nat)
    requires n > 0
    ensures log + Logs(id, n) == log + Logs(id, n - 1) + [Log(id)]
  {
  }

  lemma {:induction false} LogsAreLegal(log: seq<Event>, id: Id, n: nat)
    requires Legal(log)
    ensures Legal(log + Logs(id, n)) && Replay(log + Logs(id, n)) == Replay(log)
  {
    if n == 0 {
      assert log + Logs(id, 0) == log;
    } else {
      LogsAreLegal(log, id, n - 1);
      OneMoreLog(log, id, n);
      LogIsLegal(log + Logs(id, n - 1), id);
    }
  }

  /** A service that came up, and was asked to stop. */
  function Asked(id: Id): seq<Event> {
    [Registered(id), StateChanged(id, Starting), StateChanged(id, Running)] + [Log(id)]
  }

  lemma AskedRows(id: Id)
    ensures Legal(Asked(id)) && Legal(Asked(id)[..3])
    ensures Status(Asked(id), id) == Some(Running) && Status(Asked(id)[..3], id) == Some(Running)
  {
    var e1, e2, e3 := Registered(id), StateChanged(id, Starting), StateChanged(id, Running);
    assert [] + [e1] == [e1] && [e1] + [e2] == [e1, e2] && [e1, e2] + [e3] == [e1, e2, e3];
    ReplaySnoc([], e1);
    ReplaySnoc([e1], e2);
    ReplaySnoc([e1, e2], e3);
    assert Asked(id)[..3] == [e1, e2, e3];
    ReplaySnoc([e1, e2, e3], Log(id));
  }

  /** It stopped and was removed; 256 other lines; then the id is registered again. */
  function ReRegistered(id: Id, other: Id): seq<Event> {
    Asked(id) + [StateChanged(id, Stopped)] + [Unregistered(id)] + Logs(other, CAPACITY) + [Registered(id)]
  }

  lemma ReRegisteredRows(id: Id, other: Id)
    ensures Legal(ReRegistered(id, other)) && Status(ReRegistered(id, other), id) == Some(Stopped)
    ensures |ReRegistered(id, other)| == 263 && HiddenAt(ReRegistered(id, other), ToStopped, id, 3, 4, 5, 262)
  {
    AskedRows(id);
    var stopped := Asked(id) + [StateChanged(id, Stopped)];
    ReplaySnoc(Asked(id), StateChanged(id, Stopped));
    var removed := stopped + [Unregistered(id)];
    ReplaySnoc(stopped, Unregistered(id));
    LogsAreLogs(other, CAPACITY);
    LogsAreLegal(removed, other, CAPACITY);
    ReplaySnoc(removed + Logs(other, CAPACITY), Registered(id));
    assert |removed| == 6 && removed[5] == Unregistered(id);
  }

  /**
   * A `stop` that times out although the service is Stopped, with nothing left to read: the receiver slept through the
   * stop and the removal, re-read a missing row, and ignored the registration.
   */
  lemma LosingCall() returns (script: Script)
    ensures var (out, log) := Verb(Asked("a")[..3], ToStopped, "a", true, script);
            && Legal(log) && out.TimedOut? && Status(log, "a") == Some(Stopped)
            && !Unread(log, out.last.pos, ToStopped, "a") && !Lagged(log, out.last.pos)
  {
    var log0, whole := Asked("a")[..3], ReRegistered("a", "b");
    AskedRows("a");
    ReRegisteredRows("a", "b");
    assert log0 + [] == log0 && log0 + [Log("a")] == Asked("a");
    assert whole[..4] == Asked("a");
    var rounds := HiddenRemovalLoses(Asked("a"), 3, ToStopped, "a", whole, 5, 262);
    script := Script([], [], [], rounds);
    assert Kicked(log0, ToStopped, "a", Running) == Asked("a");
    assert Verb(log0, ToStopped, "a", true, script).1 == whole;
  }

  // ---- restart ----

  ghost predicate NoRunLive(log: seq<Event>, n: nat, id: Id) {
    n <= |log| && Status(log[..n], id).Some? && !Status(log[..n], id).value.Live()
  }

  lemma {:induction false} StartsGrow(log: seq<Event>, m: nat, n: nat, id: Id)
    requires m <= n <= |log|
    ensures Starts(log[..m], id) <= Starts(log[..n], id)
    decreases n - m
  {
    if m < n {
      StartsGrow(log, m, n - 1, id);
      assert log[..n][..n - 1] == log[..n - 1];
    }
  }

  /** Between a moment with no live run and a moment with one, a new run was started. */
  lemma {:induction false} LiveNeedsStart(log: seq<Event>, t: nat, n: nat, id: Id, state: ServiceState)
    requires Legal(log) && NoRunLive(log, t, id) && t <= n && StateAt(log, n, id, state) && state.Live()
    ensures Starts(log[..t], id) < Starts(log[..n], id)
    decreases n - t
  {
    var init := log[..n - 1];
    assert log[..n] == init + [log[n - 1]];
    LegalPrefix(log, n);
    ReplaySnoc(init, log[n - 1]);
    StartsSnoc(init, log[n - 1], id);
    var row := Status(init, id);
    if row.Some? && row.value.Live() {
      LiveNeedsStart(log, t, n - 1, id, row.value);
    } else {
      StartsGrow(log, t, n - 1, id);
    }
  }

  /**
   * `restart` really recycles, whatever others do meanwhile: its start half begins only after a moment `idle` inside
   * the call at which the id had no live run, and a Reached answer with `wait` names a moment at which the id was
   * Running in a later run than any that existed at the call.
   */
  method Restart(log0: seq<Event>, id: Id, wait: bool, stop: Script, start: Script)
    returns (out: Outcome, log: seq<Event>, startedAt: Option<nat>, idle: nat)
    ensures log0 <= log
    ensures Legal(log) && startedAt.Some? ==>
              |log0| <= idle <= startedAt.value <= |log| && NoRunLive(log, idle, id)
    ensures out.Reached? ==> startedAt.Some? && out.changed
    ensures Legal(log) && out.Reached? ==> out.at >= idle && StateAt(log, out.at, id, out.state)
    ensures Legal(log) && out.Reached? && wait ==>
              out.state == Running && Starts(log0, id) < Starts(log[..out.at], id)
  {
    out, log := Transition(log0, ToStopped, id, true, stop);
    startedAt, idle := None, 0;
    if !out.Reached? {
      return;
    }
    idle, startedAt := out.at, Some(|log|);
    ghost var half := log;
    out, log := Transition(log, ToRunning, id, wait, start);
    if out.Reached? {
      out := out.(changed := true);
    }
    if Legal(log) {
      assert log[..|half|] == half;
      LegalPrefix(log, |half|);
      assert half[..idle] == log[..idle];
      if out.Reached? && wait {
        LiveNeedsStart(log, idle, out.at, id, out.state);
        assert log[..|log0|] == log0;
        StartsGrow(log, |log0|, idle, id);
      }
    }
  }
}
