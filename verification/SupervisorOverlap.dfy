/**
 * Exactly which overlaps of writes and sends mislead an observer. `set_state`, `register` and `unregister` release the
 * lock before they send (`crates/openvhost-proc/src/supervisor.rs`), so a write can come between another's write and
 * its send.
 */
module SupervisorOverlap {
  import opened Prelude
  import opened Events
  import opened ServiceTask
  import opened SupervisorCore
  import opened SupervisorSystem
  import opened SupervisorTheorems
  import opened SupervisorBroadcast

  function Row(v: Table, id: Id): Option<ServiceState> {
    if id in v then Some(v[id]) else None
  }

  /** The row an event leaves for the id it is about. */
  function RowLeft(e: Event): Option<ServiceState>
    requires !e.Log?
  {
    match e
    case StateChanged(_, state) => Some(state)
    case Registered(_) => Some(Stopped)
    case Unregistered(_) => None
  }

  /** The last event about an id decides its row. */
  lemma LastDecides(log: seq<Event>, id: Id)
    requires Of(log, id) != []
    ensures var last := Of(log, id)[|Of(log, id)| - 1]; Concerns(last, id) && Row(Replay(log), id) == RowLeft(last)
  {
    var of := Of(log, id);
    var init, last := of[..|of| - 1], of[|of| - 1];
    OnlyConcerned(log, id, |of| - 1);
    RowOf(log, id);
    assert of == init + [last];
    ReplaySnoc(init, last);
  }

  /** An observer that replays what was sent has the row of the snapshot. */
  ghost predicate Agrees(s: Sys, id: Id) {
    Row(Replay(s.sent), id) == Row(Rows(s.t), id)
  }

  /** However the system goes on, without another write about `id`, once nothing about `id` is unsent its row is right. */
  ghost predicate SettlesRight(s: Sys, id: Id) {
    forall more, t :: ExecFrom(s, more) == Some(t) && Of(t.writes, id) == Of(s.writes, id) && QuietFor(t, id) ==>
                        Agrees(t, id)
  }

  /** One step leads from `s` to `s'`, and it writes `e` about `id`. */
  ghost predicate Writes(s: Sys, s': Sys, id: Id, e: Event) {
    Concerns(e, id) && s'.writes == s.writes + [e] && exists a :: Can(s, a) && Do(s, a) == s'
  }

  /** Every unsent event about `id` leaves the row that `e` leaves. */
  ghost predicate UnsentAgree(s: Sys, id: Id, e: Event)
    requires Concerns(e, id)
  {
    forall x :: Concerns(x, id) && Pending(s, x) > 0 ==> RowLeft(x) == RowLeft(e)
  }

  // ---- the safe direction ----

  lemma {:induction false} SentGrows(s: Sys, more: seq<Act>, t: Sys, id: Id)
    requires ExecFrom(s, more) == Some(t)
    ensures Of(s.sent, id) <= Of(t.sent, id)
  {
    if |more| > 0 {
      var init := more[..|more| - 1];
      var m := ExecFrom(s, init).value;
      SentGrows(s, init, m, id);
      StepShape(m, more[|more| - 1]);
      if |t.sent| > |m.sent| {
        assert t.sent == m.sent + [t.sent[|m.sent|]];
        OfSnoc(m.sent, t.sent[|m.sent|], id);
      }
    }
  }

  lemma InOfConcerns(log: seq<Event>, id: Id, e: Event)
    requires e in Of(log, id)
    ensures Concerns(e, id)
  {
    var i :| 0 <= i < |Of(log, id)| && Of(log, id)[i] == e;
    OnlyConcerned(log, id, i);
  }

  /** When nothing about `id` is unsent, what was sent about it is what was written about it, in some order. */
  lemma QuietSentAll(s: Sys, id: Id)
    requires (forall e :: Conserved(s, e)) && QuietFor(s, id)
    ensures multiset(Of(s.sent, id)) == multiset(Of(s.writes, id))
  {
    forall e ensures multiset(Of(s.sent, id))[e] == multiset(Of(s.writes, id))[e] {
      if Concerns(e, id) {
        assert Conserved(s, e);
        OfCount(s.sent, id, e);
        OfCount(s.writes, id, e);
      } else {
        if e in Of(s.sent, id) {
          InOfConcerns(s.sent, id, e);
        }
        if e in Of(s.writes, id) {
          InOfConcerns(s.writes, id, e);
        }
      }
    }
  }

  /** What was written about `id` beyond what was sent is unsent. */
  lemma BeyondIsUnsent(s: Sys, id: Id, x: Event)
    requires (forall e :: Conserved(s, e)) && Of(s.sent, id) <= Of(s.writes, id)
    requires x in Of(s.writes, id)[|Of(s.sent, id)|..]
    ensures Concerns(x, id) && Pending(s, x) > 0
  {
    var sent, written := Of(s.sent, id), Of(s.writes, id);
    assert written == sent + written[|sent|..];
    InOfConcerns(s.writes, id, x);
    OfCount(s.sent, id, x);
    OfCount(s.writes, id, x);
    assert Conserved(s, x);
  }

  /** Two lists with the same elements and the same beginning have the same elements beyond it. */
  lemma SameBeyond(a: seq<Event>, b: seq<Event>, n: nat)
    requires multiset(a) == multiset(b) && n <= |a| && n <= |b| && a[..n] == b[..n]
    ensures multiset(a[n..]) == multiset(b[n..]) && |a| == |b|
  {
    assert a == a[..n] + a[n..] && b == b[..n] + b[n..];
    assert multiset(a) == multiset(a[..n]) + multiset(a[n..]);
    assert multiset(b) == multiset(a[..n]) + multiset(b[n..]);
    assert multiset(a[n..]) == multiset(a) - multiset(a[..n]) == multiset(b[n..]);
    assert |multiset(a)| == |a| && |multiset(b)| == |b|;
  }

  lemma LastBeyond(a: seq<Event>, b: seq<Event>, e: Event, n: nat)
    requires multiset(a) == multiset(b + [e]) && n <= |a| && n <= |b| && a[..n] == b[..n]
    ensures n < |a| && (a[|a| - 1] == e || a[|a| - 1] in b[n..])
  {
    assert (b + [e])[..n] == b[..n] && (b + [e])[n..] == b[n..] + [e];
    SameBeyond(a, b + [e], n);
    assert a[|a| - 1] == a[n..][|a| - n - 1];
    assert a[|a| - 1] in multiset(a[n..]);
  }

  lemma AgreeingSettles(s: Sys, s': Sys, id: Id, e: Event, t: Sys)
    requires InOrder(s, id) && (forall x :: Conserved(s, x)) && (forall x :: Conserved(t, x))
    requires Concerns(e, id) && s'.writes == s.writes + [e] && UnsentAgree(s, id, e)
    requires Of(t.writes, id) == Of(s'.writes, id) && Of(s.sent, id) <= Of(t.sent, id) && QuietFor(t, id)
    requires Replay(t.writes) == Rows(t.t)
    ensures Agrees(t, id)
  {
    var sent, written := Of(s.sent, id), Of(s.writes, id);
    OfSnoc(s.writes, e, id);
    QuietSentAll(t, id);
    LastBeyond(Of(t.sent, id), written, e, |sent|);
    var last := Of(t.sent, id)[|Of(t.sent, id)| - 1];
    if last != e {
      BeyondIsUnsent(s, id, last);
    }
    LastDecides(t.sent, id);
    LastDecides(t.writes, id);
  }

  /** What is known of every state reached after the write. */
  lemma Afterwards(acts: seq<Act>, s: Sys, s': Sys, id: Id, e: Event, more: seq<Act>, t: Sys)
    requires Reached(acts, s) && Writes(s, s', id, e) && ExecFrom(s', more) == Some(t)
    ensures forall x :: Conserved(t, x)
    ensures Replay(t.writes) == Rows(t.t) && Of(s.sent, id) <= Of(t.sent, id)
  {
    var a :| Can(s, a) && Do(s, a) == s';
    OneMore(acts, s, a);
    ReachedOn(acts + [a], s', more, t);
    SplitStreamConserved(acts + [a] + more, t);
    StepShape(s, a);
    SentGrows(s', more, t, id);
  }

  // ---- the misleading direction ----

  /** Whatever is written and not sent can be sent now. */
  lemma CanSend(s: Sys, e: Event) returns (a: Act)
    requires Pending(s, e) > 0
    ensures Can(s, a) && Do(s, a).sent == s.sent + [e]
    ensures Do(s, a).writes == s.writes && Do(s, a).t == s.t
  {
    if s.callers[e] > 0 {
      a := CallerSent(e);
    } else {
      var r := SomeHolder(s.runs, e);
      a := EventSent(r);
    }
  }

  lemma {:induction false} SomeHolder(runs: seq<Run>, e: Event) returns (r: nat)
    requires RunsHolding(runs, e) > 0
    ensures r < |runs| && Unsent(runs[r]) == Some(e)
  {
    if Holds(runs[|runs| - 1], e) > 0 {
      r := |runs| - 1;
    } else {
      r := SomeHolder(runs[..|runs| - 1], e);
    }
  }

  /** The unsent count of an event, read off what was written and sent. */
  lemma UnsentCount(acts: seq<Act>, s: Sys, id: Id, e: Event)
    requires Reached(acts, s) && Concerns(e, id)
    ensures multiset(Of(s.sent, id))[e] + Pending(s, e) == multiset(Of(s.writes, id))[e]
  {
    SplitStreamConserved(acts, s);
    OfCount(s.sent, id, e);
    OfCount(s.writes, id, e);
  }

  lemma OneMore(acts: seq<Act>, s: Sys, a: Act)
    requires Reached(acts, s) && Can(s, a)
    ensures Reached(acts + [a], Do(s, a))
  {
    assert (acts + [a])[..|acts|] == acts;
  }

  /** In order, there is at most one unsent event about `id`: the last one written. */
  lemma TheUnsentOne(acts: seq<Act>, s: Sys, id: Id, older: Event)
    requires Reached(acts, s) && InOrder(s, id) && Concerns(older, id) && Pending(s, older) > 0
    ensures Of(s.writes, id) == Of(s.sent, id) + [older]
  {
    var sent, written := Of(s.sent, id), Of(s.writes, id);
    UnsentCount(acts, s, id, older);
    assert multiset(written)[older] > multiset(sent)[older];
    assert sent != written;
    var x := written[|sent|];
    assert written == sent + [x];
    LastOccurrences(sent, x, older);
  }

  /** Two unsent events about `id` can be sent in the wrong order. */
  lemma SentReversed(acts: seq<Act>, s: Sys, id: Id, older: Event, e: Event) returns (more: seq<Act>, t: Sys)
    requires Reached(acts, s) && Concerns(e, id) && Concerns(older, id) && e != older
    requires Of(s.writes, id) == Of(s.sent, id) + [older] + [e]
    ensures ExecFrom(s, more) == Some(t) && Reached(acts + more, t)
    ensures t.writes == s.writes && t.t == s.t && Of(t.sent, id) == Of(s.sent, id) + [e] + [older]
  {
    var sent := Of(s.sent, id);
    LastOccurrences(sent, older, e);
    LastOccurrences(sent + [older], e, e);
    LastOccurrences(sent, older, older);
    LastOccurrences(sent + [older], e, older);
    LastOccurrences(sent, e, older);
    UnsentCount(acts, s, id, e);
    var a := CanSend(s, e);
    var m := Do(s, a);
    OneMore(acts, s, a);
    OfSnoc(s.sent, e, id);
    UnsentCount(acts + [a], m, id, older);
    var b := CanSend(m, older);
    OfSnoc(m.sent, older, id);
    assert ExecFrom(s, []) == Some(s);
    more, t := Extend(s, [], s, a);
    more, t := Extend(s, more, m, b);
    ReachedOn(acts, s, more, t);
  }

  /** An older unsent event that leaves another row can be sent last, and then the observer's row stays wrong. */
  lemma OvertakenMisleads(acts: seq<Act>, s: Sys, s': Sys, id: Id, e: Event, older: Event)
    requires Reached(acts, s) && InOrder(s, id) && Writes(s, s', id, e)
    requires Concerns(older, id) && Pending(s, older) > 0 && RowLeft(older) != RowLeft(e)
    ensures !SettlesRight(s', id)
  {
    var a :| Can(s, a) && Do(s, a) == s';
    OneMore(acts, s, a);
    StepShape(s, a);
    TheUnsentOne(acts, s, id, older);
    OfSnoc(s.writes, e, id);
    var more, t := SentReversed(acts + [a], s', id, older, e);
    ReversedIsQuiet(acts + [a] + more, t, id, Of(s.sent, id), older, e);
    SplitStreamConserved(acts + [a] + more, t);
    LastDecides(t.sent, id);
    LastDecides(t.writes, id);
    assert !Agrees(t, id);
  }

  lemma ReversedIsQuiet(acts: seq<Act>, t: Sys, id: Id, sent: seq<Event>, older: Event, e: Event)
    requires Reached(acts, t)
    requires Of(t.writes, id) == sent + [older] + [e] && Of(t.sent, id) == sent + [e] + [older]
    ensures QuietFor(t, id)
  {
    forall x | Concerns(x, id) ensures Pending(t, x) == 0 {
      UnsentCount(acts, t, id, x);
      LastOccurrences(sent, older, x);
      LastOccurrences(sent + [older], e, x);
      LastOccurrences(sent, e, x);
      LastOccurrences(sent + [e], older, x);
    }
  }

  /**
   * Exactly which overlap misleads. Let every earlier write about `id` and its send have acted as one, and let a step
   * now write `e` about `id`. However the system goes on, an observer that has everything sent ends with the row of the
   * snapshot, if and only if every event about `id` that was unsent before the step leaves the same row as `e`.
   */
  lemma OverlapIsSafeIff(acts: seq<Act>, s: Sys, s': Sys, id: Id, e: Event)
    requires Reached(acts, s) && AtomicFor(acts, id) && Writes(s, s', id, e)
    ensures SettlesRight(s', id) <==> UnsentAgree(s, id, e)
  {
    AtomicInOrder(acts, s, id);
    if UnsentAgree(s, id, e) {
      SplitStreamConserved(acts, s);
      forall more, t | ExecFrom(s', more) == Some(t) && Of(t.writes, id) == Of(s'.writes, id) && QuietFor(t, id)
        ensures Agrees(t, id)
      {
        Afterwards(acts, s, s', id, e, more, t);
        AgreeingSettles(s, s', id, e, t);
      }
    } else {
      var older :| Concerns(older, id) && Pending(s, older) > 0 && RowLeft(older) != RowLeft(e);
      OvertakenMisleads(acts, s, s', id, e, older);
    }
  }
}
