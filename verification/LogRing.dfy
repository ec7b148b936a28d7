/** Bounded log storage (`crates/openvhost-proc/src/log.rs`). */
module LogRing {
  import opened Prelude

  const RING_CAPACITY: nat := 2000
  const STDERR_TAIL: nat := 10

  /** One push on a bounded window: drop the oldest element when the window is exactly full, then append. */
  function Pushed<T>(items: seq<T>, cap: nat, x: T): seq<T> {
    (if |items| == cap && |items| > 0 then items[1..] else items) + [x]
  }

  /** The window after pushing a whole history, oldest first. */
  function PushedAll<T>(cap: nat, history: seq<T>): seq<T> {
    if |history| == 0 then []
    else Pushed(PushedAll(cap, history[..|history| - 1]), cap, history[|history| - 1])
  }

  lemma PushedIsLastN<T>(cap: nat, history: seq<T>)
    requires cap > 0 && |history| > 0
    ensures Pushed(LastN(history[..|history| - 1], cap), cap, history[|history| - 1]) == LastN(history, cap)
  {
    var init, last := history[..|history| - 1], history[|history| - 1];
    assert history == init + [last];
    LastNSnoc(init, last, cap);
  }

  /** For a positive capacity the window is always the last `cap` elements of the history. */
  lemma {:induction false} WindowIsLastN<T>(cap: nat, history: seq<T>)
    requires cap > 0
    ensures PushedAll(cap, history) == LastN(history, cap)
  {
    if |history| > 0 {
      WindowIsLastN(cap, history[..|history| - 1]);
      PushedIsLastN(cap, history);
    }
  }

  /** With capacity zero nothing is ever dropped: the first push leaves length one, which is never the capacity. */
  lemma {:induction false} ZeroCapacityKeepsAll<T>(history: seq<T>)
    ensures PushedAll(0, history) == history
  {
    if |history| > 0 {
      ZeroCapacityKeepsAll(history[..|history| - 1]);
    }
  }

  lemma TailOfWindow<T>(cap: nat, history: seq<T>, n: nat)
    requires cap > 0 && n <= cap
    ensures LastN(PushedAll(cap, history), n) == LastN(history, n)
  {
    WindowIsLastN(cap, history);
    LastNOfLastN(history, n, cap);
  }

  /** The window stays within its capacity on every history if and only if the capacity is positive. */
  lemma BoundedIffPositiveCapacity(cap: nat)
    ensures (forall history: seq<int> :: |PushedAll(cap, history)| <= cap) <==> cap > 0
  {
    if cap > 0 {
      forall history: seq<int> ensures |PushedAll(cap, history)| <= cap {
        WindowIsLastN(cap, history);
      }
    } else {
      ZeroCapacityKeepsAll([7]);
      assert |PushedAll(cap, [7])| == 1;
    }
  }

  class RingBuffer<T> {
    const cap: nat
    var items: seq<T>
    ghost var history: seq<T>

    ghost predicate Valid()
      reads this
    {
      items == PushedAll(cap, history)
    }

    constructor (cap: nat)
      ensures Valid() && this.cap == cap && history == []
    {
      this.cap := cap;
      items := [];
      history := [];
    }

    method Push(line: T)
      requires Valid()
      modifies this
      ensures Valid() && history == old(history) + [line]
      ensures cap > 0 ==> items == LastN(old(history) + [line], cap)
    {
      if |items| == cap && |items| > 0 {
        items := items[1..];
      }
      items := items + [line];
      history := history + [line];
      assert history[..|history| - 1] == old(history);
      if cap > 0 {
        WindowIsLastN(cap, history);
      }
    }

    /** The newest `n` retained lines, oldest first. */
    method Tail(n: nat) returns (lines: seq<T>)
      requires Valid()
      ensures lines == LastN(items, n)
      ensures cap > 0 && n <= cap ==> lines == LastN(history, n)
    {
      lines := if n < |items| then items[|items| - n..] else items;
      if cap > 0 && n <= cap {
        TailOfWindow(cap, history, n);
      }
    }
  }
}
