/** Shared wrappers. */
module Prelude {
  datatype Option<+T> = None | Some(value: T)

  datatype Result<+T, +E> = Ok(value: T) | Err(error: E)

  /** The last `n` elements of `s`, or all of them when there are fewer. */
  function LastN<T>(s: seq<T>, n: nat): (r: seq<T>)
    ensures |r| == if |s| < n then |s| else n
    ensures forall i :: 0 <= i < |r| ==> r[i] == s[|s| - |r| + i]
  {
    if |s| <= n then s else s[|s| - n..]
  }

  /** Appending one element to a full window of size `n` drops exactly the oldest one. */
  lemma LastNSnoc<T>(s: seq<T>, x: T, n: nat)
    requires n > 0
    ensures LastN(s + [x], n) ==
            (if |LastN(s, n)| == n then LastN(s, n)[1..] else LastN(s, n)) + [x]
  {
    if |s| < n {
      assert LastN(s + [x], n) == s + [x];
    } else {
      assert LastN(s, n) == s[|s| - n..];
      assert LastN(s + [x], n) == s[|s| - n + 1..] + [x];
    }
  }

  lemma LastNOfLastN<T>(s: seq<T>, n: nat, m: nat)
    requires n <= m
    ensures LastN(LastN(s, m), n) == LastN(s, n)
  {
  }

  const U64_MAX: nat := 0xFFFF_FFFF_FFFF_FFFF

  /** The result of a saturating 64-bit addition whose exact sum is `n`. */
  function Saturating(n: nat): nat {
    if n <= U64_MAX then n else U64_MAX
  }
}
