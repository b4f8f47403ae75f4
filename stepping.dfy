/** The shape shared by every integration loop of the system: apply a step
    function repeatedly, test the new state after each step, and stop at the
    first state the test accepts or when the iteration budget runs out. */
module Stepping {

  /** The state after n applications of f. */
  function Iterate<S>(f: S -> S, s: S, n: nat): S
  {
    if n == 0 then s else f(Iterate(f, s, n - 1))
  }

  /** The states seen before each of the first n steps, oldest first. */
  function Prefix<S>(f: S -> S, s: S, n: nat): (ps: seq<S>)
    ensures |ps| == n
    ensures forall k {:trigger ps[k]} :: 0 <= k < n ==> ps[k] == Iterate(f, s, k)
  {
    if n == 0 then [] else Prefix(f, s, n - 1) + [Iterate(f, s, n - 1)]
  }

  /** The test accepts the state after k steps. */
  predicate StopsAfter<S>(f: S -> S, s0: S, stop: S -> bool, k: nat)
  {
    stop(Iterate(f, s0, k))
  }

  /** Number of steps the loop `for i < limit { s := f(s); if stop(s) break }`
      performs when started in s0. */
  function ExitIndex<S>(f: S -> S, s0: S, stop: S -> bool, limit: int): (n: nat)
    ensures limit <= 0 ==> n == 0
    ensures 0 < limit ==> 1 <= n <= limit
    ensures 0 < n ==> StopsAfter(f, s0, stop, n) || n == limit
    ensures forall k :: 1 <= k < n ==> !StopsAfter(f, s0, stop, k)
  {
    if limit <= 0 then 0 else ExitFrom(f, s0, stop, limit, 0)
  }

  /** ExitIndex, knowing that the first i steps did not stop. */
  function ExitFrom<S>(f: S -> S, s0: S, stop: S -> bool, limit: int, i: nat): (n: nat)
    requires i < limit
    ensures i < n <= limit
    ensures StopsAfter(f, s0, stop, n) || n == limit
    ensures forall k :: i < k < n ==> !StopsAfter(f, s0, stop, k)
    decreases limit - i
  {
    if stop(Iterate(f, s0, i + 1)) || i + 1 == limit then i + 1
    else ExitFrom(f, s0, stop, limit, i + 1)
  }

  /** The loop's step count is the one number with ExitIndex's properties:
      what a loop that stops at step m (or runs out at m == limit) computes. */
  lemma ExitIndexIs<S>(f: S -> S, s0: S, stop: S -> bool, limit: int, m: nat)
    requires 1 <= m <= limit
    requires forall k :: 1 <= k < m ==> !StopsAfter(f, s0, stop, k)
    requires StopsAfter(f, s0, stop, m) || m == limit
    ensures ExitIndex(f, s0, stop, limit) == m
  {
    var n := ExitIndex(f, s0, stop, limit);
    assert m < n ==> !StopsAfter(f, s0, stop, m);
  }

  /** Recording one more state extends the prefix by the current iterate. */
  lemma PrefixAppend<S>(f: S -> S, s: S, n: nat)
    ensures Prefix(f, s, n + 1) == Prefix(f, s, n) + [Iterate(f, s, n)]
  {
  }

  /** One more step of a loop that has done i steps without stopping: the
      new state is the (i+1)-th iterate, and it either ends the loop or, with
      budget left, lets it continue. */
  lemma Advance<S>(f: S -> S, s0: S, stop: S -> bool, limit: int, i: nat, s: S)
    requires i < ExitIndex(f, s0, stop, limit)
    requires s == Iterate(f, s0, i)
    ensures f(s) == Iterate(f, s0, i + 1)
    ensures stop(f(s)) ==> ExitIndex(f, s0, stop, limit) == i + 1
    ensures !stop(f(s)) && i + 1 < limit ==> i + 1 < ExitIndex(f, s0, stop, limit)
  {
    assert StopsAfter(f, s0, stop, i + 1) == stop(f(s));
  }
}
