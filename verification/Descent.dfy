/** A measure that never rises, and falls whenever a need is met, reaches the end of all needs. */
module Descent {

  ghost predicate MetAfter<N(!new)>(meets: (nat, N) -> bool, n: nat, need: N) {
    exists k: nat :: n <= k && meets(k, need)
  }

  ghost predicate Falls<N(!new)>(measure: nat -> nat, need: nat -> N, meets: (nat, N) -> bool, n: nat) {
    && measure(n + 1) <= measure(n)
    && (measure(n + 1) == measure(n) ==> need(n + 1) == need(n) && !meets(n, need(n)))
  }

  lemma {:induction false} NeverRises<N(!new)>(measure: nat -> nat, need: nat -> N, meets: (nat, N) -> bool, done: N, n: nat, k: nat)
    requires forall i: nat :: need(i) != done ==> Falls(measure, need, meets, i)
    requires n <= k && forall i: nat :: n <= i < k ==> need(i) != done
    ensures measure(k) <= measure(n)
    ensures measure(k) == measure(n) ==> need(k) == need(n)
    decreases k
  {
    if n < k {
      NeverRises(measure, need, meets, done, n, k - 1);
      assert Falls(measure, need, meets, k - 1);
    }
  }

  // The need at n may go unmet for a while, but then it stays the same until it is met.
  lemma {:induction false} ReachesDone<N(!new)>(measure: nat -> nat, need: nat -> N, meets: (nat, N) -> bool, done: N, n: nat)
    returns (m: nat)
    requires forall i: nat :: need(i) != done ==> Falls(measure, need, meets, i)
    requires forall i: nat :: need(i) != done ==> MetAfter(meets, i, need(i))
    ensures n <= m && need(m) == done
    decreases measure(n)
  {
    m := n;
    if need(n) != done {
      assert MetAfter(meets, n, need(n));
      var k: nat :| n <= k && meets(k, need(n));
      if i: nat :| n <= i <= k && need(i) == done {
        m := i;
      } else {
        NeverRises(measure, need, meets, done, n, k);
        assert Falls(measure, need, meets, k);
        m := ReachesDone(measure, need, meets, done, k + 1);
      }
    }
  }
}
