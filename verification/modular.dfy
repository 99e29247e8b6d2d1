/** Stepping round a ring of indices. */
module Modular {
  lemma {:induction false} ModOnce(x: nat, n: nat)
    requires 0 < n && x < 2 * n
    ensures x % n == if x < n then x else x - n
  {
    var q := x / n;
    assert x == q * n + x % n;
    assert q >= 2 ==> q * n >= 2 * n;
    assert q == 1 ==> q * n == n;
  }

  // `k` places on from `start`, round a ring of `n`.
  function Around(start: nat, k: nat, n: nat): int {
    if start + k < n then start + k else start + k - n
  }

  lemma {:induction false} NextAround(start: nat, k: nat, n: nat)
    requires start < n && k < n
    ensures (Around(start, k, n) + 1) % n == Around(start, k + 1, n) % n
    ensures k + 1 < n ==> (Around(start, k, n) + 1) % n == Around(start, k + 1, n)
    ensures k + 1 == n ==> (Around(start, k, n) + 1) % n == start
  {
    ModOnce(Around(start, k, n) + 1, n);
    ModOnce(if start + k + 1 < n then start + k + 1 else start + k + 1 - n, n);
  }
}
