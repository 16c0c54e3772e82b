/**
 * Index arithmetic on a ring of `n` slides, shared by the two carousels:
 * the successor `(p + 1) % n` and the predecessor `(p - 1 + n) % n`.
 */
module Cyclic {

  /** The slide after `p`, wrapping from the last one to the first. */
  function Succ(p: int, n: int): (q: int)
    requires n > 0 && 0 <= p < n
    ensures 0 <= q < n
    ensures p < n - 1 ==> q == p + 1
    ensures p == n - 1 ==> q == 0
  {
    (p + 1) % n
  }

  /** The slide before `p`, wrapping from the first one to the last. */
  function Pred(p: int, n: int): (q: int)
    requires n > 0 && 0 <= p < n
    ensures 0 <= q < n
    ensures p > 0 ==> q == p - 1
    ensures p == 0 ==> q == n - 1
  {
    (p - 1 + n) % n
  }

  /** Going forward then back, or back then forward, returns to the same slide. */
  lemma SuccPredInverse(p: int, n: int)
    requires n > 0 && 0 <= p < n
    ensures Pred(Succ(p, n), n) == p
    ensures Succ(Pred(p, n), n) == p
  {
  }

  /** `k` successive forward steps. */
  function SuccN(p: int, n: int, k: nat): (q: int)
    requires n > 0 && 0 <= p < n
    ensures 0 <= q < n
    decreases k
  {
    if k == 0 then p else SuccN(Succ(p, n), n, k - 1)
  }

  /** Stepping forward `k` times lands on `(p + k) % n`; in particular `n` steps come back to `p`. */
  lemma {:induction false} SuccNIsAddition(p: int, n: int, k: nat)
    requires n > 0 && 0 <= p < n
    ensures SuccN(p, n, k) == (p + k) % n
    decreases k
  {
    if k > 0 {
      SuccNIsAddition(Succ(p, n), n, k - 1);
      ModShift(p, n, k);
    }
  }

  /** (((p + 1) % n) + (k - 1)) % n == (p + k) % n */
  lemma ModShift(p: int, n: int, k: nat)
    requires n > 0 && 0 <= p < n && k > 0
    ensures (Succ(p, n) + (k - 1)) % n == (p + k) % n
  {
    if p < n - 1 {
      assert Succ(p, n) + (k - 1) == p + k;
    } else {
      assert Succ(p, n) + (k - 1) == p + k - n;
      ModMinus(p + k, n);
    }
  }

  lemma ModMinus(a: int, n: int)
    requires n > 0 && a >= n
    ensures (a - n) % n == a % n
  {
    var q, r := a / n, a % n;
    assert a - n == (q - 1) * n + r;
    ModUnique(a - n, n, q - 1, r);
  }

  /** The remainder is the unique r in [0, n) with a == q * n + r. */
  lemma ModUnique(a: int, n: int, q: int, r: int)
    requires n > 0 && 0 <= r < n && a == q * n + r
    ensures a % n == r
  {
    var q', r' := a / n, a % n;
    assert (q - q') * n == r' - r;
    if q - q' >= 1 {
      MulAtLeast(q - q', n);
    } else if q - q' <= -1 {
      MulAtLeast(q' - q, n);
    }
  }

  lemma MulAtLeast(d: int, n: int)
    requires d >= 1 && n > 0
    ensures d * n >= n
  {
  }

  /** A full lap of `n` forward steps is the identity. */
  lemma FullLap(p: int, n: int)
    requires n > 0 && 0 <= p < n
    ensures SuccN(p, n, n) == p
  {
    SuccNIsAddition(p, n, n);
    ModUnique(p + n, n, 1, p);
  }
}
