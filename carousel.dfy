/**
 * The index arithmetic of the site's two carousels (the hero slides and the
 * testimonials): stepping forward and back modulo the number of entries.
 */
module Carousel {

  /** `(prev + 1) % n`: the following entry, wrapping from the last to the first. */
  function Next(i: nat, n: nat): (r: nat)
    requires n > 0
    ensures r < n
    ensures i + 1 < n ==> r == i + 1
    ensures i + 1 == n ==> r == 0
  {
    (i + 1) % n
  }

  /** `(prev - 1 + n) % n`: the preceding entry, wrapping from the first to the last. */
  function Prev(i: nat, n: nat): (r: nat)
    requires n > 0
    ensures r < n
    ensures 0 < i <= n ==> r == i - 1
    ensures i == 0 ==> r == n - 1
  {
    (i - 1 + n) % n
  }

  /** On an index in range, a step back undoes a step forward and the other way round. */
  lemma PrevUndoesNext(i: nat, n: nat)
    requires i < n
    ensures Prev(Next(i, n), n) == i
    ensures Next(Prev(i, n), n) == i
  {
  }

  /** The index after `k` forward steps from `i`. */
  function Advanced(i: nat, k: nat, n: nat): (r: nat)
    requires n > 0
    ensures r < n
  {
    if k == 0 then i % n else Next(Advanced(i, k - 1, n), n)
  }

  /** `k` forward steps land where `(i + k) % n` says. */
  lemma {:induction false} AdvancedIsModular(i: nat, k: nat, n: nat)
    requires n > 0
    ensures Advanced(i, k, n) == (i + k) % n
  {
    if k > 0 {
      AdvancedIsModular(i, k - 1, n);
      NextOfRemainder(i + k - 1, n);
    }
  }

  /** A step forward from the remainder of `x` is the remainder of `x + 1`. */
  lemma NextOfRemainder(x: nat, n: nat)
    requires n > 0
    ensures Next(x % n, n) == (x + 1) % n
  {
    var a := x % n;
    var q := x / n;
    if a + 1 < n {
      ModUnique(x + 1, n, q, a + 1);
    } else {
      MulSucc(q, n);
      ModUnique(x + 1, n, q + 1, 0);
    }
  }

  /** The remainder of `q * n + r` is `r` for any `r` in range. */
  lemma ModUnique(x: int, n: int, q: int, r: int)
    requires n > 0 && 0 <= r < n && x == q * n + r
    ensures x % n == r
  {
    var q0 := x / n;
    MulDiff(q, q0, n);
    MulDiff(q0, q, n);
    if q > q0 {
      MulAtLeast(q - q0, n);
    } else if q < q0 {
      MulAtLeast(q0 - q, n);
    }
  }

  lemma MulAtLeast(a: int, n: int)
    requires a >= 1 && n > 0
    ensures a * n >= n
  {
  }

  lemma MulDiff(a: int, b: int, n: int)
    ensures (a - b) * n == a * n - b * n
  {
  }

  lemma MulSucc(a: int, n: int)
    ensures (a + 1) * n == a * n + n
  {
  }

  /**
   * Stepping forward visits every entry: from any index in range, each
   * entry `t` is reached within fewer than `n` steps, and after exactly
   * `n` steps the carousel is back where it started.
   */
  lemma EveryEntryIsReached(i: nat, t: nat, n: nat)
    requires i < n && t < n
    ensures Advanced(i, (t + n - i) % n, n) == t
    ensures Advanced(i, n, n) == i
  {
    var k := (t + n - i) % n;
    if t >= i {
      ModUnique(t + n - i, n, 1, t - i);
      ModUnique(t, n, 0, t);
    } else {
      ModUnique(t + n - i, n, 0, t + n - i);
      ModUnique(t + n, n, 1, t);
    }
    AdvancedIsModular(i, k, n);
    AdvancedIsModular(i, n, n);
    ModUnique(i + n, n, 1, i);
  }
}
