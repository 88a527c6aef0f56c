/**
 * The binomial distribution behind the multi-attack hit rate: the page's
 * `binomialProbability` formula and the tail "at least k successes among
 * n independent trials", proved against a reference that counts the runs of
 * trials by Pascal's rule. The reference keeps the chance of a success `p`
 * and of a failure `q` apart, so that it states the binomial theorem
 * (p + q)^n = sum of the terms; the page's distribution is the case
 * q = 1 - p.
 */
module Binomial {
  import Combinatorics

  // ---------------------------------------------------------------------
  // Arithmetic facts the solver is handed one at a time

  lemma MulNonnegative(a: real, b: real)
    requires 0.0 <= a && 0.0 <= b
    ensures 0.0 <= a * b
  {
  }

  lemma Associate(a: real, b: real, c: real)
    ensures a * b * c == a * (b * c)
  {
  }

  lemma Commute(q: real, x: real, y: real)
    ensures x * (q * y) == q * (x * y)
  {
  }

  lemma Scale(q: real, e: real, b: real, wb: real, w: real)
    requires e == b * wb && w == q * wb
    ensures q * e == b * w
  {
  }

  // ---------------------------------------------------------------------
  // Powers

  /** `Math.pow` at a whole exponent. */
  function Pow(x: real, e: nat): real
  {
    if e == 0 then 1.0 else x * Pow(x, e - 1)
  }

  lemma {:induction false} PowNonnegative(x: real, e: nat)
    requires 0.0 <= x
    ensures 0.0 <= Pow(x, e)
  {
    if e > 0 {
      PowNonnegative(x, e - 1);
      MulNonnegative(x, Pow(x, e - 1));
    }
  }

  lemma {:induction false} PowOne(e: nat)
    ensures Pow(1.0, e) == 1.0
  {
    if e > 0 {
      PowOne(e - 1);
    }
  }

  // ---------------------------------------------------------------------
  // The page's formula and the reference

  /** `binomialProbability`: combination(n, k) p^k (1 - p)^(n - k). */
  function Binomial(n: int, k: int, p: real): real
    requires 0 <= k <= n
  {
    Combinatorics.Combination(n, k) * Pow(p, k) * Pow(1.0 - p, n - k)
  }

  /** The chance of one particular run of n trials with k successes, when a
      trial succeeds with chance p and fails with chance q. */
  function Weight(n: int, k: int, p: real, q: real): real
    requires 0 <= k <= n
  {
    Pow(p, k) * Pow(q, n - k)
  }

  /** The reference: the weight of all runs of n trials with exactly k
      successes, counted by Pascal's rule. */
  function ExactHits(n: int, k: int, p: real, q: real): real
    requires 0 <= k <= n
  {
    (Combinatorics.Choose(n, k) as real) * Weight(n, k, p, q)
  }

  /** `binomialProbability` is the exact-hits probability with q = 1 - p. */
  lemma BinomialIsExactHits(n: int, k: int, p: real)
    requires 0 <= k <= n
    ensures Binomial(n, k, p) == ExactHits(n, k, p, 1.0 - p)
  {
    Combinatorics.CombinationIsChoose(n, k);
    Associate(Combinatorics.Combination(n, k), Pow(p, k), Pow(1.0 - p, n - k));
    Substitute(Combinatorics.Combination(n, k), Combinatorics.Choose(n, k) as real, Weight(n, k, p, 1.0 - p));
  }

  lemma Substitute(a: real, b: real, x: real)
    requires a == b
    ensures a * x == b * x
  {
  }

  lemma ExactHitsNonnegative(n: int, k: int, p: real, q: real)
    requires 0 <= k <= n
    requires 0.0 <= p && 0.0 <= q
    ensures ExactHits(n, k, p, q) >= 0.0
  {
    PowNonnegative(p, k);
    PowNonnegative(q, n - k);
    MulNonnegative(Pow(p, k), Pow(q, n - k));
    MulNonnegative(Combinatorics.Choose(n, k) as real, Weight(n, k, p, q));
  }

  /** A run of n + 1 trials ending in a success. */
  lemma WeightHit(n: nat, k: int, p: real, q: real)
    requires 1 <= k <= n + 1
    ensures Weight(n + 1, k, p, q) == p * Weight(n, k - 1, p, q)
  {
    assert Pow(p, k) == p * Pow(p, k - 1);
    assert n + 1 - k == n - (k - 1);
    Associate(p, Pow(p, k - 1), Pow(q, n + 1 - k));
  }

  /** A run of n + 1 trials ending in a failure. */
  lemma WeightMiss(n: nat, k: int, p: real, q: real)
    requires 0 <= k <= n
    ensures Weight(n + 1, k, p, q) == q * Weight(n, k, p, q)
  {
    assert Pow(q, n + 1 - k) == q * Pow(q, n - k);
    Commute(q, Pow(p, k), Pow(q, n - k));
  }

  /** Conditioning on one trial: x if it succeeds, y if it fails. */
  function Mix(p: real, q: real, x: real, y: real): real
  {
    p * x + q * y
  }

  lemma MixAdd(p: real, q: real, x1: real, y1: real, x2: real, y2: real)
    ensures Mix(p, q, x1, y1) + Mix(p, q, x2, y2) == Mix(p, q, x1 + x2, y1 + y2)
  {
  }

  /** Pascal's rule on the run counts, weighed by a run of n + 1 trials. */
  lemma PascalCount(n: nat, k: int, p: real, q: real)
    requires 1 <= k <= n
    ensures ExactHits(n + 1, k, p, q)
         == Combinatorics.Choose(n, k - 1) as real * Weight(n + 1, k, p, q)
          + Combinatorics.Choose(n, k) as real * Weight(n + 1, k, p, q)
  {
    assert Combinatorics.Choose(n + 1, k) as real
        == Combinatorics.Choose(n, k - 1) as real + Combinatorics.Choose(n, k) as real;
  }

  /** The runs whose last trial succeeds. */
  lemma PascalHit(n: nat, k: int, p: real, q: real)
    requires 1 <= k <= n + 1
    ensures p * ExactHits(n, k - 1, p, q) == Combinatorics.Choose(n, k - 1) as real * Weight(n + 1, k, p, q)
  {
    WeightHit(n, k, p, q);
  }

  /** The runs whose last trial fails. */
  lemma PascalMiss(n: nat, k: int, p: real, q: real)
    requires 0 <= k <= n
    ensures q * ExactHits(n, k, p, q) == Combinatorics.Choose(n, k) as real * Weight(n + 1, k, p, q)
  {
    WeightMiss(n, k, p, q);
    Scale(q, ExactHits(n, k, p, q), Combinatorics.Choose(n, k) as real, Weight(n, k, p, q), Weight(n + 1, k, p, q));
  }

  /** Pascal's rule for 1 <= k <= n. */
  lemma PascalInner(n: nat, k: int, p: real, q: real)
    requires 1 <= k <= n
    ensures ExactHits(n + 1, k, p, q) == Mix(p, q, ExactHits(n, k - 1, p, q), ExactHits(n, k, p, q))
  {
    PascalCount(n, k, p, q);
    PascalHit(n, k, p, q);
    PascalMiss(n, k, p, q);
  }

  /** Pascal's rule for k = n + 1: every trial succeeds. */
  lemma PascalLast(n: nat, p: real, q: real)
    ensures ExactHits(n + 1, n + 1, p, q) == Mix(p, q, ExactHits(n, n, p, q), 0.0)
  {
    PascalHit(n, n + 1, p, q);
    Combinatorics.ChooseAll(n);
    Combinatorics.ChooseAll(n + 1);
  }

  /** Pascal's rule for k = 0: every trial fails. */
  lemma PascalNone(n: nat, p: real, q: real)
    ensures ExactHits(n + 1, 0, p, q) == q * ExactHits(n, 0, p, q)
  {
    PascalMiss(n, 0, p, q);
    assert Combinatorics.Choose(n, 0) == 1 && Combinatorics.Choose(n + 1, 0) == 1;
  }

  /** Pascal's rule carried into the probabilities: k successes in n + 1
      trials split on the outcome of the last trial. */
  lemma ExactHitsPascal(n: nat, k: int, p: real, q: real)
    requires 1 <= k <= n + 1
    ensures k <= n ==> ExactHits(n + 1, k, p, q) == Mix(p, q, ExactHits(n, k - 1, p, q), ExactHits(n, k, p, q))
    ensures k == n + 1 ==> ExactHits(n + 1, k, p, q) == Mix(p, q, ExactHits(n, k - 1, p, q), 0.0)
  {
    if k <= n {
      PascalInner(n, k, p, q);
    } else {
      PascalLast(n, p, q);
    }
  }

  // ---------------------------------------------------------------------
  // The tail: at least k successes

  /** The weight of at least `k` successes among `n` trials: the terms
      i = k..n of the distribution (0 when k > n). */
  function Tail(n: int, k: nat, p: real, q: real): real
    decreases n - k
  {
    if k > n then 0.0 else ExactHits(n, k, p, q) + Tail(n, k + 1, p, q)
  }

  /** The tail of n + 1 trials from the tails of n trials. */
  lemma {:induction false} TailStep(n: nat, k: nat, p: real, q: real)
    requires k >= 1
    ensures Tail(n + 1, k, p, q) == Mix(p, q, Tail(n, k - 1, p, q), Tail(n, k, p, q))
    decreases n + 1 - k
  {
    if k <= n + 1 {
      TailStep(n, k + 1, p, q);
      ExactHitsPascal(n, k, p, q);
      assert Tail(n, k - 1, p, q) == ExactHits(n, k - 1, p, q) + Tail(n, k, p, q);
      if k <= n {
        assert Tail(n, k, p, q) == ExactHits(n, k, p, q) + Tail(n, k + 1, p, q);
        MixAdd(p, q, ExactHits(n, k - 1, p, q), ExactHits(n, k, p, q), Tail(n, k, p, q), Tail(n, k + 1, p, q));
      } else {
        assert Tail(n, k, p, q) == 0.0 && Tail(n, k + 1, p, q) == 0.0;
        MixAdd(p, q, ExactHits(n, k - 1, p, q), 0.0, Tail(n, k, p, q), Tail(n, k + 1, p, q));
      }
    } else {
      assert Tail(n, k - 1, p, q) == 0.0 && Tail(n, k, p, q) == 0.0;
    }
  }

  /** The sum from k is the k-th term plus the sum from k + 1. */
  lemma TailUnfold(n: int, k: nat, p: real, q: real)
    requires k <= n
    ensures Tail(n, k, p, q) == ExactHits(n, k, p, q) + Tail(n, k + 1, p, q)
  {
  }

  /** The same split of the whole sum, scaled by c. */
  lemma TailUnfoldScaled(n: nat, c: real, p: real, q: real)
    ensures c * Tail(n, 0, p, q) == c * ExactHits(n, 0, p, q) + c * Tail(n, 1, p, q)
  {
    TailUnfold(n, 0, p, q);
  }

  /** Adding a trial multiplies the sum of all terms by p + q: the
      no-success term gains a factor q and the tail from one success is the
      mix of the tails of n trials. */
  lemma TailZeroStep(n: nat, p: real, q: real)
    ensures Tail(n + 1, 0, p, q) == (p + q) * Tail(n, 0, p, q)
  {
    TailStep(n, 1, p, q);
    PascalNone(n, p, q);
    TailUnfold(n + 1, 0, p, q);
    TailUnfoldScaled(n, q, p, q);
  }

  /** The binomial theorem: the terms of n trials add up to (p + q)^n. */
  lemma {:induction false} TailTotal(n: nat, p: real, q: real)
    ensures Tail(n, 0, p, q) == Pow(p + q, n)
  {
    if n == 0 {
      assert Combinatorics.Choose(0, 0) == 1;
      assert Tail(0, 1, p, q) == 0.0;
    } else {
      TailTotal(n - 1, p, q);
      TailZeroStep(n - 1, p, q);
    }
  }

  /** With q = 1 - p the distribution sums to 1. */
  lemma TailTotalOne(n: nat, p: real)
    ensures Tail(n, 0, p, 1.0 - p) == 1.0
  {
    TailTotal(n, p, 1.0 - p);
    assert p + (1.0 - p) == 1.0;
    PowOne(n);
  }

  /** No successes: q^n. */
  lemma ExactHitsNone(n: nat, p: real, q: real)
    ensures ExactHits(n, 0, p, q) == Pow(q, n)
  {
    assert Combinatorics.Choose(n, 0) == 1;
    assert Pow(p, 0) == 1.0;
  }

  /** At least one success: 1 - (1 - p)^n. */
  lemma TailAtOne(n: nat, p: real)
    ensures Tail(n, 1, p, 1.0 - p) == 1.0 - Pow(1.0 - p, n)
  {
    TailTotalOne(n, p);
    ExactHitsNone(n, p, 1.0 - p);
    assert Tail(n, 0, p, 1.0 - p) == ExactHits(n, 0, p, 1.0 - p) + Tail(n, 1, p, 1.0 - p);
  }

  /** Every trial succeeds: p^n. */
  lemma TailAtCount(n: nat, p: real, q: real)
    ensures Tail(n, n, p, q) == Pow(p, n)
  {
    Combinatorics.ChooseAll(n);
    assert Pow(q, 0) == 1.0;
  }

  lemma TailAntitoneStep(n: int, k: nat, p: real, q: real)
    requires 0.0 <= p && 0.0 <= q
    ensures Tail(n, k + 1, p, q) <= Tail(n, k, p, q)
  {
    if k <= n {
      ExactHitsNonnegative(n, k, p, q);
    }
  }

  /** Needing more successes never makes the outcome more likely. */
  lemma {:induction false} TailAntitone(n: int, k1: nat, k2: nat, p: real, q: real)
    requires 0.0 <= p && 0.0 <= q
    requires k1 <= k2
    ensures Tail(n, k2, p, q) <= Tail(n, k1, p, q)
    decreases k2 - k1
  {
    if k1 < k2 {
      TailAntitone(n, k1 + 1, k2, p, q);
      TailAntitoneStep(n, k1, p, q);
    }
  }

  lemma {:induction false} TailNonnegative(n: int, k: nat, p: real, q: real)
    requires 0.0 <= p && 0.0 <= q
    ensures 0.0 <= Tail(n, k, p, q)
    decreases n - k
  {
    if k <= n {
      TailNonnegative(n, k + 1, p, q);
      ExactHitsNonnegative(n, k, p, q);
    }
  }

  /** A mix with nonnegative weights never falls when both outcomes rise. */
  lemma MixMonotone(p: real, q: real, a1: real, b1: real, a2: real, b2: real)
    requires 0.0 <= p && 0.0 <= q
    requires a1 <= a2 && b1 <= b2
    ensures Mix(p, q, a1, b1) <= Mix(p, q, a2, b2)
  {
    MulNonnegative(p, a2 - a1);
    MulNonnegative(q, b2 - b1);
  }

  /** Moving weight towards the larger outcome never lowers the mix. */
  lemma MixWeight(p1: real, p2: real, a: real, b: real)
    requires p1 <= p2 && b <= a
    ensures Mix(p1, 1.0 - p1, a, b) <= Mix(p2, 1.0 - p2, a, b)
  {
    MulNonnegative(p2 - p1, a - b);
    assert Mix(p2, 1.0 - p2, a, b) - Mix(p1, 1.0 - p1, a, b) == (p2 - p1) * (a - b);
  }

  /** A likelier success never makes "at least k successes" less likely. */
  lemma {:induction false} TailMonotone(n: nat, k: nat, p1: real, p2: real)
    requires 0.0 <= p1 <= p2 <= 1.0
    ensures Tail(n, k, p1, 1.0 - p1) <= Tail(n, k, p2, 1.0 - p2)
    decreases n
  {
    if k == 0 {
      TailTotalOne(n, p1);
      TailTotalOne(n, p2);
    } else if k <= n {
      TailMonotone(n - 1, k - 1, p1, p2);
      TailMonotone(n - 1, k, p1, p2);
      TailStep(n - 1, k, p1, 1.0 - p1);
      TailStep(n - 1, k, p2, 1.0 - p2);
      TailAntitoneStep(n - 1, k - 1, p1, 1.0 - p1);
      MixWeight(p1, p2, Tail(n - 1, k - 1, p1, 1.0 - p1), Tail(n - 1, k, p1, 1.0 - p1));
      MixMonotone(p2, 1.0 - p2, Tail(n - 1, k - 1, p1, 1.0 - p1), Tail(n - 1, k, p1, 1.0 - p1),
                  Tail(n - 1, k - 1, p2, 1.0 - p2), Tail(n - 1, k, p2, 1.0 - p2));
    }
  }

  /** For a chance in [0, 1] every tail is a probability. */
  lemma TailBounds(n: int, k: nat, p: real)
    requires 0.0 <= p <= 1.0
    ensures 0.0 <= Tail(n, k, p, 1.0 - p) <= 1.0
  {
    TailNonnegative(n, k, p, 1.0 - p);
    if n >= 0 {
      TailTotalOne(n, p);
      TailAntitone(n, 0, k, p, 1.0 - p);
    }
  }
}
