/**
 * The counting behind the binomial distribution: `factorial`, `combination`
 * as the page computes it, and the binomial coefficient defined by Pascal's
 * rule, with the proof that the two agree.
 */
module Combinatorics {
  lemma IntMulPositive(a: int, b: int)
    requires a >= 1 && b >= 1
    ensures a * b >= 1
  {
  }

  /** `factorial`: 1 for every argument up to 1, otherwise n * (n - 1)!. */
  function Factorial(n: int): (r: nat)
    ensures r >= 1
  {
    if n <= 1 then 1 else n * Factorial(n - 1)
  }

  lemma FactorialStep(n: int)
    requires n >= 1
    ensures Factorial(n) == n * Factorial(n - 1)
  {
  }

  /** The binomial coefficient defined by Pascal's rule; the reference that
      `combination` is proved against. */
  function Choose(n: nat, k: nat): nat
  {
    if k == 0 then 1
    else if n == 0 then 0
    else Choose(n - 1, k - 1) + Choose(n - 1, k)
  }

  lemma {:induction false} ChooseAbove(n: nat, k: nat)
    requires k > n
    ensures Choose(n, k) == 0
  {
    if n > 0 {
      ChooseAbove(n - 1, k - 1);
      ChooseAbove(n - 1, k);
    }
  }

  lemma {:induction false} ChooseAll(n: nat)
    ensures Choose(n, n) == 1
  {
    if n > 0 {
      ChooseAll(n - 1);
      ChooseAbove(n - 1, n);
    }
  }

  /** The algebra of the inductive step below, with the factorials named. */
  lemma PascalFactorials(a: int, b: int, k: int, m: int, fk1: int, fm1: int, f: int)
    requires a * (fk1 * (m * fm1)) == f
    requires b * ((k * fk1) * fm1) == f
    ensures (a + b) * ((k * fk1) * (m * fm1)) == (k + m) * f
  {
    assert k * f == k * (a * (fk1 * (m * fm1)));
    assert m * f == m * (b * ((k * fk1) * fm1));
  }

  /** k! (n - k)! C(n, k) = n!, by induction on n through Pascal's rule. */
  lemma {:induction false} ChooseFactorial(n: nat, k: nat)
    requires k <= n
    ensures Choose(n, k) * (Factorial(k) * Factorial(n - k)) == Factorial(n)
  {
    if k == 0 {
    } else if k == n {
      ChooseAll(n);
    } else {
      ChooseFactorial(n - 1, k - 1);
      ChooseFactorial(n - 1, k);
      FactorialStep(k);
      FactorialStep(n - k);
      FactorialStep(n);
      assert n - 1 - (k - 1) == n - k && n - 1 - k == n - k - 1;
      PascalFactorials(Choose(n - 1, k - 1), Choose(n - 1, k), k, n - k,
                       Factorial(k - 1), Factorial(n - k - 1), Factorial(n - 1));
    }
  }

  /** `combination`: 1 at k = 0 and k = n, otherwise n! / (k! (n - k)!). */
  function Combination(n: int, k: int): real
  {
    if k == 0 || k == n then 1.0
    else (Factorial(n) as real) / ((Factorial(k) * Factorial(n - k)) as real)
  }

  lemma DivideExact(x: int, c: int, d: int)
    requires d >= 1 && c * d == x
    ensures (x as real) / (d as real) == c as real
  {
    assert (c as real) * (d as real) == x as real;
  }

  /** `combination` is the binomial coefficient for every 0 <= k <= n. */
  lemma CombinationIsChoose(n: int, k: int)
    requires 0 <= k <= n
    ensures Combination(n, k) == Choose(n, k) as real
  {
    if k == 0 {
    } else if k == n {
      ChooseAll(n);
    } else {
      ChooseFactorial(n, k);
      IntMulPositive(Factorial(k), Factorial(n - k));
      DivideExact(Factorial(n), Choose(n, k), Factorial(k) * Factorial(n - k));
    }
  }

  lemma CancelFactor(x: int, y: int, d: int)
    requires d >= 1 && x * d == y * d
    ensures x == y
  {
    assert (x - y) * d == 0;
  }

  lemma ChooseSymmetric(n: nat, k: nat)
    requires k <= n
    ensures Choose(n, k) == Choose(n, n - k)
  {
    ChooseFactorial(n, k);
    ChooseFactorial(n, n - k);
    assert n - (n - k) == k;
    var d := Factorial(k) * Factorial(n - k);
    assert Factorial(n - k) * Factorial(k) == d;
    IntMulPositive(Factorial(k), Factorial(n - k));
    assert Choose(n, k) * d == Choose(n, n - k) * d;
    CancelFactor(Choose(n, k), Choose(n, n - k), d);
  }

  /** C(n, k) = C(n, n - k), and both ends are 1. */
  lemma CombinationSymmetric(n: int, k: int)
    requires 0 <= k <= n
    ensures Combination(n, k) == Combination(n, n - k)
    ensures Combination(n, 0) == 1.0 && Combination(n, n) == 1.0
  {
    CombinationIsChoose(n, k);
    CombinationIsChoose(n, n - k);
    ChooseSymmetric(n, k);
  }

}
