/**
 * Naor's threshold for socially optimal balking in an M/M/1 queue
 * (`naorthreshold` in graphicalMM1.py).
 *
 * With rho = lambda/mu, the search compares mu*c against
 *   f(n) = (n(1 - rho) - rho(1 - rho^n)) / (1 - rho)^2
 * and returns the least n with f(n) <= mu*c < f(n+1).
 */
module Naor {

  function Pow(r: real, n: nat): real
    decreases n
  {
    if n == 0 then 1.0 else r * Pow(r, n - 1)
  }

  /**
   * The function f of the threshold search. The source divides by (1 - rho)^2;
   * over exact reals that is the same as dividing by (1 - rho) twice.
   */
  function Wait(rho: real, n: nat): (w: real)
    requires rho != 1.0
    ensures w * (1.0 - rho) * (1.0 - rho) == WaitNumerator(rho, n)
  {
    WaitNumerator(rho, n) / (1.0 - rho) / (1.0 - rho)
  }

  /** The numerator n(1 - rho) - rho(1 - rho^n) of f. */
  function WaitNumerator(rho: real, n: nat): real
  {
    (n as real) * (1.0 - rho) - rho * (1.0 - Pow(rho, n))
  }

  /** The load rho = lambda/mu. */
  function Rho(lmbda: real, mu: real): real
    requires mu != 0.0
  {
    lmbda / mu
  }

  /** The mid point mu*c of Naor's inequality. */
  function Center(mu: real, costOfBalking: real): real
  {
    mu * costOfBalking
  }

  /** 1 + rho + ... + rho^n */
  function GeomSum(rho: real, n: nat): real
    decreases n
  {
    if n == 0 then 1.0 else GeomSum(rho, n - 1) + Pow(rho, n)
  }

  /** n is bracketed by the search: f(n) <= center < f(n+1). */
  predicate Brackets(rho: real, center: real, n: nat): (b: bool)
    requires rho != 1.0
    ensures b <==> Wait(rho, n) <= center < Wait(rho, n) + GeomSum(rho, n)
  {
    WaitStep(rho, n);
    Wait(rho, n) <= center < Wait(rho, n + 1)
  }

  lemma {:induction false} GeomSumClosedForm(rho: real, n: nat)
    ensures GeomSum(rho, n) * (1.0 - rho) == 1.0 - Pow(rho, n + 1)
    decreases n
  {
    if n > 0 {
      GeomSumClosedForm(rho, n - 1);
      var g, p := GeomSum(rho, n - 1), Pow(rho, n);
      assert Pow(rho, n + 1) == rho * p;
      assert GeomSum(rho, n) * (1.0 - rho) == g * (1.0 - rho) + p * (1.0 - rho);
    }
  }

  lemma {:induction false} PowNonNegative(rho: real, n: nat)
    requires rho >= 0.0
    ensures Pow(rho, n) >= 0.0
    decreases n
  {
    if n > 0 {
      PowNonNegative(rho, n - 1);
    }
  }

  lemma {:induction false} GeomSumAtLeastOne(rho: real, n: nat)
    requires rho >= 0.0
    ensures GeomSum(rho, n) >= 1.0
    decreases n
  {
    if n > 0 {
      GeomSumAtLeastOne(rho, n - 1);
      PowNonNegative(rho, n);
    }
  }

  /** The algebra behind WaitStep, over plain reals: k stands for n, p for rho^n, q for rho^(n+1). */
  lemma StepAlgebra(rho: real, e: real, k: real, p: real, q: real, g: real, w0: real, w1: real)
    requires e == 1.0 - rho
    requires q == rho * p
    requires g * e == 1.0 - q
    requires w0 == k * e - rho * (1.0 - p)
    requires w1 == (k + 1.0) * e - rho * (1.0 - q)
    ensures w1 == w0 + e * (e * g)
  {
    assert (k + 1.0) * e == k * e + e;
    assert rho * (1.0 - q) == rho - rho * q;
    assert rho * (1.0 - p) == rho - rho * p;
    assert rho * q == rho * rho * p;
    assert e * (e * g) == e * (g * e);
    assert e * (1.0 - q) == e - e * q;
    assert e * q == q - rho * q;
  }

  lemma NumeratorUnfold(rho: real, n: nat)
    ensures Pow(rho, n + 1) == rho * Pow(rho, n)
    ensures WaitNumerator(rho, n) == (n as real) * (1.0 - rho) - rho * (1.0 - Pow(rho, n))
    ensures WaitNumerator(rho, n + 1) == ((n as real) + 1.0) * (1.0 - rho) - rho * (1.0 - Pow(rho, n + 1))
  {
  }

  /** The numerator of f grows by (1 - rho)^2 (1 + rho + ... + rho^n) per step. */
  lemma NumeratorStep(rho: real, n: nat)
    ensures WaitNumerator(rho, n + 1) == WaitNumerator(rho, n) + (1.0 - rho) * ((1.0 - rho) * GeomSum(rho, n))
  {
    GeomSumClosedForm(rho, n);
    NumeratorUnfold(rho, n);
    StepAlgebra(rho, 1.0 - rho, n as real, Pow(rho, n), Pow(rho, n + 1), GeomSum(rho, n), WaitNumerator(rho, n), WaitNumerator(rho, n + 1));
  }

  lemma DivideTwice(b: real, a: real, g: real, e: real)
    requires e != 0.0 && b == a + e * (e * g)
    ensures b / e / e == a / e / e + g
  {
    assert b / e == a / e + e * g;
  }

  lemma Combine(w1: real, w0: real, b: real, a: real, g: real, e: real)
    requires e != 0.0 && w1 == b / e / e && w0 == a / e / e && b == a + e * (e * g)
    ensures w1 == w0 + g
  {
    DivideTwice(b, a, g, e);
  }

  /** Consecutive values of f differ by 1 + rho + ... + rho^n. */
  lemma WaitStep(rho: real, n: nat)
    requires rho != 1.0
    ensures Wait(rho, n + 1) == Wait(rho, n) + GeomSum(rho, n)
  {
    var e := 1.0 - rho;
    NumeratorStep(rho, n);
    Combine(Wait(rho, n + 1), Wait(rho, n), WaitNumerator(rho, n + 1), WaitNumerator(rho, n), GeomSum(rho, n), e);
  }

  lemma WaitAtZero(rho: real)
    requires rho != 1.0
    ensures Wait(rho, 0) == 0.0 && Wait(rho, 1) == 1.0
  {
    assert Pow(rho, 0) == 1.0;
    assert WaitNumerator(rho, 0) == 0.0;
    assert GeomSum(rho, 0) == 1.0;
    var e := 1.0 - rho;
    assert Wait(rho, 0) == 0.0 / e / e == 0.0;
    WaitStep(rho, 0);
    assert Wait(rho, 1) == Wait(rho, 0) + GeomSum(rho, 0);
  }

  /** f grows by at least one per step, so f(n) >= n. */
  lemma {:induction false} WaitGrows(rho: real, m: nat, n: nat)
    requires 0.0 <= rho && rho != 1.0 && m <= n
    ensures Wait(rho, m) + ((n - m) as real) <= Wait(rho, n)
    decreases n - m
  {
    if m < n {
      WaitGrows(rho, m, n - 1);
      WaitStep(rho, n - 1);
      GeomSumAtLeastOne(rho, n - 1);
    }
  }

  /**
   * `naorthreshold`: counts n = 0, 1, 2, ... until f(n) <= mu*c < f(n+1).
   * The loop terminates when rho >= 0, rho != 1 and mu*c >= 0 (f(0) = 0 and f
   * grows by at least one per step); for rho = 1 the source divides by zero, and
   * for mu*c < 0 it never stops.
   */
  method NaorThreshold(lmbda: real, mu: real, costOfBalking: real) returns (n: nat)
    requires 0.0 <= lmbda && 0.0 < mu && lmbda != mu
    requires Center(mu, costOfBalking) >= 0.0
    ensures Rho(lmbda, mu) != 1.0
    ensures Brackets(Rho(lmbda, mu), Center(mu, costOfBalking), n)
    ensures forall m :: 0 <= m < n ==> !Brackets(Rho(lmbda, mu), Center(mu, costOfBalking), m)
  {
    var center := mu * costOfBalking;
    var rho := lmbda / mu;
    assert rho != 1.0;
    WaitAtZero(rho);
    n := 0;
    while true
      invariant Wait(rho, n) <= center
      invariant forall m :: 0 <= m < n ==> !Brackets(rho, center, m)
      decreases center.Floor - n
    {
      var lhs := Wait(rho, n);
      var rhs := Wait(rho, n + 1);
      if lhs <= center && center < rhs {
        return;
      }
      WaitGrows(rho, 0, n + 1);
      n := n + 1;
    }
  }

  /** At most one n is bracketed, so the search result is the only one. */
  lemma ThresholdUnique(rho: real, center: real, m: nat, n: nat)
    requires 0.0 <= rho && rho != 1.0
    requires Brackets(rho, center, m) && Brackets(rho, center, n)
    ensures m == n
  {
    if m < n {
      WaitGrows(rho, m + 1, n);
    } else if n < m {
      WaitGrows(rho, n + 1, m);
    }
  }

  /** A higher value of service never lowers the threshold. */
  lemma ThresholdMonotone(rho: real, c1: real, c2: real, n1: nat, n2: nat)
    requires 0.0 <= rho && rho != 1.0 && c1 <= c2
    requires Brackets(rho, c1, n1) && Brackets(rho, c2, n2)
    ensures n1 <= n2
  {
    if n2 < n1 {
      WaitGrows(rho, n2 + 1, n1);
    }
  }

  /** The threshold never exceeds the value of service measured in services: n <= mu*c. */
  lemma ThresholdAtMostCenter(rho: real, center: real, n: nat)
    requires 0.0 <= rho && rho != 1.0 && Brackets(rho, center, n)
    ensures (n as real) <= center
  {
    WaitGrows(rho, 0, n);
    WaitAtZero(rho);
  }

  /** With no value of service (the source passes False, which acts as 0) the threshold is 0. */
  lemma ZeroCostThreshold(rho: real)
    requires 0.0 <= rho && rho != 1.0
    ensures Brackets(rho, 0.0, 0)
  {
    WaitAtZero(rho);
  }
}
