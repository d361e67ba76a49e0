/**
 * How the three d.c. solvers move on the one-dimensional problem of DcProblem, and
 * the test scenario itself: a = b = 1/2, start x = -0.5, y = 3, γ = μ = 1, 50 steps,
 * each solver ending within 1e-6 of a stationary point.
 */
module DcScenario {
  import opened Spaces
  import opened Vectors
  import opened Functionals
  import opened DcSolvers
  import opened DcProblem
  import opened Scalars

  // ----- powers of the contraction factor -----

  /** q^n. */
  function Pow(q: real, n: nat): (r: real)
    ensures q > 0.0 ==> r > 0.0
  {
    if n == 0 then 1.0 else PositiveProduct(q, Pow(q, n - 1)); q * Pow(q, n - 1)
  }

  lemma PositiveProduct(u: real, v: real)
    ensures u > 0.0 && v > 0.0 ==> u * v > 0.0
  {
  }

  /** q^(m+n) = q^m q^n. */
  lemma {:induction false} PowAdd(q: real, m: nat, n: nat)
    ensures Pow(q, m + n) == Pow(q, m) * Pow(q, n)
  {
    if m > 0 {
      PowAdd(q, m - 1, n);
      assert m + n - 1 == (m - 1) + n;
      Associate(q, Pow(q, m - 1), Pow(q, n));
    }
  }

  lemma Associate(u: real, v: real, w: real)
    ensures u * (v * w) == (u * v) * w
  {
  }

  lemma MulBound(u: real, v: real, bu: real, bv: real)
    requires 0.0 <= u <= bu && 0.0 <= v <= bv
    ensures u * v <= bu * bv
  {
    assert u * v <= bu * v;
    assert bu * v <= bu * bv;
  }

  /** (2/3)^50 is below the test's tolerance 1e-6 (it is about 1.6e-9). */
  lemma PowBound()
    ensures Pow(2.0 / 3.0, 50) <= 0.000001
  {
    var q := 2.0 / 3.0;
    assert Pow(q, 2) == 4.0 / 9.0 by {
      assert Pow(q, 1) == q;
    }
    PowAdd(q, 2, 2);
    PowAdd(q, 4, 4);
    PowAdd(q, 8, 2);
    assert Pow(q, 10) == 1024.0 / 59049.0;
    var p10 := Pow(q, 10);
    PowAdd(q, 10, 10);
    MulBound(p10, p10, 0.02, 0.02);
    PowAdd(q, 20, 20);
    MulBound(Pow(q, 20), Pow(q, 20), 0.0004, 0.0004);
    PowAdd(q, 40, 10);
    MulBound(Pow(q, 40), p10, 0.00000016, 0.02);
  }

  /** For 0 < q <= 1 the powers q^n do not grow with n. */
  lemma {:induction false} PowDecreasing(q: real, m: nat, n: nat)
    requires 0.0 < q <= 1.0 && m <= n
    ensures Pow(q, n) <= Pow(q, m)
    decreases n
  {
    if n > m {
      PowDecreasing(q, m, n - 1);
      MulBound(q, Pow(q, n - 1), 1.0, Pow(q, n - 1));
    }
  }

  // ----- one step toward the fixed point -----

  /** The factor 1/(1 + γa) by which a proximal step of g shrinks the distance to its target. */
  function Rate(a: real, gamma: real): (q: real)
    requires a > 0.0 && gamma > 0.0
    ensures 0.0 < q < 1.0
  {
    1.0 / (1.0 + gamma * a)
  }

  /** b + s/a: the point a step with the fixed subgradient s of |·| is drawn to. */
  function Target(a: real, b: real, s: real): real
    requires a > 0.0
  {
    b + s / a
  }

  /** xs + (x - xs) q^n: the point a fraction q^n of the way from xs to x. */
  function Toward(xs: real, x: real, q: real, n: nat): real {
    xs + (x - xs) * Pow(q, n)
  }

  /**
   * prox_{γg}(x + γs) is the point a fraction Rate(a, γ) of the way from the target
   * b + s/a to x: the step with a fixed subgradient s of |·| contracts toward b + s/a.
   */
  lemma ProxPointToward(a: real, b: real, gamma: real, s: real, x: real)
    requires a > 0.0 && gamma > 0.0
    ensures ProxPoint(a, b, gamma, x + gamma * s) == Toward(Target(a, b, s), x, Rate(a, gamma), 1)
  {
    var r := ProxPoint(a, b, gamma, x + gamma * s);
    var xs := b + s / a;
    var q := Rate(a, gamma);
    var w := xs + (x - xs) * q;
    var d := 1.0 + gamma * a;
    assert q * d == 1.0;
    assert r * d == x + gamma * s + gamma * a * b;
    assert a * xs == a * b + s;
    assert w * d == xs * d + (x - xs) * (q * d);
    assert w * d == x + gamma * s + gamma * a * b;
    assert (r - w) * d == 0.0;
    assert Pow(q, 1) == q;
  }

  /** One step toward xs is xs + (x - xs) q. */
  lemma TowardOnce(xs: real, x: real, q: real)
    ensures Toward(xs, x, q, 1) == xs + Times(x - xs, q)
  {
    assert Pow(q, 1) == q;
    TimesIs(x - xs, q);
  }

  /** A fraction q in (0, 1) of d lies strictly between 0 and d. */
  lemma Fraction(d: real, q: real)
    requires 0.0 < q < 1.0
    ensures d > 0.0 ==> 0.0 < Times(d, q)
    ensures d > 0.0 ==> Times(d, q) < d
    ensures d < 0.0 ==> d < Times(d, q)
    ensures d < 0.0 ==> Times(d, q) < 0.0
    ensures d == 0.0 ==> Times(d, q) == 0.0
  {
    if d > 0.0 {
      FractionBelow(d, q);
    } else if d < 0.0 {
      FractionAbove(d, q);
      FractionNegative(d, q);
    } else {
      TimesIs(d, q);
    }
  }

  lemma FractionBelow(d: real, q: real)
    requires d > 0.0 && 0.0 < q < 1.0
    ensures Times(d, q) < d
  {
    TimesIs(d, q);
    ProductBelow(d, q);
  }

  lemma ProductBelow(d: real, q: real)
    requires d > 0.0 && q < 1.0
    ensures d * q < d
  {
    PositiveProduct(d, 1.0 - q);
    assert d * (1.0 - q) == d - d * q;
  }

  lemma FractionAbove(d: real, q: real)
    requires d < 0.0 && 0.0 < q < 1.0
    ensures d < Times(d, q)
  {
    TimesIs(d, q);
    ProductAbove(d, q);
  }

  lemma ProductAbove(d: real, q: real)
    requires d < 0.0 && q < 1.0
    ensures d < d * q
  {
    PositiveProduct(-d, 1.0 - q);
    assert (-d) * (1.0 - q) == d * q - d;
  }

  lemma FractionNegative(d: real, q: real)
    requires d < 0.0 && 0.0 < q
    ensures Times(d, q) < 0.0
  {
    TimesIs(d, q);
    ProductNegative(d, q);
  }

  lemma ProductNegative(d: real, q: real)
    requires d < 0.0 && 0.0 < q
    ensures d * q < 0.0
  {
    PositiveProduct(-d, q);
    assert (-d) * q == -(d * q);
  }

  /** One step toward xs, 0 < q < 1, lands strictly between x and xs (on xs when x = xs). */
  lemma Between(xs: real, x: real, q: real)
    requires 0.0 < q < 1.0
    ensures xs < x ==> xs < Toward(xs, x, q, 1) < x
    ensures x < xs ==> x < Toward(xs, x, q, 1) < xs
    ensures x == xs ==> Toward(xs, x, q, 1) == xs
  {
    TowardOnce(xs, x, q);
    Fraction(x - xs, q);
  }

  /**
   * One step toward a target with sign s = ±1 lands on the side s, from a start on
   * that side or at 0.
   */
  lemma BetweenKeepsSign(xs: real, x: real, q: real, s: real)
    requires 0.0 < q < 1.0 && (s == 1.0 || s == -1.0) && SignOf(xs) == s
    requires SignOf(x) != -s
    ensures SignOf(Toward(xs, x, q, 1)) == s
  {
    Between(xs, x, q);
  }

  /** n - 1 steps from the point one step toward xs are n steps from x. */
  lemma TowardShift(xs: real, x: real, q: real, n: nat)
    requires n > 0
    ensures Toward(xs, Toward(xs, x, q, 1), q, n - 1) == Toward(xs, x, q, n)
  {
    var x1 := Toward(xs, x, q, 1);
    assert Pow(q, 1) == q;
    calc {
      (x1 - xs) * Pow(q, n - 1);
      ((x - xs) * q) * Pow(q, n - 1);
      (x - xs) * (q * Pow(q, n - 1));
      (x - xs) * Pow(q, n);
    }
  }

  // ----- the three solvers on the problem -----

  /**
   * dca settles after one step: from any x with sign s whose target b + s/a has the
   * same sign, every later iterate is b + s/a.
   */
  lemma {:induction false} DcaSettles(a: real, b: real, s: real, x: real, n: nat)
    requires a > 0.0 && (s == 1.0 || s == -1.0) && SignOf(x) == s && SignOf(Target(a, b, s)) == s
    ensures DcaIterate(Problem(a, b), [x], n) == if n == 0 then [x] else [Target(a, b, s)]
    decreases n
  {
    if n > 0 {
      DcaStepOnProblem(a, b, x);
      SameCoordinate(b + SignOf(x) / a, Target(a, b, s));
      if n > 1 {
        DcaSettles(a, b, s, Target(a, b, s), n - 1);
      }
    }
  }

  /**
   * prox_dca contracts geometrically: from any x with sign s whose target xs = b + s/a
   * has the same sign, the n-th iterate is xs + (x - xs) q^n with q = 1/(1 + γa).
   */
  lemma {:induction false} ProxDcaContracts(a: real, b: real, gamma: real, s: real, x: real, n: nat)
    requires a > 0.0 && gamma > 0.0 && (s == 1.0 || s == -1.0)
    requires SignOf(x) == s && SignOf(Target(a, b, s)) == s
    ensures ProxDcaIterate(Problem(a, b), gamma, [x], n) == [Toward(Target(a, b, s), x, Rate(a, gamma), n)]
    decreases n
  {
    var xs := Target(a, b, s);
    var q := Rate(a, gamma);
    if n == 0 {
      assert Toward(xs, x, q, 0) == x;
    } else {
      ProxDcaStepOnProblem(a, b, gamma, x);
      ProxPointToward(a, b, gamma, SignOf(x), x);
      var x1 := Toward(xs, x, q, 1);
      assert ProxDcaStep(Problem(a, b), gamma, [x]) == [x1];
      BetweenKeepsSign(xs, x, q, s);
      ProxDcaContracts(a, b, gamma, s, x1, n - 1);
      TowardShift(xs, x, q, n);
    }
  }

  /**
   * doubleprox_dc with K = id and the dual at s contracts the same way: from x on the
   * side s of 0 (or at 0) with target xs = b + s/a on that side, the dual stays at s and
   * the n-th primal iterate is xs + (x - xs) q^n, q = 1/(1 + γa).
   */
  lemma {:induction false} DoubleProxContracts(a: real, b: real, gamma: real, mu: real, s: real, x: real, n: nat)
    requires a > 0.0 && gamma > 0.0 && mu >= 0.0 && (s == 1.0 || s == -1.0)
    requires SignOf(x) != -s && SignOf(Target(a, b, s)) == s
    ensures DoubleProxIterate(Problem(a, b), Identity(), gamma, mu, PrimalDual([x], [s]), n)
         == PrimalDual([Toward(Target(a, b, s), x, Rate(a, gamma), n)], [s])
    decreases n
  {
    var xs := Target(a, b, s);
    var q := Rate(a, gamma);
    if n == 0 {
      assert Toward(xs, x, q, 0) == x;
    } else {
      DoubleProxStepOnProblem(a, b, gamma, mu, x, s);
      ProxPointToward(a, b, gamma, s, x);
      var x1 := Toward(xs, x, q, 1);
      BetweenKeepsSign(xs, x, q, s);
      DualStays(s, mu, x1);
      assert DoubleProxStep(Problem(a, b), Identity(), gamma, mu, PrimalDual([x], [s])) == PrimalDual([x1], [s]);
      DoubleProxContracts(a, b, gamma, mu, s, x1, n - 1);
      TowardShift(xs, x, q, n);
    }
  }

  /** clip(s + μu) = s for a dual at s = ±1 and a primal u on the side s. */
  lemma DualStays(s: real, mu: real, u: real)
    requires (s == 1.0 || s == -1.0) && mu >= 0.0 && SignOf(u) == s
    ensures ClipOf(s + mu * u) == s
  {
    if s == 1.0 {
      assert mu * u >= 0.0;
    } else {
      assert mu * u <= 0.0;
    }
  }

  // ----- the test -----

  /** min_i |e_i - x|: the distance from x to the nearest entry of e. */
  function Dist(x: real, e: seq<real>): (d: real)
    requires |e| > 0
    ensures forall i :: 0 <= i < |e| ==> d <= Abs(e[i] - x)
    ensures exists i :: 0 <= i < |e| && d == Abs(e[i] - x)
  {
    if |e| == 1 then Abs(e[0] - x)
    else
      var rest := Dist(x, e[1..]);
      assert forall i :: 1 <= i < |e| ==> e[i] == e[1..][i - 1];
      if Abs(e[0] - x) <= rest then Abs(e[0] - x) else rest
  }

  /** The candidates [b - 1/a, 0, b + 1/a] the test measures against. */
  function Expected(a: real, b: real): seq<real>
    requires a > 0.0
  {
    [b - 1.0 / a, 0.0, b + 1.0 / a]
  }

  /** For -1/a < b < 1/a the candidates are exactly the stationary points. */
  lemma ExpectedAreStationary(a: real, b: real, x: real)
    requires a > 0.0 && -1.0 / a < b < 1.0 / a
    ensures Stationary(a, b, x) <==> x in Expected(a, b)
  {
    StationarySets(a, b, x);
  }

  /** n >= 1 dca steps from -0.5 with a = b = 1/2 end at b - 1/a = -1.5. */
  lemma DcaScenario(n: nat)
    requires n >= 1
    ensures DcaIterate(Problem(0.5, 0.5), [-0.5], n) == [-1.5]
  {
    assert Target(0.5, 0.5, -1.0) == -1.5;
    DcaSettles(0.5, 0.5, -1.0, -0.5, n);
  }

  /** n prox_dca steps from -0.5 with γ = 1 end at -1.5 + (2/3)^n. */
  lemma ProxDcaScenario(n: nat)
    ensures ProxDcaIterate(Problem(0.5, 0.5), 1.0, [-0.5], n) == [-1.5 + Pow(2.0 / 3.0, n)]
  {
    assert Target(0.5, 0.5, -1.0) == -1.5;
    assert Rate(0.5, 1.0) == 2.0 / 3.0;
    ProxDcaContracts(0.5, 0.5, 1.0, -1.0, -0.5, n);
  }

  /**
   * n >= 1 doubleprox_dc steps from (-0.5, 3) with γ = μ = 1: the first step moves to
   * (11/6, 1), the others contract toward b + 1/a = 2.5, ending at 2.5 - (2/3)^n.
   */
  lemma DoubleProxScenario(n: nat)
    requires n >= 1
    ensures DoubleProxIterate(Problem(0.5, 0.5), Identity(), 1.0, 1.0, PrimalDual([-0.5], [3.0]), n)
         == PrimalDual([2.5 - Pow(2.0 / 3.0, n)], [1.0])
  {
    var q := 2.0 / 3.0;
    DoubleProxStepOnProblem(0.5, 0.5, 1.0, 1.0, -0.5, 3.0);
    assert ProxPoint(0.5, 0.5, 1.0, -0.5 + 1.0 * 3.0) == 11.0 / 6.0;
    assert ClipOf(3.0 + 1.0 * (11.0 / 6.0)) == 1.0;
    assert Target(0.5, 0.5, 1.0) == 2.5;
    assert Rate(0.5, 1.0) == q;
    DoubleProxContracts(0.5, 0.5, 1.0, 1.0, 1.0, 11.0 / 6.0, n - 1);
    assert Toward(2.5, 11.0 / 6.0, q, n - 1) == 2.5 - Pow(q, n) by {
      assert Pow(q, n) == q * Pow(q, n - 1);
    }
  }

  /** After n >= 50 steps the three end points are within 1e-6 of a candidate. */
  lemma ScenarioDistances(n: nat, xDca: real, xProxDca: real, xDoubleProx: real)
    requires n >= 50 && xDca == -1.5
    requires xProxDca == -1.5 + Pow(2.0 / 3.0, n) && xDoubleProx == 2.5 - Pow(2.0 / 3.0, n)
    ensures Dist(xDca, Expected(0.5, 0.5)) <= 0.000001
    ensures Dist(xProxDca, Expected(0.5, 0.5)) <= 0.000001
    ensures Dist(xDoubleProx, Expected(0.5, 0.5)) <= 0.000001
  {
    var q := 2.0 / 3.0;
    var expected := Expected(0.5, 0.5);
    assert expected == [-1.5, 0.0, 2.5];
    PowBound();
    PowDecreasing(q, 50, n);
    assert Abs(expected[0] - xDca) == 0.0;
    assert Abs(expected[0] - xProxDca) == Pow(q, n);
    assert Abs(expected[2] - xDoubleProx) == Pow(q, n);
  }

  /** `x.copy()`: a fresh array with the same coordinates. */
  method Copy(x: array<real>) returns (c: array<real>)
    ensures fresh(c) && c[..] == x[..]
  {
    c := new real[x.Length];
    forall i | 0 <= i < x.Length {
      c[i] := x[i];
    }
  }

  /** `dca(x_dca, g, h, niter)` on a copy x_dca of x = [-0.5], returning the end point. */
  method DcaOnCopy(x: array<real>, niter: nat) returns (xDca: real)
    requires x[..] == [-0.5]
    ensures niter >= 1 ==> xDca == -1.5
  {
    var x_dca := Copy(x);
    Dca(x_dca, Problem(0.5, 0.5), niter);
    xDca := x_dca[0];
    if niter >= 1 {
      DcaScenario(niter);
    }
  }

  /** `prox_dca(x_prox_dca, g, h, niter, gamma)` with γ = 1 on a copy of x = [-0.5]. */
  method ProxDcaOnCopy(x: array<real>, niter: nat) returns (xProxDca: real)
    requires x[..] == [-0.5]
    ensures xProxDca == -1.5 + Pow(2.0 / 3.0, niter)
  {
    var x_prox_dca := Copy(x);
    ProxDca(x_prox_dca, Problem(0.5, 0.5), niter, 1.0);
    xProxDca := x_prox_dca[0];
    ProxDcaScenario(niter);
  }

  /**
   * `doubleprox_dc(x_doubleprox, y, g, h, phi, K, niter, gamma, mu)` with K = id,
   * γ = μ = 1 on a copy of x = [-0.5] and on y = [3] itself.
   */
  method DoubleProxOnCopy(x: array<real>, y: array<real>, niter: nat) returns (xDoubleProx: real)
    requires x[..] == [-0.5] && y[..] == [3.0] && x != y
    modifies y
    ensures niter >= 1 ==> xDoubleProx == 2.5 - Pow(2.0 / 3.0, niter)
  {
    var x_doubleprox := Copy(x);
    DoubleProxDc(x_doubleprox, y, Problem(0.5, 0.5), Identity(), niter, 1.0, 1.0);
    xDoubleProx := x_doubleprox[0];
    if niter >= 1 {
      DoubleProxScenario(niter);
    }
  }

  /**
   * The test, for any number of steps: x = -0.5, y = 3, a = b = 1/2, γ = μ = 1,
   * niter steps of each solver on its own copy of x.  After at least one step dca is
   * at b - 1/a = -1.5, prox_dca at -1.5 + (2/3)^niter and doubleprox_dc at
   * 2.5 - (2/3)^niter; from niter = 50 on (the test's count) each is within 1e-6 of a
   * candidate of Expected(a, b); x itself still holds -0.5.
   */
  method DcTestScenario(niter: nat) returns (xDca: real, xProxDca: real, xDoubleProx: real, xOriginal: real,
                                             distDca: real, distProxDca: real, distDoubleProx: real)
    ensures niter >= 1 ==> xDca == -1.5
    ensures xProxDca == -1.5 + Pow(2.0 / 3.0, niter)
    ensures niter >= 1 ==> xDoubleProx == 2.5 - Pow(2.0 / 3.0, niter)
    ensures xOriginal == -0.5
    ensures niter >= 50 ==> distDca <= 0.000001 && distProxDca <= 0.000001 && distDoubleProx <= 0.000001
  {
    var x := new real[1];
    x[0] := -0.5;
    var y := new real[1];
    y[0] := 3.0;
    assert x[..] == [-0.5] && y[..] == [3.0];
    xDca := DcaOnCopy(x, niter);
    xProxDca := ProxDcaOnCopy(x, niter);
    xDoubleProx := DoubleProxOnCopy(x, y, niter);
    xOriginal := x[0];

    var expected := Expected(0.5, 0.5);
    distDca := Dist(xDca, expected);
    distProxDca := Dist(xProxDca, expected);
    distDoubleProx := Dist(xDoubleProx, expected);
    if niter >= 50 {
      ScenarioDistances(niter, xDca, xProxDca, xDoubleProx);
    }
  }
}
