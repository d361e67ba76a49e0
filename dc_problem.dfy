/**
 * The one-dimensional d.c. program min_x a/2 (x - b)² - |x| on R^1, with
 * g = a/2 · L2NormSquare.translate(b) and h = |·|: the closed forms the three solver
 * steps take on it, its stationary points, and where each solver is after `niter`
 * steps from x = -0.5 with a = b = 0.5.
 */
module DcProblem {
  import opened Failures
  import opened Spaces
  import opened Vectors
  import opened Functionals
  import opened Scalars
  import opened Combinators
  import opened FunctionalLaws
  import opened DcSolvers

  /** The line R^1 the problem lives on. */
  function Line(): Space {
    Rn(1)
  }

  /** g = a/2 · ||· - b||² on R^1. */
  function Problem(a: real, b: real): (g: Functional)
    ensures WellFormed(g) && Domain(g) == Line()
    ensures a > 0.0 ==> ProxDefined(g)
  {
    var square := L2NormSquare(Line());
    assert WellFormed(square) && ProxDefined(square) && Size(Line()) == 1;
    var shifted := Translation(square, [b]);
    assert WellFormed(shifted) && ProxDefined(shifted);
    LeftScalarMult(a / 2.0, shifted)
  }

  /** The identity operator of R^1, the K of doubleprox_dc. */
  function Identity(): Operator {
    ScalingOperator(Line(), 1.0)
  }

  /** g is what `a / 2 * L2NormSquare(R^1).translate(b)` builds: the number b is broadcast. */
  lemma ProblemIsBuilt(a: real, b: real)
    ensures Translate(L2NormSquare(Line()), RealScalar(b)).Ok?
    ensures LeftMul(RealScalar(a / 2.0), Translate(L2NormSquare(Line()), RealScalar(b)).value)
         == Ok(FunctionalProduct(Problem(a, b)))
  {
    assert Const(1, b) == [b];
  }

  // ----- arithmetic on one coordinate -----

  lemma Single(c: real, u: real, w: real)
    ensures Scale(c, [u]) == [c * u]
    ensures Add([u], [w]) == [u + w]
    ensures Sub([u], [w]) == [u - w]
  {
    assert Scale(c, [u])[0] == c * u;
    assert Add([u], [w])[0] == u + w;
    assert Sub([u], [w])[0] == u - w;
  }

  /** Scaling a one-coordinate vector, with the product named by the caller. */
  lemma ScaleOne(c: real, u: real, r: real)
    requires r == c * u
    ensures Scale(c, [u]) == [r]
  {
    assert Scale(c, [u])[0] == r;
  }

  /** Equal reals make equal one-coordinate vectors (kept apart from nonlinear context). */
  lemma SameCoordinate(p: real, q: real)
    requires p == q
    ensures [p] == [q]
  {
  }

  /** g(x) = a/2 (x - b)². */
  lemma ProblemValue(a: real, b: real, x: real)
    ensures Value(Problem(a, b), [x]) == a / 2.0 * ((x - b) * (x - b))
  {
    var T := Translation(L2NormSquare(Line()), [b]);
    assert WellFormed(L2NormSquare(Line())) && Size(Line()) == 1;
    assert WellFormed(T);
    Single(1.0, x, b);
    assert Value(T, [x]) == Inner(Line(), [x - b], [x - b]);
    InnerIsWeightedDot(Line(), [x - b], [x - b]);
    assert [x - b][1..] == [];
    assert WeightedDot(1.0, [x - b], [x - b]) == 1.0 * ((x - b) * (x - b)) + WeightedDot(1.0, [], []);
    assert Value(Problem(a, b), [x]) == a / 2.0 * Value(T, [x]);
  }

  /** ∇g(x) = a (x - b). */
  lemma ProblemGrad(a: real, b: real, x: real)
    ensures Grad(Problem(a, b), [x]) == [a * (x - b)]
  {
    var T := Translation(L2NormSquare(Line()), [b]);
    assert WellFormed(L2NormSquare(Line())) && Size(Line()) == 1;
    assert WellFormed(T);
    Single(1.0, x, b);
    var u := 2.0 * (x - b);
    Single(2.0, x - b, b);
    assert Grad(T, [x]) == [u];
    var c := a / 2.0;
    var g := Grad(Problem(a, b), [x]);
    assert g == Scale(c, [u]);
    Single(c, u, b);
    assert g == [c * u];
    HalfTwice(a, x - b, c, u);
    SameCoordinate(c * u, a * (x - b));
  }

  lemma HalfTwice(a: real, e: real, c: real, u: real)
    requires c == a / 2.0 && u == 2.0 * e
    ensures c * u == a * e
  {
  }

  /**
   * The point prox_{γg}(z) = (z + γab) / (1 + γa): it solves r - z + γ a (r - b) = 0,
   * the optimality condition of min_r g(r) + (r - z)²/(2γ).
   */
  function ProxPoint(a: real, b: real, gamma: real, z: real): (r: real)
    requires a > 0.0 && gamma > 0.0
    ensures r - z + gamma * (a * (r - b)) == 0.0
  {
    ProxPointSolves(a, b, gamma, z, (z + gamma * a * b) / (1.0 + gamma * a));
    (z + gamma * a * b) / (1.0 + gamma * a)
  }

  lemma ProxPointSolves(a: real, b: real, gamma: real, z: real, r: real)
    requires a > 0.0 && gamma > 0.0 && r == (z + gamma * a * b) / (1.0 + gamma * a)
    ensures r - z + gamma * (a * (r - b)) == 0.0
  {
    assert r * (1.0 + gamma * a) == z + gamma * a * b;
  }

  /** The prox of g at z is the point of ProxPoint. */
  lemma ProblemProx(a: real, b: real, gamma: real, z: real)
    requires a > 0.0 && gamma > 0.0
    ensures Prox(Problem(a, b), gamma, [z]) == Ok([ProxPoint(a, b, gamma, z)])
  {
    var T := Translation(L2NormSquare(Line()), [b]);
    assert WellFormed(L2NormSquare(Line())) && Size(Line()) == 1;
    assert WellFormed(T);
    var t := Times(gamma, a / 2.0);
    TimesIs(gamma, a / 2.0);
    var d := 1.0 + 2.0 * t;
    assert Prox(Problem(a, b), gamma, [z]) == Prox(T, t, [z]);
    Single(1.0, z, b);
    var w := Scale(1.0 / d, [z - b]);
    assert Prox(L2NormSquare(Line()), t, [z - b]) == Ok(w);
    assert Prox(T, t, [z]) == Ok(Add([b], w));
    var e := 1.0 / d * (z - b);
    ScaleOne(1.0 / d, z - b, e);
    Single(1.0, b, e);
    ProxArith(a, b, gamma, z, t, d, e);
    SameCoordinate(b + e, ProxPoint(a, b, gamma, z));
  }

  lemma ProxArith(a: real, b: real, gamma: real, z: real, t: real, d: real, e: real)
    requires a > 0.0 && gamma > 0.0 && t == gamma * (a / 2.0) && d == 1.0 + 2.0 * t
    requires e == 1.0 / d * (z - b)
    ensures b + e == (z + gamma * a * b) / (1.0 + gamma * a)
  {
    assert d == 1.0 + gamma * a;
    calc {
      b + 1.0 / d * (z - b);
      (d * b + (z - b)) / d;
      (z + gamma * a * b) / d;
    }
  }

  /** ∇g*(v) = b + v / a, the minimiser of g(z) - v z. */
  lemma ProblemConjGrad(a: real, b: real, v: real)
    requires a > 0.0
    ensures Conj(Problem(a, b)).Ok?
    ensures Grad(Conj(Problem(a, b)).value, [v]) == [b + v / a]
  {
    var c := a / 2.0;
    var r := 1.0 / c;
    var Q := LeftScalarMult(0.25, L2NormSquare(Line()));
    assert WellFormed(L2NormSquare(Line())) && Size(Line()) == 1;
    assert Conj(L2NormSquare(Line())) == Ok(Q);
    var T := Translation(L2NormSquare(Line()), [b]);
    assert WellFormed(T);
    var Ct := ConvexConjugateTranslation(Q, [b]);
    assert Conj(T) == Ok(Ct);
    assert Conj(Problem(a, b)) == Ok(LeftScalarMult(c, RightScalarMult(Ct, r)));
    var p1 := r * v;
    ScaleOne(r, v, p1);
    var p2 := 2.0 * p1;
    ScaleOne(2.0, p1, p2);
    var p3 := 0.25 * p2;
    ScaleOne(0.25, p2, p3);
    assert Grad(Q, [p1]) == [p3];
    var p4 := p3 + b;
    Single(1.0, p3, b);
    assert Grad(Ct, [p1]) == [p4];
    var p5 := r * p4;
    ScaleOne(r, p4, p5);
    assert Grad(RightScalarMult(Ct, r), [v]) == [p5];
    var p6 := c * p5;
    ScaleOne(c, p5, p6);
    ConjGradArith(a, b, v, c, r);
    SameCoordinate(p6, b + v / a);
  }

  lemma ConjGradArith(a: real, b: real, v: real, c: real, r: real)
    requires a > 0.0 && c == a / 2.0 && r == 1.0 / c
    ensures c * (r * (0.25 * (2.0 * (r * v)) + b)) == b + v / a
  {
    assert c * r == 1.0;
    calc {
      c * (r * (0.25 * (2.0 * (r * v)) + b));
      (c * r) * (0.5 * (r * v) + b);
      0.5 * (r * v) + b;
      { assert 0.5 * r == 1.0 / a; }
      b + v / a;
    }
  }

  // ----- the three steps on the problem -----

  /** The dca step moves x to b + sign(x)/a. */
  lemma DcaStepOnProblem(a: real, b: real, x: real)
    requires a > 0.0
    ensures DcaStep(Problem(a, b), [x]) == [b + SignOf(x) / a]
  {
    assert Sign([x]) == [SignOf(x)];
    ProblemConjGrad(a, b, SignOf(x));
  }

  /** The prox_dca step moves x to prox_{γg}(x + γ sign(x)). */
  lemma ProxDcaStepOnProblem(a: real, b: real, gamma: real, x: real)
    requires a > 0.0 && gamma > 0.0
    ensures ProxDcaStep(Problem(a, b), gamma, [x]) == [ProxPoint(a, b, gamma, x + gamma * SignOf(x))]
  {
    assert Sign([x]) == [SignOf(x)];
    var gs := gamma * SignOf(x);
    ScaleOne(gamma, SignOf(x), gs);
    Single(1.0, x, gs);
    ProblemProx(a, b, gamma, x + gs);
  }

  /**
   * The doubleprox_dc step with K = id moves x to x' = prox_{γg}(x + γy) and then
   * y to clip(y + μx').
   */
  lemma DoubleProxStepOnProblem(a: real, b: real, gamma: real, mu: real, x: real, y: real)
    requires a > 0.0 && gamma > 0.0
    ensures DoubleProxStep(Problem(a, b), Identity(), gamma, mu, PrimalDual([x], [y]))
      == PrimalDual([ProxPoint(a, b, gamma, x + gamma * y)],
                    [ClipOf(y + mu * ProxPoint(a, b, gamma, x + gamma * y))])
  {
    ScaleOne(1.0, y, y);
    ScaleOne(gamma, y, gamma * y);
    Single(1.0, x, gamma * y);
    ProblemProx(a, b, gamma, x + gamma * y);
    ScaleOne(1.0, ProxPoint(a, b, gamma, x + gamma * y), ProxPoint(a, b, gamma, x + gamma * y));
    ScaleOne(mu, ProxPoint(a, b, gamma, x + gamma * y), mu * ProxPoint(a, b, gamma, x + gamma * y));
    Single(1.0, y, mu * ProxPoint(a, b, gamma, x + gamma * y));
    assert Clip([y + mu * ProxPoint(a, b, gamma, x + gamma * y)]) == [ClipOf(y + mu * ProxPoint(a, b, gamma, x + gamma * y))];
    var s := DoubleProxStep(Problem(a, b), Identity(), gamma, mu, PrimalDual([x], [y]));
    PairOf(s, ProxPoint(a, b, gamma, x + gamma * y), ClipOf(y + mu * ProxPoint(a, b, gamma, x + gamma * y)));
  }

  lemma PairOf(s: PrimalDual, u: real, w: real)
    requires s.x == [u] && s.y == [w]
    ensures s == PrimalDual([u], [w])
  {
  }

  // ----- stationary points -----

  /** 0 ∈ ∂(g - h)(x) in the d.c. sense: g'(x) = a (x - b) is a subgradient of |·| at x. */
  predicate Stationary(a: real, b: real, x: real) {
    AbsSubgradient(x, a * (x - b))
  }

  /**
   * The case analysis of the optimality condition: x > 0 needs x = b + 1/a, x < 0
   * needs x = b - 1/a, and x = 0 needs b - 1/a <= 0 <= b + 1/a.
   */
  lemma StationaryCases(a: real, b: real, x: real)
    requires a > 0.0
    ensures Stationary(a, b, x) <==>
      (x > 0.0 && x == b + 1.0 / a) || (x < 0.0 && x == b - 1.0 / a)
      || (x == 0.0 && b - 1.0 / a <= 0.0 <= b + 1.0 / a)
  {
    DivideBy(a, x - b, 1.0);
    DivideBy(a, x - b, -1.0);
    DivideBy(a, -b, 1.0);
    DivideBy(a, -b, -1.0);
    assert a * (0.0 - b) == -(a * b);
    if x == 0.0 {
      BoundsDivide(a, b);
    }
  }

  /** a d == e exactly when d == e / a, for a > 0. */
  lemma DivideBy(a: real, d: real, e: real)
    requires a > 0.0
    ensures a * d == e <==> d == e / a
  {
  }

  /** -1 <= -ab <= 1 exactly when b - 1/a <= 0 <= b + 1/a, for a > 0. */
  lemma BoundsDivide(a: real, b: real)
    requires a > 0.0
    ensures (-1.0 <= a * (0.0 - b) <= 1.0) <==> (b - 1.0 / a <= 0.0 <= b + 1.0 / a)
  {
    assert a * (0.0 - b) <= 1.0 <==> -b <= 1.0 / a by {
      ScaleInequality(a, -b, 1.0);
    }
    assert -1.0 <= a * (0.0 - b) <==> -1.0 / a <= -b by {
      ScaleInequality(a, -1.0, -b);
      assert a * (-1.0 / a) == -1.0;
    }
  }

  /** a d <= e exactly when d <= e / a, for a > 0. */
  lemma ScaleInequality(a: real, d: real, e: real)
    requires a > 0.0
    ensures a * d <= e <==> d <= e / a
  {
    assert a * (e / a) == e;
    if a * d <= e {
      assert a * (d - e / a) <= 0.0;
    } else {
      assert a * (d - e / a) > 0.0;
    }
  }

  /**
   * The solution sets of the docstring: {b - 1/a} for b < -1/a, {-2/a, 0} for b = -1/a,
   * {b - 1/a, 0, b + 1/a} for -1/a < b < 1/a, {0, 2/a} for b = 1/a, {b + 1/a} for b > 1/a.
   */
  lemma StationarySets(a: real, b: real, x: real)
    requires a > 0.0
    ensures b < -1.0 / a ==> (Stationary(a, b, x) <==> x == b - 1.0 / a)
    ensures b == -1.0 / a ==> (Stationary(a, b, x) <==> x == -2.0 / a || x == 0.0)
    ensures -1.0 / a < b < 1.0 / a ==> (Stationary(a, b, x) <==> x == b - 1.0 / a || x == 0.0 || x == b + 1.0 / a)
    ensures b == 1.0 / a ==> (Stationary(a, b, x) <==> x == 0.0 || x == 2.0 / a)
    ensures b > 1.0 / a ==> (Stationary(a, b, x) <==> x == b + 1.0 / a)
  {
    StationaryCases(a, b, x);
    assert 1.0 / a > 0.0;
    assert -2.0 / a == -(1.0 / a) - 1.0 / a;
    assert 2.0 / a == 1.0 / a + 1.0 / a;
  }

  /** The fixed points of the dca and prox_dca steps on the problem are stationary points. */
  lemma FixedPointsStationary(a: real, b: real, gamma: real, x: real)
    requires a > 0.0 && gamma > 0.0
    ensures DcaStep(Problem(a, b), [x]) == [x] ==> Stationary(a, b, x)
    ensures ProxDcaStep(Problem(a, b), gamma, [x]) == [x] ==> Stationary(a, b, x)
  {
    DcaFixedPoint(Problem(a, b), [x]);
    ProxDcaFixedPoint(Problem(a, b), gamma, [x]);
    ProblemGrad(a, b, x);
    assert Sign([x]) == [SignOf(x)];
    assert Sign([x])[0] == SignOf(x);
  }

  /** A fixed point of doubleprox_dc with K = id has a stationary primal part. */
  lemma DoubleProxFixedPointStationary(a: real, b: real, gamma: real, mu: real, x: real, y: real)
    requires a > 0.0 && gamma > 0.0 && mu > 0.0
    requires DoubleProxStep(Problem(a, b), Identity(), gamma, mu, PrimalDual([x], [y])) == PrimalDual([x], [y])
    ensures Stationary(a, b, x)
  {
    DoubleProxFixedPoint(Problem(a, b), Identity(), gamma, mu, PrimalDual([x], [y]));
    ProblemGrad(a, b, x);
    Single(1.0, y, 0.0);
    Single(1.0, x, 0.0);
    assert Grad(Problem(a, b), [x])[0] == y;
    assert Apply(Identity(), [x])[0] == x;
  }
}
