/**
 * The difference-of-convex solvers for min_x g(x) - h(x): `dca`, `prox_dca` and
 * `doubleprox_dc`.  g is any functional of the algebra that has a proximal operator;
 * h is the l1 norm, whose subgradient at x is sign(x) and whose conjugate is the
 * indicator of the box [-1, 1], so that the proximal operator of h* is the clip to
 * that box.  Each solver overwrites the elements it is given, for exactly `niter`
 * steps, and is proved to leave in them the niter-th iterate of its step function.
 */
module DcSolvers {
  import opened Failures
  import opened Spaces
  import opened Vectors
  import opened Functionals
  import opened FunctionalLaws
  import opened ConvexAnalysis

  // ----- the l1 norm h and its conjugate -----

  function Abs(u: real): real {
    if u < 0.0 then -u else u
  }

  /** The sign of u: 1, -1 or 0. */
  function SignOf(u: real): real {
    if u > 0.0 then 1.0 else if u < 0.0 then -1.0 else 0.0
  }

  /** v is a subgradient of |·| at u: 1 right of 0, -1 left of 0, anything in [-1, 1] at 0. */
  predicate AbsSubgradient(u: real, v: real) {
    (u > 0.0 ==> v == 1.0) && (u < 0.0 ==> v == -1.0) && (u == 0.0 ==> -1.0 <= v <= 1.0)
  }

  /** The sign is a subgradient of |·|: |z| >= |u| + sign(u)(z - u) for every z. */
  lemma SignIsSubgradient(u: real, z: real)
    ensures AbsSubgradient(u, SignOf(u))
    ensures Abs(z) >= Abs(u) + SignOf(u) * (z - u)
  {
  }

  /** The gradient of the l1 norm, coordinate by coordinate. */
  function Sign(x: Vec): (r: Vec)
    ensures |r| == |x|
    ensures forall i :: 0 <= i < |x| ==> AbsSubgradient(x[i], r[i])
  {
    seq(|x|, i requires 0 <= i < |x| => SignOf(x[i]))
  }

  /** The projection onto [-1, 1]: the proximal operator of the conjugate of |·|. */
  function ClipOf(u: real): real {
    if u > 1.0 then 1.0 else if u < -1.0 then -1.0 else u
  }

  /** ClipOf(u) lies in [-1, 1] and no point of [-1, 1] is closer to u. */
  lemma ClipProjects(u: real, w: real)
    requires -1.0 <= w <= 1.0
    ensures -1.0 <= ClipOf(u) <= 1.0
    ensures Abs(ClipOf(u) - u) <= Abs(w - u)
  {
  }

  function Clip(y: Vec): (r: Vec)
    ensures |r| == |y|
  {
    seq(|y|, i requires 0 <= i < |y| => ClipOf(y[i]))
  }

  /**
   * A dual value that the clip leaves unchanged after a move by μu is a subgradient
   * of |·| at u: y == clip(y + μu) with μ > 0 forces y = 1 for u > 0, y = -1 for
   * u < 0, and y in [-1, 1] for u = 0.
   */
  lemma ClipFixedPoint(y: real, mu: real, u: real)
    requires mu > 0.0 && y == ClipOf(y + mu * u)
    ensures AbsSubgradient(u, y)
  {
    if u > 0.0 {
      PositiveStep(mu, u);
    } else if u < 0.0 {
      PositiveStep(mu, -u);
    }
  }

  lemma PositiveStep(mu: real, u: real)
    requires mu > 0.0 && u > 0.0
    ensures mu * u > 0.0
  {
  }

  // ----- one step of each solver -----

  /** dca: x ← ∇g*(v) with v = sign(x), the minimiser of g(z) - <v, z>. */
  function DcaStep(g: Functional, x: Vec): (r: Vec)
    requires WellFormed(g) && ProxDefined(g) && Fits(g, x)
    ensures |r| == |x|
  {
    ConjOkIffProxDefined(g);
    Grad(Conj(g).value, Sign(x))
  }

  /** prox_dca: x ← prox_{γg}(x + γ v) with v = sign(x). */
  function ProxDcaStep(g: Functional, gamma: real, x: Vec): (r: Vec)
    requires WellFormed(g) && ProxDefined(g) && Fits(g, x) && gamma > 0.0
    ensures |r| == |x|
  {
    Prox(g, gamma, Add(x, Scale(gamma, Sign(x)))).value
  }

  /** The primal and the dual variable of doubleprox_dc. */
  datatype PrimalDual = PrimalDual(x: Vec, y: Vec)

  /** The requirements of doubleprox_dc: K maps the domain of g into itself; x and y are elements of it. */
  predicate DoubleProxReady(g: Functional, K: Operator, s: PrimalDual) {
    WellFormed(g) && ProxDefined(g) && K.space == Domain(g) && Fits(g, s.x) && Fits(g, s.y)
  }

  /**
   * doubleprox_dc with φ = 0: x ← prox_{γg}(x + γ K*y), then y ← prox_{μh*}(y + μ K x)
   * with the new x, where prox_{μh*} is the clip to [-1, 1].
   */
  function DoubleProxStep(g: Functional, K: Operator, gamma: real, mu: real, s: PrimalDual): (r: PrimalDual)
    requires DoubleProxReady(g, K, s) && gamma > 0.0
    ensures DoubleProxReady(g, K, r)
  {
    var x := Prox(g, gamma, Add(s.x, Scale(gamma, Apply(Adjoint(K), s.y)))).value;
    PrimalDual(x, Clip(Add(s.y, Scale(mu, Apply(K, x)))))
  }

  // ----- niter steps -----

  function DcaIterate(g: Functional, x: Vec, n: nat): (r: Vec)
    requires WellFormed(g) && ProxDefined(g) && Fits(g, x)
    ensures |r| == |x|
    decreases n
  {
    if n == 0 then x else DcaIterate(g, DcaStep(g, x), n - 1)
  }

  function ProxDcaIterate(g: Functional, gamma: real, x: Vec, n: nat): (r: Vec)
    requires WellFormed(g) && ProxDefined(g) && Fits(g, x) && gamma > 0.0
    ensures |r| == |x|
    decreases n
  {
    if n == 0 then x else ProxDcaIterate(g, gamma, ProxDcaStep(g, gamma, x), n - 1)
  }

  function DoubleProxIterate(g: Functional, K: Operator, gamma: real, mu: real, s: PrimalDual, n: nat): (r: PrimalDual)
    requires DoubleProxReady(g, K, s) && gamma > 0.0
    ensures DoubleProxReady(g, K, r)
    decreases n
  {
    if n == 0 then s else DoubleProxIterate(g, K, gamma, mu, DoubleProxStep(g, K, gamma, mu, s), n - 1)
  }

  // ----- the solvers, updating their arguments in place -----

  /** Writes the coordinates z into x. */
  method Overwrite(x: array<real>, z: Vec)
    requires x.Length == |z|
    modifies x
    ensures x[..] == z
  {
    forall i | 0 <= i < x.Length {
      x[i] := z[i];
    }
  }

  /** `dca(x, g, h, niter)`: x is overwritten with the niter-th dca iterate. */
  method Dca(x: array<real>, g: Functional, niter: nat)
    requires WellFormed(g) && ProxDefined(g) && Fits(g, x[..])
    modifies x
    ensures x[..] == DcaIterate(g, old(x[..]), niter)
  {
    var k := 0;
    while k < niter
      invariant 0 <= k <= niter
      invariant Fits(g, x[..])
      invariant DcaIterate(g, x[..], niter - k) == DcaIterate(g, old(x[..]), niter)
    {
      Overwrite(x, DcaStep(g, x[..]));
      k := k + 1;
    }
  }

  /** `prox_dca(x, g, h, niter, gamma)`: x is overwritten with the niter-th prox_dca iterate. */
  method ProxDca(x: array<real>, g: Functional, niter: nat, gamma: real)
    requires WellFormed(g) && ProxDefined(g) && Fits(g, x[..]) && gamma > 0.0
    modifies x
    ensures x[..] == ProxDcaIterate(g, gamma, old(x[..]), niter)
  {
    var k := 0;
    while k < niter
      invariant 0 <= k <= niter
      invariant Fits(g, x[..])
      invariant ProxDcaIterate(g, gamma, x[..], niter - k) == ProxDcaIterate(g, gamma, old(x[..]), niter)
    {
      Overwrite(x, ProxDcaStep(g, gamma, x[..]));
      k := k + 1;
    }
  }

  /**
   * `doubleprox_dc(x, y, g, h, phi, K, niter, gamma, mu)` with φ = 0: the primal x and
   * the dual y, two distinct elements, are overwritten with the niter-th iterate.
   */
  method DoubleProxDc(x: array<real>, y: array<real>, g: Functional, K: Operator, niter: nat, gamma: real, mu: real)
    requires x != y && DoubleProxReady(g, K, PrimalDual(x[..], y[..])) && gamma > 0.0
    modifies x, y
    ensures PrimalDual(x[..], y[..]) == DoubleProxIterate(g, K, gamma, mu, PrimalDual(old(x[..]), old(y[..])), niter)
  {
    var k := 0;
    while k < niter
      invariant 0 <= k <= niter
      invariant DoubleProxReady(g, K, PrimalDual(x[..], y[..]))
      invariant DoubleProxIterate(g, K, gamma, mu, PrimalDual(x[..], y[..]), niter - k)
             == DoubleProxIterate(g, K, gamma, mu, PrimalDual(old(x[..]), old(y[..])), niter)
    {
      var next := DoubleProxStep(g, K, gamma, mu, PrimalDual(x[..], y[..]));
      Overwrite(x, next.x);
      Overwrite(y, next.y);
      k := k + 1;
    }
  }

  // ----- what a step achieves, and where the solvers stop moving -----

  /** The dca step minimises z ↦ g(z) - <z, v>, v = sign(x), over the whole domain. */
  lemma DcaStepMinimizes(g: Functional, x: Vec, z: Vec)
    requires WellFormed(g) && ProxDefined(g) && Fits(g, x) && Fits(g, z)
    ensures Value(g, DcaStep(g, x)) - Inner(Domain(g), DcaStep(g, x), Sign(x))
         <= Value(g, z) - Inner(Domain(g), z, Sign(x))
  {
    var v := Sign(x);
    var w := DcaStep(g, x);
    YoungInequality(g, z, v);
    YoungInequality(g, w, v);
    ConjGradientInverse(g, x, v);
  }

  /** x is a fixed point of the dca step exactly when ∇g(x) == sign(x), a critical point of g - h. */
  lemma DcaFixedPoint(g: Functional, x: Vec)
    requires WellFormed(g) && ProxDefined(g) && Fits(g, x)
    ensures DcaStep(g, x) == x <==> Grad(g, x) == Sign(x)
  {
    ConjOkIffProxDefined(g);
    ConjGradientInverse(g, x, Sign(x));
  }

  /** x is a fixed point of the prox_dca step exactly when ∇g(x) == sign(x), as for dca. */
  lemma ProxDcaFixedPoint(g: Functional, gamma: real, x: Vec)
    requires WellFormed(g) && ProxDefined(g) && Fits(g, x) && gamma > 0.0
    ensures ProxDcaStep(g, gamma, x) == x <==> Grad(g, x) == Sign(x)
  {
    var v := Sign(x);
    ProxResolvent(g, gamma, Add(x, Scale(gamma, v)), x);
    ShiftCancel(x, gamma, Grad(g, x), v);
  }

  /** x + γu == x + γv exactly when u == v, for γ != 0. */
  lemma ShiftCancel(x: Vec, gamma: real, u: Vec, v: Vec)
    requires |x| == |u| == |v| && gamma != 0.0
    ensures Add(x, Scale(gamma, u)) == Add(x, Scale(gamma, v)) <==> u == v
  {
    if Add(x, Scale(gamma, u)) == Add(x, Scale(gamma, v)) {
      forall i | 0 <= i < |x|
        ensures u[i] == v[i]
      {
        assert Add(x, Scale(gamma, u))[i] == Add(x, Scale(gamma, v))[i];
        CancelFactor(gamma, u[i], v[i]);
      }
    }
  }

  lemma CancelFactor(gamma: real, u: real, v: real)
    requires gamma != 0.0 && gamma * u == gamma * v
    ensures u == v
  {
    assert gamma * (u - v) == 0.0;
  }

  /**
   * A fixed point (x, y) of doubleprox_dc is a critical point of g - h∘K: ∇g(x) == K*y,
   * and each coordinate of y is a subgradient of |·| at the matching coordinate of Kx.
   */
  lemma DoubleProxFixedPoint(g: Functional, K: Operator, gamma: real, mu: real, s: PrimalDual)
    requires DoubleProxReady(g, K, s) && gamma > 0.0 && mu > 0.0
    requires DoubleProxStep(g, K, gamma, mu, s) == s
    ensures Grad(g, s.x) == Apply(Adjoint(K), s.y)
    ensures forall i :: 0 <= i < |s.y| ==> AbsSubgradient(Apply(K, s.x)[i], s.y[i])
  {
    var v := Apply(Adjoint(K), s.y);
    ProxResolvent(g, gamma, Add(s.x, Scale(gamma, v)), s.x);
    ShiftCancel(s.x, gamma, Grad(g, s.x), v);
    forall i | 0 <= i < |s.y|
      ensures AbsSubgradient(Apply(K, s.x)[i], s.y[i])
    {
      assert s.y[i] == Clip(Add(s.y, Scale(mu, Apply(K, s.x))))[i];
      ClipFixedPoint(s.y[i], mu, Apply(K, s.x)[i]);
    }
  }
}
