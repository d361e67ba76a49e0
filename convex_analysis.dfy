/**
 * The analytic promises of the functional interface, stated for every functional
 * of the algebra: the derivative is the limit of difference quotients, the
 * proximal operator returns the unique minimiser of its objective, and the convex
 * conjugate is the supremum sup_x <x, y> - F(x), with the Fenchel-Young
 * inequality, inverse gradients and F** == F.  Each is a law of one quadratic
 * lifted to F through QuadOf.
 */
module ConvexAnalysis {
  import opened Failures
  import opened Spaces
  import opened Vectors
  import opened Functionals
  import opened Quadratics
  import opened FunctionalLaws

  /** F(x + p) == F(x) + F'(x)(p) + <a p, p>: the expansion stops at the quadratic term. */
  lemma Expansion(F: Functional, x: Vec, p: Vec)
    requires WellFormed(F) && Fits(F, x) && Fits(F, p)
    ensures Value(F, Add(x, p)) == Value(F, x) + Derivative(F, x, p) + Inner(Domain(F), Scale(QuadOf(F).a, p), p)
  {
    ValueIsQuadratic(F, Add(x, p));
    ValueIsQuadratic(F, x);
    GradIsQuadratic(F, x);
    DerivativeIsInnerGradient(F, x, p);
    QTaylor(Domain(F), QuadOf(F), x, p);
  }

  /** The derivative F'(x) is linear in the direction: F'(x)(c p) == c F'(x)(p). */
  lemma DerivativeHomogeneous(F: Functional, x: Vec, c: real, p: Vec)
    requires WellFormed(F) && Fits(F, x) && Fits(F, p)
    ensures Derivative(F, x, Scale(c, p)) == c * Derivative(F, x, p)
  {
    DerivativeIsInnerGradient(F, x, Scale(c, p));
    DerivativeIsInnerGradient(F, x, p);
    InnerScaleRight(Domain(F), c, Grad(F, x), p);
  }

  /** The proximal point z = prox_{σF}(x) is exactly the solution of z + σ ∇F(z) == x. */
  lemma ProxResolvent(F: Functional, sigma: real, x: Vec, z: Vec)
    requires WellFormed(F) && Fits(F, x) && Fits(F, z) && sigma > 0.0 && ProxDefined(F)
    ensures Prox(F, sigma, x) == Ok(z) <==> Add(z, Scale(sigma, Grad(F, z))) == x
  {
    ProxIsClosedForm(F, sigma, x);
    GradIsQuadratic(F, z);
    ProxPointResolvent(QuadOf(F), sigma, x, z);
  }

  /**
   * The objective σ F(w) + <w - x, w - x> / 2 of the proximal operator prox_{σF}(x),
   * written with the layer idiom of Scalars (see ProxCostIs) to keep the products in it
   * out of the proofs that only compare costs.
   */
  function ProxCost(F: Functional, sigma: real, x: Vec, w: Vec): real
    requires WellFormed(F) && Fits(F, x) && Fits(F, w)
  {
    ProxCostLayer(1, sigma, Value(F, w), Inner(Domain(F), Sub(w, x), Sub(w, x)))
  }

  /** σ v + e / 2 for the value v = F(w) and the squared distance e = <w - x, w - x>. */
  function ProxCostLayer(depth: nat, sigma: real, v: real, e: real): real {
    if depth == 0 then sigma * v + 0.5 * e
    else ProxCostLayer(depth - 1, sigma, v, e)
  }

  lemma ProxCostIs(F: Functional, sigma: real, x: Vec, w: Vec)
    requires WellFormed(F) && Fits(F, x) && Fits(F, w)
    ensures ProxCost(F, sigma, x, w) == sigma * Value(F, w) + 0.5 * Inner(Domain(F), Sub(w, x), Sub(w, x))
  {
    var v, e := Value(F, w), Inner(Domain(F), Sub(w, x), Sub(w, x));
    assert ProxCostLayer(1, sigma, v, e) == ProxCostLayer(0, sigma, v, e);
  }

  /** The proximal objective of F is the proximal objective of its quadratic. */
  lemma ProxCostIsObjective(F: Functional, sigma: real, x: Vec, w: Vec)
    requires WellFormed(F) && Fits(F, x) && Fits(F, w)
    ensures ProxCost(F, sigma, x, w) == ProxObjective(Domain(F), QuadOf(F), sigma, x, w)
  {
    ProxCostIs(F, sigma, x, w);
    ValueIsQuadratic(F, w);
  }

  /** prox_{σF}(x) minimises the proximal objective, and no other point does. */
  lemma ProxMinimizes(F: Functional, sigma: real, x: Vec, w: Vec)
    requires WellFormed(F) && Fits(F, x) && Fits(F, w) && sigma > 0.0 && ProxDefined(F)
    ensures Prox(F, sigma, x).Ok?
    ensures ProxCost(F, sigma, x, Prox(F, sigma, x).value) <= ProxCost(F, sigma, x, w)
    ensures ProxCost(F, sigma, x, Prox(F, sigma, x).value) == ProxCost(F, sigma, x, w)
        ==> w == Prox(F, sigma, x).value
  {
    var q := QuadOf(F);
    ProxIsClosedForm(F, sigma, x);
    ProxCostIsObjective(F, sigma, x, w);
    ProxCostIsObjective(F, sigma, x, ProxPoint(q, sigma, x));
    ProxPointMinimizes(Domain(F), q, sigma, x, w);
  }

  /**
   * Fenchel-Young: for a functional with a proximal operator, F(x) + F*(y) >= <x, y>,
   * with equality exactly when y is the gradient of F at x.
   */
  lemma YoungInequality(F: Functional, x: Vec, y: Vec)
    requires WellFormed(F) && ProxDefined(F) && Fits(F, x) && Fits(F, y)
    ensures Conj(F).Ok?
    ensures Value(F, x) + Value(Conj(F).value, y) >= Inner(Domain(F), x, y)
    ensures Value(F, x) + Value(Conj(F).value, y) == Inner(Domain(F), x, y) <==> y == Grad(F, x)
  {
    ConjOkIffProxDefined(F);
    ConjIsQuadratic(F);
    ProxDefinedConvex(F);
    ValueIsQuadratic(F, x);
    ValueIsQuadratic(Conj(F).value, y);
    GradIsQuadratic(F, x);
    FenchelYoung(Domain(F), QuadOf(F), x, y);
  }

  /** The gradients of F and F* are inverse maps of each other. */
  lemma ConjGradientInverse(F: Functional, x: Vec, y: Vec)
    requires WellFormed(F) && Conj(F).Ok? && Fits(F, x) && Fits(F, y)
    ensures Grad(Conj(F).value, Grad(F, x)) == x
    ensures Grad(F, Grad(Conj(F).value, y)) == y
  {
    var G := Conj(F).value;
    ConjIsQuadratic(F);
    GradIsQuadratic(F, x);
    GradIsQuadratic(G, Grad(F, x));
    GradIsQuadratic(G, y);
    GradIsQuadratic(F, Grad(G, y));
    ConjugateGradientInverse(Domain(F), QuadOf(F), x, y);
  }

  /**
   * F*(y) == sup_x <x, y> - F(x): every x stays below F*(y), and the supremum is
   * attained at x = ∇F*(y).
   */
  lemma ConjIsSupremum(F: Functional, x: Vec, y: Vec)
    requires WellFormed(F) && ProxDefined(F) && Fits(F, x) && Fits(F, y)
    ensures Conj(F).Ok?
    ensures Inner(Domain(F), x, y) - Value(F, x) <= Value(Conj(F).value, y)
    ensures Inner(Domain(F), Grad(Conj(F).value, y), y) - Value(F, Grad(Conj(F).value, y))
         == Value(Conj(F).value, y)
  {
    YoungInequality(F, x, y);
    var G := Conj(F).value;
    ConjGradientInverse(F, x, y);
    YoungInequality(F, Grad(G, y), y);
  }

  /** F** == F: conjugating twice gives back the values and gradients of F. */
  lemma Biconjugate(F: Functional, x: Vec)
    requires WellFormed(F) && Conj(F).Ok? && Conj(Conj(F).value).Ok? && Fits(F, x)
    ensures Value(Conj(Conj(F).value).value, x) == Value(F, x)
    ensures Grad(Conj(Conj(F).value).value, x) == Grad(F, x)
  {
    var G := Conj(F).value;
    var H := Conj(G).value;
    ConjIsQuadratic(F);
    ConjIsQuadratic(G);
    ConjugateInvolution(Domain(F), QuadOf(F));
    ValueIsQuadratic(H, x);
    ValueIsQuadratic(F, x);
    GradIsQuadratic(H, x);
    GradIsQuadratic(F, x);
  }
}
