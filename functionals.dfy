/**
 * The closed algebra of scalar-valued functionals: a base functional and the
 * combinators that wrap it, each evaluated, differentiated, proximated and
 * conjugated by its own closed-form rule.
 */
module Functionals {
  import opened Failures
  import opened Spaces
  import opened Vectors
  import opened Scalars

  /** The scaling operator x ↦ s·x on one space (its domain and range); s = 1 is the identity. */
  datatype Operator = ScalingOperator(space: Space, scalar: real)

  function Apply(op: Operator, x: Vec): Vec {
    Scale(op.scalar, x)
  }

  /** A scaling is self-adjoint. */
  function Adjoint(op: Operator): Operator {
    op
  }

  /**
   * The functionals.  The last four are the convex-conjugate combinators; each
   * wraps an ALREADY conjugated functional G = F* and stands for the conjugate of a
   * transform of F:
   *   ConvexConjugateTranslation(G, y)   = (F(· - y))*      = G + <·, y>
   *   ConvexConjugateArgScaling(G, s)    = (F(s ·))*        = G(· / s)
   *   ConvexConjugateFuncScaling(G, s)   = (s F)*           = s G(· / s)
   *   ConvexConjugateLinearPerturb(G, y) = (F + <y, ·>)*    = G(· - y)
   */
  datatype Functional =
    | L2NormSquare(space: Space)
    | LeftScalarMult(scalar: real, f: Functional)
    | RightScalarMult(f: Functional, scalar: real)
    | Sum(f: Functional, g: Functional)
    | ScalarSum(f: Functional, constant: real)
    | Translation(f: Functional, shift: Vec)
    | Composition(f: Functional, op: Operator)
    | ConvexConjugateTranslation(f: Functional, shift: Vec)
    | ConvexConjugateArgScaling(f: Functional, scaling: real)
    | ConvexConjugateFuncScaling(f: Functional, scaling: real)
    | ConvexConjugateLinearPerturb(f: Functional, shift: Vec)

  function Domain(F: Functional): Space {
    match F
    case L2NormSquare(s) => s
    case LeftScalarMult(_, f) => Domain(f)
    case RightScalarMult(f, _) => Domain(f)
    case Sum(f, _) => Domain(f)
    case ScalarSum(f, _) => Domain(f)
    case Translation(f, _) => Domain(f)
    case Composition(_, op) => op.space
    case ConvexConjugateTranslation(f, _) => Domain(f)
    case ConvexConjugateArgScaling(f, _) => Domain(f)
    case ConvexConjugateFuncScaling(f, _) => Domain(f)
    case ConvexConjugateLinearPerturb(f, _) => Domain(f)
  }

  /**
   * What the checks at construction time guarantee: operands share the domain,
   * shifts are elements of it, operators map into it, scalings are non-zero.
   */
  predicate WellFormed(F: Functional)
    ensures WellFormed(F) ==> Valid(Domain(F))
  {
    match F
    case L2NormSquare(s) => Valid(s)
    case LeftScalarMult(_, f) => WellFormed(f)
    case RightScalarMult(f, _) => WellFormed(f)
    case Sum(f, g) => WellFormed(f) && WellFormed(g) && Domain(f) == Domain(g)
    case ScalarSum(f, _) => WellFormed(f)
    case Translation(f, y) => WellFormed(f) && |y| == Size(Domain(f))
    case Composition(f, op) => WellFormed(f) && op.space == Domain(f)
    case ConvexConjugateTranslation(f, y) => WellFormed(f) && |y| == Size(Domain(f))
    case ConvexConjugateArgScaling(f, s) => WellFormed(f) && s != 0.0
    case ConvexConjugateFuncScaling(f, s) => WellFormed(f) && s != 0.0
    case ConvexConjugateLinearPerturb(f, y) => WellFormed(f) && |y| == Size(Domain(f))
  }

  /** `x` has the coordinates of an element of the domain of `F`. */
  predicate Fits(F: Functional, x: Vec) {
    |x| == Size(Domain(F))
  }

  /** The value F(x). */
  function Value(F: Functional, x: Vec): real
    requires WellFormed(F) && Fits(F, x)
    decreases F
  {
    match F
    case L2NormSquare(s) => Inner(s, x, x)
    case LeftScalarMult(c, f) => c * Value(f, x)
    case RightScalarMult(f, c) => Value(f, Scale(c, x))
    case Sum(f, g) => Value(f, x) + Value(g, x)
    case ScalarSum(f, c) => Value(f, x) + c
    case Translation(f, y) => Value(f, Sub(x, y))
    case Composition(f, op) => Value(f, Apply(op, x))
    case ConvexConjugateTranslation(f, y) => Value(f, x) + Inner(Domain(f), x, y)
    case ConvexConjugateArgScaling(f, s) => Value(f, Scale(1.0 / s, x))
    case ConvexConjugateFuncScaling(f, s) => s * Value(f, Scale(1.0 / s, x))
    case ConvexConjugateLinearPerturb(f, y) => Value(f, Sub(x, y))
  }

  /**
   * Calling F on a point: the value F(x) for an element of the domain, and a
   * DomainError for an element of any other space, even one with as many coordinates.
   */
  function Evaluate(F: Functional, x: Element): (r: Result<real>)
    requires WellFormed(F)
    ensures r.Ok? <==> In(x, Domain(F))
    ensures r.Err? ==> r.error == DomainError
    ensures r.Ok? ==> Fits(F, x.data) && r.value == Value(F, x.data)
  {
    if In(x, Domain(F)) then Ok(Value(F, x.data)) else Err(DomainError)
  }

  /** The gradient ∇F(x), with respect to the inner product of the domain. */
  function Grad(F: Functional, x: Vec): (r: Vec)
    requires WellFormed(F) && Fits(F, x)
    ensures |r| == |x|
    decreases F
  {
    match F
    case L2NormSquare(_) => Scale(2.0, x)
    case LeftScalarMult(c, f) => Scale(c, Grad(f, x))
    case RightScalarMult(f, c) => Scale(c, Grad(f, Scale(c, x)))
    case Sum(f, g) => Add(Grad(f, x), Grad(g, x))
    case ScalarSum(f, _) => Grad(f, x)
    case Translation(f, y) => Grad(f, Sub(x, y))
    case Composition(f, op) => Apply(Adjoint(op), Grad(f, Apply(op, x)))
    case ConvexConjugateTranslation(f, y) => Add(Grad(f, x), y)
    case ConvexConjugateArgScaling(f, s) => Scale(1.0 / s, Grad(f, Scale(1.0 / s, x)))
    case ConvexConjugateFuncScaling(f, s) => Grad(f, Scale(1.0 / s, x))
    case ConvexConjugateLinearPerturb(f, y) => Grad(f, Sub(x, y))
  }

  /**
   * The derivative of F at x applied to the direction p.  The scalar multiples, the
   * sum and the composition carry their own derivative (scaled, added, chained);
   * every other functional uses the default p ↦ <∇F(x), p>.
   */
  function Derivative(F: Functional, x: Vec, p: Vec): real
    requires WellFormed(F) && Fits(F, x) && Fits(F, p)
    decreases F
  {
    match F
    case LeftScalarMult(c, f) => c * Derivative(f, x, p)
    case RightScalarMult(f, c) => c * Derivative(f, Scale(c, x), p)
    case Sum(f, g) => Derivative(f, x, p) + Derivative(g, x, p)
    case Composition(f, op) => Derivative(f, Apply(op, x), Apply(op, p))
    case _ => Inner(Domain(F), Grad(F, x), p)
  }

  /** The functionals whose proximal operator has a closed form. */
  predicate ProxDefined(F: Functional) {
    match F
    case L2NormSquare(_) => true
    case LeftScalarMult(c, f) => c > 0.0 && ProxDefined(f)
    case RightScalarMult(f, c) => c > 0.0 && ProxDefined(f)
    case Sum(_, _) => false
    case ScalarSum(f, _) => ProxDefined(f)
    case Translation(f, _) => ProxDefined(f)
    case Composition(_, _) => false
    case ConvexConjugateTranslation(f, _) => ProxDefined(f)
    case ConvexConjugateArgScaling(f, _) => ProxDefined(f)
    case ConvexConjugateFuncScaling(f, s) => s > 0.0 && ProxDefined(f)
    case ConvexConjugateLinearPerturb(f, _) => ProxDefined(f)
  }

  /**
   * The proximal operator prox_{σF}(x), or the error that asking for it raises:
   * ValueError for a non-positive scalar multiple, NotImplementedError for a sum or
   * a composition.
   */
  function Prox(F: Functional, sigma: real, x: Vec): (r: Result<Vec>)
    requires WellFormed(F) && Fits(F, x) && sigma > 0.0
    ensures r.Ok? <==> ProxDefined(F)
    ensures r.Ok? ==> |r.value| == |x|
    ensures r.Err? ==> r.error == ValueError || r.error == NotImplementedError
    decreases F
  {
    match F
    case L2NormSquare(_) => Ok(Scale(1.0 / (1.0 + 2.0 * sigma), x))
    case LeftScalarMult(c, f) =>
      if c <= 0.0 then Err(ValueError) else Prox(f, Times(sigma, c), x)
    case RightScalarMult(f, c) =>
      if c <= 0.0 then Err(ValueError)
      else
        var w :- Prox(f, Times(Times(sigma, c), c), Scale(c, x));
        Ok(Scale(1.0 / c, w))
    case Sum(_, _) => Err(NotImplementedError)
    case ScalarSum(f, _) => Prox(f, sigma, x)
    case Translation(f, y) =>
      var w :- Prox(f, sigma, Sub(x, y));
      Ok(Add(y, w))
    case Composition(_, _) => Err(NotImplementedError)
    case ConvexConjugateTranslation(f, y) => Prox(f, sigma, Sub(x, Scale(sigma, y)))
    case ConvexConjugateArgScaling(f, s) =>
      SquarePositive(s);
      var w :- Prox(f, Over(sigma, Times(s, s)), Scale(1.0 / s, x));
      Ok(Scale(s, w))
    case ConvexConjugateFuncScaling(f, s) =>
      if s <= 0.0 then Err(ValueError)
      else
        var w :- Prox(f, Over(sigma, s), Scale(1.0 / s, x));
        Ok(Scale(s, w))
    case ConvexConjugateLinearPerturb(f, y) =>
      var w :- Prox(f, sigma, Sub(x, y));
      Ok(Add(y, w))
  }

  /**
   * The convex conjugate F*, or the error that asking for it raises; the conjugate
   * is a functional on the same domain.
   */
  function Conj(F: Functional): (r: Result<Functional>)
    requires WellFormed(F)
    ensures r.Ok? ==> WellFormed(r.value) && Domain(r.value) == Domain(F)
    ensures r.Err? ==> r.error == ValueError || r.error == NotImplementedError
    decreases F
  {
    match F
    case L2NormSquare(s) => Ok(LeftScalarMult(0.25, L2NormSquare(s)))
    case LeftScalarMult(c, f) =>
      if c <= 0.0 then Err(ValueError)
      else
        var g :- Conj(f);
        Ok(LeftScalarMult(c, RightScalarMult(g, 1.0 / c)))
    case RightScalarMult(f, c) =>
      if c <= 0.0 then Err(ValueError)
      else
        var g :- Conj(f);
        Ok(RightScalarMult(g, 1.0 / c))
    case Sum(_, _) => Err(NotImplementedError)
    case ScalarSum(f, c) =>
      var g :- Conj(f);
      Ok(ScalarSum(g, -c))
    case Translation(f, y) =>
      var g :- Conj(f);
      Ok(ConvexConjugateTranslation(g, y))
    case Composition(_, _) => Err(NotImplementedError)
    case ConvexConjugateTranslation(f, y) =>
      var g :- Conj(f);
      Ok(Translation(g, y))
    case ConvexConjugateArgScaling(f, s) =>
      var g :- Conj(f);
      Ok(RightScalarMult(g, s))
    case ConvexConjugateFuncScaling(f, s) =>
      if s <= 0.0 then Err(ValueError)
      else
        var g :- Conj(f);
        Ok(LeftScalarMult(s, g))
    case ConvexConjugateLinearPerturb(f, y) =>
      var g :- Conj(f);
      Ok(ConvexConjugateTranslation(g, y))
  }
}
