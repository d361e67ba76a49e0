/**
 * The arithmetic that builds functionals: `F + G`, `F + c`, `c * F`, `F * c`,
 * `F * Op`, `F * y`, `y * F`, `F.translate(y)` and the four convex-conjugate
 * combinators.  Each builder checks its operands when it is called and fails with
 * the error the source raises; the lemmas state the identities the functionals
 * it builds satisfy.
 */
module Combinators {
  import opened Failures
  import opened Spaces
  import opened Vectors
  import opened Functionals
  import opened Scalars
  import opened FunctionalLaws

  /** The other operand of an arithmetic operator, by its kind. */
  datatype Operand =
    | FunctionalOperand(g: Functional)
    | OperatorOperand(op: Operator)
    | RealScalar(r: real)
    | ComplexScalar(re: real, im: real)
    | VectorOperand(v: Element)

  /** What `F * other` and `other * F` build: a functional, or an operator built from one. */
  datatype Product =
    | FunctionalProduct(f: Functional)
    | RightVectorMult(f: Functional, factor: Vec)       // x ↦ F(y·x), on the domain of F
    | LeftVectorMult(vector: Element, f: Functional)    // x ↦ y·F(x), into the space of y

  /** The operand is well built: a well-formed functional, or an element of its own space. */
  predicate OperandWellFormed(other: Operand) {
    match other
    case FunctionalOperand(g) => WellFormed(g)
    case OperatorOperand(op) => Valid(op.space)
    case VectorOperand(v) => In(v, v.space)
    case _ => true
  }

  /**
   * `F + other`: the sum with a functional on the same domain, or F plus a real
   * constant; anything else, a complex constant included, is a TypeError.
   */
  function Plus(F: Functional, other: Operand): (r: Result<Functional>)
    ensures r.Ok? <==> (other.FunctionalOperand? && Domain(other.g) == Domain(F)) || other.RealScalar?
    ensures r.Err? ==> r.error == TypeError
    ensures WellFormed(F) && OperandWellFormed(other) && r.Ok?
        ==> WellFormed(r.value) && Domain(r.value) == Domain(F)
  {
    match other
    case FunctionalOperand(g) =>
      if Domain(g) == Domain(F) then Ok(Sum(F, g)) else Err(TypeError)
    case RealScalar(c) => Ok(ScalarSum(F, c))
    case _ => Err(TypeError)
  }

  /**
   * `F * other`: a right scalar multiple, the composition with an operator whose range
   * is the domain of F, or the right multiple by an element of that domain.  A
   * functional as the right operand has the scalar field as its range, which is never
   * the domain of F, so it is a TypeError like a complex scalar.
   */
  function RightMul(F: Functional, other: Operand): (r: Result<Product>)
    ensures r.Ok? <==> (other.RealScalar?
                        || (other.OperatorOperand? && other.op.space == Domain(F))
                        || (other.VectorOperand? && In(other.v, Domain(F))))
    ensures r.Err? ==> r.error == TypeError
    ensures WellFormed(F) && r.Ok? && r.value.FunctionalProduct?
        ==> WellFormed(r.value.f) && Domain(r.value.f) == Domain(F)
  {
    match other
    case RealScalar(c) => Ok(FunctionalProduct(RightScalarMult(F, c)))
    case OperatorOperand(op) =>
      if op.space == Domain(F) then Ok(FunctionalProduct(Composition(F, op))) else Err(TypeError)
    case VectorOperand(y) =>
      if In(y, Domain(F)) then Ok(RightVectorMult(F, y.data)) else Err(TypeError)
    case _ => Err(TypeError)
  }

  /**
   * `other * F`: a left scalar multiple, or the left multiple by an element of ANY
   * space, which only scales that element by the value of F.
   */
  function LeftMul(other: Operand, F: Functional): (r: Result<Product>)
    ensures r.Ok? <==> other.RealScalar? || other.VectorOperand?
    ensures r.Err? ==> r.error == TypeError
    ensures WellFormed(F) && r.Ok? && r.value.FunctionalProduct?
        ==> WellFormed(r.value.f) && Domain(r.value.f) == Domain(F)
  {
    match other
    case RealScalar(c) => Ok(FunctionalProduct(LeftScalarMult(c, F)))
    case VectorOperand(y) => Ok(LeftVectorMult(y, F))
    case _ => Err(TypeError)
  }

  /** (y * F)(x) == y·F(x), an element of the space of y. */
  function LeftVectorValue(y: Element, F: Functional, x: Vec): (r: Element)
    requires WellFormed(F) && Fits(F, x)
    ensures r.space == y.space && |r.data| == |y.data|
    ensures r.data == Scale(Value(F, x), y.data)
  {
    Element(y.space, Scale(Value(F, x), y.data))
  }

  /** What evaluating a product gives: a number, or for y * F an element of the space of y. */
  datatype ProductOutput = Number(n: real) | Vector(v: Element)

  /**
   * P(x) for a product built by `F * other` or `other * F`: F(x) for a functional,
   * F(y·x) for F * y, and y·F(x) for y * F.
   */
  function ProductValue(P: Product, x: Vec): (r: ProductOutput)
    requires WellFormed(P.f) && Fits(P.f, x)
    requires P.RightVectorMult? ==> Fits(P.f, P.factor)
    ensures r.Vector? <==> P.LeftVectorMult?
    ensures r.Vector? ==> r.v.space == P.vector.space && |r.v.data| == |P.vector.data|
  {
    match P
    case FunctionalProduct(f) => Number(Value(f, x))
    case RightVectorMult(f, y) => Number(Value(f, Mul(y, x)))
    case LeftVectorMult(y, f) => Vector(LeftVectorValue(y, f, x))
  }

  /**
   * `F.translate(y)`: y is an element of the domain of F, or a real number, which
   * stands for the element all of whose coordinates are that number.
   */
  function Translate(F: Functional, y: Operand): (r: Result<Functional>)
    ensures r.Ok? <==> (y.VectorOperand? && In(y.v, Domain(F))) || y.RealScalar?
    ensures r.Err? ==> r.error == TypeError
    ensures r.Ok? && y.RealScalar? ==> r.value == Translation(F, Const(Size(Domain(F)), y.r))
    ensures WellFormed(F) && r.Ok? ==> WellFormed(r.value) && Domain(r.value) == Domain(F)
  {
    match y
    case VectorOperand(v) => if In(v, Domain(F)) then Ok(Translation(F, v.data)) else Err(TypeError)
    case RealScalar(c) => Ok(Translation(F, Const(Size(Domain(F)), c)))
    case _ => Err(TypeError)
  }

  /** `ConvexConjugateTranslation(G, y)`: y must be an element of the domain of G; a bare number is not. */
  function ConjTranslate(G: Functional, y: Operand): (r: Result<Functional>)
    ensures r.Ok? <==> y.VectorOperand? && In(y.v, Domain(G))
    ensures r.Err? ==> r.error == TypeError
    ensures WellFormed(G) && r.Ok? ==> WellFormed(r.value) && Domain(r.value) == Domain(G)
  {
    match y
    case VectorOperand(v) =>
      if In(v, Domain(G)) then Ok(ConvexConjugateTranslation(G, v.data)) else Err(TypeError)
    case _ => Err(TypeError)
  }

  /** `ConvexConjugateLinearPerturb(G, y)`: y must be an element of the domain of G; a bare number is not. */
  function ConjLinearPerturb(G: Functional, y: Operand): (r: Result<Functional>)
    ensures r.Ok? <==> y.VectorOperand? && In(y.v, Domain(G))
    ensures r.Err? ==> r.error == TypeError
    ensures WellFormed(G) && r.Ok? ==> WellFormed(r.value) && Domain(r.value) == Domain(G)
  {
    match y
    case VectorOperand(v) =>
      if In(v, Domain(G)) then Ok(ConvexConjugateLinearPerturb(G, v.data)) else Err(TypeError)
    case _ => Err(TypeError)
  }

  /** `ConvexConjugateArgScaling(G, s)`: a zero scaling is a ValueError. */
  function ConjArgScale(G: Functional, s: real): (r: Result<Functional>)
    ensures r.Ok? <==> s != 0.0
    ensures r.Err? ==> r.error == ValueError
    ensures WellFormed(G) && r.Ok? ==> WellFormed(r.value) && Domain(r.value) == Domain(G)
  {
    if s == 0.0 then Err(ValueError) else Ok(ConvexConjugateArgScaling(G, s))
  }

  /** `ConvexConjugateFuncScaling(G, s)`: a zero scaling is a ValueError. */
  function ConjFuncScale(G: Functional, s: real): (r: Result<Functional>)
    ensures r.Ok? <==> s != 0.0
    ensures r.Err? ==> r.error == ValueError
    ensures WellFormed(G) && r.Ok? ==> WellFormed(r.value) && Domain(r.value) == Domain(G)
  {
    if s == 0.0 then Err(ValueError) else Ok(ConvexConjugateFuncScaling(G, s))
  }

  // ----- the identities of the built functionals -----

  /**
   * F * c evaluates F at c x and c * F scales the value; gradients and derivatives
   * follow the chain rule and agree with each other.
   */
  lemma ScalarMultiplication(F: Functional, c: real, x: Vec, p: Vec)
    requires WellFormed(F) && Fits(F, x) && Fits(F, p)
    ensures RightMul(F, RealScalar(c)).Ok? && LeftMul(RealScalar(c), F).Ok?
    ensures var R := RightMul(F, RealScalar(c)).value.f;
      && Value(R, x) == Value(F, Scale(c, x))
      && Grad(R, x) == Scale(c, Grad(F, Scale(c, x)))
      && Derivative(R, x, p) == c * Derivative(F, Scale(c, x), p)
      && Derivative(R, x, p) == Inner(Domain(F), Grad(R, x), p)
    ensures var L := LeftMul(RealScalar(c), F).value.f;
      && Value(L, x) == c * Value(F, x)
      && Grad(L, x) == Scale(c, Grad(F, x))
      && Derivative(L, x, p) == c * Derivative(F, x, p)
      && Derivative(L, x, p) == Inner(Domain(F), Grad(L, x), p)
  {
    DerivativeIsInnerGradient(RightScalarMult(F, c), x, p);
    DerivativeIsInnerGradient(LeftScalarMult(c, F), x, p);
  }

  /**
   * Only a positive multiple has a conjugate: (c F)* == c F*(· / c) and
   * (F c)* == F*(· / c); a non-positive left multiple raises ValueError.
   */
  lemma ScalarMultipleConjugate(F: Functional, c: real, x: Vec)
    requires WellFormed(F) && Conj(F).Ok? && Fits(F, x)
    ensures c <= 0.0 ==> Conj(LeftScalarMult(c, F)) == Err(ValueError)
    ensures c > 0.0 ==> Conj(LeftScalarMult(c, F)).Ok? && Conj(RightScalarMult(F, c)).Ok?
    ensures c > 0.0 ==> Value(Conj(LeftScalarMult(c, F)).value, x) == c * Value(Conj(F).value, Scale(1.0 / c, x))
    ensures c > 0.0 ==> Value(Conj(RightScalarMult(F, c)).value, x) == Value(Conj(F).value, Scale(1.0 / c, x))
  {
  }

  /**
   * Only a positive multiple has a proximal operator: prox_{t(c F)} == prox_{(t c) F}
   * and prox_{t(F c)}(x) == (1/c) prox_{(t c²) F}(c x); a non-positive left multiple
   * raises ValueError.
   */
  lemma ScalarMultipleProx(F: Functional, c: real, t: real, x: Vec)
    requires WellFormed(F) && ProxDefined(F) && Fits(F, x) && t > 0.0
    ensures c <= 0.0 ==> Prox(LeftScalarMult(c, F), t, x) == Err(ValueError)
    ensures c > 0.0 ==> Prox(LeftScalarMult(c, F), t, x) == Prox(F, Times(t, c), x)
    ensures c > 0.0 ==> (Prox(RightScalarMult(F, c), t, x).Ok?
                          && Prox(RightScalarMult(F, c), t, x).value
                             == Scale(1.0 / c, Prox(F, Times(Times(t, c), c), Scale(c, x)).value))
  {
  }

  /**
   * F * Op with Op mapping into the domain of F evaluates F at Op x; its gradient is
   * Op*(∇F(Op x)) and its chained derivative agrees with that gradient.
   */
  lemma OperatorComposition(F: Functional, op: Operator, x: Vec, p: Vec)
    requires WellFormed(F) && op.space == Domain(F) && Fits(F, x) && Fits(F, p)
    ensures RightMul(F, OperatorOperand(op)).Ok?
    ensures var C := RightMul(F, OperatorOperand(op)).value.f;
      && Value(C, x) == Value(F, Apply(op, x))
      && Grad(C, x) == Apply(Adjoint(op), Grad(F, Apply(op, x)))
      && Derivative(C, x, p) == Inner(Domain(F), Grad(C, x), p)
  {
    DerivativeIsInnerGradient(Composition(F, op), x, p);
  }

  /**
   * F + G on one domain adds values and gradients; it has neither a proximal
   * operator nor a conjugate (NotImplementedError).
   */
  lemma SumOfFunctionals(F: Functional, G: Functional, sigma: real, x: Vec)
    requires WellFormed(F) && WellFormed(G) && Domain(G) == Domain(F) && Fits(F, x) && sigma > 0.0
    ensures Plus(F, FunctionalOperand(G)).Ok?
    ensures var S := Plus(F, FunctionalOperand(G)).value;
      && Value(S, x) == Value(F, x) + Value(G, x)
      && Grad(S, x) == Add(Grad(F, x), Grad(G, x))
      && Prox(S, sigma, x) == Err(NotImplementedError)
      && Conj(S) == Err(NotImplementedError)
  {
  }

  /**
   * F + c shifts the value by c and changes neither the gradient, the derivative nor
   * the proximal operator; its conjugate is F* - c, with the gradient of F*.
   */
  lemma PlusScalar(F: Functional, c: real, sigma: real, x: Vec, p: Vec)
    requires WellFormed(F) && Fits(F, x) && Fits(F, p) && sigma > 0.0
    ensures Plus(F, RealScalar(c)).Ok?
    ensures var P := Plus(F, RealScalar(c)).value;
      && Value(P, x) == Value(F, x) + c
      && Grad(P, x) == Grad(F, x)
      && Derivative(P, x, p) == Inner(Domain(F), Grad(F, x), p)
      && Prox(P, sigma, x) == Prox(F, sigma, x)
      && (Conj(F).Ok? ==> (Conj(P).Ok?
                            && Value(Conj(P).value, x) == Value(Conj(F).value, x) - c
                            && Grad(Conj(P).value, x) == Grad(Conj(F).value, x)))
  {
  }

  /**
   * F.translate(y) evaluates F at x - y; its derivative is <∇F(x - y), p>, its proximal
   * operator is y + prox_{σF}(x - y), and its conjugate is ConvexConjugateTranslation(F*, y).
   */
  lemma TranslationIdentities(F: Functional, y: Element, sigma: real, x: Vec, p: Vec)
    requires WellFormed(F) && In(y, Domain(F)) && Fits(F, x) && Fits(F, p) && sigma > 0.0
    ensures Translate(F, VectorOperand(y)).Ok?
    ensures var T := Translate(F, VectorOperand(y)).value;
      && Value(T, x) == Value(F, Sub(x, y.data))
      && Grad(T, x) == Grad(F, Sub(x, y.data))
      && Derivative(T, x, p) == Inner(Domain(F), Grad(F, Sub(x, y.data)), p)
      && (ProxDefined(F) ==> (Prox(T, sigma, x).Ok?
                               && Prox(T, sigma, x).value == Add(y.data, Prox(F, sigma, Sub(x, y.data)).value)))
      && (Conj(F).Ok? ==> Conj(T) == Ok(ConvexConjugateTranslation(Conj(F).value, y.data)))
  {
  }

  /**
   * F * y evaluates F at the pointwise product y·x; a constant vector y acts like the
   * scalar it repeats, so F * y then agrees with the right scalar multiple F * c.
   */
  lemma RightVectorMultiplication(F: Functional, y: Element, c: real, x: Vec)
    requires WellFormed(F) && In(y, Domain(F)) && Fits(F, x)
    ensures RightMul(F, VectorOperand(y)) == Ok(RightVectorMult(F, y.data))
    ensures ProductValue(RightMul(F, VectorOperand(y)).value, x) == Number(Value(F, Mul(y.data, x)))
    ensures y.data == Const(|x|, c) ==>
      ProductValue(RightMul(F, VectorOperand(y)).value, x)
        == ProductValue(RightMul(F, RealScalar(c)).value, x)
  {
    if y.data == Const(|x|, c) {
      MulConst(c, x);
    }
  }

  /**
   * y * F accepts y from any space and scales it by F(x); it distributes over a sum
   * of functionals.
   */
  lemma LeftVectorMultiplication(F: Functional, G: Functional, y: Element, x: Vec)
    requires WellFormed(F) && WellFormed(G) && Domain(G) == Domain(F) && Fits(F, x)
    ensures LeftMul(VectorOperand(y), F) == Ok(LeftVectorMult(y, F))
    ensures ProductValue(LeftMul(VectorOperand(y), F).value, x) == Vector(LeftVectorValue(y, F, x))
    ensures LeftVectorValue(y, Sum(F, G), x).data
         == Add(LeftVectorValue(y, F, x).data, LeftVectorValue(y, G, x).data)
  {
    assert Value(Sum(F, G), x) == Value(F, x) + Value(G, x);
    ScaleDistributes(Value(F, x), Value(G, x), y.data);
  }
}
