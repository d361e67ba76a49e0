/**
 * The four convex-conjugate combinators applied to the conjugate of the squared
 * L2 norm, G = (||·||²)* = ¼ ||·||², and the closed forms their values, gradients,
 * derivatives and proximal operators take: each is an independent formula in x, y,
 * s and σ that the combinator's evaluation rules must reproduce.
 *
 * InverseSquareQuarter, HalfInverseSquare, HalfInverseSquareArith, ScaleBack,
 * CancelInverse, HalfStep, InverseQuarter, HalfInverse and LinearPerturbProxArith are
 * pure arithmetic on scalars and scaled vectors, split out so that each closed-form
 * lemma needs one small nonlinear fact at a time; they model nothing of the library.
 */
module ConjugateClosedForms {
  import opened Failures
  import opened Spaces
  import opened Vectors
  import opened Functionals
  import opened Scalars
  import opened Combinators

  /** ¼ ||·||², the functional the conjugate of ||·||² is. */
  function QuarterSquare(s: Space): (G: Functional)
    ensures Domain(G) == s && (Valid(s) ==> WellFormed(G))
  {
    LeftScalarMult(0.25, L2NormSquare(s))
  }

  /** The conjugate of ||·||² is ¼ ||·||²: value ¼ <x, x>, gradient x / 2, prox x / (σ/2 + 1). */
  lemma QuarterSquareClosedForm(s: Space, sigma: real, x: Vec)
    requires Valid(s) && |x| == Size(s) && sigma > 0.0
    ensures Conj(L2NormSquare(s)) == Ok(QuarterSquare(s))
    ensures Value(QuarterSquare(s), x) == 0.25 * Inner(s, x, x)
    ensures Grad(QuarterSquare(s), x) == Scale(0.5, x)
    ensures Prox(QuarterSquare(s), sigma, x) == Ok(Scale(1.0 / (sigma / 2.0 + 1.0), x))
  {
    ScaleScale(0.25, 2.0, x);
    TimesIs(sigma, 0.25);
    assert 1.0 + 2.0 * Times(sigma, 0.25) == sigma / 2.0 + 1.0;
  }

  /**
   * (||· - y||²)* == ConvexConjugateTranslation(G, y), built only from an element y of
   * the domain (a bare number or an element of another space is a TypeError); it
   * evaluates to ¼ <x, x> + <x, y>, has gradient x/2 + y, derivative <p, x/2 + y> and
   * proximal operator (x - σ y) / (σ/2 + 1).
   */
  lemma ConjugateTranslationClosedForm(s: Space, y: Element, w: Element, sigma: real, x: Vec, p: Vec)
    requires Valid(s) && In(y, s) && w.space != s && |x| == Size(s) && |p| == Size(s) && sigma > 0.0
    ensures ConjTranslate(QuarterSquare(s), RealScalar(1.0)) == Err(TypeError)
    ensures ConjTranslate(QuarterSquare(s), VectorOperand(w)) == Err(TypeError)
    ensures ConjTranslate(QuarterSquare(s), VectorOperand(y)).Ok?
    ensures var H := ConjTranslate(QuarterSquare(s), VectorOperand(y)).value;
      && Conj(Translation(L2NormSquare(s), y.data)) == Ok(H)
      && Value(H, x) == 0.25 * Inner(s, x, x) + Inner(s, x, y.data)
      && Grad(H, x) == Add(Scale(0.5, x), y.data)
      && Derivative(H, x, p) == Inner(s, p, Add(Scale(0.5, x), y.data))
      && Prox(H, sigma, x) == Ok(Scale(1.0 / (sigma / 2.0 + 1.0), Sub(x, Scale(sigma, y.data))))
  {
    var H := ConvexConjugateTranslation(QuarterSquare(s), y.data);
    QuarterSquareClosedForm(s, sigma, x);
    QuarterSquareClosedForm(s, sigma, Sub(x, Scale(sigma, y.data)));
    InnerSymmetric(s, Grad(H, x), p);
  }

  /**
   * ConvexConjugateArgScaling(G, k) == (||k ·||²)*, refused for k = 0 (ValueError);
   * it evaluates to <x, x> / (4k²), has gradient x / (2k²), derivative
   * <p, x / (2k²)> and proximal operator x / (σ / (2k²) + 1).
   */
  lemma ConjugateArgScalingClosedForm(s: Space, k: real, sigma: real, x: Vec, p: Vec)
    requires Valid(s) && k != 0.0 && |x| == Size(s) && |p| == Size(s) && sigma > 0.0
    ensures ConjArgScale(QuarterSquare(s), 0.0) == Err(ValueError)
    ensures ConjArgScale(QuarterSquare(s), k).Ok?
    ensures var H := ConjArgScale(QuarterSquare(s), k).value;
      && Value(H, x) == 1.0 / (4.0 * Square(k)) * Inner(s, x, x)
      && Grad(H, x) == Scale(1.0 / (2.0 * Square(k)), x)
      && Derivative(H, x, p) == Inner(s, p, Scale(1.0 / (2.0 * Square(k)), x))
      && Prox(H, sigma, x) == Ok(Scale(1.0 / (Over(sigma, 2.0 * Square(k)) + 1.0), x))
  {
    var H := ConvexConjugateArgScaling(QuarterSquare(s), k);
    ArgScalingValue(s, k, x);
    ArgScalingGrad(s, k, x);
    InnerSymmetric(s, Grad(H, x), p);
    ArgScalingProx(s, k, sigma, x);
  }

  lemma ArgScalingValue(s: Space, k: real, x: Vec)
    requires Valid(s) && k != 0.0 && |x| == Size(s)
    ensures Value(ConvexConjugateArgScaling(QuarterSquare(s), k), x) == 1.0 / (4.0 * Square(k)) * Inner(s, x, x)
  {
    QuarterSquareClosedForm(s, 1.0, Scale(1.0 / k, x));
    InnerScaleBoth(s, 1.0 / k, x);
    InverseSquareQuarter(k, Inner(s, x, x));
  }

  lemma InverseSquareQuarter(k: real, v: real)
    requires k != 0.0
    ensures 0.25 * (1.0 / k * (1.0 / k) * v) == 1.0 / (4.0 * Square(k)) * v
  {
    TimesIs(k, k);
    assert 1.0 / k * (1.0 / k) == 1.0 / (k * k);
  }

  lemma ArgScalingGrad(s: Space, k: real, x: Vec)
    requires Valid(s) && k != 0.0 && |x| == Size(s)
    ensures Grad(ConvexConjugateArgScaling(QuarterSquare(s), k), x) == Scale(1.0 / (2.0 * Square(k)), x)
  {
    var r := 1.0 / k;
    QuarterSquareClosedForm(s, 1.0, Scale(r, x));
    HalfInverseSquare(k, r, x);
  }

  /** (x / k) / 2, divided by k once more, is x / (2k²). */
  lemma HalfInverseSquare(k: real, r: real, x: Vec)
    requires k != 0.0 && r == 1.0 / k
    ensures Scale(r, Scale(0.5, Scale(r, x))) == Scale(1.0 / (2.0 * Square(k)), x)
  {
    ScaleTwice(0.5, r, 0.5 * r, x);
    HalfInverseSquareArith(k, r);
    ScaleTwice(r, 0.5 * r, 1.0 / (2.0 * Square(k)), x);
  }

  lemma HalfInverseSquareArith(k: real, r: real)
    requires k != 0.0 && r == 1.0 / k
    ensures r * (0.5 * r) == 1.0 / (2.0 * Square(k))
  {
    TimesIs(k, k);
    assert r * r == 1.0 / (k * k);
  }

  lemma ArgScalingProx(s: Space, k: real, sigma: real, x: Vec)
    requires Valid(s) && k != 0.0 && |x| == Size(s) && sigma > 0.0
    ensures Prox(ConvexConjugateArgScaling(QuarterSquare(s), k), sigma, x)
         == Ok(Scale(1.0 / (Over(sigma, 2.0 * Square(k)) + 1.0), x))
  {
    SquarePositive(k);
    var m := Times(k, k);
    var t := Over(sigma, m);
    var r := 1.0 / k;
    var c := 1.0 / (t / 2.0 + 1.0);
    QuarterSquareClosedForm(s, t, Scale(r, x));
    ScaleBack(k, r, c, x);
    HalfStep(sigma, m, t, Over(sigma, 2.0 * Square(k)));
  }

  /** k · (c · (x / k)) == c · x. */
  lemma ScaleBack(k: real, r: real, c: real, x: Vec)
    requires k != 0.0 && r == 1.0 / k
    ensures Scale(k, Scale(c, Scale(r, x))) == Scale(c, x)
  {
    ScaleTwice(c, r, c * r, x);
    CancelInverse(k, r, c);
    ScaleTwice(k, c * r, c, x);
  }

  lemma CancelInverse(k: real, r: real, c: real)
    requires k != 0.0 && r == 1.0 / k
    ensures k * (c * r) == c
  {
    calc {
      k * (c * r);
      c * (k * r);
      { assert k * r == 1.0; }
      c;
    }
  }

  /** Half of the step σ/m is the step σ/(2m). */
  lemma HalfStep(sigma: real, m: real, t: real, h: real)
    requires m > 0.0 && t == Over(sigma, m) && h == Over(sigma, 2.0 * m)
    ensures t / 2.0 == h
  {
    OverIs(sigma, m);
    OverIs(sigma, 2.0 * m);
  }

  /**
   * ConvexConjugateFuncScaling(G, k) == (k ||·||²)*, refused for k = 0 (ValueError);
   * it evaluates to <x, x> / (4k), has gradient x / (2k), derivative <p, x / (2k)>;
   * for k > 0 its proximal operator is x / (σ / (2k) + 1), and for k < 0 asking for
   * it is a ValueError.
   */
  lemma ConjugateFuncScalingClosedForm(s: Space, k: real, sigma: real, x: Vec, p: Vec)
    requires Valid(s) && k != 0.0 && |x| == Size(s) && |p| == Size(s) && sigma > 0.0
    ensures ConjFuncScale(QuarterSquare(s), 0.0) == Err(ValueError)
    ensures ConjFuncScale(QuarterSquare(s), k).Ok?
    ensures var H := ConjFuncScale(QuarterSquare(s), k).value;
      && Value(H, x) == 1.0 / (4.0 * k) * Inner(s, x, x)
      && Grad(H, x) == Scale(1.0 / (2.0 * k), x)
      && Derivative(H, x, p) == Inner(s, p, Scale(1.0 / (2.0 * k), x))
      && (k > 0.0 ==> Prox(H, sigma, x) == Ok(Scale(1.0 / (Over(sigma, 2.0 * k) + 1.0), x)))
      && (k < 0.0 ==> Prox(H, sigma, x) == Err(ValueError))
  {
    var H := ConvexConjugateFuncScaling(QuarterSquare(s), k);
    FuncScalingValue(s, k, x);
    FuncScalingGrad(s, k, x);
    InnerSymmetric(s, Grad(H, x), p);
    if k > 0.0 {
      FuncScalingProx(s, k, sigma, x);
    }
  }

  lemma FuncScalingValue(s: Space, k: real, x: Vec)
    requires Valid(s) && k != 0.0 && |x| == Size(s)
    ensures Value(ConvexConjugateFuncScaling(QuarterSquare(s), k), x) == 1.0 / (4.0 * k) * Inner(s, x, x)
  {
    QuarterSquareClosedForm(s, 1.0, Scale(1.0 / k, x));
    InnerScaleBoth(s, 1.0 / k, x);
    InverseQuarter(k, Inner(s, x, x));
  }

  lemma InverseQuarter(k: real, v: real)
    requires k != 0.0
    ensures k * (0.25 * (1.0 / k * (1.0 / k) * v)) == 1.0 / (4.0 * k) * v
  {
    assert k * (1.0 / k) == 1.0;
  }

  lemma FuncScalingGrad(s: Space, k: real, x: Vec)
    requires Valid(s) && k != 0.0 && |x| == Size(s)
    ensures Grad(ConvexConjugateFuncScaling(QuarterSquare(s), k), x) == Scale(1.0 / (2.0 * k), x)
  {
    var r := 1.0 / k;
    QuarterSquareClosedForm(s, 1.0, Scale(r, x));
    HalfInverse(k, r, x);
  }

  /** (x / k) / 2 is x / (2k). */
  lemma HalfInverse(k: real, r: real, x: Vec)
    requires k != 0.0 && r == 1.0 / k
    ensures Scale(0.5, Scale(r, x)) == Scale(1.0 / (2.0 * k), x)
  {
    assert 0.5 * r == 1.0 / (2.0 * k);
    ScaleTwice(0.5, r, 1.0 / (2.0 * k), x);
  }

  lemma FuncScalingProx(s: Space, k: real, sigma: real, x: Vec)
    requires Valid(s) && k > 0.0 && |x| == Size(s) && sigma > 0.0
    ensures Prox(ConvexConjugateFuncScaling(QuarterSquare(s), k), sigma, x)
         == Ok(Scale(1.0 / (Over(sigma, 2.0 * k) + 1.0), x))
  {
    var t := Over(sigma, k);
    var r := 1.0 / k;
    var c := 1.0 / (t / 2.0 + 1.0);
    QuarterSquareClosedForm(s, t, Scale(r, x));
    ScaleBack(k, r, c, x);
    HalfStep(sigma, k, t, Over(sigma, 2.0 * k));
  }

  /**
   * ConvexConjugateLinearPerturb(G, y) == (||·||² + <y, ·>)*, built only from an
   * element y of the domain (TypeError otherwise); it evaluates to
   * <x, x>/2 - <x - y, x - y>/4 + <y, y>/2 - <x, y>, has gradient x/2 - y/2,
   * derivative <p, x/2 - y/2> and proximal operator (2x + σ y) / (σ + 2).
   */
  lemma ConjugateLinearPerturbClosedForm(s: Space, y: Element, w: Element, sigma: real, x: Vec, p: Vec)
    requires Valid(s) && In(y, s) && w.space != s && |x| == Size(s) && |p| == Size(s) && sigma > 0.0
    ensures ConjLinearPerturb(QuarterSquare(s), RealScalar(1.0)) == Err(TypeError)
    ensures ConjLinearPerturb(QuarterSquare(s), VectorOperand(w)) == Err(TypeError)
    ensures ConjLinearPerturb(QuarterSquare(s), VectorOperand(y)).Ok?
    ensures var H := ConjLinearPerturb(QuarterSquare(s), VectorOperand(y)).value;
      && Value(H, x) == Inner(s, x, x) / 2.0 - Inner(s, Sub(x, y.data), Sub(x, y.data)) / 4.0
                        + Inner(s, y.data, y.data) / 2.0 - Inner(s, x, y.data)
      && Grad(H, x) == Sub(Scale(0.5, x), Scale(0.5, y.data))
      && Derivative(H, x, p) == Inner(s, p, Sub(Scale(0.5, x), Scale(0.5, y.data)))
      && Prox(H, sigma, x) == Ok(Scale(1.0 / (sigma + 2.0), Add(Scale(2.0, x), Scale(sigma, y.data))))
  {
    var H := ConvexConjugateLinearPerturb(QuarterSquare(s), y.data);
    var d := Sub(x, y.data);
    QuarterSquareClosedForm(s, sigma, d);
    SquareOfDifference(s, x, y.data);
    assert Grad(H, x) == Sub(Scale(0.5, x), Scale(0.5, y.data));
    InnerSymmetric(s, Grad(H, x), p);
    LinearPerturbProx(sigma, x, y.data);
  }

  /** y + (x - y) / (σ/2 + 1) == (2x + σ y) / (σ + 2), coordinate by coordinate. */
  lemma LinearPerturbProx(sigma: real, x: Vec, y: Vec)
    requires |x| == |y| && sigma > 0.0
    ensures Add(y, Scale(1.0 / (sigma / 2.0 + 1.0), Sub(x, y)))
         == Scale(1.0 / (sigma + 2.0), Add(Scale(2.0, x), Scale(sigma, y)))
  {
    var lhs := Add(y, Scale(1.0 / (sigma / 2.0 + 1.0), Sub(x, y)));
    var rhs := Scale(1.0 / (sigma + 2.0), Add(Scale(2.0, x), Scale(sigma, y)));
    forall i | 0 <= i < |x|
      ensures lhs[i] == rhs[i]
    {
      LinearPerturbProxArith(sigma, x[i], y[i]);
    }
  }

  lemma LinearPerturbProxArith(sigma: real, x: real, y: real)
    requires sigma > 0.0
    ensures y + 1.0 / (sigma / 2.0 + 1.0) * (x - y) == 1.0 / (sigma + 2.0) * (2.0 * x + sigma * y)
  {
    var d := sigma + 2.0;
    assert 1.0 / (sigma / 2.0 + 1.0) == 2.0 / d;
    calc {
      y + 2.0 / d * (x - y);
      (d * y + 2.0 * (x - y)) / d;
      (2.0 * x + sigma * y) / d;
    }
  }
}
