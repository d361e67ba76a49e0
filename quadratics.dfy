/**
 * Quadratic functions x ↦ a <x, x> + <b, x> + c on a space, with the algebra the
 * combinators induce on their coefficients.  Every functional of the algebra has
 * such a normal form, so each combinator's closed-form rule is checked here once,
 * on coefficients, instead of on the functional tree.
 */
module Quadratics {
  import opened Spaces
  import opened Vectors
  import opened Scalars

  /** The coefficients of x ↦ a <x, x> + <b, x> + c. */
  datatype Quadratic = Quadratic(a: real, b: Vec, c: real)

  /**
   * The value a <x, x> + <b, x> + c.  It uses the layer idiom of Scalars (see
   * QValueIs), so that the laws below, not the formula, carry
   * proofs about functionals.
   */
  function QValue(s: Space, q: Quadratic, x: Vec): real
    requires Valid(s) && |q.b| == |x|
  {
    QValueLayer(1, s, q, x)
  }

  function QValueLayer(depth: nat, s: Space, q: Quadratic, x: Vec): real
    requires Valid(s) && |q.b| == |x|
  {
    if depth == 0 then q.a * Inner(s, x, x) + Inner(s, q.b, x) + q.c else QValueLayer(depth - 1, s, q, x)
  }

  lemma QValueIs(s: Space, q: Quadratic, x: Vec)
    requires Valid(s) && |q.b| == |x|
    ensures QValue(s, q, x) == q.a * Inner(s, x, x) + Inner(s, q.b, x) + q.c
  {
    assert QValueLayer(0, s, q, x) == q.a * Inner(s, x, x) + Inner(s, q.b, x) + q.c;
  }

  /** The gradient 2 a x + b with respect to the inner product of the space. */
  function QGrad(q: Quadratic, x: Vec): (r: Vec)
    requires |q.b| == |x|
    ensures |r| == |x|
  {
    Add(Scale(2.0 * q.a, x), q.b)
  }

  /** k·Q. */
  function Multiplied(k: real, q: Quadratic): Quadratic {
    Quadratic(k * q.a, Scale(k, q.b), k * q.c)
  }

  /** Q(k ·). */
  function ArgScaled(q: Quadratic, k: real): Quadratic {
    Quadratic(k * k * q.a, Scale(k, q.b), q.c)
  }

  /** Q1 + Q2. */
  function Added(q1: Quadratic, q2: Quadratic): Quadratic
    requires |q1.b| == |q2.b|
  {
    Quadratic(q1.a + q2.a, Add(q1.b, q2.b), q1.c + q2.c)
  }

  /** Q + k. */
  function Raised(q: Quadratic, k: real): Quadratic {
    Quadratic(q.a, q.b, q.c + k)
  }

  /** Q(· - y). */
  function Shifted(s: Space, q: Quadratic, y: Vec): Quadratic
    requires Valid(s) && |q.b| == |y|
  {
    Quadratic(q.a, Sub(q.b, Scale(2.0 * q.a, y)), q.a * Inner(s, y, y) - Inner(s, q.b, y) + q.c)
  }

  /** Q + <·, y>. */
  function Tilted(q: Quadratic, y: Vec): Quadratic
    requires |q.b| == |y|
  {
    Quadratic(q.a, Add(q.b, y), q.c)
  }

  /**
   * The convex conjugate of a quadratic with a > 0:
   * Q*(y) = <y - b, y - b> / (4a) - c.
   */
  function Conjugate(s: Space, q: Quadratic): Quadratic
    requires Valid(s) && q.a != 0.0
  {
    Quadratic(1.0 / (4.0 * q.a), ConjugateLinear(q), ConjugateConstant(s, q))
  }

  /** The constant coefficient <b, b> / (4a) - c of the conjugate. */
  function ConjugateConstant(s: Space, q: Quadratic): real
    requires Valid(s) && q.a != 0.0
  {
    Inner(s, q.b, q.b) / (4.0 * q.a) - q.c
  }

  /** The linear coefficient -b / (2a) of the conjugate. */
  function ConjugateLinear(q: Quadratic): Vec
    requires q.a != 0.0
  {
    Scale(-1.0 / (2.0 * q.a), q.b)
  }

  /** The factor 1 + 2σa by which the proximal point equation z + σ(2 a z + b) = x scales z. */
  function ProxDenominator(q: Quadratic, sigma: real): real {
    1.0 + 2.0 * sigma * q.a
  }

  /** The minimiser of σQ(z) + <z - x, z - x>/2, solving z + σ(2 a z + b) = x. */
  function ProxPoint(q: Quadratic, sigma: real, x: Vec): (r: Vec)
    requires |q.b| == |x| && ProxDenominator(q, sigma) != 0.0
    ensures |r| == |x|
  {
    Scale(1.0 / ProxDenominator(q, sigma), Sub(x, Scale(sigma, q.b)))
  }

  // ----- values -----

  lemma ZeroValue(s: Space, x: Vec)
    requires Valid(s)
    ensures QValue(s, Quadratic(1.0, Const(|x|, 0.0), 0.0), x) == Inner(s, x, x)
  {
    QValueIs(s, Quadratic(1.0, Const(|x|, 0.0), 0.0), x);
    InnerZeroLeft(s, x);
  }

  lemma MultipliedValue(s: Space, k: real, q: Quadratic, x: Vec)
    requires Valid(s) && |q.b| == |x|
    ensures QValue(s, Multiplied(k, q), x) == k * QValue(s, q, x)
  {
    QValueIs(s, Multiplied(k, q), x);
    QValueIs(s, q, x);
    InnerScaleLeft(s, k, q.b, x);
  }

  lemma ArgScaledValue(s: Space, q: Quadratic, k: real, x: Vec)
    requires Valid(s) && |q.b| == |x|
    ensures QValue(s, ArgScaled(q, k), x) == QValue(s, q, Scale(k, x))
  {
    var kx := Scale(k, x);
    calc {
      QValue(s, ArgScaled(q, k), x);
      { QValueIs(s, ArgScaled(q, k), x); }
      (k * k * q.a) * Inner(s, x, x) + Inner(s, Scale(k, q.b), x) + q.c;
      { InnerScaleBoth(s, k, x);
        ArgScaledArith(q.a, k, Inner(s, x, x), Inner(s, kx, kx)); }
      q.a * Inner(s, kx, kx) + Inner(s, Scale(k, q.b), x) + q.c;
      { InnerScaleMove(s, k, q.b, x); QValueIs(s, q, kx); }
      QValue(s, q, kx);
    }
  }

  /** The coefficient arithmetic of ArgScaledValue, on the inner products as numbers. */
  lemma ArgScaledArith(a: real, k: real, xx: real, kxkx: real)
    requires kxkx == k * k * xx
    ensures (k * k * a) * xx == a * kxkx
  {
  }

  /** The value of k Q(· / k) is k Q(x / k). */
  lemma FuncScaledValue(s: Space, q: Quadratic, k: real, x: Vec)
    requires Valid(s) && |q.b| == |x| && k != 0.0
    ensures QValue(s, Multiplied(k, ArgScaled(q, 1.0 / k)), x) == k * QValue(s, q, Scale(1.0 / k, x))
  {
    ArgScaledValue(s, q, 1.0 / k, x);
    MultipliedValue(s, k, ArgScaled(q, 1.0 / k), x);
  }

  lemma AddedValue(s: Space, q1: Quadratic, q2: Quadratic, x: Vec)
    requires Valid(s) && |q1.b| == |q2.b| == |x|
    ensures QValue(s, Added(q1, q2), x) == QValue(s, q1, x) + QValue(s, q2, x)
  {
    QValueIs(s, Added(q1, q2), x);
    QValueIs(s, q1, x);
    QValueIs(s, q2, x);
    InnerAddLeft(s, q1.b, q2.b, x);
  }

  lemma RaisedValue(s: Space, q: Quadratic, k: real, x: Vec)
    requires Valid(s) && |q.b| == |x|
    ensures QValue(s, Raised(q, k), x) == QValue(s, q, x) + k
  {
    QValueIs(s, Raised(q, k), x);
    QValueIs(s, q, x);
  }

  lemma ShiftedValue(s: Space, q: Quadratic, y: Vec, x: Vec)
    requires Valid(s) && |q.b| == |y| == |x|
    ensures QValue(s, Shifted(s, q, y), x) == QValue(s, q, Sub(x, y))
  {
    var d, ay := Sub(x, y), Scale(2.0 * q.a, y);
    QValueIs(s, Shifted(s, q, y), x);
    QValueIs(s, q, d);
    SquareOfDifference(s, x, y);
    InnerSubRight(s, q.b, x, y);
    InnerSubLeft(s, q.b, ay, x);
    InnerScaleLeft(s, 2.0 * q.a, y, x);
    InnerSymmetric(s, y, x);
    ShiftedArith(q.a, q.c, Inner(s, x, x), Inner(s, x, y), Inner(s, y, x), Inner(s, y, y), Inner(s, d, d),
      Inner(s, q.b, x), Inner(s, q.b, y), Inner(s, q.b, d), Inner(s, ay, x), Inner(s, Sub(q.b, ay), x));
  }

  /** The coefficient arithmetic of ShiftedValue, on the inner products as numbers. */
  lemma ShiftedArith(a: real, c: real, xx: real, xy: real, yx: real, yy: real, dd: real,
                     bx: real, by': real, bd: real, ayx: real, b'x: real)
    requires dd == xx - 2.0 * xy + yy && yx == xy
    requires bd == bx - by' && b'x == bx - ayx && ayx == 2.0 * a * yx
    ensures a * xx + b'x + (a * yy - by' + c) == a * dd + bd + c
  {
  }

  lemma TiltedValue(s: Space, q: Quadratic, y: Vec, x: Vec)
    requires Valid(s) && |q.b| == |y| == |x|
    ensures QValue(s, Tilted(q, y), x) == QValue(s, q, x) + Inner(s, x, y)
  {
    QValueIs(s, Tilted(q, y), x);
    QValueIs(s, q, x);
    InnerAddLeft(s, q.b, y, x);
    InnerSymmetric(s, y, x);
  }

  // ----- gradients -----

  lemma ZeroGrad(x: Vec)
    ensures QGrad(Quadratic(1.0, Const(|x|, 0.0), 0.0), x) == Scale(2.0, x)
  {
  }

  lemma MultipliedGrad(k: real, q: Quadratic, x: Vec)
    requires |q.b| == |x|
    ensures QGrad(Multiplied(k, q), x) == Scale(k, QGrad(q, x))
  {
    forall i | 0 <= i < |x|
      ensures QGrad(Multiplied(k, q), x)[i] == Scale(k, QGrad(q, x))[i]
    {
      calc {
        2.0 * (k * q.a) * x[i] + k * q.b[i];
        k * (2.0 * q.a * x[i] + q.b[i]);
      }
    }
  }

  lemma ArgScaledGrad(q: Quadratic, k: real, x: Vec)
    requires |q.b| == |x|
    ensures QGrad(ArgScaled(q, k), x) == Scale(k, QGrad(q, Scale(k, x)))
  {
    forall i | 0 <= i < |x|
      ensures QGrad(ArgScaled(q, k), x)[i] == Scale(k, QGrad(q, Scale(k, x)))[i]
    {
      calc {
        2.0 * (k * k * q.a) * x[i] + k * q.b[i];
        k * (2.0 * q.a * (k * x[i]) + q.b[i]);
      }
    }
  }

/** The gradient of k Q(· / k) is ∇Q(· / k). */
  lemma FuncScaledGrad(q: Quadratic, k: real, x: Vec)
    requires |q.b| == |x| && k != 0.0
    ensures QGrad(Multiplied(k, ArgScaled(q, 1.0 / k)), x) == QGrad(q, Scale(1.0 / k, x))
  {
    var g := QGrad(q, Scale(1.0 / k, x));
    ArgScaledGrad(q, 1.0 / k, x);
    MultipliedGrad(k, ArgScaled(q, 1.0 / k), x);
    forall i | 0 <= i < |g|
      ensures Scale(k, Scale(1.0 / k, g))[i] == g[i]
    {
      Cancel(k, g[i]);
    }
  }

  lemma AddedGrad(q1: Quadratic, q2: Quadratic, x: Vec)
    requires |q1.b| == |q2.b| == |x|
    ensures QGrad(Added(q1, q2), x) == Add(QGrad(q1, x), QGrad(q2, x))
  {
    forall i | 0 <= i < |x|
      ensures QGrad(Added(q1, q2), x)[i] == Add(QGrad(q1, x), QGrad(q2, x))[i]
    {
      calc {
        2.0 * (q1.a + q2.a) * x[i] + (q1.b[i] + q2.b[i]);
        (2.0 * q1.a * x[i] + q1.b[i]) + (2.0 * q2.a * x[i] + q2.b[i]);
      }
    }
  }

  lemma ShiftedGrad(s: Space, q: Quadratic, y: Vec, x: Vec)
    requires Valid(s) && |q.b| == |y| == |x|
    ensures QGrad(Shifted(s, q, y), x) == QGrad(q, Sub(x, y))
  {
    forall i | 0 <= i < |x|
      ensures QGrad(Shifted(s, q, y), x)[i] == QGrad(q, Sub(x, y))[i]
    {
      calc {
        2.0 * q.a * x[i] + (q.b[i] - 2.0 * q.a * y[i]);
        2.0 * q.a * (x[i] - y[i]) + q.b[i];
      }
    }
  }

  lemma TiltedGrad(q: Quadratic, y: Vec, x: Vec)
    requires |q.b| == |y| == |x|
    ensures QGrad(Tilted(q, y), x) == Add(QGrad(q, x), y)
  {
  }

  // ----- proximal points -----

  lemma ZeroProx(sigma: real, x: Vec)
    requires sigma >= 0.0
    ensures ProxDenominator(Quadratic(1.0, Const(|x|, 0.0), 0.0), sigma) == 1.0 + 2.0 * sigma
    ensures ProxPoint(Quadratic(1.0, Const(|x|, 0.0), 0.0), sigma, x) == Scale(1.0 / (1.0 + 2.0 * sigma), x)
  {
    var q := Quadratic(1.0, Const(|x|, 0.0), 0.0);
    assert Sub(x, Scale(sigma, q.b)) == x;
  }

  lemma RaisedProx(q: Quadratic, k: real, sigma: real, x: Vec)
    requires |q.b| == |x| && ProxDenominator(q, sigma) != 0.0
    ensures ProxDenominator(Raised(q, k), sigma) == ProxDenominator(q, sigma)
    ensures ProxPoint(Raised(q, k), sigma, x) == ProxPoint(q, sigma, x)
  {
  }

  lemma MultipliedProx(q: Quadratic, c: real, sigma: real, x: Vec)
    requires |q.b| == |x| && ProxDenominator(q, Times(sigma, c)) != 0.0
    ensures ProxDenominator(Multiplied(c, q), sigma) == ProxDenominator(q, Times(sigma, c))
    ensures ProxPoint(q, Times(sigma, c), x) == ProxPoint(Multiplied(c, q), sigma, x)
  {
    TimesIs(sigma, c);
    Regroup(sigma, c, q.a);
    ScaleScale(sigma, c, q.b);
  }

  lemma ArgScaledProx(q: Quadratic, c: real, sigma: real, x: Vec)
    requires |q.b| == |x| && c != 0.0 && ProxDenominator(q, Times(Times(sigma, c), c)) != 0.0
    ensures ProxDenominator(ArgScaled(q, c), sigma) == ProxDenominator(q, Times(Times(sigma, c), c))
    ensures Scale(1.0 / c, ProxPoint(q, Times(Times(sigma, c), c), Scale(c, x))) == ProxPoint(ArgScaled(q, c), sigma, x)
  {
    var t := Times(Times(sigma, c), c);
    TimesIs(sigma, c);
    TimesIs(Times(sigma, c), c);
    var d := ProxDenominator(q, t);
    var p := ProxPoint(q, t, Scale(c, x));
    var z := Scale(1.0 / c, p);
    ArgScaledDenominator(sigma, c, q.a, t);
    forall i | 0 <= i < |x|
      ensures d * z[i] == x[i] - sigma * ArgScaled(q, c).b[i]
    {
      ProxPointSolves(q, t, Scale(c, x), i);
      ArgScaledProxArith(d, c, sigma, t, x[i], q.b[i], p[i]);
    }
    ProxPointUnique(ArgScaled(q, c), sigma, x, z);
  }

  lemma ArgScaledDenominator(sigma: real, c: real, a: real, t: real)
    requires t == sigma * c * c
    ensures 1.0 + 2.0 * t * a == 1.0 + 2.0 * sigma * (c * c * a)
  {
  }

  lemma ArgScaledProxArith(d: real, c: real, sigma: real, t: real, x: real, b: real, p: real)
    requires c != 0.0 && t == sigma * c * c && d * p == c * x - t * b
    ensures d * (1.0 / c * p) == x - sigma * (c * b)
  {
    calc {
      d * (1.0 / c * p);
      1.0 / c * (d * p);
      1.0 / c * (c * x - sigma * c * c * b);
      x - sigma * (c * b);
    }
  }

  lemma ShiftedProx(s: Space, q: Quadratic, sigma: real, y: Vec, x: Vec)
    requires Valid(s) && |q.b| == |y| == |x| && ProxDenominator(q, sigma) != 0.0
    ensures ProxDenominator(Shifted(s, q, y), sigma) == ProxDenominator(q, sigma)
    ensures Add(y, ProxPoint(q, sigma, Sub(x, y))) == ProxPoint(Shifted(s, q, y), sigma, x)
  {
    ShiftedProxCore(q, Shifted(s, q, y), sigma, y, x);
  }

  /** ShiftedProx for any quadratic with the shifted leading and linear coefficients. */
  lemma ShiftedProxCore(q: Quadratic, q': Quadratic, sigma: real, y: Vec, x: Vec)
    requires |q.b| == |y| == |x| && ProxDenominator(q, sigma) != 0.0
    requires q'.a == q.a && q'.b == Sub(q.b, Scale(2.0 * q.a, y))
    ensures ProxDenominator(q', sigma) == ProxDenominator(q, sigma)
    ensures Add(y, ProxPoint(q, sigma, Sub(x, y))) == ProxPoint(q', sigma, x)
  {
    var d := ProxDenominator(q, sigma);
    var p := ProxPoint(q, sigma, Sub(x, y));
    var z := Add(y, p);
    forall i | 0 <= i < |x|
      ensures d * z[i] == x[i] - sigma * q'.b[i]
    {
      ProxPointSolves(q, sigma, Sub(x, y), i);
      ShiftedProxArith(d, q.a, sigma, x[i], y[i], q.b[i], p[i]);
    }
    ProxPointUnique(q', sigma, x, z);
  }

  lemma ShiftedProxArith(d: real, a: real, sigma: real, x: real, y: real, b: real, p: real)
    requires d == 1.0 + 2.0 * sigma * a && d * p == x - y - sigma * b
    ensures d * (y + p) == x - sigma * (b - 2.0 * a * y)
  {
  }

  lemma TiltedProx(q: Quadratic, sigma: real, y: Vec, x: Vec)
    requires |q.b| == |y| == |x| && ProxDenominator(q, sigma) != 0.0
    ensures ProxDenominator(Tilted(q, y), sigma) == ProxDenominator(q, sigma)
    ensures ProxPoint(q, sigma, Sub(x, Scale(sigma, y))) == ProxPoint(Tilted(q, y), sigma, x)
  {
    var d := ProxDenominator(q, sigma);
    var z := ProxPoint(q, sigma, Sub(x, Scale(sigma, y)));
    forall i | 0 <= i < |x|
      ensures d * z[i] == x[i] - sigma * Tilted(q, y).b[i]
    {
      ProxPointSolves(q, sigma, Sub(x, Scale(sigma, y)), i);
      TiltedProxArith(d, sigma, x[i], y[i], q.b[i], z[i]);
    }
    ProxPointUnique(Tilted(q, y), sigma, x, z);
  }

  lemma TiltedProxArith(d: real, sigma: real, x: real, y: real, b: real, z: real)
    requires d * z == x - sigma * y - sigma * b
    ensures d * z == x - sigma * (b + y)
  {
  }

  lemma ConjArgScaledProx(q: Quadratic, k: real, sigma: real, x: Vec)
    requires |q.b| == |x| && k != 0.0 && Times(k, k) != 0.0
    requires ProxDenominator(q, Over(sigma, Times(k, k))) != 0.0
    ensures ProxDenominator(ArgScaled(q, 1.0 / k), sigma) == ProxDenominator(q, Over(sigma, Times(k, k)))
    ensures Scale(k, ProxPoint(q, Over(sigma, Times(k, k)), Scale(1.0 / k, x)))
         == ProxPoint(ArgScaled(q, 1.0 / k), sigma, x)
  {
    TimesIs(k, k);
    OverIs(sigma, Times(k, k));
    var d := ProxDenominator(q, sigma / (k * k));
    var p := ProxPoint(q, sigma / (k * k), Scale(1.0 / k, x));
    var z := Scale(k, p);
    var s := ArgScaled(q, 1.0 / k);
    InverseScaleDenominator(q, sigma, k);
    assert ProxDenominator(s, sigma) == d;
    forall i | 0 <= i < |x|
      ensures ProxDenominator(s, sigma) * z[i] == x[i] - sigma * s.b[i]
    {
      ProxPointSolves(q, sigma / (k * k), Scale(1.0 / k, x), i);
      ConjArgScaledProxArith(d, k, sigma, x[i], q.b[i], p[i]);
      assert z[i] == k * p[i];
    }
    ProxPointUnique(s, sigma, x, z);
  }

  lemma InverseScaleDenominator(q: Quadratic, sigma: real, k: real)
    requires k != 0.0
    ensures ProxDenominator(ArgScaled(q, 1.0 / k), sigma) == ProxDenominator(q, sigma / (k * k))
  {
    assert 2.0 * (sigma / (k * k)) * q.a == 2.0 * sigma * (1.0 / k * (1.0 / k) * q.a);
  }

  lemma ConjArgScaledProxArith(d: real, k: real, sigma: real, x: real, b: real, p: real)
    requires k != 0.0 && d * p == 1.0 / k * x - sigma / (k * k) * b
    ensures d * (k * p) == x - sigma * (1.0 / k * b)
  {
    calc {
      d * (k * p);
      k * (d * p);
      k * (1.0 / k * x - sigma / (k * k) * b);
      x - sigma * (1.0 / k * b);
    }
  }

  lemma FuncScaledProx(q: Quadratic, k: real, sigma: real, x: Vec)
    requires |q.b| == |x| && k != 0.0 && ProxDenominator(q, Over(sigma, k)) != 0.0
    ensures ProxDenominator(Multiplied(k, ArgScaled(q, 1.0 / k)), sigma) == ProxDenominator(q, Over(sigma, k))
    ensures Scale(k, ProxPoint(q, Over(sigma, k), Scale(1.0 / k, x)))
         == ProxPoint(Multiplied(k, ArgScaled(q, 1.0 / k)), sigma, x)
  {
    OverIs(sigma, k);
    var m := Multiplied(k, ArgScaled(q, 1.0 / k));
    var d := ProxDenominator(q, sigma / k);
    var p := ProxPoint(q, sigma / k, Scale(1.0 / k, x));
    var z := Scale(k, p);
    FuncScaleDenominator(q, sigma, k);
    forall i | 0 <= i < |x|
      ensures d * z[i] == x[i] - sigma * m.b[i]
    {
      ProxPointSolves(q, sigma / k, Scale(1.0 / k, x), i);
      FuncScaledProxArith(d, k, sigma, x[i], q.b[i], p[i]);
    }
    ProxPointUnique(m, sigma, x, z);
  }

  lemma FuncScaleDenominator(q: Quadratic, sigma: real, k: real)
    requires k != 0.0
    ensures ProxDenominator(Multiplied(k, ArgScaled(q, 1.0 / k)), sigma) == ProxDenominator(q, sigma / k)
  {
    assert 2.0 * (sigma / k) * q.a == 2.0 * sigma * (k * (1.0 / k * (1.0 / k) * q.a));
  }

  lemma FuncScaledProxArith(d: real, k: real, sigma: real, x: real, b: real, p: real)
    requires k != 0.0 && d * p == 1.0 / k * x - sigma / k * b
    ensures d * (k * p) == x - sigma * (k * (1.0 / k * b))
  {
    calc {
      d * (k * p);
      k * (d * p);
      k * (1.0 / k * x - sigma / k * b);
      x - sigma * (k * (1.0 / k * b));
    }
  }

  /** (s c) v == s (c v), under the factor 2 that every denominator carries. */
  lemma Regroup(s: real, c: real, v: real)
    ensures 2.0 * (s * c) * v == 2.0 * s * (c * v)
  {
  }

  /** The proximal point solves (1 + 2σa) z = x - σ b, coordinate by coordinate. */
  lemma ProxPointSolves(q: Quadratic, sigma: real, x: Vec, i: int)
    requires |q.b| == |x| && ProxDenominator(q, sigma) != 0.0 && 0 <= i < |x|
    ensures ProxDenominator(q, sigma) * ProxPoint(q, sigma, x)[i] == x[i] - sigma * q.b[i]
  {
    Cancel(ProxDenominator(q, sigma), Sub(x, Scale(sigma, q.b))[i]);
  }

  /** ... and it is the only solution. */
  lemma ProxPointUnique(q: Quadratic, sigma: real, x: Vec, z: Vec)
    requires |q.b| == |x| == |z| && ProxDenominator(q, sigma) != 0.0
    requires forall i :: 0 <= i < |x| ==> ProxDenominator(q, sigma) * z[i] == x[i] - sigma * q.b[i]
    ensures z == ProxPoint(q, sigma, x)
  {
    forall i | 0 <= i < |x|
      ensures z[i] == ProxPoint(q, sigma, x)[i]
    {
      ProxPointSolves(q, sigma, x, i);
      CancelLeft(ProxDenominator(q, sigma), z[i], ProxPoint(q, sigma, x)[i]);
    }
  }

  lemma Cancel(d: real, w: real)
    requires d != 0.0
    ensures d * (1.0 / d * w) == w
  {
  }

  lemma CancelLeft(d: real, u: real, v: real)
    requires d != 0.0 && d * u == d * v
    ensures u == v
  {
  }

  // ----- conjugates -----

  lemma ZeroConjugate(s: Space, n: nat)
    requires Valid(s)
    ensures Multiplied(0.25, Quadratic(1.0, Const(n, 0.0), 0.0)) == Conjugate(s, Quadratic(1.0, Const(n, 0.0), 0.0))
  {
    var z := Const(n, 0.0);
    InnerZeroLeft(s, z);
    assert Scale(0.25, z) == Scale(-1.0 / (2.0 * 1.0), z);
  }

  lemma MultipliedConjugate(s: Space, q: Quadratic, c: real)
    requires Valid(s) && c != 0.0 && q.a != 0.0
    ensures Multiplied(c, q).a != 0.0
    ensures Multiplied(c, ArgScaled(Conjugate(s, q), 1.0 / c)) == Conjugate(s, Multiplied(c, q))
  {
    NonZeroProduct(c, q.a);
    MultipliedConjugateLeadingPart(s, q, c);
    MultipliedConjugateLinearPart(q, c);
    MultipliedConjugateConstantPart(s, q, c);
  }

  lemma MultipliedConjugateLeadingPart(s: Space, q: Quadratic, c: real)
    requires Valid(s) && c != 0.0 && q.a != 0.0 && Multiplied(c, q).a != 0.0
    ensures Multiplied(c, ArgScaled(Conjugate(s, q), 1.0 / c)).a == Conjugate(s, Multiplied(c, q)).a
  {
    var g, m := Conjugate(s, q), Multiplied(c, q);
    var h := ArgScaled(g, 1.0 / c);
    MultipliedConjugateLeading(c, q.a, g.a, h.a, Multiplied(c, h).a, m.a, Conjugate(s, m).a);
  }

  lemma MultipliedConjugateConstantPart(s: Space, q: Quadratic, c: real)
    requires Valid(s) && c != 0.0 && q.a != 0.0 && Multiplied(c, q).a != 0.0
    ensures c * ConjugateConstant(s, q) == ConjugateConstant(s, Multiplied(c, q))
  {
    var m := Multiplied(c, q);
    InnerScaleBoth(s, c, q.b);
    MultipliedConjugateConstant(c, q.a, q.c, m.a, m.c, Inner(s, q.b, q.b), Inner(s, m.b, m.b),
      ConjugateConstant(s, q), ConjugateConstant(s, m));
  }

  lemma MultipliedConjugateLinearPart(q: Quadratic, c: real)
    requires c != 0.0 && q.a != 0.0 && Multiplied(c, q).a != 0.0
    ensures Scale(c, Scale(1.0 / c, ConjugateLinear(q))) == ConjugateLinear(Multiplied(c, q))
  {
    var m := Multiplied(c, q);
    var g, r := ConjugateLinear(q), ConjugateLinear(m);
    var h := Scale(1.0 / c, g);
    forall i | 0 <= i < |q.b|
      ensures Scale(c, h)[i] == r[i]
    {
      MultipliedConjugateLinear(c, q.a, m.a, q.b[i], g[i], h[i], Scale(c, h)[i], m.b[i], r[i]);
    }
  }

  lemma NonZeroProduct(c: real, a: real)
    requires c != 0.0 && a != 0.0
    ensures c * a != 0.0
  {
  }

  lemma MultipliedConjugateLeading(c: real, a: real, ga: real, ha: real, la: real, ma: real, ra: real)
    requires c != 0.0 && a != 0.0
    requires ga == 1.0 / (4.0 * a) && ha == 1.0 / c * (1.0 / c) * ga && la == c * ha
    requires ma == c * a && ra == 1.0 / (4.0 * ma)
    ensures la == ra
  {
  }

  lemma MultipliedConjugateLinear(c: real, a: real, ma: real, b: real, gb: real, hb: real, lb: real, mb: real, rb: real)
    requires c != 0.0 && a != 0.0 && ma == c * a
    requires gb == -1.0 / (2.0 * a) * b && hb == 1.0 / c * gb && lb == c * hb
    requires mb == c * b && rb == -1.0 / (2.0 * ma) * mb
    ensures lb == rb
  {
  }

  lemma MultipliedConjugateConstant(c: real, a: real, k: real, ma: real, mk: real, bb: real, mbb: real,
                                    gc: real, rc: real)
    requires c != 0.0 && a != 0.0 && ma == c * a && mk == c * k && mbb == c * c * bb
    requires gc == bb / (4.0 * a) - k && rc == mbb / (4.0 * ma) - mk
    ensures c * gc == rc
  {
  }

  /** The conjugate of Q(c ·) is Q*(d ·) when c d == 1. */
  lemma ArgScaledConjugate(s: Space, q: Quadratic, c: real, d: real)
    requires Valid(s) && q.a != 0.0 && c * d == 1.0
    ensures ArgScaled(q, c).a != 0.0
    ensures ArgScaled(Conjugate(s, q), d) == Conjugate(s, ArgScaled(q, c))
  {
    var m := ArgScaled(q, c);
    ArgScaledConjugateLeading(c, d, q.a, m.a);
    ArgScaledConjugateLinearPart(q, c, d);
    ArgScaledConjugateConstantPart(s, q, c, d);
  }

  lemma ArgScaledConjugateLinearPart(q: Quadratic, c: real, d: real)
    requires q.a != 0.0 && c * d == 1.0 && ArgScaled(q, c).a != 0.0
    ensures Scale(d, ConjugateLinear(q)) == ConjugateLinear(ArgScaled(q, c))
  {
    var m := ArgScaled(q, c);
    var g, r := ConjugateLinear(q), ConjugateLinear(m);
    forall i | 0 <= i < |q.b|
      ensures Scale(d, g)[i] == r[i]
    {
      ArgScaledConjugateLinear(c, d, q.a, m.a, q.b[i], g[i], Scale(d, g)[i], m.b[i], r[i]);
    }
  }

  lemma ArgScaledConjugateConstantPart(s: Space, q: Quadratic, c: real, d: real)
    requires Valid(s) && q.a != 0.0 && c * d == 1.0 && ArgScaled(q, c).a != 0.0
    ensures ConjugateConstant(s, q) == ConjugateConstant(s, ArgScaled(q, c))
  {
    var m := ArgScaled(q, c);
    InnerScaleBoth(s, c, q.b);
    ArgScaledConjugateConstant(c, d, q.a, m.a, q.c, Inner(s, q.b, q.b), Inner(s, m.b, m.b),
      ConjugateConstant(s, q), ConjugateConstant(s, m));
  }

  lemma ArgScaledConjugateLeading(c: real, d: real, a: real, ma: real)
    requires a != 0.0 && c * d == 1.0 && ma == c * c * a
    ensures ma != 0.0 && d * d * (1.0 / (4.0 * a)) == 1.0 / (4.0 * ma)
  {
  }

  lemma ArgScaledConjugateLinear(c: real, d: real, a: real, ma: real, b: real, gb: real, hb: real,
                                 mb: real, rb: real)
    requires a != 0.0 && c * d == 1.0 && ma == c * c * a && ma != 0.0
    requires gb == -1.0 / (2.0 * a) * b && hb == d * gb && mb == c * b && rb == -1.0 / (2.0 * ma) * mb
    ensures hb == rb
  {
  }

  lemma ArgScaledConjugateConstant(c: real, d: real, a: real, ma: real, k: real, bb: real, mbb: real,
                                   gc: real, rc: real)
    requires a != 0.0 && c * d == 1.0 && ma == c * c * a && ma != 0.0 && mbb == c * c * bb
    requires gc == bb / (4.0 * a) - k && rc == mbb / (4.0 * ma) - k
    ensures gc == rc
  {
  }

  /** The conjugate of Q + k is Q* - k. */
  lemma RaisedConjugate(s: Space, q: Quadratic, k: real)
    requires Valid(s) && q.a != 0.0
    ensures Raised(Conjugate(s, q), -k) == Conjugate(s, Raised(q, k))
  {
  }

  /** The conjugate of Q(· - y) is Q* + <·, y>. */
  lemma ShiftedConjugate(s: Space, q: Quadratic, y: Vec)
    requires Valid(s) && q.a != 0.0 && |q.b| == |y|
    ensures Shifted(s, q, y).a != 0.0
    ensures Tilted(Conjugate(s, q), y) == Conjugate(s, Shifted(s, q, y))
  {
    ShiftedConjugateLinearPart(q, Shifted(s, q, y), y);
    ShiftedConjugateConstantPart(s, q, y);
  }

  lemma ShiftedConjugateLinearPart(q: Quadratic, q': Quadratic, y: Vec)
    requires q.a != 0.0 && |q.b| == |y|
    requires q'.a == q.a && q'.b == Sub(q.b, Scale(2.0 * q.a, y))
    ensures Add(ConjugateLinear(q), y) == ConjugateLinear(q')
  {
    var g, r := ConjugateLinear(q), ConjugateLinear(q');
    forall i | 0 <= i < |y|
      ensures Add(g, y)[i] == r[i]
    {
      ShiftedConjugateLinear(q.a, q.b[i], y[i], g[i], q'.b[i], r[i]);
    }
  }

  lemma ShiftedConjugateLinear(a: real, b: real, y: real, gb: real, mb: real, rb: real)
    requires a != 0.0 && gb == -1.0 / (2.0 * a) * b
    requires mb == b - 2.0 * a * y && rb == -1.0 / (2.0 * a) * mb
    ensures gb + y == rb
  {
  }

  lemma ShiftedConjugateConstantPart(s: Space, q: Quadratic, y: Vec)
    requires Valid(s) && q.a != 0.0 && |q.b| == |y| && Shifted(s, q, y).a != 0.0
    ensures ConjugateConstant(s, q) == ConjugateConstant(s, Shifted(s, q, y))
  {
    var m := Shifted(s, q, y);
    var t := Scale(2.0 * q.a, y);
    SquareOfDifference(s, q.b, t);
    InnerScaleRight(s, 2.0 * q.a, q.b, y);
    InnerScaleBoth(s, 2.0 * q.a, y);
    ShiftedConjugateConstant(q.a, q.c, Inner(s, q.b, q.b), Inner(s, q.b, y), Inner(s, y, y),
      Inner(s, m.b, m.b), m.c, ConjugateConstant(s, q), ConjugateConstant(s, m));
  }

  lemma ShiftedConjugateConstant(a: real, k: real, bb: real, bdy: real, yy: real, mbb: real, mk: real,
                                 gc: real, rc: real)
    requires a != 0.0
    requires mbb == bb - 2.0 * (2.0 * a * bdy) + 2.0 * a * (2.0 * a) * yy && mk == a * yy - bdy + k
    requires gc == bb / (4.0 * a) - k && rc == mbb / (4.0 * a) - mk
    ensures gc == rc
  {
  }

  /** The conjugate of Q + <·, y> is Q*(· - y). */
  lemma TiltedConjugate(s: Space, q: Quadratic, y: Vec)
    requires Valid(s) && q.a != 0.0 && |q.b| == |y|
    ensures Tilted(q, y).a != 0.0
    ensures Shifted(s, Conjugate(s, q), y) == Conjugate(s, Tilted(q, y))
  {
    TiltedConjugateLinearPart(q, y);
    TiltedConjugateConstantPart(s, q, y);
  }

  lemma TiltedConjugateLinearPart(q: Quadratic, y: Vec)
    requires q.a != 0.0 && |q.b| == |y|
    ensures Sub(ConjugateLinear(q), Scale(2.0 * (1.0 / (4.0 * q.a)), y)) == ConjugateLinear(Tilted(q, y))
  {
    var g, r := ConjugateLinear(q), ConjugateLinear(Tilted(q, y));
    var t := Scale(2.0 * (1.0 / (4.0 * q.a)), y);
    forall i | 0 <= i < |y|
      ensures Sub(g, t)[i] == r[i]
    {
      TiltedConjugateLinear(q.a, q.b[i], y[i], g[i], t[i], r[i]);
    }
  }

  lemma TiltedConjugateLinear(a: real, b: real, y: real, gb: real, ty: real, rb: real)
    requires a != 0.0 && gb == -1.0 / (2.0 * a) * b
    requires ty == 2.0 * (1.0 / (4.0 * a)) * y && rb == -1.0 / (2.0 * a) * (b + y)
    ensures gb - ty == rb
  {
  }

  lemma TiltedConjugateConstantPart(s: Space, q: Quadratic, y: Vec)
    requires Valid(s) && q.a != 0.0 && |q.b| == |y|
    ensures 1.0 / (4.0 * q.a) * Inner(s, y, y) - Inner(s, ConjugateLinear(q), y) + ConjugateConstant(s, q)
         == ConjugateConstant(s, Tilted(q, y))
  {
    var m := Tilted(q, y);
    SquareOfSum(s, q.b, y);
    InnerScaleLeft(s, -1.0 / (2.0 * q.a), q.b, y);
    TiltedConjugateConstant(q.a, q.c, Inner(s, q.b, q.b), Inner(s, q.b, y), Inner(s, y, y),
      Inner(s, m.b, m.b), Inner(s, ConjugateLinear(q), y), ConjugateConstant(s, q), ConjugateConstant(s, m));
  }

  lemma TiltedConjugateConstant(a: real, k: real, bb: real, bdy: real, yy: real, mbb: real, gy: real,
                                gc: real, rc: real)
    requires a != 0.0
    requires mbb == bb + 2.0 * bdy + yy && gy == -1.0 / (2.0 * a) * bdy
    requires gc == bb / (4.0 * a) - k && rc == mbb / (4.0 * a) - k
    ensures 1.0 / (4.0 * a) * yy - gy + gc == rc
  {
  }

  /** The conjugate of k Q(· / k) is k Q*. */
  lemma FuncScaledConjugate(s: Space, q: Quadratic, k: real)
    requires Valid(s) && q.a != 0.0 && k != 0.0
    ensures Multiplied(k, ArgScaled(q, 1.0 / k)).a != 0.0
    ensures Multiplied(k, Conjugate(s, q)) == Conjugate(s, Multiplied(k, ArgScaled(q, 1.0 / k)))
  {
    var m := Multiplied(k, ArgScaled(q, 1.0 / k));
    FuncScaledConjugateLeading(k, q.a, m.a);
    FuncScaledConjugateLinearPart(q, k);
    FuncScaledConjugateConstantPart(s, q, k);
  }

  lemma FuncScaledConjugateLinearPart(q: Quadratic, k: real)
    requires q.a != 0.0 && k != 0.0 && Multiplied(k, ArgScaled(q, 1.0 / k)).a != 0.0
    ensures Scale(k, ConjugateLinear(q)) == ConjugateLinear(Multiplied(k, ArgScaled(q, 1.0 / k)))
  {
    var m := Multiplied(k, ArgScaled(q, 1.0 / k));
    var g, r := ConjugateLinear(q), ConjugateLinear(m);
    forall i | 0 <= i < |q.b|
      ensures Scale(k, g)[i] == r[i]
    {
      FuncScaledConjugateLinear(k, q.a, q.b[i]);
    }
  }

  lemma FuncScaledConjugateConstantPart(s: Space, q: Quadratic, k: real)
    requires Valid(s) && q.a != 0.0 && k != 0.0 && Multiplied(k, ArgScaled(q, 1.0 / k)).a != 0.0
    ensures k * ConjugateConstant(s, q) == ConjugateConstant(s, Multiplied(k, ArgScaled(q, 1.0 / k)))
  {
    var h := ArgScaled(q, 1.0 / k);
    var m := Multiplied(k, h);
    InnerScaleBoth(s, 1.0 / k, q.b);
    InnerScaleBoth(s, k, h.b);
    FuncScaledConjugateConstant(k, q.a, m.a, q.c, m.c, Inner(s, q.b, q.b), Inner(s, h.b, h.b),
      Inner(s, m.b, m.b), ConjugateConstant(s, q), ConjugateConstant(s, m));
  }

  lemma FuncScaledConjugateLeading(k: real, a: real, ma: real)
    requires a != 0.0 && k != 0.0 && ma == k * (1.0 / k * (1.0 / k) * a)
    ensures ma != 0.0 && k * (1.0 / (4.0 * a)) == 1.0 / (4.0 * ma)
  {
  }

  lemma FuncScaledConjugateLinear(k: real, a: real, b: real)
    requires a != 0.0 && k != 0.0
    ensures k * (-1.0 / (2.0 * a) * b) == -1.0 / (2.0 * (k * (1.0 / k * (1.0 / k) * a))) * (k * (1.0 / k * b))
  {
  }

  lemma FuncScaledConjugateConstant(k: real, a: real, ma: real, c: real, mc: real, bb: real, hbb: real,
                                    mbb: real, gc: real, rc: real)
    requires a != 0.0 && k != 0.0 && ma == k * (1.0 / k * (1.0 / k) * a) && mc == k * c
    requires hbb == 1.0 / k * (1.0 / k) * bb && mbb == k * k * hbb
    requires gc == bb / (4.0 * a) - c && rc == mbb / (4.0 * ma) - mc
    ensures k * gc == rc
  {
  }

  // ----- laws of one quadratic -----

  /** Q(x + p) == Q(x) + <∇Q(x), p> + <a p, p>: the second-order expansion is exact. */
  lemma QTaylor(s: Space, q: Quadratic, x: Vec, p: Vec)
    requires Valid(s) && |q.b| == |x| == |p|
    ensures QValue(s, q, Add(x, p)) == QValue(s, q, x) + Inner(s, QGrad(q, x), p) + Inner(s, Scale(q.a, p), p)
  {
    InnerScaleLeft(s, q.a, p, p);
    QValueIs(s, q, Add(x, p));
    QValueIs(s, q, x);
    SquareOfSum(s, x, p);
    InnerAddRight(s, q.b, x, p);
    InnerAddLeft(s, Scale(2.0 * q.a, x), q.b, p);
    InnerScaleLeft(s, 2.0 * q.a, x, p);
  }

  /** The proximal point z solves z + σ ∇Q(z) == x, and it is the only point that does. */
  lemma ProxPointResolvent(q: Quadratic, sigma: real, x: Vec, z: Vec)
    requires |q.b| == |x| == |z| && ProxDenominator(q, sigma) != 0.0
    ensures Add(z, Scale(sigma, QGrad(q, z))) == x <==> z == ProxPoint(q, sigma, x)
  {
    var p := ProxPoint(q, sigma, x);
    forall i | 0 <= i < |x|
      ensures Add(p, Scale(sigma, QGrad(q, p)))[i] == x[i]
    {
      ProxPointSolves(q, sigma, x, i);
      ResolventArith(q.a, sigma, q.b[i], p[i], x[i]);
    }
    if Add(z, Scale(sigma, QGrad(q, z))) == x {
      forall i | 0 <= i < |x|
        ensures ProxDenominator(q, sigma) * z[i] == x[i] - sigma * q.b[i]
      {
        assert x[i] == Add(z, Scale(sigma, QGrad(q, z)))[i];
        ResolventArith(q.a, sigma, q.b[i], z[i], x[i]);
      }
      ProxPointUnique(q, sigma, x, z);
    }
  }

  lemma ResolventArith(a: real, sigma: real, b: real, z: real, x: real)
    ensures (1.0 + 2.0 * sigma * a) * z == x - sigma * b <==> z + sigma * (2.0 * a * z + b) == x
  {
  }

  /** The objective σ Q(w) + <w - x, w - x> / 2 that the proximal point minimises. */
  function ProxObjective(s: Space, q: Quadratic, sigma: real, x: Vec, w: Vec): real
    requires Valid(s) && |q.b| == |x| == |w|
  {
    sigma * QValue(s, q, w) + 0.5 * Inner(s, Sub(w, x), Sub(w, x))
  }

  /**
   * With 1 + 2σa > 0 the proximal point is the unique minimiser of the objective, which
   * exceeds its minimum by (1 + 2σa)/2 <w - z, w - z> (ProxObjectiveExcess).
   */
  lemma ProxPointMinimizes(s: Space, q: Quadratic, sigma: real, x: Vec, w: Vec)
    requires Valid(s) && |q.b| == |x| == |w| && ProxDenominator(q, sigma) > 0.0
    ensures ProxObjective(s, q, sigma, x, ProxPoint(q, sigma, x)) <= ProxObjective(s, q, sigma, x, w)
    ensures ProxObjective(s, q, sigma, x, ProxPoint(q, sigma, x)) == ProxObjective(s, q, sigma, x, w)
        ==> w == ProxPoint(q, sigma, x)
  {
    var z := ProxPoint(q, sigma, x);
    var d := Sub(w, z);
    ProxObjectiveExcess(s, q, sigma, x, w);
    InnerSelfNonNegative(s, d);
    ExcessSign(ProxDenominator(q, sigma), Inner(s, d, d));
    if ProxObjective(s, q, sigma, x, z) == ProxObjective(s, q, sigma, x, w) {
      ZeroFactor(0.5 * ProxDenominator(q, sigma), Inner(s, d, d));
      InnerSelfZero(s, d);
      forall i | 0 <= i < |w|
        ensures w[i] == z[i]
      {
        assert d[i] == Const(|d|, 0.0)[i];
      }
    }
  }

  lemma ExcessSign(den: real, dd: real)
    requires den > 0.0 && dd >= 0.0
    ensures 0.5 * den * dd >= 0.0
  {
  }

  /** The objective exceeds its value at the proximal point z by (1 + 2σa)/2 <w - z, w - z>. */
  lemma ProxObjectiveExcess(s: Space, q: Quadratic, sigma: real, x: Vec, w: Vec)
    requires Valid(s) && |q.b| == |x| == |w| && ProxDenominator(q, sigma) != 0.0
    ensures ProxObjective(s, q, sigma, x, w) - ProxObjective(s, q, sigma, x, ProxPoint(q, sigma, x))
         == 0.5 * ProxDenominator(q, sigma)
            * Inner(s, Sub(w, ProxPoint(q, sigma, x)), Sub(w, ProxPoint(q, sigma, x)))
  {
    var z := ProxPoint(q, sigma, x);
    var d := Sub(w, z);
    var g := QGrad(q, z);
    ProxPointOffset(q, sigma, x);
    assert w == Add(z, d);
    assert Sub(w, x) == Add(Sub(z, x), d);
    QTaylor(s, q, z, d);
    InnerScaleLeft(s, q.a, d, d);
    SquareOfSum(s, Sub(z, x), d);
    InnerScaleLeft(s, -sigma, g, d);
    ProxMinimizesArith(q, sigma, QValue(s, q, z), Inner(s, g, d), Inner(s, d, d),
      Inner(s, Sub(z, x), Sub(z, x)));
  }

  /** z - x == -σ ∇Q(z) at the proximal point z of x. */
  lemma ProxPointOffset(q: Quadratic, sigma: real, x: Vec)
    requires |q.b| == |x| && ProxDenominator(q, sigma) != 0.0
    ensures Sub(ProxPoint(q, sigma, x), x) == Scale(-sigma, QGrad(q, ProxPoint(q, sigma, x)))
  {
    var z := ProxPoint(q, sigma, x);
    var g := QGrad(q, z);
    ProxPointResolvent(q, sigma, x, z);
    forall i | 0 <= i < |x|
      ensures Sub(z, x)[i] == Scale(-sigma, g)[i]
    {
      assert x[i] == z[i] + sigma * g[i];
    }
  }

  lemma ProxMinimizesArith(q: Quadratic, sigma: real, qz: real, gd: real, dd: real, uu: real)
    ensures (sigma * (qz + gd + q.a * dd) + 0.5 * (uu + 2.0 * (-sigma * gd) + dd)) - (sigma * qz + 0.5 * uu)
         == 0.5 * ProxDenominator(q, sigma) * dd
  {
  }

  /** Q*(y) == <y - b, y - b> / (4a) - c. */
  lemma ConjugateValue(s: Space, q: Quadratic, y: Vec)
    requires Valid(s) && q.a != 0.0 && |q.b| == |y|
    ensures QValue(s, Conjugate(s, q), y) == Inner(s, Sub(y, q.b), Sub(y, q.b)) / (4.0 * q.a) - q.c
  {
    QValueIs(s, Conjugate(s, q), y);
    SquareOfDifference(s, y, q.b);
    InnerScaleLeft(s, -1.0 / (2.0 * q.a), q.b, y);
    InnerSymmetric(s, q.b, y);
    ConjugateValueArith(q.a, q.c, Inner(s, y, y), Inner(s, q.b, y), Inner(s, q.b, q.b),
      Inner(s, Sub(y, q.b), Sub(y, q.b)), Inner(s, ConjugateLinear(q), y), ConjugateConstant(s, q));
  }

  lemma ConjugateValueArith(a: real, c: real, yy: real, bdy: real, bb: real, uu: real, gy: real, gc: real)
    requires a != 0.0 && uu == yy - 2.0 * bdy + bb && gy == -1.0 / (2.0 * a) * bdy && gc == bb / (4.0 * a) - c
    ensures 1.0 / (4.0 * a) * yy + gy + gc == uu / (4.0 * a) - c
  {
  }

  /**
   * The Fenchel-Young gap: Q(x) + Q*(y) - <x, y> == <∇Q(x) - y, ∇Q(x) - y> / (4a).
   */
  lemma FenchelYoungGap(s: Space, q: Quadratic, x: Vec, y: Vec)
    requires Valid(s) && q.a != 0.0 && |q.b| == |x| == |y|
    ensures QValue(s, q, x) + QValue(s, Conjugate(s, q), y) - Inner(s, x, y)
         == Inner(s, Sub(QGrad(q, x), y), Sub(QGrad(q, x), y)) / (4.0 * q.a)
  {
    var u := Sub(y, q.b);
    var t := Scale(2.0 * q.a, x);
    ConjugateValue(s, q, y);
    QValueIs(s, q, x);
    assert Sub(QGrad(q, x), y) == Sub(t, u);
    SquareOfDifference(s, t, u);
    InnerScaleBoth(s, 2.0 * q.a, x);
    InnerScaleLeft(s, 2.0 * q.a, x, u);
    InnerSubRight(s, x, y, q.b);
    InnerSymmetric(s, q.b, x);
    FenchelYoungArith(q.a, Inner(s, x, x), Inner(s, x, q.b), Inner(s, x, y), Inner(s, u, u),
      Inner(s, t, t), Inner(s, t, u), Inner(s, Sub(t, u), Sub(t, u)));
  }

  lemma FenchelYoungArith(a: real, xx: real, xb: real, xy: real, uu: real, tt: real, tu: real, dd: real)
    requires a != 0.0 && tt == 2.0 * a * (2.0 * a) * xx && tu == 2.0 * a * (xy - xb)
    requires dd == tt - 2.0 * tu + uu
    ensures a * xx + xb + uu / (4.0 * a) - xy == dd / (4.0 * a)
  {
  }

  /**
   * For a > 0, Q(x) + Q*(y) >= <x, y>, with equality exactly when y is the gradient of Q at x.
   */
  lemma FenchelYoung(s: Space, q: Quadratic, x: Vec, y: Vec)
    requires Valid(s) && q.a > 0.0 && |q.b| == |x| == |y|
    ensures QValue(s, q, x) + QValue(s, Conjugate(s, q), y) >= Inner(s, x, y)
    ensures QValue(s, q, x) + QValue(s, Conjugate(s, q), y) == Inner(s, x, y) <==> y == QGrad(q, x)
  {
    var d := Sub(QGrad(q, x), y);
    FenchelYoungGap(s, q, x, y);
    InnerSelfNonNegative(s, d);
    InnerSelfZero(s, d);
    GapSign(q.a, Inner(s, d, d));
    if d == Const(|d|, 0.0) {
      forall i | 0 <= i < |y|
        ensures y[i] == QGrad(q, x)[i]
      {
        assert d[i] == 0.0;
      }
    }
  }

  lemma GapSign(a: real, dd: real)
    requires a > 0.0 && dd >= 0.0
    ensures dd / (4.0 * a) >= 0.0
    ensures dd / (4.0 * a) == 0.0 <==> dd == 0.0
  {
  }

  /** ∇Q* inverts ∇Q: ∇Q*(∇Q(x)) == x and ∇Q(∇Q*(y)) == y. */
  lemma ConjugateGradientInverse(s: Space, q: Quadratic, x: Vec, y: Vec)
    requires Valid(s) && q.a != 0.0 && |q.b| == |x| == |y|
    ensures QGrad(Conjugate(s, q), QGrad(q, x)) == x
    ensures QGrad(q, QGrad(Conjugate(s, q), y)) == y
  {
    var g := Conjugate(s, q);
    forall i | 0 <= i < |x|
      ensures QGrad(g, QGrad(q, x))[i] == x[i]
    {
      GradientInverseArith(q.a, q.b[i], x[i]);
    }
    forall i | 0 <= i < |y|
      ensures QGrad(q, QGrad(g, y))[i] == y[i]
    {
      GradientInverseArith'(q.a, q.b[i], y[i]);
    }
  }

  lemma GradientInverseArith(a: real, b: real, x: real)
    requires a != 0.0
    ensures 2.0 * (1.0 / (4.0 * a)) * (2.0 * a * x + b) + -1.0 / (2.0 * a) * b == x
  {
  }

  lemma GradientInverseArith'(a: real, b: real, y: real)
    requires a != 0.0
    ensures 2.0 * a * (2.0 * (1.0 / (4.0 * a)) * y + -1.0 / (2.0 * a) * b) + b == y
  {
  }

  /** Q** == Q. */
  lemma ConjugateInvolution(s: Space, q: Quadratic)
    requires Valid(s) && q.a != 0.0
    ensures Conjugate(s, q).a != 0.0
    ensures Conjugate(s, Conjugate(s, q)) == q
  {
    InvolutionLeading(q.a);
    InvolutionLinearPart(q);
    InvolutionConstantPart(s, q);
  }

  lemma InvolutionLeading(a: real)
    requires a != 0.0
    ensures 1.0 / (4.0 * a) != 0.0 && 1.0 / (4.0 * (1.0 / (4.0 * a))) == a
  {
  }

  lemma InvolutionLinearPart(q: Quadratic)
    requires q.a != 0.0 && 1.0 / (4.0 * q.a) != 0.0
    ensures ConjugateLinear(Quadratic(1.0 / (4.0 * q.a), ConjugateLinear(q), 0.0)) == q.b
  {
    var g := ConjugateLinear(q);
    forall i | 0 <= i < |q.b|
      ensures ConjugateLinear(Quadratic(1.0 / (4.0 * q.a), g, 0.0))[i] == q.b[i]
    {
      InvolutionLinear(q.a, q.b[i]);
    }
  }

  lemma InvolutionLinear(a: real, b: real)
    requires a != 0.0
    ensures -1.0 / (2.0 * (1.0 / (4.0 * a))) * (-1.0 / (2.0 * a) * b) == b
  {
    calc {
      -1.0 / (2.0 * (1.0 / (4.0 * a))) * (-1.0 / (2.0 * a) * b);
      { assert 2.0 * (1.0 / (4.0 * a)) == 1.0 / (2.0 * a); }
      -1.0 / (1.0 / (2.0 * a)) * (-1.0 / (2.0 * a) * b);
      { assert -1.0 / (1.0 / (2.0 * a)) == -2.0 * a; }
      -2.0 * a * (-1.0 / (2.0 * a) * b);
      { assert (2.0 * a) * (1.0 / (2.0 * a)) == 1.0; }
      b;
    }
  }

  lemma InvolutionConstantPart(s: Space, q: Quadratic)
    requires Valid(s) && q.a != 0.0 && Conjugate(s, q).a != 0.0
    ensures ConjugateConstant(s, Conjugate(s, q)) == q.c
  {
    var g := Conjugate(s, q);
    InnerScaleBoth(s, -1.0 / (2.0 * q.a), q.b);
    InvolutionConstant(q.a, q.c, Inner(s, q.b, q.b), Inner(s, g.b, g.b), g.a, g.c);
  }

  lemma InvolutionConstant(a: real, c: real, bb: real, gbb: real, ga: real, gc: real)
    requires a != 0.0 && ga == 1.0 / (4.0 * a) && ga != 0.0
    requires gbb == -1.0 / (2.0 * a) * (-1.0 / (2.0 * a)) * bb && gc == bb / (4.0 * a) - c
    ensures gbb / (4.0 * ga) - gc == c
  {
  }
}
