/** Coordinate vectors and the weighted inner product of a space. */
module Vectors {
  import opened Spaces

  type Vec = seq<real>

  function Add(x: Vec, y: Vec): Vec
    requires |x| == |y|
  {
    seq(|x|, i requires 0 <= i < |x| => x[i] + y[i])
  }

  function Sub(x: Vec, y: Vec): Vec
    requires |x| == |y|
  {
    seq(|x|, i requires 0 <= i < |x| => x[i] - y[i])
  }

  function Scale(c: real, x: Vec): Vec {
    seq(|x|, i requires 0 <= i < |x| => c * x[i])
  }

  /** The pointwise product y·x of two elements of one space. */
  function Mul(y: Vec, x: Vec): Vec
    requires |y| == |x|
  {
    seq(|x|, i requires 0 <= i < |x| => y[i] * x[i])
  }

  /** The element of a space of size `n` all of whose coordinates are `c`. */
  function Const(n: nat, c: real): Vec {
    seq(n, i => c)
  }

  /** Multiplying pointwise by a constant vector scales by its constant. */
  lemma MulConst(c: real, x: Vec)
    ensures Mul(Const(|x|, c), x) == Scale(c, x)
  {
    forall i | 0 <= i < |x|
      ensures Mul(Const(|x|, c), x)[i] == Scale(c, x)[i]
    {
      assert Const(|x|, c)[i] == c;
    }
  }

  /** Scaling distributes over a sum of scalars. */
  lemma ScaleDistributes(u: real, v: real, y: Vec)
    ensures Scale(u + v, y) == Add(Scale(u, y), Scale(v, y))
  {
    forall i | 0 <= i < |y|
      ensures Scale(u + v, y)[i] == Add(Scale(u, y), Scale(v, y))[i]
    {
      assert (u + v) * y[i] == u * y[i] + v * y[i];
    }
  }

  /** Scaling by b and then by a scales by any c that equals a·b. */
  lemma ScaleTwice(a: real, b: real, c: real, x: Vec)
    requires a * b == c
    ensures Scale(a, Scale(b, x)) == Scale(c, x)
  {
    ScaleScale(a, b, x);
  }

  /** Scaling twice scales by the product. */
  lemma ScaleScale(c: real, d: real, x: Vec)
    ensures Scale(c, Scale(d, x)) == Scale(c * d, x)
  {
    forall i | 0 <= i < |x|
      ensures Scale(c, Scale(d, x))[i] == Scale(c * d, x)[i]
    {
      calc {
        Scale(c, Scale(d, x))[i];
        c * (d * x[i]);
        (c * d) * x[i];
      }
    }
  }

  /** The sum of the coordinate products, each weighted by `w`. */
  function WeightedDot(w: real, x: Vec, y: Vec): real
    requires |x| == |y|
  {
    if |x| == 0 then 0.0 else w * (x[0] * y[0]) + WeightedDot(w, x[1..], y[1..])
  }

  /**
   * The inner product of `s`: every coordinate product weighted by the cell volume.
   * It uses the layer idiom of Scalars (see InnerIsWeightedDot), so that a
   * proof about the algebra sees a bilinear form, handled through the lemmas below,
   * rather than the sum over the coordinates.
   */
  function Inner(s: Space, x: Vec, y: Vec): real
    requires Valid(s) && |x| == |y|
  {
    InnerLayer(1, s, x, y)
  }

  function InnerLayer(depth: nat, s: Space, x: Vec, y: Vec): real
    requires Valid(s) && |x| == |y|
  {
    if depth == 0 then WeightedDot(Weight(s), x, y) else InnerLayer(depth - 1, s, x, y)
  }

  lemma InnerIsWeightedDot(s: Space, x: Vec, y: Vec)
    requires Valid(s) && |x| == |y|
    ensures Inner(s, x, y) == WeightedDot(Weight(s), x, y)
  {
    assert InnerLayer(0, s, x, y) == WeightedDot(Weight(s), x, y);
  }

  lemma {:induction false} DotSymmetric(w: real, x: Vec, y: Vec)
    requires |x| == |y|
    ensures WeightedDot(w, x, y) == WeightedDot(w, y, x)
  {
    if |x| > 0 {
      DotSymmetric(w, x[1..], y[1..]);
    }
  }

  lemma {:induction false} DotScaleLeft(w: real, c: real, x: Vec, y: Vec)
    requires |x| == |y|
    ensures WeightedDot(w, Scale(c, x), y) == c * WeightedDot(w, x, y)
  {
    if |x| > 0 {
      assert forall i :: 0 <= i < |x| - 1 ==> Scale(c, x)[1..][i] == Scale(c, x[1..])[i];
      assert Scale(c, x)[1..] == Scale(c, x[1..]);
      DotScaleLeft(w, c, x[1..], y[1..]);
    }
  }

  lemma {:induction false} DotAddLeft(w: real, x: Vec, y: Vec, z: Vec)
    requires |x| == |y| == |z|
    ensures WeightedDot(w, Add(x, y), z) == WeightedDot(w, x, z) + WeightedDot(w, y, z)
  {
    if |x| > 0 {
      assert Add(x, y)[1..] == Add(x[1..], y[1..]);
      DotAddLeft(w, x[1..], y[1..], z[1..]);
    }
  }

  lemma {:induction false} DotSubLeft(w: real, x: Vec, y: Vec, z: Vec)
    requires |x| == |y| == |z|
    ensures WeightedDot(w, Sub(x, y), z) == WeightedDot(w, x, z) - WeightedDot(w, y, z)
  {
    if |x| > 0 {
      assert Sub(x, y)[1..] == Sub(x[1..], y[1..]);
      DotSubLeft(w, x[1..], y[1..], z[1..]);
    }
  }

  lemma {:induction false} DotSelfNonNegative(w: real, x: Vec)
    requires w > 0.0
    ensures WeightedDot(w, x, x) >= 0.0
  {
    if |x| > 0 {
      DotSelfNonNegative(w, x[1..]);
    }
  }

  lemma InnerSymmetric(s: Space, x: Vec, y: Vec)
    requires Valid(s) && |x| == |y|
    ensures Inner(s, x, y) == Inner(s, y, x)
  {
    InnerIsWeightedDot(s, x, y);
    InnerIsWeightedDot(s, y, x);
    DotSymmetric(Weight(s), x, y);
  }

  lemma InnerScaleLeft(s: Space, c: real, x: Vec, y: Vec)
    requires Valid(s) && |x| == |y|
    ensures Inner(s, Scale(c, x), y) == c * Inner(s, x, y)
  {
    InnerIsWeightedDot(s, Scale(c, x), y);
    InnerIsWeightedDot(s, x, y);
    DotScaleLeft(Weight(s), c, x, y);
  }

  lemma InnerScaleRight(s: Space, c: real, x: Vec, y: Vec)
    requires Valid(s) && |x| == |y|
    ensures Inner(s, x, Scale(c, y)) == c * Inner(s, x, y)
  {
    InnerSymmetric(s, x, Scale(c, y));
    InnerScaleLeft(s, c, y, x);
    InnerSymmetric(s, y, x);
  }

  /** A scalar moves freely between the two arguments of the inner product. */
  lemma InnerScaleMove(s: Space, c: real, x: Vec, y: Vec)
    requires Valid(s) && |x| == |y|
    ensures Inner(s, Scale(c, x), y) == Inner(s, x, Scale(c, y))
  {
    InnerScaleLeft(s, c, x, y);
    InnerScaleRight(s, c, x, y);
  }

  /** <k x, k x> == k² <x, x>. */
  lemma InnerScaleBoth(s: Space, k: real, x: Vec)
    requires Valid(s)
    ensures Inner(s, Scale(k, x), Scale(k, x)) == k * k * Inner(s, x, x)
  {
    InnerScaleLeft(s, k, x, Scale(k, x));
    InnerScaleRight(s, k, x, x);
  }

  lemma InnerAddLeft(s: Space, x: Vec, y: Vec, z: Vec)
    requires Valid(s) && |x| == |y| == |z|
    ensures Inner(s, Add(x, y), z) == Inner(s, x, z) + Inner(s, y, z)
  {
    InnerIsWeightedDot(s, Add(x, y), z);
    InnerIsWeightedDot(s, x, z);
    InnerIsWeightedDot(s, y, z);
    DotAddLeft(Weight(s), x, y, z);
  }

  lemma InnerAddRight(s: Space, x: Vec, y: Vec, z: Vec)
    requires Valid(s) && |x| == |y| == |z|
    ensures Inner(s, x, Add(y, z)) == Inner(s, x, y) + Inner(s, x, z)
  {
    InnerSymmetric(s, x, Add(y, z));
    InnerAddLeft(s, y, z, x);
    InnerSymmetric(s, y, x);
    InnerSymmetric(s, z, x);
  }

  lemma InnerSubLeft(s: Space, x: Vec, y: Vec, z: Vec)
    requires Valid(s) && |x| == |y| == |z|
    ensures Inner(s, Sub(x, y), z) == Inner(s, x, z) - Inner(s, y, z)
  {
    InnerIsWeightedDot(s, Sub(x, y), z);
    InnerIsWeightedDot(s, x, z);
    InnerIsWeightedDot(s, y, z);
    DotSubLeft(Weight(s), x, y, z);
  }

  lemma InnerSubRight(s: Space, x: Vec, y: Vec, z: Vec)
    requires Valid(s) && |x| == |y| == |z|
    ensures Inner(s, x, Sub(y, z)) == Inner(s, x, y) - Inner(s, x, z)
  {
    InnerSymmetric(s, x, Sub(y, z));
    InnerSubLeft(s, y, z, x);
    InnerSymmetric(s, y, x);
    InnerSymmetric(s, z, x);
  }

  /** <x - y, x - y> == <x, x> - 2 <x, y> + <y, y>. */
  lemma SquareOfDifference(s: Space, x: Vec, y: Vec)
    requires Valid(s) && |x| == |y|
    ensures Inner(s, Sub(x, y), Sub(x, y)) == Inner(s, x, x) - 2.0 * Inner(s, x, y) + Inner(s, y, y)
  {
    var d := Sub(x, y);
    InnerSubLeft(s, x, y, d);
    InnerSubRight(s, x, x, y);
    InnerSubRight(s, y, x, y);
    InnerSymmetric(s, y, x);
  }

  /** <x + y, x + y> == <x, x> + 2 <x, y> + <y, y>. */
  lemma SquareOfSum(s: Space, x: Vec, y: Vec)
    requires Valid(s) && |x| == |y|
    ensures Inner(s, Add(x, y), Add(x, y)) == Inner(s, x, x) + 2.0 * Inner(s, x, y) + Inner(s, y, y)
  {
    var d := Add(x, y);
    InnerAddLeft(s, x, y, d);
    InnerAddRight(s, x, x, y);
    InnerAddRight(s, y, x, y);
    InnerSymmetric(s, y, x);
  }

  /** The zero vector is orthogonal to everything. */
  lemma InnerZeroLeft(s: Space, x: Vec)
    requires Valid(s)
    ensures Inner(s, Const(|x|, 0.0), x) == 0.0
  {
    InnerIsWeightedDot(s, Const(|x|, 0.0), x);
    InnerIsWeightedDot(s, x, x);
    DotScaleLeft(Weight(s), 0.0, x, x);
    assert Scale(0.0, x) == Const(|x|, 0.0);
  }

  /** The squared norm of the inner product is never negative. */
  lemma InnerSelfNonNegative(s: Space, x: Vec)
    requires Valid(s)
    ensures Inner(s, x, x) >= 0.0
  {
    InnerIsWeightedDot(s, x, x);
    DotSelfNonNegative(Weight(s), x);
  }

  /** Only the zero vector has a zero weighted square. */
  lemma {:induction false} DotSelfZero(w: real, x: Vec)
    requires w > 0.0
    ensures WeightedDot(w, x, x) == 0.0 <==> x == Const(|x|, 0.0)
  {
    if |x| > 0 {
      var r := x[1..];
      DotSelfZero(w, r);
      DotSelfNonNegative(w, r);
      WeightedSquareNonNegative(w, x[0]);
      assert x == [x[0]] + r;
      assert Const(|x|, 0.0) == [0.0] + Const(|r|, 0.0);
      if WeightedDot(w, x, x) == 0.0 {
        ZeroFactor(w, x[0] * x[0]);
        ZeroSquare(x[0]);
      }
      if x == Const(|x|, 0.0) {
        assert x[0] == Const(|x|, 0.0)[0] == 0.0;
        forall i | 0 <= i < |r|
          ensures r[i] == Const(|r|, 0.0)[i]
        {
          assert r[i] == Const(|x|, 0.0)[i + 1];
        }
      }
    }
  }

  lemma WeightedSquareNonNegative(w: real, v: real)
    requires w > 0.0
    ensures w * (v * v) >= 0.0
  {
  }

  lemma ZeroFactor(w: real, p: real)
    requires w > 0.0 && w * p == 0.0
    ensures p == 0.0
  {
  }

  lemma ZeroSquare(v: real)
    requires v * v == 0.0
    ensures v == 0.0
  {
    if v != 0.0 {
      SquareOverRoot(v, v * v);
    }
  }

  lemma SquareOverRoot(v: real, p: real)
    requires v != 0.0 && p == v * v
    ensures p / v == v
  {
  }

  /** The inner product is definite: <x, x> == 0 exactly for the zero vector. */
  lemma InnerSelfZero(s: Space, x: Vec)
    requires Valid(s)
    ensures Inner(s, x, x) == 0.0 <==> x == Const(|x|, 0.0)
  {
    InnerIsWeightedDot(s, x, x);
    DotSelfZero(Weight(s), x);
  }
}
