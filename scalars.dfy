/**
 * The step arithmetic of the proximal operators: when a functional is scaled, its
 * proximal operator calls the inner one with the step σ·c or σ/c.  Each operation is
 * defined one level away from its formula (see TimesIs and OverIs), so that unfolding
 * a proximal operator gives the prover a named step rather than a product of unknowns.
 *
 * The layer idiom, used here and by Vectors.Inner, Quadratics.QValue and
 * ConvexAnalysis.ProxCost: a definition `X(args) == XLayer(1, args)` whose layer
 * counts its depth down to the formula at depth 0.  The depth stands for nothing in
 * the library; it only keeps the prover from unfolding the formula by itself, so the
 * formula enters a proof only where the matching `…Is` lemma is called.
 */
module Scalars {

  /** The step u·v; a product of positive steps is positive. */
  function Times(u: real, v: real): (r: real)
    ensures u > 0.0 && v > 0.0 ==> r > 0.0
  {
    if u > 0.0 && v > 0.0 then
      ProductPositive(u, v);
      TimesLayer(1, u, v)
    else
      TimesLayer(1, u, v)
  }

  lemma ProductPositive(u: real, v: real)
    requires u > 0.0 && v > 0.0
    ensures TimesLayer(1, u, v) > 0.0
  {
    assert TimesLayer(1, u, v) == u * v;
  }

  function TimesLayer(depth: nat, u: real, v: real): real {
    if depth == 0 then u * v else TimesLayer(depth - 1, u, v)
  }

  lemma TimesIs(u: real, v: real)
    ensures Times(u, v) == u * v
  {
    assert TimesLayer(0, u, v) == u * v;
  }

  /** The step u / v; a quotient of positive steps is positive. */
  function Over(u: real, v: real): (r: real)
    requires v != 0.0
    ensures u > 0.0 && v > 0.0 ==> r > 0.0
  {
    if u > 0.0 && v > 0.0 then
      QuotientPositive(u, v);
      OverLayer(1, u, v)
    else
      OverLayer(1, u, v)
  }

  lemma QuotientPositive(u: real, v: real)
    requires u > 0.0 && v > 0.0
    ensures OverLayer(1, u, v) > 0.0
  {
    assert OverLayer(1, u, v) == u / v;
  }

  function OverLayer(depth: nat, u: real, v: real): real
    requires v != 0.0
  {
    if depth == 0 then u / v else OverLayer(depth - 1, u, v)
  }

  lemma OverIs(u: real, v: real)
    requires v != 0.0
    ensures Over(u, v) == u / v
  {
    assert OverLayer(0, u, v) == u / v;
  }

  /** The square of a non-zero scalar is positive. */
  lemma SquarePositive(k: real)
    requires k != 0.0
    ensures Times(k, k) > 0.0
  {
    if k < 0.0 {
      assert Times(-k, -k) > 0.0;
      TimesIs(-k, -k);
      TimesIs(k, k);
    }
  }

  /** The square k²; positive for k != 0. */
  function Square(k: real): (r: real)
    ensures k != 0.0 ==> r > 0.0
  {
    if k != 0.0 then
      SquarePositive(k);
      Times(k, k)
    else
      Times(k, k)
  }
}
