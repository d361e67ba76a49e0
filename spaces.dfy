/** The vector spaces the functionals live on, identified by their structure. */
module Spaces {

  /**
   * `Rn(n)` is the plain n-dimensional space (unit weights); `UniformDiscr(min, max, shape)`
   * is a uniform discretization of the box [min, max] into `shape` cells, whose inner
   * product is weighted by the cell volume.  Two spaces are equal exactly when their
   * descriptions are: `UniformDiscr([1], [2], [10])` differs from `UniformDiscr([0], [1], [10])`
   * although both have ten cells.
   */
  datatype Space =
    | Rn(dim: nat)
    | UniformDiscr(minPt: seq<real>, maxPt: seq<real>, shape: seq<nat>)

  /** A box with a positive extent and at least one cell along each axis. */
  predicate Valid(s: Space) {
    match s
    case Rn(_) => true
    case UniformDiscr(lo, hi, shape) =>
      |lo| == |hi| == |shape| &&
      forall i :: 0 <= i < |shape| ==> lo[i] < hi[i] && shape[i] > 0
  }

  function CellCount(shape: seq<nat>): nat {
    if shape == [] then 1 else shape[0] * CellCount(shape[1..])
  }

  /** The number of coordinates of an element of `s`. */
  function Size(s: Space): nat {
    match s
    case Rn(n) => n
    case UniformDiscr(_, _, shape) => CellCount(shape)
  }

  /** The volume of one cell of the grid. */
  function CellVolume(lo: seq<real>, hi: seq<real>, shape: seq<nat>): (v: real)
    requires |lo| == |hi| == |shape|
    requires forall i :: 0 <= i < |shape| ==> lo[i] < hi[i] && shape[i] > 0
    ensures v > 0.0
  {
    if shape == [] then 1.0
    else (hi[0] - lo[0]) / (shape[0] as real) * CellVolume(lo[1..], hi[1..], shape[1..])
  }

  /** The weight of the inner product of `s`: one for `Rn`, the cell volume for a grid. */
  function Weight(s: Space): (w: real)
    requires Valid(s)
    ensures w > 0.0
  {
    match s
    case Rn(_) => 1.0
    case UniformDiscr(lo, hi, shape) => CellVolume(lo, hi, shape)
  }

  /** A point of some space: the space it belongs to and its coordinates. */
  datatype Element = Element(space: Space, data: seq<real>)

  /** `x` is an element of `s`. */
  predicate In(x: Element, s: Space) {
    x.space == s && |x.data| == Size(s)
  }
}
