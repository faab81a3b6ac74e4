/**
 * daisy's Coordinate and Roi, reduced to what scale_pyramid.py uses: per-axis
 * products of voxel sizes, scale factors and chunk shapes.
 */
module Geometry {

  /** A daisy Coordinate: one integer per axis. */
  type Coord = seq<int>

  /** An axis-aligned region (offset and shape) in world units. */
  datatype Roi = Roi(offset: Coord, shape: Coord)

  /** (x,) * n */
  function Repeat(x: int, n: nat): (r: Coord)
    ensures |r| == n && forall i :: 0 <= i < n ==> r[i] == x
  {
    seq(n, _ => x)
  }

  /** The elementwise product of two coordinates of the same rank. */
  function Mul(a: Coord, b: Coord): (r: Coord)
    requires |a| == |b|
    ensures |r| == |a| && forall i :: 0 <= i < |a| ==> r[i] == a[i] * b[i]
  {
    seq(|a|, i requires 0 <= i < |a| => a[i] * b[i])
  }

  predicate SameRank(base: Coord, scales: seq<Coord>) {
    forall j :: 0 <= j < |scales| ==> |scales[j]| == |base|
  }

  /** The voxel size reached from base by applying the scales one after another,
      each relative to the voxel size before it. */
  function ScaleProduct(base: Coord, scales: seq<Coord>): (r: Coord)
    requires SameRank(base, scales)
    ensures |r| == |base|
    decreases |scales|
  {
    if scales == [] then base else ScaleProduct(Mul(base, scales[0]), scales[1..])
  }

  /** The product of the scales' entries on axis a. */
  function AxisProduct(scales: seq<Coord>, a: nat): int
    requires forall j :: 0 <= j < |scales| ==> a < |scales[j]|
    decreases |scales|
  {
    if scales == [] then 1 else scales[0][a] * AxisProduct(scales[1..], a)
  }

  /** On every axis, the voxel size after a chain of scales is the base voxel size
      times the product of the chain's factors on that axis. */
  lemma {:induction false} ScaleProductAt(base: Coord, scales: seq<Coord>, a: nat)
    requires SameRank(base, scales) && a < |base|
    ensures ScaleProduct(base, scales)[a] == base[a] * AxisProduct(scales, a)
    decreases |scales|
  {
    if scales != [] {
      var next := Mul(base, scales[0]);
      ScaleProductAt(next, scales[1..], a);
      calc {
        ScaleProduct(base, scales)[a];
        next[a] * AxisProduct(scales[1..], a);
        (base[a] * scales[0][a]) * AxisProduct(scales[1..], a);
        { MulAssociates(base[a], scales[0][a], AxisProduct(scales[1..], a)); }
        base[a] * AxisProduct(scales, a);
      }
    }
  }

  lemma MulAssociates(x: int, y: int, z: int)
    ensures (x * y) * z == x * (y * z)
  {
  }

  /** Applying one more scale multiplies the reached voxel size by it. */
  lemma {:induction false} ScaleProductAppend(base: Coord, scales: seq<Coord>, last: Coord)
    requires SameRank(base, scales) && |last| == |base|
    ensures SameRank(base, scales + [last])
    ensures ScaleProduct(base, scales + [last]) == Mul(ScaleProduct(base, scales), last)
    decreases |scales|
  {
    if scales != [] {
      assert (scales + [last])[1..] == scales[1..] + [last];
      ScaleProductAppend(Mul(base, scales[0]), scales[1..], last);
    } else {
      assert ([last])[1..] == [];
    }
  }
}
