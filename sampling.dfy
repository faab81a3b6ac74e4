/**
 * The label branch of downscale_block (scale_pyramid.py:35-49): for a uint64
 * block every output element is the input element at offset k // 2 of its
 * k-wide window, along every axis, with factor 1 on the channel axes.
 */
module Sampling {
  import opened Wrappers
  import opened Errors
  import opened Geometry

  /** An in-memory block as nested sequences, one level of nesting per axis. */
  datatype Block<T> = Cell(value: T) | Axis(items: seq<Block<T>>)

  /** The block is a dense array of the given shape. */
  predicate HasShape<T>(b: Block<T>, shape: seq<nat>)
    decreases |shape|
  {
    if shape == [] then b.Cell?
    else
      b.Axis? && |b.items| == shape[0] &&
      forall i :: 0 <= i < |b.items| ==> HasShape(b.items[i], shape[1..])
  }

  predicate Positive(factor: seq<int>) {
    forall a :: 0 <= a < |factor| ==> factor[a] >= 1
  }

  /** len(range(k // 2, n, k)): how many windows of k start their middle element
      k // 2 inside an axis of length n. */
  function StrideLength(n: nat, k: int): nat
    requires k >= 1
    decreases n
  {
    if n <= k / 2 then 0 else if n < k then 1 else StrideLength(n - k, k) + 1
  }

  lemma MulDistributes(d: int, q: int, k: int)
    ensures (d + q) * k == d * k + q * k
  {
  }

  lemma MulAtLeast(d: int, k: int)
    requires d >= 1 && k >= 1
    ensures d * k >= k
  {
  }

  /** x / k is the quotient of any decomposition x == q * k + r with 0 <= r < k. */
  lemma DivOfMultiplePlus(x: int, k: int, q: int, r: int)
    requires k >= 1 && 0 <= r < k && x == q * k + r
    ensures x / k == q && x % k == r
  {
    var q', r' := x / k, x % k;
    assert x == q' * k + r';
    if q' > q {
      MulDistributes(q' - q, q, k);
      MulAtLeast(q' - q, k);
    } else if q' < q {
      MulDistributes(q - q', q', k);
      MulAtLeast(q - q', k);
    }
  }

  /** The position of the i-th element of s[k // 2 :: k], counted by one step of k
      per element. */
  function Pick(i: nat, k: int): nat
    requires k >= 1
  {
    if i == 0 then k / 2 else Pick(i - 1, k) + k
  }

  lemma {:induction false} PickIs(i: nat, k: int)
    requires k >= 1
    ensures Pick(i, k) == i * k + k / 2
  {
    if i > 0 {
      PickIs(i - 1, k);
      MulDistributes(i - 1, 1, k);
    }
  }

  /** Python's s[k // 2 :: k]: every k-th element, starting at offset k // 2. */
  function StrideSlice<T>(s: seq<T>, k: int): (r: seq<T>)
    requires k >= 1
    ensures |r| == StrideLength(|s|, k)
    ensures forall i: nat :: i < |r| ==> Pick(i, k) < |s| && r[i] == s[Pick(i, k)]
    decreases |s|
  {
    if |s| <= k / 2 then []
    else if |s| < k then [s[k / 2]]
    else
      var tail := s[k..];
      var rest := StrideSlice(tail, k);
      var r := [s[k / 2]] + rest;
      forall i: nat | 1 <= i < |r| ensures Pick(i, k) < |s| && r[i] == s[Pick(i, k)] {
        assert r[i] == rest[i - 1];
        assert rest[i - 1] == tail[Pick(i - 1, k)];
      }
      r
  }

  /** On an axis whose length is a multiple of k the slice keeps exactly n / k elements. */
  lemma {:induction false} StrideLengthOfMultiple(n: nat, k: int)
    requires k >= 1 && n % k == 0
    ensures StrideLength(n, k) == n / k
    decreases n
  {
    if n >= k {
      DivOfMultiplePlus(n, k, n / k, 0);
      DivOfMultiplePlus(n - k, k, n / k - 1, 0) by {
        MulDistributes(n / k - 1, 1, k);
      }
      StrideLengthOfMultiple(n - k, k);
    } else {
      DivOfMultiplePlus(n, k, 0, n);
    }
  }

  /** Factor 1 keeps the whole axis. */
  lemma StrideSliceOne<T>(s: seq<T>)
    ensures StrideSlice(s, 1) == s
  {
    var r := StrideSlice(s, 1);
    StrideLengthOfMultiple(|s|, 1);
    forall i: nat | i < |r| ensures r[i] == s[i] {
      PickIs(i, 1);
    }
  }

  /** The shape of the strided block: StrideLength on every axis. */
  function SampledShape(shape: seq<nat>, factor: seq<int>): (r: seq<nat>)
    requires |factor| == |shape| && Positive(factor)
    ensures |r| == |shape| && forall a :: 0 <= a < |shape| ==> r[a] == StrideLength(shape[a], factor[a])
  {
    seq(|shape|, a requires 0 <= a < |shape| => StrideLength(shape[a], factor[a]))
  }

  /** in_data[tuple(slice(k // 2, None, k) for k in factor)] on a block of the given
      shape, one factor per axis; the result is dense again. */
  function Sample<T>(b: Block<T>, shape: seq<nat>, factor: seq<int>): (r: Block<T>)
    requires HasShape(b, shape) && |factor| == |shape| && Positive(factor)
    ensures HasShape(r, SampledShape(shape, factor))
    decreases |shape|
  {
    if shape == [] then b
    else
      var picked := StrideSlice(b.items, factor[0]);
      var inner := seq(|picked|, i requires 0 <= i < |picked| => Sample(picked[i], shape[1..], factor[1..]));
      assert SampledShape(shape, factor)[1..] == SampledShape(shape[1..], factor[1..]);
      Axis(inner)
  }

  predicate InBounds(idx: seq<int>, shape: seq<nat>) {
    |idx| == |shape| && forall a :: 0 <= a < |idx| ==> 0 <= idx[a] < shape[a]
  }

  /** The element of a block at an index. */
  function At<T>(b: Block<T>, shape: seq<nat>, idx: seq<int>): T
    requires HasShape(b, shape) && InBounds(idx, shape)
    decreases |shape|
  {
    if shape == [] then b.value else At(b.items[idx[0]], shape[1..], idx[1..])
  }

  /** Where an output element is read from: idx * k + k // 2 on every axis. */
  function SourceIndex(idx: seq<int>, factor: seq<int>): (r: seq<int>)
    requires |idx| == |factor|
    ensures |r| == |idx| && forall a :: 0 <= a < |idx| ==> r[a] == idx[a] * factor[a] + factor[a] / 2
  {
    seq(|idx|, a requires 0 <= a < |idx| => idx[a] * factor[a] + factor[a] / 2)
  }

  lemma {:induction false} StrideIndexInRange(n: nat, k: int, i: nat)
    requires k >= 1 && i < StrideLength(n, k)
    ensures Pick(i, k) < n
    decreases n
  {
    if i > 0 {
      StrideIndexInRange(n - k, k, i - 1);
    }
  }

  /** range(k // 2, n, k) has StrideLength(n, k) elements: every i-th one,
      i * k + k // 2, is below n, and the next one would not be. */
  lemma {:induction false} StrideLengthCounts(n: nat, k: int)
    requires k >= 1
    ensures forall i: nat :: i < StrideLength(n, k) ==> Pick(i, k) == i * k + k / 2 < n
    ensures StrideLength(n, k) * k + k / 2 >= n
  {
    forall i: nat | i < StrideLength(n, k) ensures Pick(i, k) == i * k + k / 2 < n {
      StrideIndexInRange(n, k, i);
      PickIs(i, k);
    }
    StrideLengthReaches(n, k);
  }

  lemma {:induction false} StrideLengthReaches(n: nat, k: int)
    requires k >= 1
    ensures StrideLength(n, k) * k + k / 2 >= n
    decreases n
  {
    if n >= k {
      var rest := StrideLength(n - k, k);
      assert StrideLength(n, k) == rest + 1;
      StrideLengthReaches(n - k, k);
      MulDistributes(rest, 1, k);
    }
  }

  /** Every output element is the input element at idx * k + k // 2, with that
      index inside the input block. */
  lemma {:induction false} SampleAt<T>(b: Block<T>, shape: seq<nat>, factor: seq<int>, idx: seq<int>)
    requires HasShape(b, shape) && |factor| == |shape| && Positive(factor)
    requires InBounds(idx, SampledShape(shape, factor))
    ensures InBounds(SourceIndex(idx, factor), shape)
    ensures At(Sample(b, shape, factor), SampledShape(shape, factor), idx) ==
            At(b, shape, SourceIndex(idx, factor))
    decreases |shape|
  {
    var source := SourceIndex(idx, factor);
    forall a | 0 <= a < |idx| ensures 0 <= source[a] < shape[a] {
      StrideIndexInRange(shape[a], factor[a], idx[a]);
      PickIs(idx[a], factor[a]);
    }
    if shape != [] {
      var picked := StrideSlice(b.items, factor[0]);
      var out := SampledShape(shape, factor);
      assert out[1..] == SampledShape(shape[1..], factor[1..]);
      assert source[1..] == SourceIndex(idx[1..], factor[1..]);
      PickIs(idx[0], factor[0]);
      assert picked[idx[0]] == b.items[source[0]];
      SampleAt(picked[idx[0]], shape[1..], factor[1..], idx[1..]);
    }
  }

  /** Every element of the block equals v. */
  predicate Constant<T(==)>(b: Block<T>, v: T)
    decreases b
  {
    match b
    case Cell(x) => x == v
    case Axis(items) => forall i :: 0 <= i < |items| ==> Constant(items[i], v)
  }

  /** Stride sampling never blends: a constant block stays constant. */
  lemma {:induction false} SampleKeepsConstant<T>(b: Block<T>, shape: seq<nat>, factor: seq<int>, v: T)
    requires HasShape(b, shape) && |factor| == |shape| && Positive(factor)
    requires Constant(b, v)
    ensures Constant(Sample(b, shape, factor), v)
    decreases |shape|
  {
    if shape != [] {
      var picked := StrideSlice(b.items, factor[0]);
      var r := Sample(b, shape, factor);
      forall i: nat | i < |picked| ensures Constant(r.items[i], v) {
        assert picked[i] == b.items[Pick(i, factor[0])];
        SampleKeepsConstant(picked[i], shape[1..], factor[1..], v);
      }
    }
  }

  /** With factor 1 on the first axis, the i-th item of a sampled axis is the
      sample of the i-th item. */
  lemma SampleItemByOne<T>(b: Block<T>, shape: seq<nat>, factor: seq<int>, i: nat)
    requires HasShape(b, shape) && |factor| == |shape| && Positive(factor) && shape != []
    requires factor[0] == 1 && i < |b.items|
    ensures HasShape(b.items[i], shape[1..])
    ensures i < |Sample(b, shape, factor).items| &&
            Sample(b, shape, factor).items[i] == Sample(b.items[i], shape[1..], factor[1..])
  {
    StrideSliceOne(b.items);
  }

  /** Factor 1 on every axis leaves the block unchanged. */
  lemma {:induction false} SampleByOne<T>(b: Block<T>, shape: seq<nat>, factor: seq<int>)
    requires HasShape(b, shape) && |factor| == |shape|
    requires forall a :: 0 <= a < |factor| ==> factor[a] == 1
    ensures Sample(b, shape, factor) == b
    decreases |shape|
  {
    if shape != [] {
      var r := Sample(b, shape, factor);
      ChannelAxis(shape[0]);
      assert |r.items| == |b.items|;
      var rest := factor[1..];
      assert forall a :: 0 <= a < |rest| ==> rest[a] == factor[a + 1];
      forall i | 0 <= i < |b.items| ensures r.items[i] == b.items[i] {
        SampleItemByOne(b, shape, factor, i);
        SampleByOne(b.items[i], shape[1..], rest);
      }
      assert r.items == b.items;
    }
  }

  /** daisy's Coordinate.is_multiple_of: every axis divides exactly by its factor. */
  predicate IsMultipleOf(shape: seq<nat>, factor: seq<int>)
    requires |shape| == |factor| && Positive(factor)
  {
    forall a :: 0 <= a < |shape| ==> shape[a] % factor[a] == 0
  }
  /** shape // factor, axis by axis. */
  function Quotients(shape: seq<nat>, factor: seq<int>): (r: seq<nat>)
    requires |shape| == |factor| && Positive(factor)
    ensures |r| == |shape| && forall a :: 0 <= a < |shape| ==> r[a] == shape[a] / factor[a]
  {
    seq(|shape|, a requires 0 <= a < |shape| => shape[a] / factor[a])
  }

  /** (1,) * n_channels + factor: the factor extended with 1 on the leading channel axes. */
  function FullFactor(rank: nat, factor: seq<int>): (r: seq<int>)
    requires |factor| <= rank && Positive(factor)
    ensures |r| == rank && Positive(r)
  {
    Repeat(1, rank - |factor|) + factor
  }

  /** The uint64 branch of downscale_block on a block of the given shape: the
      trailing |factor| axes are spatial and must be multiples of the factor (the
      assertion at scale_pyramid.py:41); the leading axes are channel axes,
      sampled with factor 1, so each spatial axis n becomes n // k and each
      channel axis keeps its length. */
  function DownscaleLabels<T>(b: Block<T>, shape: seq<nat>, factor: seq<int>): (r: Result<Block<T>, Error>)
    requires HasShape(b, shape)
    requires 1 <= |factor| <= |shape| && Positive(factor)
    ensures r.Ok? <==> IsMultipleOf(shape[|shape| - |factor|..], factor)
    ensures r.Err? ==> r.error == NotMultipleOfFactor
    ensures r.Ok? ==> HasShape(r.value, shape[..|shape| - |factor|] +
                                        Quotients(shape[|shape| - |factor|..], factor))
  {
    var channels := |shape| - |factor|;
    var spatial := shape[channels..];
    if !IsMultipleOf(spatial, factor) then Err(NotMultipleOfFactor)
    else
      var full := FullFactor(|shape|, factor);
      DownscaledShape(shape, factor);
      Ok(Sample(b, shape, full))
  }

  /** Sampling with the full factor maps each channel axis to itself and each
      spatial axis n to n // k. */
  lemma DownscaledShape(shape: seq<nat>, factor: seq<int>)
    requires 1 <= |factor| <= |shape| && Positive(factor)
    requires IsMultipleOf(shape[|shape| - |factor|..], factor)
    ensures SampledShape(shape, FullFactor(|shape|, factor)) ==
            shape[..|shape| - |factor|] + Quotients(shape[|shape| - |factor|..], factor)
  {
    var channels := |shape| - |factor|;
    var spatial := shape[channels..];
    var full := FullFactor(|shape|, factor);
    var out := SampledShape(shape, full);
    var want := shape[..channels] + Quotients(spatial, factor);
    forall a | 0 <= a < |shape| ensures out[a] == want[a] {
      DownscaledAxis(shape, factor, a);
    }
  }

  lemma DownscaledAxis(shape: seq<nat>, factor: seq<int>, a: nat)
    requires 1 <= |factor| <= |shape| && Positive(factor) && a < |shape|
    requires IsMultipleOf(shape[|shape| - |factor|..], factor)
    ensures var channels := |shape| - |factor|;
      SampledShape(shape, FullFactor(|shape|, factor))[a] ==
      (shape[..channels] + Quotients(shape[channels..], factor))[a]
  {
    var channels := |shape| - |factor|;
    var spatial := shape[channels..];
    var full := FullFactor(|shape|, factor);
    var n := shape[a];
    if a < channels {
      assert full[a] == Repeat(1, channels)[a];
      ChannelAxis(n);
    } else {
      var j := a - channels;
      assert full[a] == factor[j] && n == spatial[j];
      SpatialAxis(n, factor[j], spatial, factor, j);
    }
  }

  /** A channel axis, sampled with factor 1, keeps its length. */
  lemma ChannelAxis(n: nat)
    ensures StrideLength(n, 1) == n
  {
    StrideLengthOfMultiple(n, 1);
  }

  /** A spatial axis that is a multiple of its factor k shrinks to n / k. */
  lemma SpatialAxis(n: nat, k: int, spatial: seq<nat>, factor: seq<int>, j: nat)
    requires |spatial| == |factor| && Positive(factor) && IsMultipleOf(spatial, factor)
    requires j < |spatial| && n == spatial[j] && k == factor[j]
    ensures StrideLength(n, k) == Quotients(spatial, factor)[j]
  {
    StrideLengthOfMultiple(n, k);
  }

  /** An element of the downscaled block is the input element at the same channel
      index and at idx * k + k // 2 on every spatial axis. */
  lemma DownscaleLabelsAt<T>(b: Block<T>, shape: seq<nat>, factor: seq<int>, idx: seq<int>)
    requires HasShape(b, shape)
    requires 1 <= |factor| <= |shape| && Positive(factor)
    requires DownscaleLabels(b, shape, factor).Ok?
    requires InBounds(idx, SampledShape(shape, FullFactor(|shape|, factor)))
    ensures var source := SourceIndex(idx, FullFactor(|shape|, factor));
      InBounds(source, shape) &&
      At(DownscaleLabels(b, shape, factor).value, SampledShape(shape, FullFactor(|shape|, factor)), idx)
        == At(b, shape, source) &&
      (forall a :: 0 <= a < |shape| - |factor| ==> source[a] == idx[a]) &&
      (forall a :: |shape| - |factor| <= a < |shape| ==>
        source[a] == idx[a] * factor[a - (|shape| - |factor|)] + factor[a - (|shape| - |factor|)] / 2)
  {
    var full := FullFactor(|shape|, factor);
    assert DownscaleLabels(b, shape, factor).value == Sample(b, shape, full);
    SampleAt(b, shape, full, idx);
    FullSourceIndex(idx, factor);
  }

  /** With the full factor, a channel index is kept and a spatial index i becomes
      i * k + k // 2. */
  lemma FullSourceIndex(idx: seq<int>, factor: seq<int>)
    requires |factor| <= |idx| && Positive(factor)
    ensures var source := SourceIndex(idx, FullFactor(|idx|, factor));
      (forall a :: 0 <= a < |idx| - |factor| ==> source[a] == idx[a]) &&
      (forall a :: |idx| - |factor| <= a < |idx| ==>
        source[a] == idx[a] * factor[a - (|idx| - |factor|)] + factor[a - (|idx| - |factor|)] / 2)
  {
    var channels := |idx| - |factor|;
    var source := SourceIndex(idx, FullFactor(|idx|, factor));
    forall a | 0 <= a < channels ensures source[a] == idx[a] {
      FullFactorAt(|idx|, factor, a);
    }
    forall a | channels <= a < |idx|
      ensures source[a] == idx[a] * factor[a - channels] + factor[a - channels] / 2
    {
      FullFactorAt(|idx|, factor, a);
    }
  }

  /** Entry a of the full factor: 1 on a channel axis, the factor's entry otherwise. */
  lemma FullFactorAt(rank: nat, factor: seq<int>, a: nat)
    requires |factor| <= rank && Positive(factor) && a < rank
    ensures FullFactor(rank, factor)[a] == if a < rank - |factor| then 1 else factor[a - (rank - |factor|)]
  {
    var channels := rank - |factor|;
    if a < channels {
      assert FullFactor(rank, factor)[a] == Repeat(1, channels)[a];
    }
  }

  /** Downscaling a constant label block gives a constant block of the same label. */
  lemma DownscaleLabelsKeepsConstant<T>(b: Block<T>, shape: seq<nat>, factor: seq<int>, v: T)
    requires HasShape(b, shape)
    requires 1 <= |factor| <= |shape| && Positive(factor)
    requires Constant(b, v)
    ensures DownscaleLabels(b, shape, factor).Ok? ==> Constant(DownscaleLabels(b, shape, factor).value, v)
  {
    if DownscaleLabels(b, shape, factor).Ok? {
      SampleKeepsConstant(b, shape, FullFactor(|shape|, factor), v);
    }
  }
}
