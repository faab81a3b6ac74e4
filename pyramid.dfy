/**
 * create_scale_pyramid (scale_pyramid.py:83-178) over an abstract container: a
 * map from dataset name to the geometry of the array stored there. The base
 * array is located (and moved to <name>/s0 when its name has no scale suffix),
 * the configuration is checked, and then one level is prepared per requested
 * scale, each relative to the one before it.
 */
module Pyramid {
  import opened Wrappers
  import opened Errors
  import opened Arguments
  import opened Geometry
  import opened Negotiation
  import opened Naming

  /** What daisy.open_ds tells about a stored array. */
  datatype ArrayMeta = ArrayMeta(shape: Coord, channelDims: int, chunks: Coord,
                                 voxelSize: Coord, roi: Roi, dtype: string)

  /** The arguments of one daisy.prepare_ds call (scale_pyramid.py:166-174), with
      the scale that the level's voxel size was reached by. The dataset name is
      kept as its parent group and scale number. */
  datatype LevelSpec = LevelSpec(parent: string, num: int, totalRoi: Roi, voxelSize: Coord, writeSize: Coord,
                                 dtype: string, numChannels: int, scale: Coord)
  {
    /** ds_name, parent/s<num> (scale_pyramid.py:163). */
    function Name(): string {
      LevelName(parent, num)
    }
  }

  /** The parts of a new array's metadata that prepare_ds derives by itself. */
  datatype Layout = Layout(shape: Coord, channelDims: int, chunks: Coord)

  /** The array prepare_ds creates for a level: the requested voxel size, region and
      data type, and the layout prepare_ds chooses. */
  function Prepared(spec: LevelSpec, layout: LevelSpec -> Layout): (a: ArrayMeta)
    ensures a.voxelSize == spec.voxelSize && a.roi == spec.totalRoi && a.dtype == spec.dtype
  {
    var l := layout(spec);
    ArrayMeta(l.shape, l.channelDims, l.chunks, spec.voxelSize, spec.totalRoi, spec.dtype)
  }

  /** The store after store.rename(src, dst): the array under src is now under dst. */
  function Moved(m: map<string, ArrayMeta>, src: string, dst: string): (r: map<string, ArrayMeta>)
    requires src in m
    ensures dst in r && r[dst] == m[src]
    ensures src != dst ==> src !in r
    ensures forall k :: k != src && k != dst ==> (k in r <==> k in m) && (k in m ==> r[k] == m[k])
  {
    (m - {src})[dst := m[src]]
  }

  /** The store after prepare_ds was called for each level in turn. */
  function Apply(m: map<string, ArrayMeta>, specs: seq<LevelSpec>, layout: LevelSpec -> Layout): map<string, ArrayMeta>
    decreases |specs|
  {
    if specs == [] then m
    else
      var last := specs[|specs| - 1];
      Apply(m, specs[..|specs| - 1], layout)[last.Name() := Prepared(last, layout)]
  }

  /** A container of arrays whose entries the program renames and creates. */
  class Container {
    var datasets: map<string, ArrayMeta>

    constructor(datasets: map<string, ArrayMeta>)
      ensures this.datasets == datasets
    {
      this.datasets := datasets;
    }

    /** ds.store.rename(src, dst) */
    method Rename(src: string, dst: string)
      requires src in datasets
      modifies this
      ensures datasets == Moved(old(datasets), src, dst)
    {
      datasets := Moved(datasets, src, dst);
    }

    /** daisy.prepare_ds(...) for one level; returns the array it creates. */
    method PrepareDs(spec: LevelSpec, layout: LevelSpec -> Layout) returns (a: ArrayMeta)
      modifies this
      ensures a == Prepared(spec, layout)
      ensures datasets == old(datasets)[spec.Name() := a]
    {
      a := Prepared(spec, layout);
      datasets := datasets[spec.Name() := a];
    }
  }

  /** What stays fixed over the levels: the parent group, the spatial rank, the
      channel count and the chunk shape. */
  datatype Setting = Setting(parent: string, ndims: nat, numChannels: int, chunkShape: Coord)

  /** One iteration of the loop at scale_pyramid.py:147-178 for the level numbered n,
      from the previous array: scale normalisation (148-153), the voxel size (155),
      the region snapped to it (156, snap stands for Roi.snap_to_grid with mode
      "grow"), the write size (157) and the name (163). daisy multiplies
      coordinates of equal rank only. */
  function NextLevel(s: Setting, snap: (Roi, Coord) -> Roi, prev: ArrayMeta, level: Level, n: int)
    : (r: Result<LevelSpec, Error>)
    ensures ResolveScale(level, s.ndims).Err? ==> r == Err(BadScale)
    ensures r.Ok? <==> (ResolveScale(level, s.ndims).Ok? &&
      |prev.voxelSize| == s.ndims && |s.chunkShape| == s.ndims)
    ensures r.Err? && ResolveScale(level, s.ndims).Ok? ==> r.error == RankMismatch
    ensures r.Ok? ==>
      var spec := r.value;
      Ok(spec.scale) == ResolveScale(level, s.ndims) &&
      spec.parent == s.parent && spec.num == n &&
      spec.voxelSize == Mul(prev.voxelSize, spec.scale) &&
      spec.totalRoi == snap(prev.roi, spec.voxelSize) &&
      spec.writeSize == Mul(s.chunkShape, spec.voxelSize) &&
      spec.dtype == prev.dtype && spec.numChannels == s.numChannels
  {
    var scale :- ResolveScale(level, s.ndims);
    if |prev.voxelSize| != |scale| then Err(RankMismatch)
    else
      var voxelSize := Mul(prev.voxelSize, scale);
      var totalRoi := snap(prev.roi, voxelSize);
      if |s.chunkShape| != |voxelSize| then Err(RankMismatch)
      else
        var writeSize := Mul(s.chunkShape, voxelSize);
        Ok(LevelSpec(s.parent, n, totalRoi, voxelSize, writeSize, prev.dtype, s.numChannels, scale))
  }

  /** The levels the loop prepares, in order, and the error it stops at, if any. */
  datatype Plan = Plan(specs: seq<LevelSpec>, failure: Option<Error>)

  /** The whole loop from the array prev, with the first level numbered n: each
      level starts from the array prepared for the one before it
      (prev_array = next_array, scale_pyramid.py:178). */
  function PlanLevels(s: Setting, snap: (Roi, Coord) -> Roi, layout: LevelSpec -> Layout,
                      prev: ArrayMeta, levels: seq<Level>, n: int): Plan
    decreases |levels|
  {
    if levels == [] then Plan([], None)
    else
      match NextLevel(s, snap, prev, levels[0], n)
      case Err(e) => Plan([], Some(e))
      case Ok(spec) =>
        var rest := PlanLevels(s, snap, layout, Prepared(spec, layout), levels[1..], n + 1);
        Plan([spec] + rest.specs, rest.failure)
  }

  /** The resolved scales of the prepared levels. */
  function ScalesOf(specs: seq<LevelSpec>): (r: seq<Coord>)
    ensures |r| == |specs| && forall i :: 0 <= i < |specs| ==> r[i] == specs[i].scale
  {
    seq(|specs|, i requires 0 <= i < |specs| => specs[i].scale)
  }

  /** The plan of a loop that has already prepared the levels done and goes on
      as rest. */
  function Continue(done: seq<LevelSpec>, rest: Plan): Plan {
    Plan(done + rest.specs, rest.failure)
  }

  /** One turn of the loop at index i, as the plan sees it: a level that fails
      ends the plan after the levels already done; a level that succeeds joins
      them, the plan goes on from the array prepared for it, and the store gains
      that array. */
  lemma LoopStep(s: Setting, snap: (Roi, Coord) -> Roi, layout: LevelSpec -> Layout,
                 prev: ArrayMeta, scales: seq<Level>, i: nat, n0: int, done: seq<LevelSpec>,
                 start: map<string, ArrayMeta>, next: Result<LevelSpec, Error>, whole: Plan)
    requires i < |scales| && next == NextLevel(s, snap, prev, scales[i], n0 + i)
    requires whole == Continue(done, PlanLevels(s, snap, layout, prev, scales[i..], n0 + i))
    ensures next.Err? ==> whole == Plan(done, Some(next.error))
    ensures next.Ok? ==>
      whole == Continue(done + [next.value],
                        PlanLevels(s, snap, layout, Prepared(next.value, layout), scales[i + 1..], n0 + i + 1)) &&
      Apply(start, done + [next.value], layout) ==
      Apply(start, done, layout)[next.value.Name() := Prepared(next.value, layout)]
  {
    if next.Err? {
      assert done + [] == done;
    } else {
      var spec := next.value;
      assert scales[i..][1..] == scales[i + 1..];
      var rest := PlanLevels(s, snap, layout, Prepared(spec, layout), scales[i + 1..], n0 + i + 1);
      assert done + ([spec] + rest.specs) == (done + [spec]) + rest.specs;
      assert (done + [spec])[..|done|] == done;
    }
  }

  datatype Outcome = Completed | Failed(error: Error)

  /** The container and the outcome after create_scale_pyramid(in_ds_name, scales,
      chunk_shape), scale_pyramid.py:87-178. */
  function Run(store: map<string, ArrayMeta>, inName: string, scales: seq<Level>, chunkArg: Option<Level>,
               snap: (Roi, Coord) -> Roi, layout: LevelSpec -> Layout): (map<string, ArrayMeta>, Outcome)
  {
    if inName !in store then (store, Failed(NotADataset(inName)))
    else match Locate(inName)
      case Err(e) => (store, Failed(e))
      case Ok(base) => FromBase(Promote(store, inName, base), base, scales, chunkArg, snap, layout)
  }

  /** The container and the outcome once the base array is in place:
      scale_pyramid.py:112-178. */
  function FromBase(moved: map<string, ArrayMeta>, base: Base, scales: seq<Level>, chunkArg: Option<Level>,
                    snap: (Roi, Coord) -> Roi, layout: LevelSpec -> Layout): (map<string, ArrayMeta>, Outcome)
    requires base.dsName in moved
  {
    var prev := moved[base.dsName];
    match Negotiate(prev.shape, prev.channelDims, prev.chunks, chunkArg)
    case Err(e) => (moved, Failed(e))
    case Ok(cfg) => Resume(moved, base, cfg, scales, snap, layout)
  }

  /** The levels a run plans once the base array is in place and the
      configuration is known: parent/s<lowest + 1>, parent/s<lowest + 2>, ... */
  function LevelsPlan(moved: map<string, ArrayMeta>, base: Base, cfg: Config, scales: seq<Level>,
                      snap: (Roi, Coord) -> Roi, layout: LevelSpec -> Layout): Plan
    requires base.dsName in moved
  {
    PlanLevels(Setting(base.parent, cfg.ndims, cfg.numChannels, cfg.chunkShape),
               snap, layout, moved[base.dsName], scales, base.lowest + 1)
  }

  /** The container and the outcome after the loop at scale_pyramid.py:147-178. */
  function Resume(moved: map<string, ArrayMeta>, base: Base, cfg: Config, scales: seq<Level>,
                  snap: (Roi, Coord) -> Roi, layout: LevelSpec -> Layout): (map<string, ArrayMeta>, Outcome)
    requires base.dsName in moved
  {
    Finish(moved, LevelsPlan(moved, base, cfg, scales, snap, layout), layout)
  }

  /** The container and the outcome once the levels of plan are prepared: the
      run fails with the error the plan stopped at, if any. */
  function Finish(m: map<string, ArrayMeta>, plan: Plan, layout: LevelSpec -> Layout): (map<string, ArrayMeta>, Outcome) {
    (Apply(m, plan.specs, layout), if plan.failure.Some? then Failed(plan.failure.value) else Completed)
  }

  /** The store after scale_pyramid.py:97-110: an unsuffixed array is moved through
      <name>__tmp to <name>/s0; a suffixed one stays where it is. */
  function Promote(store: map<string, ArrayMeta>, inName: string, base: Base): (r: map<string, ArrayMeta>)
    requires inName in store && Locate(inName) == Ok(base)
    ensures base.dsName in r && r[base.dsName] == store[inName]
    ensures !base.promoted ==> r == store
    ensures base.promoted ==> inName !in r && inName + "__tmp" !in r
    ensures base.promoted ==> forall k :: k != inName && k != inName + "__tmp" && k != base.dsName ==>
      (k in r <==> k in store) && (k in store ==> r[k] == store[k])
  {
    assert base.promoted ==> |inName + "__tmp"| != |base.dsName| && |inName| != |base.dsName|;
    if base.promoted then Moved(Moved(store, inName, inName + "__tmp"), inName + "__tmp", base.dsName)
    else store
  }

  /** create_scale_pyramid as the program runs it: the renames and each
      prepare_ds act on the container in place, and the loop carries the array of
      the previous level. */
  method CreateScalePyramid(c: Container, inName: string, scales: seq<Level>, chunkArg: Option<Level>,
                            snap: (Roi, Coord) -> Roi, layout: LevelSpec -> Layout)
    returns (outcome: Outcome)
    modifies c
    ensures (c.datasets, outcome) == Run(old(c.datasets), inName, scales, chunkArg, snap, layout)
  {
    var located := OpenBase(c, inName);
    if located.Err? {
      return Failed(located.error);
    }
    outcome := GrowFromBase(c, located.value, scales, chunkArg, snap, layout);
  }

  /** scale_pyramid.py:112-178: the configuration checks, then the loop over the
      levels. */
  method GrowFromBase(c: Container, base: Base, scales: seq<Level>, chunkArg: Option<Level>,
                      snap: (Roi, Coord) -> Roi, layout: LevelSpec -> Layout)
    returns (outcome: Outcome)
    requires base.dsName in c.datasets
    modifies c
    ensures (c.datasets, outcome) == FromBase(old(c.datasets), base, scales, chunkArg, snap, layout)
  {
    var prev := c.datasets[base.dsName];
    var negotiated := Negotiate(prev.shape, prev.channelDims, prev.chunks, chunkArg);
    if negotiated.Err? {
      return Failed(negotiated.error);
    }
    var cfg := negotiated.value;
    var setting := Setting(base.parent, cfg.ndims, cfg.numChannels, cfg.chunkShape);
    FromBaseUnfolds(c.datasets, base, scales, chunkArg, snap, layout, cfg);
    outcome := BuildLevels(c, setting, snap, layout, prev, scales, base.lowest + 1);
  }

  /** Past the configuration checks, a run from the base is the loop's plan
      carried out on the container. */
  lemma FromBaseUnfolds(moved: map<string, ArrayMeta>, base: Base, scales: seq<Level>, chunkArg: Option<Level>,
                        snap: (Roi, Coord) -> Roi, layout: LevelSpec -> Layout, cfg: Config)
    requires base.dsName in moved
    requires var prev := moved[base.dsName];
      Negotiate(prev.shape, prev.channelDims, prev.chunks, chunkArg) == Ok(cfg)
    ensures FromBase(moved, base, scales, chunkArg, snap, layout) ==
      Finish(moved, PlanLevels(Setting(base.parent, cfg.ndims, cfg.numChannels, cfg.chunkShape),
                               snap, layout, moved[base.dsName], scales, base.lowest + 1), layout)
  {
    var plan := LevelsPlan(moved, base, cfg, scales, snap, layout);
    assert plan == PlanLevels(Setting(base.parent, cfg.ndims, cfg.numChannels, cfg.chunkShape),
                              snap, layout, moved[base.dsName], scales, base.lowest + 1);
    assert Resume(moved, base, cfg, scales, snap, layout) == Finish(moved, plan, layout);
    assert FromBase(moved, base, scales, chunkArg, snap, layout) == Resume(moved, base, cfg, scales, snap, layout);
  }

  /** scale_pyramid.py:90-110: the input must be a dataset; its name decides where
      the base level lives, and an unsuffixed one is moved there. */
  method OpenBase(c: Container, inName: string) returns (r: Result<Base, Error>)
    modifies c
    ensures inName !in old(c.datasets) ==> r == Err(NotADataset(inName))
    ensures inName in old(c.datasets) ==> r == Locate(inName)
    ensures r.Err? ==> c.datasets == old(c.datasets)
    ensures r.Ok? ==> inName in old(c.datasets) && c.datasets == Promote(old(c.datasets), inName, r.value)
  {
    if inName !in c.datasets {
      return Err(NotADataset(inName));
    }
    r := Locate(inName);
    if r.Ok? && r.value.promoted {
      c.Rename(inName, inName + "__tmp");
      c.Rename(inName + "__tmp", r.value.dsName);
    }
  }

  /** The body of the loop at scale_pyramid.py:147-178 for the level numbered n:
      the level's geometry, then prepare_ds when nothing failed. */
  method PrepareLevel(c: Container, s: Setting, snap: (Roi, Coord) -> Roi, layout: LevelSpec -> Layout,
                      prevArray: ArrayMeta, level: Level, n: int)
    returns (next: Result<LevelSpec, Error>, nextArray: ArrayMeta)
    modifies c
    ensures next == NextLevel(s, snap, prevArray, level, n)
    ensures next.Ok? ==> (nextArray == Prepared(next.value, layout) &&
                          c.datasets == old(c.datasets)[next.value.Name() := nextArray])
    ensures next.Err? ==> c.datasets == old(c.datasets)
  {
    next := NextLevel(s, snap, prevArray, level, n);
    nextArray := prevArray;
    if next.Ok? {
      nextArray := c.PrepareDs(next.value, layout);
    }
  }

  /** The loop at scale_pyramid.py:147-178, from the base array prev with the first
      new level numbered n0. */
  method BuildLevels(c: Container, s: Setting, snap: (Roi, Coord) -> Roi, layout: LevelSpec -> Layout,
                     prev: ArrayMeta, scales: seq<Level>, n0: int)
    returns (outcome: Outcome)
    modifies c
    ensures (c.datasets, outcome) == Finish(old(c.datasets), PlanLevels(s, snap, layout, prev, scales, n0), layout)
  {
    ghost var start := c.datasets;
    ghost var whole := PlanLevels(s, snap, layout, prev, scales, n0);
    ghost var done: seq<LevelSpec> := [];
    var prevArray := prev;
    var i := 0;
    while i < |scales|
      invariant 0 <= i <= |scales| && |done| == i
      invariant c.datasets == Apply(start, done, layout)
      invariant whole == Continue(done, PlanLevels(s, snap, layout, prevArray, scales[i..], n0 + i))
    {
      var next, nextArray := PrepareLevel(c, s, snap, layout, prevArray, scales[i], n0 + i);
      LoopStep(s, snap, layout, prevArray, scales, i, n0, done, start, next, whole);
      if next.Err? {
        return Failed(next.error);
      }
      prevArray := nextArray;
      done := done + [next.value];
      i := i + 1;
    }
    assert scales[i..] == [] && done + [] == done;
    assert whole == Plan(done, None);
    return Completed;
  }

  /** The array a level of the plan starts from: the base for the first level, the
      array prepared for the level before otherwise. */
  function ArrayBefore(prev: ArrayMeta, specs: seq<LevelSpec>, layout: LevelSpec -> Layout, i: nat): ArrayMeta
    requires i <= |specs|
  {
    if i == 0 then prev else Prepared(specs[i - 1], layout)
  }

  /** A plan that prepares a level starts with the first level, and goes on with
      the plan from the array prepared for it. */
  lemma PlanHead(s: Setting, snap: (Roi, Coord) -> Roi, layout: LevelSpec -> Layout,
                 prev: ArrayMeta, levels: seq<Level>, n: int)
    requires |PlanLevels(s, snap, layout, prev, levels, n).specs| > 0
    ensures levels != [] && NextLevel(s, snap, prev, levels[0], n).Ok?
    ensures var spec := NextLevel(s, snap, prev, levels[0], n).value;
      var r := PlanLevels(s, snap, layout, prev, levels, n);
      var rest := PlanLevels(s, snap, layout, Prepared(spec, layout), levels[1..], n + 1);
      r.specs == [spec] + rest.specs && r.failure == rest.failure
  {
  }

  /** The i-th planned level is what NextLevel makes of the i-th requested scale,
      numbered n + i, from the array prepared for the level before it. */
  lemma {:induction false} PlanStep(s: Setting, snap: (Roi, Coord) -> Roi, layout: LevelSpec -> Layout,
                                    prev: ArrayMeta, levels: seq<Level>, n: int, i: nat)
    requires i < |PlanLevels(s, snap, layout, prev, levels, n).specs|
    ensures i < |levels|
    ensures var r := PlanLevels(s, snap, layout, prev, levels, n);
      NextLevel(s, snap, ArrayBefore(prev, r.specs, layout, i), levels[i], n + i) == Ok(r.specs[i])
    decreases i
  {
    var r := PlanLevels(s, snap, layout, prev, levels, n);
    PlanHead(s, snap, layout, prev, levels, n);
    var first := NextLevel(s, snap, prev, levels[0], n);
    if i == 0 {
      assert r.specs[0] == first.value;
    } else {
      var next := Prepared(first.value, layout);
      var rest := PlanLevels(s, snap, layout, next, levels[1..], n + 1);
      PlanShift(s, snap, layout, prev, levels, n, i);
      PlanStep(s, snap, layout, next, levels[1..], n + 1, i - 1);
      assert levels[1..][i - 1] == levels[i];
      assert NextLevel(s, snap, ArrayBefore(next, rest.specs, layout, i - 1), levels[i], n + i) == Ok(rest.specs[i - 1]);
    }
  }

  /** Level i of a plan is level i - 1 of the plan from the array prepared for its
      first level, starting from the same array. */
  lemma PlanShift(s: Setting, snap: (Roi, Coord) -> Roi, layout: LevelSpec -> Layout,
                  prev: ArrayMeta, levels: seq<Level>, n: int, i: nat)
    requires 0 < i < |PlanLevels(s, snap, layout, prev, levels, n).specs|
    ensures levels != [] && NextLevel(s, snap, prev, levels[0], n).Ok?
    ensures var next := Prepared(NextLevel(s, snap, prev, levels[0], n).value, layout);
      var r := PlanLevels(s, snap, layout, prev, levels, n);
      var rest := PlanLevels(s, snap, layout, next, levels[1..], n + 1);
      i - 1 < |rest.specs| && r.specs[i] == rest.specs[i - 1] &&
      ArrayBefore(next, rest.specs, layout, i - 1) == ArrayBefore(prev, r.specs, layout, i)
  {
    PlanHead(s, snap, layout, prev, levels, n);
    var next := Prepared(NextLevel(s, snap, prev, levels[0], n).value, layout);
    var r := PlanLevels(s, snap, layout, prev, levels, n);
    var rest := PlanLevels(s, snap, layout, next, levels[1..], n + 1);
    assert r.specs[i] == rest.specs[i - 1];
    if i > 1 {
      assert rest.specs[i - 2] == r.specs[i - 1];
    }
  }

  /** The i-th planned level is named s<n + i> under the parent, was reached by the
      i-th requested scale, writes chunk_shape * voxel_size at a time and keeps the
      data type and channel count of the base. */
  lemma {:induction false} PlanLevelAt(s: Setting, snap: (Roi, Coord) -> Roi, layout: LevelSpec -> Layout,
                                       prev: ArrayMeta, levels: seq<Level>, n: int, i: nat)
    requires i < |PlanLevels(s, snap, layout, prev, levels, n).specs|
    ensures i < |levels|
    ensures var spec := PlanLevels(s, snap, layout, prev, levels, n).specs[i];
      spec.parent == s.parent && spec.num == n + i &&
      ResolveScale(levels[i], s.ndims) == Ok(spec.scale) &&
      |spec.voxelSize| == |s.chunkShape| == s.ndims &&
      spec.writeSize == Mul(s.chunkShape, spec.voxelSize) &&
      spec.dtype == prev.dtype && spec.numChannels == s.numChannels
    decreases i
  {
    var r := PlanLevels(s, snap, layout, prev, levels, n);
    PlanStep(s, snap, layout, prev, levels, n, i);
    if i > 0 {
      PlanLevelAt(s, snap, layout, prev, levels, n, i - 1);
      assert ArrayBefore(prev, r.specs, layout, i).dtype == r.specs[i - 1].dtype;
    }
  }

  /** PlanLevelAt for every planned level at once. */
  lemma PlanNamesLevels(s: Setting, snap: (Roi, Coord) -> Roi, layout: LevelSpec -> Layout,
                        prev: ArrayMeta, levels: seq<Level>, n: int)
    ensures var r := PlanLevels(s, snap, layout, prev, levels, n);
      |r.specs| <= |levels| &&
      forall i :: 0 <= i < |r.specs| ==>
        r.specs[i].Name() == LevelName(s.parent, n + i) &&
        ResolveScale(levels[i], s.ndims) == Ok(r.specs[i].scale) &&
        |r.specs[i].voxelSize| == |s.chunkShape| &&
        r.specs[i].writeSize == Mul(s.chunkShape, r.specs[i].voxelSize)
  {
    var r := PlanLevels(s, snap, layout, prev, levels, n);
    if |r.specs| > 0 {
      PlanLevelAt(s, snap, layout, prev, levels, n, |r.specs| - 1);
    }
    forall i | 0 <= i < |r.specs|
      ensures r.specs[i].Name() == LevelName(s.parent, n + i) &&
        ResolveScale(levels[i], s.ndims) == Ok(r.specs[i].scale) &&
        |r.specs[i].voxelSize| == |s.chunkShape| &&
        r.specs[i].writeSize == Mul(s.chunkShape, r.specs[i].voxelSize)
    {
      PlanLevelAt(s, snap, layout, prev, levels, n, i);
    }
  }

  /** The plan stops only at a failing level: it covers every requested level
      exactly when nothing failed, and it fails with BadScale exactly when the
      first level it could not prepare has a scale of the wrong length. */
  lemma {:induction false} PlanStopsOnlyAtFailure(s: Setting, snap: (Roi, Coord) -> Roi,
                                                  layout: LevelSpec -> Layout, prev: ArrayMeta,
                                                  levels: seq<Level>, n: int)
    ensures var r := PlanLevels(s, snap, layout, prev, levels, n);
      |r.specs| <= |levels| &&
      (r.failure.None? <==> |r.specs| == |levels|) &&
      (r.failure == Some(BadScale) <==>
        (|r.specs| < |levels| && ResolveScale(levels[|r.specs|], s.ndims).Err?)) &&
      (r.failure.Some? ==> r.failure.value == BadScale || r.failure.value == RankMismatch)
    decreases |levels|
  {
    if levels != [] && NextLevel(s, snap, prev, levels[0], n).Ok? {
      var spec := NextLevel(s, snap, prev, levels[0], n).value;
      var rest := PlanLevels(s, snap, layout, Prepared(spec, layout), levels[1..], n + 1);
      PlanStopsOnlyAtFailure(s, snap, layout, Prepared(spec, layout), levels[1..], n + 1);
      if |rest.specs| < |levels| - 1 {
        assert levels[1 + |rest.specs|] == levels[1..][|rest.specs|];
      }
    }
  }

  /** Level i's voxel size is the base voxel size multiplied by the scales of all
      levels up to and including it, each relative to the level before. */
  lemma {:induction false} PlanVoxelAt(s: Setting, snap: (Roi, Coord) -> Roi, layout: LevelSpec -> Layout,
                                       prev: ArrayMeta, levels: seq<Level>, n: int, i: nat)
    requires i < |PlanLevels(s, snap, layout, prev, levels, n).specs|
    ensures var r := PlanLevels(s, snap, layout, prev, levels, n);
      SameRank(prev.voxelSize, ScalesOf(r.specs[..i + 1])) &&
      r.specs[i].voxelSize == ScaleProduct(prev.voxelSize, ScalesOf(r.specs[..i + 1]))
    decreases i
  {
    var r := PlanLevels(s, snap, layout, prev, levels, n);
    var spec := r.specs[i];
    var before := ArrayBefore(prev, r.specs, layout, i);
    PlanStep(s, snap, layout, prev, levels, n, i);
    assert spec.voxelSize == Mul(before.voxelSize, spec.scale);
    if i == 0 {
      assert ScalesOf(r.specs[..1]) == [spec.scale];
      assert ScalesOf(r.specs[..1])[1..] == [];
    } else {
      var done := ScalesOf(r.specs[..i]);
      PlanVoxelAt(s, snap, layout, prev, levels, n, i - 1);
      assert before.voxelSize == r.specs[i - 1].voxelSize;
      assert ScalesOf(r.specs[..i + 1]) == done + [spec.scale];
      ScaleProductAppend(prev.voxelSize, done, spec.scale);
    }
  }

  /** On every axis, level i's voxel size is the base voxel size times the product
      of the first i + 1 resolved scales on that axis. */
  lemma PlanVoxelAxis(s: Setting, snap: (Roi, Coord) -> Roi, layout: LevelSpec -> Layout,
                      prev: ArrayMeta, levels: seq<Level>, n: int, i: nat, a: nat)
    requires i < |PlanLevels(s, snap, layout, prev, levels, n).specs| && a < |prev.voxelSize|
    ensures var r := PlanLevels(s, snap, layout, prev, levels, n);
      SameRank(prev.voxelSize, ScalesOf(r.specs[..i + 1])) &&
      |r.specs[i].voxelSize| == |prev.voxelSize| &&
      r.specs[i].voxelSize[a] == prev.voxelSize[a] * AxisProduct(ScalesOf(r.specs[..i + 1]), a)
  {
    var r := PlanLevels(s, snap, layout, prev, levels, n);
    PlanVoxelAt(s, snap, layout, prev, levels, n, i);
    ScaleProductAt(prev.voxelSize, ScalesOf(r.specs[..i + 1]), a);
  }

  predicate DistinctNames(specs: seq<LevelSpec>) {
    forall i, j :: 0 <= i < j < |specs| ==> specs[i].Name() != specs[j].Name()
  }

  /** After preparing levels with distinct names, each level's name holds its array. */
  lemma {:induction false} ApplyAt(m: map<string, ArrayMeta>, specs: seq<LevelSpec>,
                                   layout: LevelSpec -> Layout, i: nat)
    requires DistinctNames(specs) && i < |specs|
    ensures specs[i].Name() in Apply(m, specs, layout)
    ensures Apply(m, specs, layout)[specs[i].Name()] == Prepared(specs[i], layout)
    decreases |specs|
  {
    var init := specs[..|specs| - 1];
    if i < |specs| - 1 {
      assert init[i] == specs[i];
      assert DistinctNames(init);
      ApplyAt(m, init, layout, i);
    }
  }

  /** After preparing levels, a name none of them has holds what it held before. */
  lemma {:induction false} ApplyElsewhere(m: map<string, ArrayMeta>, specs: seq<LevelSpec>,
                                          layout: LevelSpec -> Layout, k: string)
    requires forall i :: 0 <= i < |specs| ==> specs[i].Name() != k
    ensures k in Apply(m, specs, layout) <==> k in m
    ensures k in m ==> Apply(m, specs, layout)[k] == m[k]
    decreases |specs|
  {
    if specs != [] {
      var init := specs[..|specs| - 1];
      assert forall i :: 0 <= i < |init| ==> init[i] == specs[i];
      ApplyElsewhere(m, init, layout, k);
    }
  }

  /** The planned levels have the names s<n>, s<n + 1>, ..., so no two collide. */
  lemma PlanNamesDistinct(s: Setting, snap: (Roi, Coord) -> Roi, layout: LevelSpec -> Layout,
                          prev: ArrayMeta, levels: seq<Level>, n: int)
    ensures DistinctNames(PlanLevels(s, snap, layout, prev, levels, n).specs)
  {
    var r := PlanLevels(s, snap, layout, prev, levels, n);
    forall i | 0 <= i < |r.specs| ensures r.specs[i].parent == s.parent && r.specs[i].num == n + i {
      PlanLevelAt(s, snap, layout, prev, levels, n, i);
    }
    NumberedDistinct(r.specs, s.parent, n);
  }

  /** Levels in one group numbered n, n + 1, ... have pairwise different names. */
  lemma NumberedDistinct(specs: seq<LevelSpec>, parent: string, n: int)
    requires forall i :: 0 <= i < |specs| ==> specs[i].parent == parent && specs[i].num == n + i
    ensures DistinctNames(specs)
  {
    forall i, j | 0 <= i < j < |specs| ensures specs[i].Name() != specs[j].Name() {
      LevelNameInjective(parent, n + i, n + j);
    }
  }

  lemma PlanNameAt(s: Setting, snap: (Roi, Coord) -> Roi, layout: LevelSpec -> Layout,
                   prev: ArrayMeta, levels: seq<Level>, n: int, i: nat)
    requires i < |PlanLevels(s, snap, layout, prev, levels, n).specs|
    ensures PlanLevels(s, snap, layout, prev, levels, n).specs[i].Name() == LevelName(s.parent, n + i)
  {
    PlanLevelAt(s, snap, layout, prev, levels, n, i);
  }

  lemma RunUnfolds(store: map<string, ArrayMeta>, inName: string, scales: seq<Level>, chunkArg: Option<Level>,
                   snap: (Roi, Coord) -> Roi, layout: LevelSpec -> Layout, base: Base, cfg: Config)
    requires inName in store && Locate(inName) == Ok(base)
    requires var prev := Promote(store, inName, base)[base.dsName];
      Negotiate(prev.shape, prev.channelDims, prev.chunks, chunkArg) == Ok(cfg)
    ensures Run(store, inName, scales, chunkArg, snap, layout) ==
      Resume(Promote(store, inName, base), base, cfg, scales, snap, layout)
  {
  }

  /** No new level is named like the base level, wherever the base now lives. */
  lemma LevelsAvoidBase(inName: string, base: Base, k: int)
    requires Locate(inName) == Ok(base) && k > base.lowest
    ensures LevelName(base.parent, k) != base.dsName
  {
    if base.promoted {
      assert base.dsName == LevelName(inName, 0);
      LevelNameInjective(inName, k, 0);
    } else {
      SuffixedBaseKeepsItsName(inName, k);
    }
  }

  /** A run that gets past the configuration checks keeps the base array, under
      <name>/s0 when it was moved and under its own name otherwise. */
  lemma RunKeepsBase(store: map<string, ArrayMeta>, inName: string, scales: seq<Level>, chunkArg: Option<Level>,
                     snap: (Roi, Coord) -> Roi, layout: LevelSpec -> Layout, base: Base, cfg: Config)
    requires inName in store && Locate(inName) == Ok(base)
    requires var prev := Promote(store, inName, base)[base.dsName];
      Negotiate(prev.shape, prev.channelDims, prev.chunks, chunkArg) == Ok(cfg)
    ensures var after := Run(store, inName, scales, chunkArg, snap, layout).0;
      base.dsName in after && after[base.dsName] == store[inName]
  {
    RunUnfolds(store, inName, scales, chunkArg, snap, layout, base, cfg);
    forall k | k > base.lowest ensures LevelName(base.parent, k) != base.dsName {
      LevelsAvoidBase(inName, base, k);
    }
    ResumeKeepsBase(Promote(store, inName, base), base, cfg, scales, snap, layout);
  }

  /** When no level number above the base's own names the base, the loop leaves
      the base array where it is. */
  lemma ResumeKeepsBase(moved: map<string, ArrayMeta>, base: Base, cfg: Config, scales: seq<Level>,
                        snap: (Roi, Coord) -> Roi, layout: LevelSpec -> Layout)
    requires base.dsName in moved
    requires forall k :: k > base.lowest ==> LevelName(base.parent, k) != base.dsName
    ensures var after := Resume(moved, base, cfg, scales, snap, layout).0;
      base.dsName in after && after[base.dsName] == moved[base.dsName]
  {
    var plan := LevelsPlan(moved, base, cfg, scales, snap, layout);
    var s := Setting(base.parent, cfg.ndims, cfg.numChannels, cfg.chunkShape);
    forall i | 0 <= i < |plan.specs| ensures plan.specs[i].Name() != base.dsName {
      PlanNameAt(s, snap, layout, moved[base.dsName], scales, base.lowest + 1, i);
    }
    ApplyElsewhere(moved, plan.specs, layout, base.dsName);
  }

  /** A run that gets past the configuration checks stores every planned level under
      parent/s<lowest + 1 + i>, and fails exactly when the plan stopped early. */
  lemma RunStoresLevels(store: map<string, ArrayMeta>, inName: string, scales: seq<Level>, chunkArg: Option<Level>,
                        snap: (Roi, Coord) -> Roi, layout: LevelSpec -> Layout, base: Base, cfg: Config)
    requires inName in store && Locate(inName) == Ok(base)
    requires var prev := Promote(store, inName, base)[base.dsName];
      Negotiate(prev.shape, prev.channelDims, prev.chunks, chunkArg) == Ok(cfg)
    ensures var plan := LevelsPlan(Promote(store, inName, base), base, cfg, scales, snap, layout);
      var (after, outcome) := Run(store, inName, scales, chunkArg, snap, layout);
      (forall i :: 0 <= i < |plan.specs| ==>
        plan.specs[i].Name() == LevelName(base.parent, base.lowest + 1 + i) &&
        plan.specs[i].Name() in after && after[plan.specs[i].Name()] == Prepared(plan.specs[i], layout)) &&
      (outcome == Completed <==> plan.failure.None?)
  {
    RunUnfolds(store, inName, scales, chunkArg, snap, layout, base, cfg);
    ResumeStoresLevels(Promote(store, inName, base), base, cfg, scales, snap, layout);
  }

  /** Once the base is in place and the configuration is known, every planned level
      is stored under parent/s<lowest + 1 + i> with the array prepared for it, and the
      run fails exactly when the plan stopped early. Together with RunUnfolds this is
      what a whole run leaves behind. */
  lemma ResumeStoresLevels(moved: map<string, ArrayMeta>, base: Base, cfg: Config, scales: seq<Level>,
                           snap: (Roi, Coord) -> Roi, layout: LevelSpec -> Layout)
    requires base.dsName in moved
    ensures var plan := LevelsPlan(moved, base, cfg, scales, snap, layout);
      var (after, outcome) := Resume(moved, base, cfg, scales, snap, layout);
      (forall i :: 0 <= i < |plan.specs| ==>
        plan.specs[i].Name() == LevelName(base.parent, base.lowest + 1 + i) &&
        plan.specs[i].Name() in after && after[plan.specs[i].Name()] == Prepared(plan.specs[i], layout)) &&
      (outcome == Completed <==> plan.failure.None?)
  {
    ResumeHoldsPlan(moved, base, cfg, scales, snap, layout);
    ResumeOutcome(moved, base, cfg, scales, snap, layout);
  }

  /** The store part of ResumeStoresLevels. */
  lemma ResumeHoldsPlan(moved: map<string, ArrayMeta>, base: Base, cfg: Config, scales: seq<Level>,
                        snap: (Roi, Coord) -> Roi, layout: LevelSpec -> Layout)
    requires base.dsName in moved
    ensures var plan := LevelsPlan(moved, base, cfg, scales, snap, layout);
      var after := Resume(moved, base, cfg, scales, snap, layout).0;
      forall i :: 0 <= i < |plan.specs| ==>
        plan.specs[i].Name() == LevelName(base.parent, base.lowest + 1 + i) &&
        plan.specs[i].Name() in after && after[plan.specs[i].Name()] == Prepared(plan.specs[i], layout)
  {
    var plan := LevelsPlan(moved, base, cfg, scales, snap, layout);
    var after := Resume(moved, base, cfg, scales, snap, layout).0;
    forall i | 0 <= i < |plan.specs|
      ensures plan.specs[i].Name() == LevelName(base.parent, base.lowest + 1 + i) &&
        plan.specs[i].Name() in after && after[plan.specs[i].Name()] == Prepared(plan.specs[i], layout)
    {
      ResumeStoredAt(moved, base, cfg, scales, snap, layout, i);
    }
  }

  /** One level of ResumeHoldsPlan. */
  lemma ResumeStoredAt(moved: map<string, ArrayMeta>, base: Base, cfg: Config, scales: seq<Level>,
                       snap: (Roi, Coord) -> Roi, layout: LevelSpec -> Layout, i: nat)
    requires base.dsName in moved
    requires i < |LevelsPlan(moved, base, cfg, scales, snap, layout).specs|
    ensures var plan := LevelsPlan(moved, base, cfg, scales, snap, layout);
      var after := Resume(moved, base, cfg, scales, snap, layout).0;
      plan.specs[i].Name() == LevelName(base.parent, base.lowest + 1 + i) &&
      plan.specs[i].Name() in after && after[plan.specs[i].Name()] == Prepared(plan.specs[i], layout)
  {
    var st := Setting(base.parent, cfg.ndims, cfg.numChannels, cfg.chunkShape);
    PlanStoredAt(moved, st, snap, layout, moved[base.dsName], scales, base.lowest + 1, i);
  }

  /** The outcome part of ResumeStoresLevels. */
  lemma ResumeOutcome(moved: map<string, ArrayMeta>, base: Base, cfg: Config, scales: seq<Level>,
                      snap: (Roi, Coord) -> Roi, layout: LevelSpec -> Layout)
    requires base.dsName in moved
    ensures Resume(moved, base, cfg, scales, snap, layout).1 == Completed <==>
      LevelsPlan(moved, base, cfg, scales, snap, layout).failure.None?
  {
  }

  /** After the loop, the i-th planned level is named parent/s<n + i> and its array
      is under that name. */
  lemma PlanStoredAt(m: map<string, ArrayMeta>, s: Setting, snap: (Roi, Coord) -> Roi, layout: LevelSpec -> Layout,
                     prev: ArrayMeta, levels: seq<Level>, n: int, i: nat)
    requires i < |PlanLevels(s, snap, layout, prev, levels, n).specs|
    ensures var plan := PlanLevels(s, snap, layout, prev, levels, n);
      plan.specs[i].Name() == LevelName(s.parent, n + i) &&
      plan.specs[i].Name() in Apply(m, plan.specs, layout) &&
      Apply(m, plan.specs, layout)[plan.specs[i].Name()] == Prepared(plan.specs[i], layout)
  {
    var plan := PlanLevels(s, snap, layout, prev, levels, n);
    PlanNamesDistinct(s, snap, layout, prev, levels, n);
    PlanLevelAt(s, snap, layout, prev, levels, n, i);
    ApplyAt(m, plan.specs, layout, i);
  }

  /** On a channel array whose chunks span every axis, reusing those chunks gives a
      chunk shape of rank ndims + 1 against a voxel size of rank ndims, so the
      first level fails at the write size (scale_pyramid.py:157). */
  lemma ChannelChunksMismatch(prev: ArrayMeta, level: Level, parent: string,
                              snap: (Roi, Coord) -> Roi, n: int)
    requires prev.channelDims == 1 && |prev.shape| >= 1 && |prev.chunks| == |prev.shape|
    requires ResolveScale(level, |prev.shape| - 1).Ok?
    ensures var cfg := Negotiate(prev.shape, prev.channelDims, prev.chunks, None);
      cfg.Ok? && cfg.value.chunkShape == prev.chunks &&
      NextLevel(Setting(parent, cfg.value.ndims, cfg.value.numChannels, cfg.value.chunkShape),
                snap, prev, level, n) == Err(RankMismatch)
  {
  }

  /** A configuration error (channel layout or chunk shape) stops the run before
      any level is prepared; only the move of an unsuffixed base has happened. */
  lemma ConfigErrorCreatesNoLevel(store: map<string, ArrayMeta>, inName: string, scales: seq<Level>,
                                  chunkArg: Option<Level>, snap: (Roi, Coord) -> Roi,
                                  layout: LevelSpec -> Layout, base: Base)
    requires inName in store && Locate(inName) == Ok(base)
    requires var prev := Promote(store, inName, base)[base.dsName];
      Negotiate(prev.shape, prev.channelDims, prev.chunks, chunkArg).Err?
    ensures var prev := Promote(store, inName, base)[base.dsName];
      Run(store, inName, scales, chunkArg, snap, layout) ==
        (Promote(store, inName, base), Failed(Negotiate(prev.shape, prev.channelDims, prev.chunks, chunkArg).error))
  {
  }

  /** Without a chunk argument every level writes the base array's chunk shape
      times its voxel size at a time. */
  lemma DefaultChunksReused(s: Setting, snap: (Roi, Coord) -> Roi, layout: LevelSpec -> Layout,
                            prev: ArrayMeta, levels: seq<Level>, n: int, cfg: Config)
    requires Negotiate(prev.shape, prev.channelDims, prev.chunks, None) == Ok(cfg)
    requires s.chunkShape == cfg.chunkShape
    ensures var r := PlanLevels(s, snap, layout, prev, levels, n);
      forall i :: 0 <= i < |r.specs| ==>
        |r.specs[i].voxelSize| == |prev.chunks| && r.specs[i].writeSize == Mul(prev.chunks, r.specs[i].voxelSize)
  {
    PlanNamesLevels(s, snap, layout, prev, levels, n);
  }
}
