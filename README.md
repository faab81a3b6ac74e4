# scale_pyramid in Dafny

A model of the core of `scale_pyramid.py`. The script takes one array of a zarr/N5
container and builds a multi-resolution pyramid next to it. Each new level's voxel
size is the previous level's multiplied by a per-level scale. Levels are named
`<parent>/s<n>` and numbered on from the scale suffix of the input. An input without
a suffix is first moved to `<name>/s0`. Label data (`uint64`) is downscaled by
picking the middle element of every window.

The project has one module per concern. `Wrappers`, `Errors` and `Geometry` import
no other module. `Text` imports `Wrappers`. `Arguments` and `Naming` import
`Wrappers`, `Errors` and `Text`. `Sampling` imports `Wrappers`, `Errors` and
`Geometry`. `Negotiation` imports `Wrappers`, `Errors`, `Geometry` and `Arguments`.
`Pyramid` imports `Wrappers`, `Errors`, `Arguments`, `Geometry`, `Negotiation` and `Naming`.

| file | module | what it holds |
|---|---|---|
| `wrappers.dfy` | `Wrappers` | `Option` and `Result` |
| `errors.dfy` | `Errors` | one constructor per exception the script raises |
| `text.dfy` | `Text` | the Python string operations used: `strip`, `split`, `join`, `int()` and `str()` |
| `arguments.dfy` | `Arguments` | `parse_chunk` and `parse_scales`, and rendering levels back to text |
| `geometry.dfy` | `Geometry` | daisy coordinates: elementwise products and chains of scales |
| `negotiation.dfy` | `Negotiation` | the channel layout, the chunk shape and the per-level scale |
| `naming.dfy` | `Naming` | `extract_scale`, leaf and parent of a path, level names, where the base lives |
| `sampling.dfy` | `Sampling` | the `uint64` branch of `downscale_block` on nested blocks of any rank |
| `pyramid.dfy` | `Pyramid` | `create_scale_pyramid`, with the container as a class |

In `Pyramid`, the container is a class `Container` that holds a map from dataset
name to the array's metadata. `Rename` and `PrepareDs` update that map in place.

- `CreateScalePyramid` is the imperative model of `create_scale_pyramid`. It opens
  and maybe moves the base in `OpenBase`, then runs the configuration checks in
  `GrowFromBase`. The levels are built by the loop `BuildLevels`, one
  `PrepareLevel` per requested scale, which carries the previous level's array from
  one iteration to the next.
- Each method is proved equal to a function of the old state. The whole run
  `Run` is split into `FromBase`, `Resume` and `Finish`. The loop's plan
  `PlanLevels` is built from one `NextLevel` per level.
- The properties of the pyramid are proved as lemmas about those functions: names,
  voxel sizes, write sizes, where the loop stops, and what the container holds
  afterwards.

Two daisy calls are parameters of the model, because their code is not part of it.
`snap` stands for `Roi.snap_to_grid(voxel_size, mode="grow")`. `layout` gives the
shape, channel dimensions and chunks that `prepare_ds` chooses for a new array.

## Model

| member | source | states |
|---|---|---|
| Naming.ExtractScale | scale_pyramid.py:18-24 | an empty leaf is an error (IndexError); the result is a number exactly when the leaf starts with `s` and `int()` accepts the rest, at most 4300 digits included, and then it is that number; otherwise None |
| Naming.ExtractScaleOfLevel | scale_pyramid.py:18-24 | `s` followed by `str(n)` reads back as n for every integer n of at most 4300 digits; for a longer n, `int()` refuses the suffix and there is no scale |
| Naming.ExtractScaleRefusesLongSuffix | scale_pyramid.py:18-24 | `s` followed by more than 4300 digits has no scale: `int()` raises ValueError, which extract_scale turns into None |
| Naming.ExtractScaleOfBareS | scale_pyramid.py:18-24 | a bare `s` has no scale, because `int("")` is refused |
| Naming.ExtractScaleRefusesSeparator | scale_pyramid.py:18-24 | `s\x1c5` has no scale: `int()` does not skip U+001C |
| Naming.LevelName | scale_pyramid.py:163 | `<parent>/s<n>`, the name of level n; its leaf has no slash (NoSlashInLevelLeaf), different numbers give different names (LevelNameInjective), and used as input it is found in place with scale n when n has at most 4300 digits (LocateLevelName) |
| Naming.ParentPath | scale_pyramid.py:110 | everything before the last slash, rejoined with slashes; with the leaf it gives the path back (ParentAndLeaf) |
| Naming.LeafName | scale_pyramid.py:95 | the last segment of a path contains no slash |
| Naming.ParentAndLeaf | scale_pyramid.py:95-110 | a path with a slash is its parent, a slash and its leaf; a path without a slash is its own leaf and has an empty parent |
| Naming.Locate | scale_pyramid.py:95-110 | an empty leaf is an error; an unsuffixed name gives base `<name>/s0`, parent `<name>`, lowest scale 0 and a move; a suffixed name stays in place, with its parent path and its own number as the lowest scale |
| Naming.LevelNameInjective | scale_pyramid.py:163 | two level names under the same parent are equal exactly when their numbers are |
| Naming.LocateLevelName | scale_pyramid.py:95-110 | a level `<parent>/s<n>` used as input, for n of at most 4300 digits, is found in place, with parent `<parent>` and lowest scale n; for a longer n it has no scale and is moved to `<name>/s0` |
| Naming.SuffixedBaseKeepsItsName | scale_pyramid.py:107-110 | for a suffixed input, no level numbered above its own number is named like the input |
| Arguments.ParseInts | scale_pyramid.py:189 | succeeds exactly when `int()` accepts every stripped piece, and then gives one integer per piece, in order; a failure is NotAnInteger (ValueError) |
| Arguments.ParseLevels | scale_pyramid.py:182 | succeeds exactly when parse_chunk accepts every segment, and then gives one level per segment, in order; a failure is NotAnInteger |
| Arguments.ParseChunk | scale_pyramid.py:185-189 | text that `int()` accepts is a scalar; otherwise it succeeds exactly when every stripped comma-separated piece is an integer, and then it is a vector with one entry per piece, in order; a failure is NotAnInteger (ValueError) |
| Arguments.ParseScales | scale_pyramid.py:181-182 | succeeds exactly when every semicolon-separated segment parses, and then gives exactly one level per segment, in order; a failure is NotAnInteger |
| Arguments.ParseRenderedLevel | scale_pyramid.py:185-189 | a scalar, or a vector of at least two integers, every integer of at most 4300 digits, written out and parsed again is the same level |
| Arguments.ParseChunkRefusesLongNumeral | scale_pyramid.py:185-189 | a run of more than 4300 digits is refused by `int()` whole and again as the only piece of the vector branch, so parse_chunk raises ValueError (NotAnInteger) |
| Arguments.SingletonReadsAsScalar | scale_pyramid.py:185-189 | a one-element vector of an integer of at most 4300 digits, written out, is read back as a scalar |
| Arguments.CommaDefeatsInt | scale_pyramid.py:186-189 | text with a comma between two pieces is never read as one integer, so it takes the vector branch |
| Arguments.SeparatorReadsAsVector | scale_pyramid.py:185-189 | `parse_chunk("\x1c5")` is `[5]`: `int()` refuses the text whole, and the stripped piece is read as 5 |
| Arguments.ParseRenderedScales | scale_pyramid.py:181-189 | a non-empty list of scalars and vectors of at least two integers, every integer of at most 4300 digits, written out, joined with semicolons and parsed by parse_scales, gives the same list back |
| Text.PyIntOfIntToString | scale_pyramid.py:187 | `int(str(n)) == n` for every integer n of at most 4300 digits; the numeral of a longer n is refused |
| Text.PyInt | scale_pyramid.py:22 | `int(text)`: an optional sign and at most 4300 decimal digits (the default `sys.int_max_str_digits`), with int()'s own whitespace (space and `\t` to `\r`) around them; it reads `str(n)` back as n (PyIntOfIntToString), accepts only whitespace, signs and digits (AcceptedCharacters), refuses U+001C (SeparatorIsNotIntSpace) and refuses longer numerals (PyIntRefusesLongNumerals) |
| Text.PyIntRefusesLongNumerals | scale_pyramid.py:22 | `int()` refuses a run of more than 4300 digits, whatever its value |
| Text.AcceptedCharacters | scale_pyramid.py:22 | text that `int()` accepts consists only of int()'s whitespace, signs and digits |
| Text.SeparatorIsNotIntSpace | scale_pyramid.py:187-189 | `int("\x1c5")` is refused while `"\x1c5".strip()` is `"5"`, which `int()` reads as 5 |
| Text.Strip | scale_pyramid.py:189 | `str.strip()`: removes the characters for which `str.isspace()` holds, U+001C to U+001F included, from both ends (TrimKeepsMiddle, StripUnchanged) |
| Text.TrimKeepsMiddle | scale_pyramid.py:189 | stripping keeps a contiguous part of the text, removes only whitespace before and after it, and leaves no whitespace at either end |
| Text.StripUnchanged | scale_pyramid.py:189 | text with no whitespace at either end is left alone by stripping |
| Text.Split | scale_pyramid.py:182 | `str.split(sep)`: never empty, and no piece contains the separator |
| Text.Join | scale_pyramid.py:110 | `sep.join(parts)`; it undoes Split (JoinSplit) and Split undoes it on separator-free pieces (SplitJoin) |
| Text.IntToString | scale_pyramid.py:163 | `str(n)`, the canonical decimal: all digits except a minus sign, which leads exactly when n is negative; no leading zero except in `"0"` itself, and none after the minus; its length is the digit count plus the sign |
| Text.Digits | scale_pyramid.py:163 | the decimal digits of a natural number: at least one, all digits, and a leading `0` only for zero; DigitsValueOfDigits reads them back |
| Text.DigitsValueOfDigits | scale_pyramid.py:163 | the value of the digits of n is n |
| Text.SplitJoin | scale_pyramid.py:181-182 | splitting a join of separator-free pieces at the same separator gives the pieces back |
| Text.JoinSplit | scale_pyramid.py:110 | joining the pieces of a split with the same separator gives the text back |
| Negotiation.ChannelLayout | scale_pyramid.py:116-123 | succeeds exactly for 0 channel dimensions, or for 1 on an array of rank at least 1; then channels + spatial rank is the rank, and the channel count is 1 without a channel dimension and `shape[0]` with one; one channel dimension on a rank-0 array is MissingChannelAxis (IndexError); any other count is TooManyChannelDims |
| Negotiation.ResolveChunk | scale_pyramid.py:125-145 | no argument reuses the previous chunks verbatim; an argument succeeds exactly when it is a scalar or a vector of spatial rank; the result has spatial rank plus 1 on a channel array, starts with the channel count there, and holds the scalar or the vector on the spatial axes; any failure is BadChunkShape |
| Negotiation.FullRankChunkRefused | scale_pyramid.py:131-138 | as written, a chunk vector of rank ndims + 1 on a channel array is refused, whatever its first entry |
| Negotiation.ResolveSpatial | scale_pyramid.py:140-153 | a level as one entry per spatial axis: succeeds exactly for a scalar or a vector of spatial rank, every axis then holds the scalar or the vector's entry, and a failure is the error given |
| Negotiation.ScalarBroadcastsToEveryAxis | scale_pyramid.py:129-141 | a scalar chunk becomes `(num_channels,) + (c,) * ndims` on a channel array and `(c,) * ndims` otherwise |
| Negotiation.ResolveScale | scale_pyramid.py:148-153 | succeeds exactly for a scalar or a vector of spatial rank, each axis then holds the scalar or the vector's entry; any failure is BadScale |
| Negotiation.Negotiate | scale_pyramid.py:116-145 | succeeds exactly when the channel layout does and the chunk argument is absent, a scalar, or a vector of spatial rank; a layout error is passed on as it is, and with a valid layout every failure is BadChunkShape; on success the channel count and spatial rank are the layout's, spatial rank plus channel dimensions is the array's rank, the chunk shape is exactly what ResolveChunk gives for the layout, so no argument keeps the previous chunks, and an argument gives chunks of the array's rank |
| Geometry.Repeat | scale_pyramid.py:130 | `(x,) * n`: n entries, each x |
| Geometry.Mul | scale_pyramid.py:155-157 | the product of two daisy Coordinates of equal rank: same rank, each entry the product of the two entries |
| Geometry.ScaleProduct | scale_pyramid.py:155 | the voxel size after a chain of levels, each `prev_array.voxel_size * scale`; it keeps the base's rank, and its entries are given by ScaleProductAt |
| Geometry.ScaleProductAt | scale_pyramid.py:155-178 | on every axis, a chain of relative scales multiplies the base voxel size by the product of the chain's factors on that axis |
| Geometry.ScaleProductAppend | scale_pyramid.py:155-178 | one more scale in the chain multiplies the voxel size reached so far by that scale |
| Sampling.StrideLength | scale_pyramid.py:48 | `len(range(k // 2, n, k))`, characterised by StrideLengthCounts |
| Sampling.StrideLengthCounts | scale_pyramid.py:48 | every i below the length has `i * k + k // 2 < n`, and the length times k plus `k // 2` reaches n: the length counts exactly the window middles inside the axis |
| Sampling.StrideSlice | scale_pyramid.py:48-49 | `s[k // 2 :: k]` has one element per window whose middle lies inside s, and element i is s at position Pick(i, k) |
| Sampling.PickIs | scale_pyramid.py:48 | position i of the slice is `i * k + k // 2` |
| Sampling.StrideLengthOfMultiple | scale_pyramid.py:41-49 | on an axis whose length n is a multiple of k, the slice has exactly n / k elements |
| Sampling.StrideSliceOne | scale_pyramid.py:44-49 | factor 1 keeps the whole axis |
| Sampling.Sample | scale_pyramid.py:47-49 | slicing every axis gives a dense block with the slice length on every axis |
| Sampling.SampleAt | scale_pyramid.py:47-49 | every output element is the input element at `idx * k + k // 2` on every axis, and that index lies inside the input |
| Sampling.SampleKeepsConstant | scale_pyramid.py:47-49 | a constant block stays constant: slicing never blends values |
| Sampling.SampleByOne | scale_pyramid.py:44-49 | factor 1 on every axis gives the block back unchanged |
| Sampling.FullFactor | scale_pyramid.py:43-45 | the factor with 1 put in front for every channel axis: one positive entry per axis of the block |
| Sampling.IsMultipleOf | scale_pyramid.py:41 | `Coordinate.is_multiple_of`: every axis is divisible by its factor; DownscaleLabels succeeds exactly when it holds, and then each spatial axis shrinks to its length divided by the factor (DownscaledShape) |
| Sampling.DownscaleLabels | scale_pyramid.py:40-49 | succeeds exactly when the spatial shape is a multiple of the factor (the assertion at line 41); any failure is NotMultipleOfFactor; the result keeps each channel axis and has n // k elements on each spatial axis |
| Sampling.DownscaledShape | scale_pyramid.py:40-45 | with factor 1 put in front for the channel axes, the sampled shape is the channel shape followed by the spatial shape divided by the factor |
| Sampling.DownscaleLabelsAt | scale_pyramid.py:40-49 | every output element is the input element at the same channel index and at `idx * k + k // 2` on every spatial axis |
| Sampling.DownscaleLabelsKeepsConstant | scale_pyramid.py:40-49 | a constant label block downscales to a constant block of the same label |
| Pyramid.Prepared | scale_pyramid.py:166-174 | the array made for a level has the level's voxel size, region and data type |
| Pyramid.Moved | scale_pyramid.py:102-103 | after a rename the array is under the new name and no longer under the old one; every other name is untouched |
| Pyramid.Promote | scale_pyramid.py:97-110 | the base name holds the input array; a suffixed input leaves the store as it was; an unsuffixed one leaves neither the name nor `<name>__tmp` behind and touches nothing else |
| Pyramid.Container.Rename | scale_pyramid.py:102-103 | the container afterwards is the moved map |
| Pyramid.Container.PrepareDs | scale_pyramid.py:166-174 | returns the prepared array and stores it under the level's name, leaving every other entry as it was |
| Pyramid.NextLevel | scale_pyramid.py:148-163 | a bad scale is BadScale; otherwise the level succeeds exactly when the voxel size and chunk shape have spatial rank, and else fails with RankMismatch; on success the voxel size is the previous one times the scale, the region is the previous region snapped to it, the write size is chunk shape times voxel size, the name is `<parent>/s<n>`, and the data type and channel count are carried over |
| Pyramid.PlanLevels | scale_pyramid.py:147-178 | the loop as a value: the levels it prepares, each from the array made for the one before, and the error it stops at; its properties are PlanHead, PlanStep, PlanLevelAt, PlanNamesLevels, PlanStopsOnlyAtFailure, PlanVoxelAt and PlanNamesDistinct |
| Pyramid.Apply | scale_pyramid.py:166-174 | the store after one `prepare_ds` per planned level, in order; ApplyAt and ApplyElsewhere say what it holds |
| Pyramid.LoopStep | scale_pyramid.py:147-178 | one iteration: a failing level ends the plan after the levels done so far; a succeeding one joins them, the rest of the plan starts from its array, and the store gains that array under its name |
| Pyramid.Run | scale_pyramid.py:83-178 | a whole run as a value: a missing input fails with NotADataset and an unusable name with Locate's error, both leaving the store alone; otherwise the run goes on from the promoted store (RunUnfolds, RunKeepsBase, RunStoresLevels, ConfigErrorCreatesNoLevel) |
| Pyramid.FromBase | scale_pyramid.py:112-178 | a run once the base is in place: a configuration error fails without preparing anything, otherwise the loop runs (FromBaseUnfolds) |
| Pyramid.Resume | scale_pyramid.py:147-178 | the loop from the base with a known configuration; ResumeKeepsBase and ResumeStoresLevels say what it leaves |
| Pyramid.Finish | scale_pyramid.py:166-178 | the store with every planned level prepared, and a run that fails with the plan's error when the plan stopped at one and completes otherwise |
| Pyramid.CreateScalePyramid | scale_pyramid.py:83-178 | the container and the outcome after the method are exactly those of the run from the old container |
| Pyramid.OpenBase | scale_pyramid.py:90-110 | a missing input is NotADataset and changes nothing; otherwise the result is Locate's, an error changes nothing, and success leaves the promoted store |
| Pyramid.GrowFromBase | scale_pyramid.py:112-178 | the container and the outcome after the checks and the loop are those of FromBase from the old container |
| Pyramid.FromBaseUnfolds | scale_pyramid.py:112-178 | past the configuration checks, a run from the base carries out the loop's plan on the container |
| Pyramid.PrepareLevel | scale_pyramid.py:148-178 | the level computed is NextLevel's; on success the returned array is the one prepared for it and the container gains it under its name; on failure the container is unchanged |
| Pyramid.BuildLevels | scale_pyramid.py:147-178 | afterwards the container is the old one with every planned level's array stored in order, and the outcome fails with the plan's error exactly when the plan stopped at one |
| Pyramid.PlanHead | scale_pyramid.py:147-178 | a plan that prepares a level starts with the first requested one, and goes on from the array made for it |
| Pyramid.PlanStep | scale_pyramid.py:147-178 | planned level i is what the loop body makes of the i-th scale, numbered n + i, from the array prepared for level i - 1 (the base array for level 0) |
| Pyramid.PlanShift | scale_pyramid.py:147-178 | level i of a plan is level i - 1 of the plan that starts after its first level, from the same array |
| Pyramid.PlanLevelAt | scale_pyramid.py:147-174 | planned level i lies under the parent and has number n + i; its scale is the resolved i-th scale; its voxel size and the chunk shape have spatial rank; it writes chunk shape times voxel size at a time; it keeps the base's data type and channel count |
| Pyramid.PlanNamesLevels | scale_pyramid.py:147-163 | at most one level per requested scale, the i-th named `<parent>/s<n + i>`, with the i-th resolved scale and write size chunk shape times voxel size |
| Pyramid.PlanNameAt | scale_pyramid.py:163 | planned level i is named `<parent>/s<n + i>` |
| Pyramid.PlanStopsOnlyAtFailure | scale_pyramid.py:147-157 | the plan covers every requested level exactly when nothing failed; it fails with BadScale exactly when the first level it could not prepare has a scale of the wrong length; any other failure is RankMismatch |
| Pyramid.PlanVoxelAt | scale_pyramid.py:155-178 | level i's voxel size is the base voxel size multiplied, in turn, by the resolved scales of levels 0 to i |
| Pyramid.PlanVoxelAxis | scale_pyramid.py:155-178 | on every axis, level i's voxel size is the base voxel size times the product of the first i + 1 scales on that axis |
| Pyramid.NumberedDistinct | scale_pyramid.py:163 | levels in one group with consecutive numbers have pairwise different names |
| Pyramid.PlanNamesDistinct | scale_pyramid.py:147-163 | no two planned levels share a name |
| Pyramid.ApplyAt | scale_pyramid.py:166-174 | after preparing levels with distinct names, each level's name holds the array prepared for it |
| Pyramid.ApplyElsewhere | scale_pyramid.py:166-174 | after preparing levels, a name none of them has is present and holds what it held before exactly when it did before |
| Pyramid.PlanStoredAt | scale_pyramid.py:163-174 | after the loop, planned level i is named `<parent>/s<n + i>` and its array is stored under that name |
| Pyramid.LevelsAvoidBase | scale_pyramid.py:97-110 | no level numbered above the lowest scale is named like the base, whether or not the base was moved |
| Pyramid.RunUnfolds | scale_pyramid.py:83-178 | past the configuration checks, a run is the loop from the promoted store |
| Pyramid.RunKeepsBase | scale_pyramid.py:97-178 | a run past the configuration checks keeps the input array, under `<name>/s0` when it was moved and under its own name otherwise |
| Pyramid.ResumeKeepsBase | scale_pyramid.py:147-178 | when no level number names the base, the loop leaves the base array where it is |
| Pyramid.RunStoresLevels | scale_pyramid.py:147-178 | a run past the configuration checks stores planned level i under `<parent>/s<lowest + 1 + i>` with its array, and completes exactly when the plan did not stop early |
| Pyramid.ResumeStoresLevels | scale_pyramid.py:147-178 | the same, for the loop from a base already in place |
| Pyramid.ChannelChunksMismatch | scale_pyramid.py:125-157 | on a channel array whose chunks span every axis, with no chunk argument the chunks are reused and the first level fails with RankMismatch at the write size |
| Pyramid.ConfigErrorCreatesNoLevel | scale_pyramid.py:116-145 | a channel-layout or chunk-shape error ends the run with that error before any level exists; only the move of an unsuffixed base has happened |
| Pyramid.DefaultChunksReused | scale_pyramid.py:125-157 | without a chunk argument, every level writes the base array's chunks times its voxel size at a time |

## Left out

- Mean pooling of non-label data (`skimage.measure.block_reduce`, scale_pyramid.py:51): floating point and a library not shown.
- `downscale` and `daisy.run_blockwise` (scale_pyramid.py:62-80): the worker pool, the block partition with `fit="shrink"` and the retries are concurrency in a library not shown. A level is taken to exist once prepare_ds has made it. What `run_blockwise` reports is not modelled, because its return value is never checked.
- The write `out_array[block.write_roi] = out_data` (scale_pyramid.py:53-57) and `to_ndarray` (line 38): I/O. The model computes the downscaled block as a value.
- `zarr.open` and `daisy.open_ds` (lines 87, 91, 114) are the container map. A name counts as a dataset when the map has it. zarr's path normalisation (a leading `/`, repeated slashes) is not modelled.
- `Roi.snap_to_grid` (line 156) and the metadata that `prepare_ds` chooses (lines 166-174) are the parameters `snap` and `layout`.
- The `os.makedirs` patch (lines 14, 27-32), `argparse` and `logging` (lines 192-240), and the `workers` count: process plumbing.
- Text.PyInt: reads only ASCII whitespace around an optional sign and ASCII digits. Python's `int()` also accepts `_` between digits, non-ASCII digits, and non-ASCII spaces such as U+0085 and U+00A0.
- Text.PyInt: the limit of 4300 digits is fixed at the default of `sys.int_max_str_digits` (CPython 3.11 on, and the 3.7 to 3.10 security releases). `PYTHONINTMAXSTRDIGITS` or `-X int_max_str_digits` can change or remove it, and older interpreters have no limit.
- Text.IntToString: writes every integer. Python's `str()` raises ValueError for more than 4300 digits, so a level number that reaches 10^4300 fails at line 163 in Python, while the model names the level. Such a number can only come from a base suffix of 4300 digits. Naming.LevelName and Pyramid.NextLevel inherit this.
- Text.Strip: removes only the ASCII characters for which `str.isspace()` holds. Python's `strip()` also removes non-ASCII spaces such as U+0085 and U+00A0.
- Naming.ExtractScale: inherits the limits of Text.PyInt, so a leaf such as `s1_0` or `s` followed by U+00A0 and a digit has no scale in the model but has one in Python. It refuses a suffix of more than 4300 digits, as Python does at the default limit.
- Arguments.ParseChunk: inherits the limits of Text.PyInt and Text.Strip for underscores, non-ASCII digits and non-ASCII spaces. It refuses a numeral of more than 4300 digits, as Python does at the default limit.
- Pyramid.Container.Rename: does not model a rename onto a key that already exists, such as a leftover `<name>__tmp`. The map simply overwrites it.
- Pyramid.NextLevel: daisy's elementwise product of coordinates of different ranks is taken to fail, as RankMismatch. On a channel array the chunk shape has rank ndims + 1 while the voxel size has rank ndims, so the first level fails there at line 157 (Pyramid.ChannelChunksMismatch). daisy's own code is not part of this model.
- Pyramid.NextLevel: zero or negative scales are not refused. Their products are computed as written; what daisy then does with them is not modelled.
- Sampling.DownscaleLabels: requires between 1 and rank-many positive factors. A zero step makes Python's slice raise. The empty factor, where `shape[-0:]` is the whole shape, is not modelled.
- Negotiation.ResolveChunk: a full-rank chunk vector on a channel array is meant to be accepted when its first entry is the channel count (lines 131-134). The code compares `len(chunk_shape)`, an int, with the shape tuple, so that branch is never taken. The model follows the code and refuses the vector (Negotiation.FullRankChunkRefused).
- The files under tests/ build containers on disk. They are the evidence for the level names and for halving shapes; they are not modelled.
