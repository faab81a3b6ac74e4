/**
 * The configuration checks create_scale_pyramid makes before building any level:
 * the channel layout of the base array, the chunk shape of the new levels, and
 * the per-axis form of one scale level.
 */
module Negotiation {
  import opened Wrappers
  import opened Errors
  import opened Geometry
  import opened Arguments

  /** num_channels and ndims (the spatial rank). */
  datatype Channels = Channels(numChannels: int, ndims: nat)

  /** scale_pyramid.py:116-123. Without a channel dimension every axis is spatial
      and there is one channel; with one, the leading axis holds the channels;
      more than one is refused. */
  function ChannelLayout(shape: Coord, channelDims: int): (r: Result<Channels, Error>)
    ensures r.Ok? <==> channelDims == 0 || (channelDims == 1 && |shape| >= 1)
    ensures r.Ok? ==> r.value.ndims + channelDims == |shape|
    ensures r.Ok? ==> r.value.numChannels == (if channelDims == 0 then 1 else shape[0])
    ensures channelDims != 0 && channelDims != 1 ==> r == Err(TooManyChannelDims(channelDims))
    ensures channelDims == 1 && |shape| == 0 ==> r == Err(MissingChannelAxis)
  {
    if channelDims == 0 then Ok(Channels(1, |shape|))
    else if channelDims == 1 then
      // prev_array.shape[0] on a rank-0 array raises IndexError
      if |shape| == 0 then Err(MissingChannelAxis) else Ok(Channels(shape[0], |shape| - 1))
    else Err(TooManyChannelDims(channelDims))
  }

  /** scale_pyramid.py:125-145, as written. No argument reuses the previous chunks
      verbatim. Otherwise the spatial part is the scalar on every axis or the
      vector itself, which must have ndims entries, and on a channel array
      num_channels is put in front. The full-rank vector branch at line 131
      compares an int with a tuple and is never taken, so a vector of rank
      ndims + 1 is refused like any other wrong length. */
  function ResolveChunk(arg: Option<Level>, prevChunks: Coord, channelDims: int,
                        numChannels: int, ndims: nat): (r: Result<Coord, Error>)
    ensures arg.None? ==> r == Ok(prevChunks)
    ensures arg.Some? ==> (r.Ok? <==> arg.value.Scalar? || |arg.value.values| == ndims)
    ensures r.Err? ==> r.error == BadChunkShape
    ensures arg.Some? && r.Ok? ==>
      |r.value| == ndims + (if channelDims != 0 then 1 else 0) &&
      (channelDims != 0 ==> r.value[0] == numChannels) &&
      forall a :: 0 <= a < ndims ==>
        r.value[|r.value| - ndims + a] ==
          (if arg.value.Scalar? then arg.value.value else arg.value.values[a])
  {
    match arg
    case None => Ok(prevChunks)
    case Some(level) =>
      var spatial :- ResolveSpatial(level, ndims, BadChunkShape);
      if channelDims != 0 then Ok([numChannels] + spatial) else Ok(spatial)
  }

  /** A level read as one entry per spatial axis: a scalar is broadcast, a vector
      must already have ndims entries, anything else fails with the given error. */
  function ResolveSpatial(level: Level, ndims: nat, failure: Error): (r: Result<Coord, Error>)
    ensures r.Ok? <==> level.Scalar? || |level.values| == ndims
    ensures r.Err? ==> r.error == failure
    ensures r.Ok? ==> (|r.value| == ndims &&
      forall a :: 0 <= a < ndims ==>
        r.value[a] == (if level.Scalar? then level.value else level.values[a]))
  {
    match level
    case Scalar(x) => Ok(Repeat(x, ndims))
    case PerAxis(values) => if |values| == ndims then Ok(values) else Err(failure)
  }

  /** scale_pyramid.py:148-153: one scale level as a factor per spatial axis. */
  function ResolveScale(level: Level, ndims: nat): (r: Result<Coord, Error>)
    ensures r.Ok? <==> level.Scalar? || |level.values| == ndims
    ensures r.Err? ==> r.error == BadScale
    ensures r.Ok? ==> (|r.value| == ndims &&
      forall a :: 0 <= a < ndims ==>
        r.value[a] == (if level.Scalar? then level.value else level.values[a]))
  {
    ResolveSpatial(level, ndims, BadScale)
  }

  /** The outcome of the checks at scale_pyramid.py:116-145. */
  datatype Config = Config(numChannels: int, ndims: nat, chunkShape: Coord)

  /** The channel layout, then the chunk shape: a layout error is reported as is,
      and with a valid layout the only failure left is a chunk argument of the
      wrong length. */
  function Negotiate(shape: Coord, channelDims: int, prevChunks: Coord,
                     arg: Option<Level>): (r: Result<Config, Error>)
    ensures r.Ok? <==> (ChannelLayout(shape, channelDims).Ok? &&
      (arg.None? || arg.value.Scalar? || |arg.value.values| == ChannelLayout(shape, channelDims).value.ndims))
    ensures ChannelLayout(shape, channelDims).Err? ==> r == Err(ChannelLayout(shape, channelDims).error)
    ensures ChannelLayout(shape, channelDims).Ok? && r.Err? ==> r.error == BadChunkShape
    ensures r.Ok? ==> (r.value.numChannels == ChannelLayout(shape, channelDims).value.numChannels &&
      r.value.ndims == ChannelLayout(shape, channelDims).value.ndims)
    ensures r.Ok? ==> r.value.ndims + channelDims == |shape|
    ensures r.Ok? ==> Ok(r.value.chunkShape) == ResolveChunk(arg, prevChunks, channelDims, r.value.numChannels, r.value.ndims)
    ensures r.Ok? && arg.None? ==> r.value.chunkShape == prevChunks
    ensures r.Ok? && arg.Some? ==> |r.value.chunkShape| == |shape|
  {
    var channels :- ChannelLayout(shape, channelDims);
    var chunkShape :- ResolveChunk(arg, prevChunks, channelDims, channels.numChannels, channels.ndims);
    Ok(Config(channels.numChannels, channels.ndims, chunkShape))
  }

  /** A chunk vector spanning the channel axis as well is refused as written, even
      when its channel entry equals the channel count. */
  lemma FullRankChunkRefused(chunk: Coord, prevChunks: Coord, numChannels: int, ndims: nat)
    requires |chunk| == ndims + 1
    ensures ResolveChunk(Some(PerAxis(chunk)), prevChunks, 1, numChannels, ndims) == Err(BadChunkShape)
  {
  }

  /** A scalar chunk argument becomes that scalar on every spatial axis, after
      num_channels on a channel array. */
  lemma ScalarBroadcastsToEveryAxis(c: int, prevChunks: Coord, channelDims: int,
                                    numChannels: int, ndims: nat)
    requires channelDims == 0 || channelDims == 1
    ensures var r := ResolveChunk(Some(Scalar(c)), prevChunks, channelDims, numChannels, ndims);
      r.Ok? && r.value == (if channelDims == 1 then [numChannels] else []) + Repeat(c, ndims)
  {
    var r := ResolveChunk(Some(Scalar(c)), prevChunks, channelDims, numChannels, ndims);
    var expected := (if channelDims == 1 then [numChannels] else []) + Repeat(c, ndims);
    assert |r.value| == |expected|;
    forall a | 0 <= a < |expected| ensures r.value[a] == expected[a] {
      if channelDims == 1 && a >= 1 {
        assert r.value[|r.value| - ndims + (a - 1)] == c;
      }
    }
  }
}
