/** The exceptions scale_pyramid.py raises, one constructor per distinct failure. */
module Errors {

  datatype Error =
    /** ValueError from Python's int() while parsing a scale or chunk argument. */
    | NotAnInteger(text: string)
    /** RuntimeError: the named path is not a dataset of the container. */
    | NotADataset(name: string)
    /** IndexError: extract_scale reads the first character of an empty leaf name. */
    | EmptyLeafName
    /** IndexError: a channel dimension is declared on an array of rank zero. */
    | MissingChannelAxis
    /** RuntimeError: more than one channel dimension. */
    | TooManyChannelDims(count: int)
    /** ValueError: the chunk-shape argument matches neither the scalar nor the vector form. */
    | BadChunkShape
    /** ValueError: a scale level is neither a scalar nor a vector of spatial rank. */
    | BadScale
    /** daisy refuses the elementwise product of coordinates of different ranks. */
    | RankMismatch
    /** AssertionError: the block's spatial shape is not a multiple of the factor. */
    | NotMultipleOfFactor
}
