/**
 * The arrays that cross the Python boundary, as far as the bindings look at
 * them: an element-type tag, a shape, and (for inputs) the values themselves.
 * Inputs are only read, so they are values; output buffers are written in
 * place, so they hold Dafny arrays.
 */
module NdArrays {
  import opened Wrappers

  /** The element-type tag of an array: the two the bindings accept, and any other. */
  datatype DType = Float64 | Int64 | OtherDType

  /** The two scaling vectors, applied as (x - subtract) / divide. */
  datatype ScalingVector = Subtract | Divide

  /** What a shape check looks at: the element type and the extent along each axis. */
  datatype Info = Info(dtype: DType, shape: seq<nat>) {
    function Rank(): nat { |shape| }
  }

  /** An array handed in by the caller and only read: one vector, a matrix of rows, or any other rank. */
  datatype Input =
    | Vector(dtype: DType, v: seq<real>)
    | Matrix(dtype: DType, cols: nat, rows: seq<seq<real>>)
    | OtherRank(dtype: DType, shape: seq<nat>)
  {
    /** Every row of a matrix has `cols` entries; `OtherRank` is never rank 1 or 2. */
    predicate WellFormed() {
      match this
      case Vector(_, _) => true
      case Matrix(_, cols, rows) => forall k :: 0 <= k < |rows| ==> |rows[k]| == cols
      case OtherRank(_, shape) => |shape| != 1 && |shape| != 2
    }

    function Describe(): Info {
      match this
      case Vector(dtype, v) => Info(dtype, [|v|])
      case Matrix(dtype, cols, rows) => Info(dtype, [|rows|, cols])
      case OtherRank(dtype, shape) => Info(dtype, shape)
    }

    /** The feature vectors the input holds, in row order. */
    function Vectors(): seq<seq<real>> {
      match this
      case Vector(_, v) => [v]
      case Matrix(_, _, rows) => rows
      case OtherRank(_, _) => []
    }
  }

  /** An array the caller may pass in to be filled: rank 1, rank 2, or any other rank (never filled). */
  datatype Buffer<T> =
    | Buffer1(dtype: DType, vec: array<T>)
    | Buffer2(dtype: DType, mat: array2<T>)
    | BufferN(dtype: DType, shape: seq<nat>)
  {
    predicate WellFormed() {
      BufferN? ==> |shape| != 1 && |shape| != 2
    }

    function Describe(): Info {
      match this
      case Buffer1(dtype, vec) => Info(dtype, [vec.Length])
      case Buffer2(dtype, mat) => Info(dtype, [mat.Length0, mat.Length1])
      case BufferN(dtype, shape) => Info(dtype, shape)
    }

    /** The heap objects that filling this buffer writes. */
    function Footprint(): set<object> {
      match this
      case Buffer1(_, vec) => {vec}
      case Buffer2(_, mat) => {mat}
      case BufferN(_, _) => {}
    }
  }

  function DescribeOpt<T>(b: Option<Buffer<T>>): Option<Info> {
    match b
    case Some(buf) => Some(buf.Describe())
    case None => None
  }

  function FootprintOpt<T>(b: Option<Buffer<T>>): set<object> {
    match b
    case Some(buf) => buf.Footprint()
    case None => {}
  }

  predicate WellFormedOpt<T>(b: Option<Buffer<T>>) {
    b.Some? ==> b.value.WellFormed()
  }
}
