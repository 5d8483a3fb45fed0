/**
 * The Python `Machine` type: the checks every prediction entry point makes
 * on its input and on the output arrays a caller may supply, the number of
 * pairwise scores, and the row-by-row filling of the outputs through the
 * solver's single-vector predictions. The solver itself is opaque: it is a
 * set of functions whose only promise is the length of what they return.
 */
module MachineBinding {
  import opened Wrappers
  import opened NdArrays
  import opened PyObjects

  // ---------------------------------------------------------------------
  // Errors
  // ---------------------------------------------------------------------

  /** The second output array of an entry point that has one. */
  datatype Secondary = Scores | Probabilities

  /** Every way a call on a machine is refused. `Cls` is the class output (`output` of `forward`). */
  datatype Fault =
    | InputNotFloat64
    | ClsNotInt64
    | SecondaryNotFloat64(which: Secondary)
    | InputRank(ndim: nat)
    | ClsRank(ndim: nat)
    | SecondaryRank(which: Secondary, inputRank: nat, ndim: nat)
    | InputWidth(expected: nat, found: nat)
    | ClsLength(expected: nat, found: nat)
    | SecondaryWidth(which: Secondary, expected: nat, found: nat)
    | SecondaryRows(which: Secondary, expected: nat, found: nat)
    | NoProbabilitySupport
    | ArgumentCount(given: nat)
    | ScalingNot1DFloat64(vector: ScalingVector)

  /** The Python exception class each fault is raised as. */
  function KindOf(f: Fault): ErrorKind {
    match f
    case InputNotFloat64 | ClsNotInt64 | SecondaryNotFloat64(_) | InputRank(_) | ScalingNot1DFloat64(_) =>
      TypeError
    case _ => RuntimeError
  }

  /** A shape check passes, or names the first thing it found wrong. */
  datatype Check = Pass | Fail(fault: Fault)

  // ---------------------------------------------------------------------
  // The number of pairwise scores
  // ---------------------------------------------------------------------

  /** The one-against-one pairs (i, j), i < j, that start at class `i` or later, in canonical order. */
  function PairsFrom(i: nat, n: nat): seq<(nat, nat)>
    decreases n - i
  {
    if i >= n then []
    else seq(n - i - 1, k requires 0 <= k < n - i - 1 => (i, i + 1 + k)) + PairsFrom(i + 1, n)
  }

  /** All pairs of `n` classes: (0,1), (0,2), ..., (0,n-1), (1,2), ... */
  function Pairs(n: nat): seq<(nat, nat)> {
    PairsFrom(0, n)
  }

  /** The number of scores for a machine with `n` outputs: 1 below two outputs, else one per pair. */
  function NumberOfScores(n: nat): (c: nat)
    ensures c >= 1
    ensures n < 2 ==> c == 1
    ensures n >= 2 ==> 2 * c == n * (n - 1)
  {
    if n < 2 then 1
    else
      PairsFromLength(0, n);
      n * (n - 1) / 2
  }

  lemma {:induction false} PairsFromLength(i: nat, n: nat)
    requires i <= n
    ensures 2 * |PairsFrom(i, n)| == (n - i) * (n - i - 1)
    decreases n - i
  {
    if i < n {
      PairsFromLength(i + 1, n);
      var m := n - i;
      assert m * (m - 1) == 2 * (m - 1) + (m - 1) * (m - 2);
    }
  }

  lemma {:induction false} PairsFromMembers(i: nat, n: nat, a: nat, b: nat)
    ensures (a, b) in PairsFrom(i, n) <==> i <= a < b < n
    decreases n - i
  {
    if i < n {
      PairsFromMembers(i + 1, n, a, b);
      var head := seq(n - i - 1, k requires 0 <= k < n - i - 1 => (i, i + 1 + k));
      assert PairsFrom(i, n) == head + PairsFrom(i + 1, n);
      if a == i && i < b < n {
        assert head[b - i - 1] == (a, b);
      }
    }
  }

  /** With two or more outputs there is exactly one score per pair of classes. */
  lemma {:induction false} ScoresArePairs(n: nat, a: nat, b: nat)
    requires n >= 2
    ensures NumberOfScores(n) == |Pairs(n)|
    ensures (a, b) in Pairs(n) <==> a < b < n
  {
    PairsFromLength(0, n);
    PairsFromMembers(0, n, a, b);
  }

  // ---------------------------------------------------------------------
  // Shape checks, in the order the entry points make them
  // ---------------------------------------------------------------------

  /** The length a class output must have: 1 for one vector, one per row for a matrix. */
  function ExpectedRows(input: Info): nat
    requires 1 <= input.Rank() <= 2
  {
    if input.Rank() == 1 then 1 else input.shape[0]
  }

  /** A 1D or 2D float64 input whose last axis matches the machine's input size. */
  predicate InputAcceptable(inputSize: nat, input: Info) {
    && input.dtype == Float64
    && 1 <= input.Rank() <= 2
    && input.shape[input.Rank() - 1] == inputSize
  }

  /** A class output: 1D int64, one entry per vector of the input. */
  predicate ClsAcceptable(input: Info, cls: Option<Info>)
    requires 1 <= input.Rank() <= 2
  {
    cls.Some? ==> cls.value.dtype == Int64 && cls.value.Rank() == 1 && cls.value.shape[0] == ExpectedRows(input)
  }

  /** A score or probability output: float64, the input's rank, `width` columns, and the input's rows. */
  predicate SecondaryAcceptable(width: nat, input: Info, sec: Option<Info>)
    requires 1 <= input.Rank() <= 2
  {
    sec.Some? ==>
      && sec.value.dtype == Float64
      && sec.value.Rank() == input.Rank()
      && sec.value.shape[input.Rank() - 1] == width
      && (input.Rank() == 2 ==> sec.value.shape[0] == input.shape[0])
  }

  /** The element types and the input rank the entry points demand before they look at any length. */
  predicate TypesAndRankAcceptable(input: Info, cls: Option<Info>, sec: Option<Info>) {
    && input.dtype == Float64
    && (cls.Some? ==> cls.value.dtype == Int64)
    && (sec.Some? ==> sec.value.dtype == Float64)
    && 1 <= input.Rank() <= 2
  }

  /**
   * The checks of `forward` / `predict_class`; they pass exactly when input
   * and output are acceptable. A refusal is a TypeError exactly when an
   * element type or the input's rank is wrong, and a RuntimeError otherwise.
   */
  function CheckForward(inputSize: nat, input: Info, output: Option<Info>): (r: Check)
    ensures r == Pass <==> InputAcceptable(inputSize, input) && ClsAcceptable(input, output)
    ensures r.Fail? ==> (KindOf(r.fault) == TypeError <==> !TypesAndRankAcceptable(input, output, None))
    ensures r.Fail? ==> KindOf(r.fault) != OverflowError
    // the fault named is the first rung that fails, in this order
    ensures input.dtype != Float64 ==> r == Fail(InputNotFloat64)
    ensures input.dtype == Float64 && output.Some? && output.value.dtype != Int64 ==> r == Fail(ClsNotInt64)
    ensures input.dtype == Float64 && (output.Some? ==> output.value.dtype == Int64) && !(1 <= input.Rank() <= 2) ==>
              r == Fail(InputRank(input.Rank()))
    ensures TypesAndRankAcceptable(input, output, None) && output.Some? && output.value.Rank() != 1 ==>
              r == Fail(ClsRank(output.value.Rank()))
    ensures TypesAndRankAcceptable(input, output, None) && (output.Some? ==> output.value.Rank() == 1)
            && input.shape[input.Rank() - 1] != inputSize ==>
              r == Fail(InputWidth(inputSize, input.shape[input.Rank() - 1]))
    ensures InputAcceptable(inputSize, input) && output.Some? && output.value.dtype == Int64 && output.value.Rank() == 1
            && output.value.shape[0] != ExpectedRows(input) ==>
              r == Fail(ClsLength(ExpectedRows(input), output.value.shape[0]))
  {
    if input.dtype != Float64 then Fail(InputNotFloat64)
    else if output.Some? && output.value.dtype != Int64 then Fail(ClsNotInt64)
    else if input.Rank() < 1 || input.Rank() > 2 then Fail(InputRank(input.Rank()))
    else if output.Some? && output.value.Rank() != 1 then Fail(ClsRank(output.value.Rank()))
    else if input.Rank() == 1 then
      if input.shape[0] != inputSize then Fail(InputWidth(inputSize, input.shape[0]))
      else if output.Some? && output.value.shape[0] != 1 then Fail(ClsLength(1, output.value.shape[0]))
      else Pass
    else
      if input.shape[1] != inputSize then Fail(InputWidth(inputSize, input.shape[1]))
      else if output.Some? && input.shape[0] != output.value.shape[0] then
        Fail(ClsLength(input.shape[0], output.value.shape[0]))
      else Pass
  }

  /**
   * The checks of `predict_class_and_scores` and `predict_class_and_probabilities`,
   * with `width` the number of scores or of classes; they pass exactly when the
   * input and both outputs are acceptable. A refusal is a TypeError exactly
   * when an element type or the input's rank is wrong, and a RuntimeError
   * otherwise.
   */
  function CheckWithSecondary(which: Secondary, inputSize: nat, width: nat,
                              input: Info, cls: Option<Info>, sec: Option<Info>): (r: Check)
    ensures r == Pass <==>
      InputAcceptable(inputSize, input) && ClsAcceptable(input, cls) && SecondaryAcceptable(width, input, sec)
    ensures r.Fail? && r.fault.SecondaryNotFloat64? ==> sec.Some?
    ensures r.Fail? ==> (KindOf(r.fault) == TypeError <==> !TypesAndRankAcceptable(input, cls, sec))
    ensures r.Fail? ==> KindOf(r.fault) != OverflowError
    // the fault named is the first rung that fails, in this order
    ensures input.dtype != Float64 ==> r == Fail(InputNotFloat64)
    ensures input.dtype == Float64 && cls.Some? && cls.value.dtype != Int64 ==> r == Fail(ClsNotInt64)
    ensures input.dtype == Float64 && (cls.Some? ==> cls.value.dtype == Int64) && sec.Some? && sec.value.dtype != Float64 ==>
              r == Fail(SecondaryNotFloat64(which))
    ensures input.dtype == Float64 && (cls.Some? ==> cls.value.dtype == Int64) && (sec.Some? ==> sec.value.dtype == Float64)
            && !(1 <= input.Rank() <= 2) ==>
              r == Fail(InputRank(input.Rank()))
    ensures TypesAndRankAcceptable(input, cls, sec) && cls.Some? && cls.value.Rank() != 1 ==>
              r == Fail(ClsRank(cls.value.Rank()))
    ensures TypesAndRankAcceptable(input, cls, sec) && (cls.Some? ==> cls.value.Rank() == 1)
            && sec.Some? && sec.value.Rank() != input.Rank() ==>
              r == Fail(SecondaryRank(which, input.Rank(), sec.value.Rank()))
    ensures TypesAndRankAcceptable(input, cls, sec) && (cls.Some? ==> cls.value.Rank() == 1)
            && (sec.Some? ==> sec.value.Rank() == input.Rank())
            && input.shape[input.Rank() - 1] != inputSize ==>
              r == Fail(InputWidth(inputSize, input.shape[input.Rank() - 1]))
    ensures TypesAndRankAcceptable(input, cls, sec) && InputAcceptable(inputSize, input)
            && (sec.Some? ==> sec.value.Rank() == input.Rank())
            && cls.Some? && cls.value.Rank() == 1 && cls.value.shape[0] != ExpectedRows(input) ==>
              r == Fail(ClsLength(ExpectedRows(input), cls.value.shape[0]))
    ensures TypesAndRankAcceptable(input, cls, sec) && InputAcceptable(inputSize, input) && ClsAcceptable(input, cls)
            && sec.Some? && sec.value.Rank() == input.Rank() && sec.value.shape[input.Rank() - 1] != width ==>
              r == Fail(SecondaryWidth(which, width, sec.value.shape[input.Rank() - 1]))
    ensures TypesAndRankAcceptable(input, cls, sec) && InputAcceptable(inputSize, input) && ClsAcceptable(input, cls)
            && sec.Some? && sec.value.Rank() == input.Rank() == 2 && sec.value.shape[1] == width
            && sec.value.shape[0] != input.shape[0] ==>
              r == Fail(SecondaryRows(which, input.shape[0], sec.value.shape[0]))
  {
    if input.dtype != Float64 then Fail(InputNotFloat64)
    else if cls.Some? && cls.value.dtype != Int64 then Fail(ClsNotInt64)
    else if sec.Some? && sec.value.dtype != Float64 then Fail(SecondaryNotFloat64(which))
    else if input.Rank() < 1 || input.Rank() > 2 then Fail(InputRank(input.Rank()))
    else if cls.Some? && cls.value.Rank() != 1 then Fail(ClsRank(cls.value.Rank()))
    else if sec.Some? && input.Rank() != sec.value.Rank() then
      Fail(SecondaryRank(which, input.Rank(), sec.value.Rank()))
    else if input.Rank() == 1 then
      if input.shape[0] != inputSize then Fail(InputWidth(inputSize, input.shape[0]))
      else if cls.Some? && cls.value.shape[0] != 1 then Fail(ClsLength(1, cls.value.shape[0]))
      else if sec.Some? && sec.value.shape[0] != width then Fail(SecondaryWidth(which, width, sec.value.shape[0]))
      else Pass
    else
      if input.shape[1] != inputSize then Fail(InputWidth(inputSize, input.shape[1]))
      else if cls.Some? && input.shape[0] != cls.value.shape[0] then
        Fail(ClsLength(input.shape[0], cls.value.shape[0]))
      else if sec.Some? && sec.value.shape[1] != width then Fail(SecondaryWidth(which, width, sec.value.shape[1]))
      else if sec.Some? && input.shape[0] != sec.value.shape[0] then
        Fail(SecondaryRows(which, input.shape[0], sec.value.shape[0]))
      else Pass
  }

  /** A one-vector input of the wrong length is refused whatever output is supplied. */
  lemma WrongWidthRefused(inputSize: nat, v: seq<real>, output: Option<Info>)
    requires |v| != inputSize
    ensures CheckForward(inputSize, Vector(Float64, v).Describe(), output).Fail?
  {
  }

  // ---------------------------------------------------------------------
  // Construction
  // ---------------------------------------------------------------------

  datatype Route = FromModelFile | FromHdf5File

  /** `Machine(arg)`: exactly one argument, read as an HDF5 file when it is one, else as a model file path. */
  function InitRoute(positional: nat, keywords: nat, argIsHdf5File: bool): (r: Result<Route, Fault>)
    ensures r.Success? <==> positional + keywords == 1
    ensures r.Success? ==> (r.value == FromHdf5File <==> argIsHdf5File)
    ensures r.Failure? ==> r.error == ArgumentCount(positional + keywords)
  {
    if positional + keywords != 1 then Failure(ArgumentCount(positional + keywords))
    else if argIsHdf5File then Success(FromHdf5File)
    else Success(FromModelFile)
  }

  // ---------------------------------------------------------------------
  // The machine
  // ---------------------------------------------------------------------

  /** The scaling the machine hands to the solver with every vector. */
  datatype Scaling = Scaling(subtract: seq<real>, divide: seq<real>)

  /** The solver's single-vector predictions: a class, or a class and a vector of scores or probabilities. */
  datatype Solver = Solver(
    predictClass: (Scaling, seq<real>) -> int,
    predictClassAndScores: (Scaling, seq<real>) -> (int, seq<real>),
    predictClassAndProbabilities: (Scaling, seq<real>) -> (int, seq<real>))

  /** What a two-output entry point returns: the class array and the score or probability array. */
  datatype Prediction = Prediction(cls: array<int>, values: Buffer<real>)

  class Machine {
    const inputSize: nat
    const outputSize: nat
    const labels: seq<int>
    const supportsProbability: bool
    const solver: Solver
    var inputSubtract: seq<real>
    var inputDivide: seq<real>

    /** The solver writes one score per pair of outputs and one probability per class. */
    ghost predicate SolverConforms() {
      && (forall sc, x :: |solver.predictClassAndScores(sc, x).1| == NumberOfScores(outputSize))
      && (forall sc, x :: |solver.predictClassAndProbabilities(sc, x).1| == |labels|)
    }

    /** A machine read from a libsvm model file: no scaling (subtract 0, divide by 1). */
    constructor FromModel(inputSize: nat, outputSize: nat, labels: seq<int>,
                          supportsProbability: bool, solver: Solver)
      ensures this.inputSize == inputSize && this.outputSize == outputSize
      ensures this.labels == labels && this.supportsProbability == supportsProbability
      ensures this.solver == solver
      ensures inputSubtract == seq(inputSize, _ => 0.0)
      ensures inputDivide == seq(inputSize, _ => 1.0)
    {
      this.inputSize, this.outputSize := inputSize, outputSize;
      this.labels, this.supportsProbability := labels, supportsProbability;
      this.solver := solver;
      inputSubtract := seq(inputSize, _ => 0.0);
      inputDivide := seq(inputSize, _ => 1.0);
    }

    function NumberOfClasses(): nat { |labels| }

    function CurrentScaling(): Scaling reads this {
      Scaling(inputSubtract, inputDivide)
    }

    /** `shape`: (input size, output size); a vector of the advertised input size passes the input checks. */
    function Shape(): (shape: (nat, nat))
      ensures InputAcceptable(inputSize, Vector(Float64, seq(shape.0, _ => 0.0)).Describe())
      ensures shape.1 == outputSize
    {
      (inputSize, outputSize)
    }

    /** `labels`: the class label of every class index, in index order. */
    method GetLabels() returns (r: seq<int>)
      ensures r == labels
    {
      r := [];
      for k := 0 to NumberOfClasses()
        invariant r == labels[..k]
      {
        r := r + [labels[k]];
      }
    }

    /** Setting `input_subtract`: a 1D float64 array replaces the vector; anything else is refused. */
    method SetInputSubtraction(o: Input) returns (r: Option<Fault>)
      requires o.WellFormed()
      modifies this`inputSubtract
      ensures r.None? <==> o.Vector? && o.dtype == Float64
      ensures r.None? ==> inputSubtract == o.v
      ensures r.Some? ==> KindOf(r.value) == TypeError
      ensures r.Some? ==> r.value == ScalingNot1DFloat64(Subtract) && inputSubtract == old(inputSubtract)
    {
      if !(o.Vector? && o.dtype == Float64) {
        return Some(ScalingNot1DFloat64(Subtract));
      }
      inputSubtract := o.v;
      r := None;
    }

    /** Setting `input_divide`: a 1D float64 array replaces the vector; anything else is refused. */
    method SetInputDivision(o: Input) returns (r: Option<Fault>)
      requires o.WellFormed()
      modifies this`inputDivide
      ensures r.None? <==> o.Vector? && o.dtype == Float64
      ensures r.None? ==> inputDivide == o.v
      ensures r.Some? ==> KindOf(r.value) == TypeError
      ensures r.Some? ==> r.value == ScalingNot1DFloat64(Divide) && inputDivide == old(inputDivide)
    {
      if !(o.Vector? && o.dtype == Float64) {
        return Some(ScalingNot1DFloat64(Divide));
      }
      inputDivide := o.v;
      r := None;
    }

    /**
     * `forward` / `predict_class`: after the checks, entry k of the class
     * output is the solver's class for vector k of the input, computed in
     * increasing k (`calls` lists the vectors handed to the solver). When a
     * check fails nothing is written and the solver is not called.
     */
    method Forward(input: Input, output: Option<Buffer<int>>)
      returns (r: Result<array<int>, Fault>, ghost calls: seq<seq<real>>)
      requires input.WellFormed() && WellFormedOpt(output)
      modifies FootprintOpt(output)
      ensures r.Failure? <==> CheckForward(inputSize, input.Describe(), DescribeOpt(output)).Fail?
      ensures r.Failure? ==> r.error == CheckForward(inputSize, input.Describe(), DescribeOpt(output)).fault
      ensures r.Failure? ==> calls == [] && unchanged(FootprintOpt(output))
      ensures r.Success? && output.Some? ==> output.value.Buffer1? && r.value == output.value.vec
      ensures r.Success? && output.None? ==> fresh(r.value)
      ensures r.Success? ==> r.value.Length == |input.Vectors()| && calls == input.Vectors()
      ensures r.Success? ==> forall k :: 0 <= k < |input.Vectors()| ==>
                r.value[k] == solver.predictClass(CurrentScaling(), input.Vectors()[k])
    {
      var check := CheckForward(inputSize, input.Describe(), DescribeOpt(output));
      if check.Fail? {
        return Failure(check.fault), [];
      }
      var xs := input.Vectors();
      var out: array<int>;
      if output.Some? {
        out := output.value.vec;
      } else {
        out := new int[|xs|];
      }
      calls := [];
      for k := 0 to |xs|
        invariant calls == xs[..k]
        invariant forall i :: 0 <= i < k ==> out[i] == solver.predictClass(CurrentScaling(), xs[i])
      {
        out[k] := solver.predictClass(CurrentScaling(), xs[k]);
        calls := calls + [xs[k]];
      }
      r := Success(out);
    }

    /**
     * The outputs of a two-output entry point hold, for every input vector,
     * the class and the row of values that `f` gives for it.
     */
    ghost predicate Holds(input: Input, p: Prediction, f: (Scaling, seq<real>) -> (int, seq<real>), width: nat)
      reads this, p.cls, p.values.Footprint()
      requires forall sc, x :: |f(sc, x).1| == width
    {
      && p.cls.Length == |input.Vectors()|
      && (forall k :: 0 <= k < |input.Vectors()| ==> p.cls[k] == f(CurrentScaling(), input.Vectors()[k]).0)
      && (input.Vector? ==>
            && p.values.Buffer1? && p.values.vec.Length == width
            && forall j :: 0 <= j < width ==> p.values.vec[j] == f(CurrentScaling(), input.v).1[j])
      && (input.Matrix? ==>
            && p.values.Buffer2? && p.values.mat.Length0 == |input.rows| && p.values.mat.Length1 == width
            && forall k, j :: 0 <= k < |input.rows| && 0 <= j < width ==>
                 p.values.mat[k, j] == f(CurrentScaling(), input.rows[k]).1[j])
    }

    /** The loop of the two-output entry points: one solver call per input vector, in row order. */
    method FillRows(input: Input, p: Prediction, f: (Scaling, seq<real>) -> (int, seq<real>), width: nat)
      returns (ghost calls: seq<seq<real>>)
      requires input.WellFormed() && (input.Vector? || input.Matrix?)
      requires forall sc, x :: |f(sc, x).1| == width
      requires p.cls.Length == |input.Vectors()|
      requires input.Vector? ==> p.values.Buffer1? && p.values.vec.Length == width
      requires input.Matrix? ==>
        p.values.Buffer2? && p.values.mat.Length0 == |input.rows| && p.values.mat.Length1 == width
      modifies p.cls, p.values.Footprint()
      ensures Holds(input, p, f, width)
      ensures calls == input.Vectors()
    {
      if input.Vector? {
        var (c, s) := f(CurrentScaling(), input.v);
        p.cls[0] := c;
        var vec := p.values.vec;
        forall j | 0 <= j < width {
          vec[j] := s[j];
        }
        calls := [input.v];
      } else {
        var rows, mat := input.rows, p.values.mat;
        calls := [];
        for k := 0 to |rows|
          invariant calls == rows[..k]
          invariant forall i :: 0 <= i < k ==> p.cls[i] == f(CurrentScaling(), rows[i]).0
          invariant forall i, j :: 0 <= i < k && 0 <= j < width ==> mat[i, j] == f(CurrentScaling(), rows[i]).1[j]
        {
          var (c, s) := f(CurrentScaling(), rows[k]);
          p.cls[k] := c;
          forall j | 0 <= j < width {
            mat[k, j] := s[j];
          }
          calls := calls + [rows[k]];
        }
      }
    }

    /** Allocates whichever outputs the caller left out, with the shapes the checks demand of supplied ones. */
    method Allocate(input: Input, cls: Option<Buffer<int>>, values: Option<Buffer<real>>, width: nat)
      returns (p: Prediction)
      requires input.WellFormed() && (input.Vector? || input.Matrix?)
      requires WellFormedOpt(cls) && WellFormedOpt(values)
      requires ClsAcceptable(input.Describe(), DescribeOpt(cls))
      requires SecondaryAcceptable(width, input.Describe(), DescribeOpt(values))
      ensures cls.Some? ==> cls.value.Buffer1? && p.cls == cls.value.vec
      ensures cls.None? ==> fresh(p.cls)
      ensures values.Some? ==> p.values == values.value
      ensures values.None? ==> fresh(p.values.Footprint())
      ensures p.cls.Length == |input.Vectors()|
      ensures input.Vector? ==> p.values.Buffer1? && p.values.vec.Length == width
      ensures input.Matrix? ==>
        p.values.Buffer2? && p.values.mat.Length0 == |input.rows| && p.values.mat.Length1 == width
    {
      var c: array<int>;
      if cls.Some? {
        c := cls.value.vec;
      } else {
        c := new int[|input.Vectors()|];
      }
      var b: Buffer<real>;
      if values.Some? {
        b := values.value;
      } else if input.Vector? {
        var a := new real[width];
        b := Buffer1(Float64, a);
      } else {
        var m := new real[|input.rows|, width];
        b := Buffer2(Float64, m);
      }
      p := Prediction(c, b);
    }

    /**
     * `predict_class_and_scores`: after the checks, the class output and the
     * score output hold, for every input vector in row order, the solver's
     * class and its `NumberOfScores(outputSize)` pairwise scores. When a check
     * fails nothing is written and the solver is not called.
     */
    method PredictClassAndScores(input: Input, cls: Option<Buffer<int>>, score: Option<Buffer<real>>)
      returns (r: Result<Prediction, Fault>, ghost calls: seq<seq<real>>)
      requires SolverConforms()
      requires input.WellFormed() && WellFormedOpt(cls) && WellFormedOpt(score)
      modifies FootprintOpt(cls), FootprintOpt(score)
      ensures var check := CheckWithSecondary(Scores, inputSize, NumberOfScores(outputSize),
                                              input.Describe(), DescribeOpt(cls), DescribeOpt(score));
              && (r.Failure? <==> check.Fail?)
              && (r.Failure? ==> r.error == check.fault && calls == [])
      ensures r.Failure? ==> unchanged(FootprintOpt(cls)) && unchanged(FootprintOpt(score))
      ensures r.Success? && cls.Some? ==> cls.value.Buffer1? && r.value.cls == cls.value.vec
      ensures r.Success? && cls.None? ==> fresh(r.value.cls)
      ensures r.Success? && score.Some? ==> r.value.values == score.value
      ensures r.Success? && score.None? ==> fresh(r.value.values.Footprint())
      ensures r.Success? ==> calls == input.Vectors()
      ensures r.Success? ==>
        Holds(input, r.value, solver.predictClassAndScores, NumberOfScores(outputSize))
    {
      var width := NumberOfScores(outputSize);
      var check := CheckWithSecondary(Scores, inputSize, width, input.Describe(), DescribeOpt(cls), DescribeOpt(score));
      if check.Fail? {
        return Failure(check.fault), [];
      }
      var p := Allocate(input, cls, score, width);
      calls := FillRows(input, p, solver.predictClassAndScores, width);
      r := Success(p);
    }

    /**
     * `predict_class_and_probabilities`: refused outright by a machine without
     * probability support; otherwise as `predict_class_and_scores`, with one
     * probability per class instead of the scores.
     */
    method PredictClassAndProbabilities(input: Input, cls: Option<Buffer<int>>, prob: Option<Buffer<real>>)
      returns (r: Result<Prediction, Fault>, ghost calls: seq<seq<real>>)
      requires SolverConforms()
      requires input.WellFormed() && WellFormedOpt(cls) && WellFormedOpt(prob)
      modifies FootprintOpt(cls), FootprintOpt(prob)
      ensures !supportsProbability ==> r == Failure(NoProbabilitySupport) && KindOf(r.error) == RuntimeError
      ensures var check := CheckWithSecondary(Probabilities, inputSize, NumberOfClasses(),
                                              input.Describe(), DescribeOpt(cls), DescribeOpt(prob));
              supportsProbability ==>
                && (r.Failure? <==> check.Fail?)
                && (r.Failure? ==> r.error == check.fault)
      ensures r.Failure? ==> calls == [] && unchanged(FootprintOpt(cls)) && unchanged(FootprintOpt(prob))
      ensures r.Success? && cls.Some? ==> cls.value.Buffer1? && r.value.cls == cls.value.vec
      ensures r.Success? && cls.None? ==> fresh(r.value.cls)
      ensures r.Success? && prob.Some? ==> r.value.values == prob.value
      ensures r.Success? && prob.None? ==> fresh(r.value.values.Footprint())
      ensures r.Success? ==> calls == input.Vectors()
      ensures r.Success? ==>
        Holds(input, r.value, solver.predictClassAndProbabilities, NumberOfClasses())
    {
      if !supportsProbability {
        return Failure(NoProbabilitySupport), [];
      }
      var width := NumberOfClasses();
      var check := CheckWithSecondary(Probabilities, inputSize, width, input.Describe(), DescribeOpt(cls), DescribeOpt(prob));
      if check.Fail? {
        return Failure(check.fault), [];
      }
      var p := Allocate(input, cls, prob, width);
      calls := FillRows(input, p, solver.predictClassAndProbabilities, width);
      r := Success(p);
    }
  }
}
