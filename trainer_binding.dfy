/**
 * The Python `Trainer` type: construction from keyword arguments, the
 * attributes that read and write the C++ trainer's parameters, and the
 * validation `train` makes before it hands the class data to the C++
 * trainer, plainly or with the scaling vectors.
 */
module TrainerBinding {
  import opened Wrappers
  import opened NdArrays
  import opened PyObjects
  import opened SvmParams

  /** Every way a call on a trainer is refused. */
  datatype Fault =
    | ArgumentType(argument: string)
    | NotAString
    | UnknownMachineType(name: string)
    | UnknownKernelType(name: string)
    | ConversionFailed(kind: ErrorKind)
    | TruthTestFailed
    | NotIterable
    | IterationFailed(position: nat)
    | ItemNotArray(position: nat, typeName: string)
    | ItemNot2DFloat64(position: nat, ndim: nat, dtype: DType)
    | TooFewClasses(count: nat)
    | SubtractWithoutDivide
    | DivideWithoutSubtract
    | ScalingNotFloat64(vector: ScalingVector)

  // ---------------------------------------------------------------------
  // Names of the machine and kernel types
  // ---------------------------------------------------------------------

  function MachineTypeName(m: MachineType): string {
    match m
    case C_SVC => "C_SVC"
    case NU_SVC => "NU_SVC"
    case ONE_CLASS => "ONE_CLASS"
    case EPSILON_SVR => "EPSILON_SVR"
    case NU_SVR => "NU_SVR"
  }

  function ParseMachineType(name: string): (m: Option<MachineType>)
    ensures m.Some? ==> MachineTypeName(m.value) == name
  {
    if name == "C_SVC" then Some(C_SVC)
    else if name == "NU_SVC" then Some(NU_SVC)
    else if name == "ONE_CLASS" then Some(ONE_CLASS)
    else if name == "EPSILON_SVR" then Some(EPSILON_SVR)
    else if name == "NU_SVR" then Some(NU_SVR)
    else None
  }

  /** A name is accepted exactly when it is the name of a machine type, and then it stands for that type. */
  lemma MachineTypeNames(m: MachineType, name: string)
    ensures ParseMachineType(name) == Some(m) <==> MachineTypeName(m) == name
  {
  }

  function KernelTypeName(k: KernelType): string {
    match k
    case LINEAR => "LINEAR"
    case POLY => "POLY"
    case RBF => "RBF"
    case SIGMOID => "SIGMOID"
    case PRECOMPUTED => "PRECOMPUTED"
  }

  function ParseKernelType(name: string): (k: Option<KernelType>)
    ensures k.Some? ==> KernelTypeName(k.value) == name
  {
    if name == "LINEAR" then Some(LINEAR)
    else if name == "POLY" then Some(POLY)
    else if name == "RBF" then Some(RBF)
    else if name == "SIGMOID" then Some(SIGMOID)
    else if name == "PRECOMPUTED" then Some(PRECOMPUTED)
    else None
  }

  /** A name is accepted exactly when it is the name of a kernel type, and then it stands for that type. */
  lemma KernelTypeNames(k: KernelType, name: string)
    ensures ParseKernelType(name) == Some(k) <==> KernelTypeName(k) == name
  {
  }

  /** The machine type a Python object names: it must be a string and one of the names. */
  function MachineTypeOf(o: PyValue): (r: Result<MachineType, Fault>)
    ensures r.Success? <==> o.PyStr? && ParseMachineType(o.s).Some?
    ensures r.Success? ==> PyStr(MachineTypeName(r.value)) == o
    ensures !o.PyStr? ==> r == Failure(NotAString)
  {
    match o
    case PyStr(name) =>
      (match ParseMachineType(name)
       case Some(m) => Success(m)
       case None => Failure(UnknownMachineType(name)))
    case _ => Failure(NotAString)
  }

  /** The kernel type a Python object names: it must be a string and one of the names. */
  function KernelTypeOf(o: PyValue): (r: Result<KernelType, Fault>)
    ensures r.Success? <==> o.PyStr? && ParseKernelType(o.s).Some?
    ensures r.Success? ==> PyStr(KernelTypeName(r.value)) == o
    ensures !o.PyStr? ==> r == Failure(NotAString)
  {
    match o
    case PyStr(name) =>
      (match ParseKernelType(name)
       case Some(k) => Success(k)
       case None => Failure(UnknownKernelType(name)))
    case _ => Failure(NotAString)
  }

  // ---------------------------------------------------------------------
  // Numeric conversions
  // ---------------------------------------------------------------------

  /** The implicit C conversion of a `Py_ssize_t` to an `int`: the `int` congruent to it modulo 2^32. */
  function WrapInt32(x: int): (r: Int32)
    ensures (r - x) % 0x1_0000_0000 == 0
    ensures -0x8000_0000 <= x < 0x8000_0000 ==> r == x
  {
    var m := x % 0x1_0000_0000;
    if m < 0x8000_0000 then m else m - 0x1_0000_0000
  }

  // ---------------------------------------------------------------------
  // Construction
  // ---------------------------------------------------------------------

  /** The arguments of `Trainer(...)`, by name; an absent one takes its documented default. */
  datatype InitArgs = InitArgs(
    machineType: Option<PyValue> := None,
    kernelType: Option<PyValue> := None,
    cacheSize: Option<PyValue> := None,
    eps: Option<PyValue> := None,
    shrinking: Option<PyValue> := None,
    probability: Option<PyValue> := None)

  /** The argument parser's `s`: a string, when given. */
  predicate StrOrAbsent(a: Option<PyValue>) {
    a.Some? ==> a.value.PyStr?
  }

  /** The argument parser's `d`: a number, when given. */
  predicate RealOrAbsent(a: Option<PyValue>) {
    a.Some? ==> AsDouble(a.value).error.None?
  }

  function NameOr(a: Option<PyValue>, default: string): string {
    match a
    case Some(PyStr(s)) => s
    case _ => default
  }

  function RealOr(a: Option<PyValue>, default: real): real {
    match a
    case Some(o) => AsDouble(o).value
    case None => default
  }

  /**
   * The parameters `Trainer(...)` builds the C++ trainer with: the argument
   * types are checked first, in argument order, then the two names; the
   * flags take the truth value of whatever object is given. The parameters
   * the constructor does not take keep the `svm-train` defaults.
   */
  function InitParameters(a: InitArgs): (r: Result<SvmParameter, Fault>)
    ensures r.Success? <==>
      && StrOrAbsent(a.machineType) && StrOrAbsent(a.kernelType)
      && RealOrAbsent(a.cacheSize) && RealOrAbsent(a.eps)
      && ParseMachineType(NameOr(a.machineType, "C_SVC")).Some?
      && ParseKernelType(NameOr(a.kernelType, "RBF")).Some?
    ensures r.Success? ==>
      && MachineTypeName(r.value.svmType) == NameOr(a.machineType, "C_SVC")
      && KernelTypeName(r.value.kernelType) == NameOr(a.kernelType, "RBF")
      && r.value.cacheSize == RealOr(a.cacheSize, 100.0)
      && r.value.eps == RealOr(a.eps, 0.001)
      && (a.shrinking.None? ==> r.value.shrinking)
      && (a.shrinking.Some? ==> (r.value.shrinking <==> IsTrue(a.shrinking.value) != 0))
      && (a.probability.None? ==> !r.value.probability)
      && (a.probability.Some? ==> (r.value.probability <==> IsTrue(a.probability.value) != 0))
    ensures r.Success? ==>
      && r.value.degree == Defaults.degree && r.value.gamma == Defaults.gamma
      && r.value.coef0 == Defaults.coef0 && r.value.cost == Defaults.cost
      && r.value.nu == Defaults.nu && r.value.p == Defaults.p
  {
    if !StrOrAbsent(a.machineType) then Failure(ArgumentType("machine_type"))
    else if !StrOrAbsent(a.kernelType) then Failure(ArgumentType("kernel_type"))
    else if !RealOrAbsent(a.cacheSize) then Failure(ArgumentType("cache_size"))
    else if !RealOrAbsent(a.eps) then Failure(ArgumentType("eps"))
    else
      var machineName, kernelName := NameOr(a.machineType, "C_SVC"), NameOr(a.kernelType, "RBF");
      match ParseMachineType(machineName)
      case None => Failure(UnknownMachineType(machineName))
      case Some(m) =>
        match ParseKernelType(kernelName)
        case None => Failure(UnknownKernelType(kernelName))
        case Some(k) =>
          Success(Defaults.(
            svmType := m,
            kernelType := k,
            cacheSize := RealOr(a.cacheSize, 100.0),
            eps := RealOr(a.eps, 0.001),
            shrinking := IsTrue(a.shrinking.GetOr(PyBool(true))) != 0,
            probability := IsTrue(a.probability.GetOr(PyBool(false))) != 0))
  }

  /**
   * The exception `Trainer(...)` leaves set when a flag's truth test raises:
   * the flag then counts as true (`InitParameters`), construction still
   * succeeds, and the exception stays pending.
   */
  function InitPending(a: InitArgs): (pending: Option<Fault>)
    ensures pending.Some? <==>
      || (a.shrinking.Some? && IsTrue(a.shrinking.value) == -1)
      || (a.probability.Some? && IsTrue(a.probability.value) == -1)
    ensures pending.Some? ==> pending.value == TruthTestFailed
  {
    if IsTrue(a.shrinking.GetOr(PyBool(true))) == -1 || IsTrue(a.probability.GetOr(PyBool(false))) == -1 then
      Some(TruthTestFailed)
    else None
  }

  /** `Trainer()` with no arguments gives the `svm-train` defaults. */
  lemma InitWithoutArguments()
    ensures InitParameters(InitArgs()) == Success(Defaults)
  {
  }

  /** Naming a machine type and a kernel type selects exactly those, with every other parameter at its default. */
  lemma InitByName(m: MachineType, k: KernelType)
    ensures InitParameters(InitArgs(machineType := Some(PyStr(MachineTypeName(m))),
                                    kernelType := Some(PyStr(KernelTypeName(k)))))
            == Success(Defaults.(svmType := m, kernelType := k))
  {
  }

  /**
   * `Trainer(...)`: a new trainer whose C++ parameters are the ones the
   * arguments give, passed to the C++ constructor by parameter name; no
   * trainer is built when the arguments are refused. A flag whose truth test
   * raises does not stop construction: its exception is left pending.
   */
  method NewTrainerObject(a: InitArgs) returns (r: Result<TrainerObject, Fault>, pending: Option<Fault>)
    ensures r.Failure? <==> InitParameters(a).Failure?
    ensures r.Failure? ==> r.error == InitParameters(a).error && pending.None?
    ensures r.Success? ==> fresh(r.value) && fresh(r.value.cxx) && r.value.cxx.param == InitParameters(a).value
    ensures r.Success? ==> pending == InitPending(a)
  {
    var p := InitParameters(a);
    if p.Failure? {
      return Failure(p.error), None;
    }
    var cxx := new Trainer(
      svmType := p.value.svmType,
      kernelType := p.value.kernelType,
      cacheSize := p.value.cacheSize,
      eps := p.value.eps,
      shrinking := p.value.shrinking,
      probability := p.value.probability);
    var o := new TrainerObject(cxx);
    r, pending := Success(o), InitPending(a);
  }

  // ---------------------------------------------------------------------
  // Class data handed to `train`
  // ---------------------------------------------------------------------

  /** One object the iteration over `data` produced: not convertible to an array, or an array. */
  datatype Item = Unconvertible(typeName: string) | Convertible(arr: Input)

  /** `data`: not iterable, or the items it yields before it ends or raises. */
  datatype Iterable = NotIterableObject | Iterator(items: seq<Item>, failsAtEnd: bool)

  /** The data of one class: a 2D float64 array, one sample per row. */
  predicate IsClassArray(it: Item) {
    it.Convertible? && it.arr.Matrix? && it.arr.dtype == Float64
  }

  predicate AllClassArrays(items: seq<Item>) {
    forall i :: 0 <= i < |items| ==> IsClassArray(items[i])
  }

  /** Every array among the items is well formed. */
  predicate ItemsWellFormed(items: seq<Item>) {
    forall i :: 0 <= i < |items| && items[i].Convertible? ==> items[i].arr.WellFormed()
  }

  /** Position `p` holds the first item that is not class data. */
  predicate FirstBadAt(items: seq<Item>, p: nat) {
    && p < |items|
    && !IsClassArray(items[p])
    && forall i :: 0 <= i < p ==> IsClassArray(items[i])
  }

  /** The error for an item that is not class data, naming its position. */
  function ItemFault(it: Item, position: nat): (f: Fault)
    requires !IsClassArray(it)
    ensures f.ItemNotArray? || f.ItemNot2DFloat64?
    ensures f.position == position
    ensures f.ItemNotArray? <==> it.Unconvertible?
  {
    match it
    case Unconvertible(typeName) => ItemNotArray(position, typeName)
    case Convertible(a) => ItemNot2DFloat64(position, a.Describe().Rank(), a.dtype)
  }

  /**
   * The iteration over `data`: every item must be class data, and the
   * first that is not is reported with its position; an iterator that
   * raises is reported after the items it produced. On success the
   * arrays are kept in the order the iteration produced them.
   */
  method CollectClassArrays(items: seq<Item>, failsAtEnd: bool) returns (r: Result<seq<Input>, Fault>)
    requires ItemsWellFormed(items)
    ensures r.Success? <==> AllClassArrays(items) && !failsAtEnd
    ensures r.Success? ==> |r.value| == |items| && forall i :: 0 <= i < |items| ==> r.value[i] == items[i].arr
    ensures !AllClassArrays(items) ==> exists p: nat :: FirstBadAt(items, p) && r == Failure(ItemFault(items[p], p))
    ensures AllClassArrays(items) && failsAtEnd ==> r == Failure(IterationFailed(|items|))
  {
    var arrays: seq<Input> := [];
    var i := 0;
    while i < |items|
      invariant 0 <= i <= |items|
      invariant |arrays| == i
      invariant forall k :: 0 <= k < i ==> IsClassArray(items[k]) && arrays[k] == items[k].arr
    {
      if !IsClassArray(items[i]) {
        assert FirstBadAt(items, i);
        return Failure(ItemFault(items[i], i));
      }
      arrays := arrays + [items[i].arr];
      i := i + 1;
    }
    if failsAtEnd {
      return Failure(IterationFailed(|items|));
    }
    r := Success(arrays);
  }

  /** The checks `train` makes once the data is collected: two classes at least, then both scaling vectors or neither. */
  function CheckTrainArguments(count: nat, subtract: Option<Input>, divide: Option<Input>): (r: Option<Fault>)
    ensures r.None? <==> count >= 2 && (subtract.Some? <==> divide.Some?)
    ensures count < 2 ==> r == Some(TooFewClasses(count))
    ensures count >= 2 && subtract.Some? && divide.None? ==> r == Some(SubtractWithoutDivide)
    ensures count >= 2 && subtract.None? && divide.Some? ==> r == Some(DivideWithoutSubtract)
  {
    if count < 2 then Some(TooFewClasses(count))
    else if subtract.Some? && divide.None? then Some(SubtractWithoutDivide)
    else if divide.Some? && subtract.None? then Some(DivideWithoutSubtract)
    else None
  }

  /**
   * The element-type checks on the scaling vectors set an error but do not
   * stop the call: training goes ahead with the error left pending. When
   * both vectors are wrong the later message, the one about `divide`, wins.
   */
  function PendingDTypeError(subtract: Option<Input>, divide: Option<Input>): (r: Option<Fault>)
    ensures r.None? <==> (subtract.Some? ==> subtract.value.dtype == Float64) && (divide.Some? ==> divide.value.dtype == Float64)
    ensures divide.Some? && divide.value.dtype != Float64 ==> r == Some(ScalingNotFloat64(Divide))
    ensures r == Some(ScalingNotFloat64(Subtract)) ==> subtract.Some? && subtract.value.dtype != Float64
    ensures subtract.Some? && subtract.value.dtype != Float64 && !(divide.Some? && divide.value.dtype != Float64) ==>
              r == Some(ScalingNotFloat64(Subtract))
  {
    if divide.Some? && divide.value.dtype != Float64 then Some(ScalingNotFloat64(Divide))
    else if subtract.Some? && subtract.value.dtype != Float64 then Some(ScalingNotFloat64(Subtract))
    else None
  }

  /** The C++ `train` overload a call reaches, with its arguments. */
  datatype TrainCall =
    | Plain(data: seq<Input>)
    | Normalised(data: seq<Input>, subtract: Input, divide: Input)

  /** What `train` does with its arguments: refuses them, or calls the C++ trainer (possibly with an error pending). */
  datatype TrainDecision =
    | Rejected(error: Fault)
    | Dispatched(param: SvmParameter, call: TrainCall, pending: Option<Fault>)

  /** The rows of every class, in class order. */
  function ClassRows(data: seq<Input>): seq<seq<seq<real>>> {
    seq(|data|, g requires 0 <= g < |data| => data[g].Vectors())
  }

  /** The scaling vectors are float64 vectors that fit every row of the data, with no zero divisor. */
  predicate ScalingApplies(data: seq<Input>, subtract: Input, divide: Input) {
    && subtract.Vector? && subtract.dtype == Float64
    && divide.Vector? && divide.dtype == Float64
    && ScalingFits(|subtract.v|, subtract.v, divide.v)
    && GroupsHaveWidth(ClassRows(data), |subtract.v|)
  }

  /**
   * The samples the C++ trainer learns from: the class rows as given, or
   * every row scaled column-wise as d' = (d - subtract) / divide, so that
   * undoing the scaling gives each row back. None when the scaling vectors
   * do not fit.
   */
  function TrainingSamples(call: TrainCall): (groups: Option<seq<seq<seq<real>>>>)
    ensures call.Plain? ==> groups == Some(ClassRows(call.data))
    ensures call.Normalised? ==> (groups.Some? <==> ScalingApplies(call.data, call.subtract, call.divide))
    ensures groups.Some? ==> |groups.value| == |call.data|
    ensures groups.Some? ==> forall g :: 0 <= g < |call.data| ==> |groups.value[g]| == |call.data[g].Vectors()|
    ensures call.Normalised? && groups.Some? ==>
      forall g, k :: 0 <= g < |call.data| && 0 <= k < |call.data[g].Vectors()| ==>
        && |groups.value[g][k]| == |call.subtract.v|
        && Denormalize(groups.value[g][k], call.subtract.v, call.divide.v) == call.data[g].Vectors()[k]
  {
    match call
    case Plain(data) => Some(ClassRows(data))
    case Normalised(data, subtract, divide) =>
      if ScalingApplies(data, subtract, divide) then
        Some(NormalizeGroups(ClassRows(data), subtract.v, divide.v))
      else None
  }

  // ---------------------------------------------------------------------
  // The trainer object
  // ---------------------------------------------------------------------

  class TrainerObject {
    const cxx: Trainer

    constructor (cxx: Trainer)
      ensures this.cxx == cxx
    {
      this.cxx := cxx;
    }

    /** `machine_type`: the name of the trainer's machine type, which the setter accepts back. */
    function MachineTypeAttr(): (o: PyValue)
      reads cxx
      ensures MachineTypeOf(o) == Success(cxx.GetSvmType())
    {
      PyStr(MachineTypeName(cxx.GetSvmType()))
    }

    /** `kernel_type`: the name of the trainer's kernel type, which the setter accepts back. */
    function KernelTypeAttr(): (o: PyValue)
      reads cxx
      ensures KernelTypeOf(o) == Success(cxx.GetKernelType())
    {
      PyStr(KernelTypeName(cxx.GetKernelType()))
    }

    /** `degree`: an integer that converts back to the stored degree. */
    function DegreeAttr(): (o: PyValue)
      reads cxx
      ensures AsSsize(o) == Converted(cxx.GetDegree() as int, None)
    {
      PyInt(cxx.GetDegree())
    }

    /** `gamma`: a float that converts back to the stored value. */
    function GammaAttr(): (o: PyValue)
      reads cxx
      ensures AsDouble(o) == Converted(cxx.GetGamma(), None)
    {
      PyFloat(cxx.GetGamma())
    }

    /** `coef0`: a float that converts back to the stored value. */
    function Coef0Attr(): (o: PyValue)
      reads cxx
      ensures AsDouble(o) == Converted(cxx.GetCoef0(), None)
    {
      PyFloat(cxx.GetCoef0())
    }

    /** `probability`: a boolean whose truth value is the stored flag. */
    function ProbabilityAttr(): (o: PyValue)
      reads cxx
      ensures o.PyBool? && (IsTrue(o) == 1 <==> cxx.GetProbabilityEstimates()) && IsTrue(o) != -1
    {
      PyBool(cxx.GetProbabilityEstimates())
    }

    /** `shrinking`: a boolean whose truth value is the stored flag. */
    function ShrinkingAttr(): (o: PyValue)
      reads cxx
      ensures o.PyBool? && (IsTrue(o) == 1 <==> cxx.GetUseShrinking()) && IsTrue(o) != -1
    {
      PyBool(cxx.GetUseShrinking())
    }

    /** Setting `machine_type`: a known name replaces the type; anything else is refused and changes nothing. */
    method SetMachineType(o: PyValue) returns (err: Option<Fault>)
      modifies cxx
      ensures err.None? <==> MachineTypeOf(o).Success?
      ensures err.Some? ==> err.value == MachineTypeOf(o).error && cxx.param == old(cxx.param)
      ensures err.None? ==> cxx.param == old(cxx.param).(svmType := MachineTypeOf(o).value)
      ensures err.None? ==> MachineTypeAttr() == o
    {
      var m := MachineTypeOf(o);
      if m.Failure? {
        return Some(m.error);
      }
      cxx.SetSvmType(m.value);
      err := None;
    }

    /** Setting `kernel_type`: a known name replaces the type; anything else is refused and changes nothing. */
    method SetKernelType(o: PyValue) returns (err: Option<Fault>)
      modifies cxx
      ensures err.None? <==> KernelTypeOf(o).Success?
      ensures err.Some? ==> err.value == KernelTypeOf(o).error && cxx.param == old(cxx.param)
      ensures err.None? ==> cxx.param == old(cxx.param).(kernelType := KernelTypeOf(o).value)
      ensures err.None? ==> KernelTypeAttr() == o
    {
      var k := KernelTypeOf(o);
      if k.Failure? {
        return Some(k.error);
      }
      cxx.SetKernelType(k.value);
      err := None;
    }

    /**
     * Setting `degree`: the converted value, narrowed to a C `int`, is stored
     * before the conversion error is looked at, so a failed conversion
     * stores -1 and then reports the error.
     */
    method SetDegree(o: PyValue) returns (err: Option<Fault>)
      modifies cxx
      ensures cxx.param == old(cxx.param).(degree := WrapInt32(AsSsize(o).value))
      ensures err.None? <==> AsSsize(o).error.None?
      ensures err.Some? ==> err.value == ConversionFailed(AsSsize(o).error.value) && cxx.GetDegree() == -1
      ensures o.PyInt? && -0x8000_0000 <= o.i < 0x8000_0000 ==> err.None? && DegreeAttr() == o
    {
      var v := AsSsize(o);
      cxx.SetDegree(WrapInt32(v.value));
      if v.error.Some? {
        return Some(ConversionFailed(v.error.value));
      }
      err := None;
    }

    /** Setting `gamma`: as `degree`, with a conversion to `double`; a failed one stores -1.0. */
    method SetGamma(o: PyValue) returns (err: Option<Fault>)
      modifies cxx
      ensures cxx.param == old(cxx.param).(gamma := AsDouble(o).value)
      ensures err.None? <==> AsDouble(o).error.None?
      ensures err.Some? ==> err.value == ConversionFailed(TypeError) && cxx.GetGamma() == -1.0
      ensures o.PyFloat? ==> err.None? && GammaAttr() == o
    {
      var v := AsDouble(o);
      cxx.SetGamma(v.value);
      if v.error.Some? {
        return Some(ConversionFailed(v.error.value));
      }
      err := None;
    }

    /** Setting `coef0`: as `degree`, with a conversion to `double`; a failed one stores -1.0. */
    method SetCoef0(o: PyValue) returns (err: Option<Fault>)
      modifies cxx
      ensures cxx.param == old(cxx.param).(coef0 := AsDouble(o).value)
      ensures err.None? <==> AsDouble(o).error.None?
      ensures err.Some? ==> err.value == ConversionFailed(TypeError) && cxx.GetCoef0() == -1.0
      ensures o.PyFloat? ==> err.None? && Coef0Attr() == o
    {
      var v := AsDouble(o);
      cxx.SetCoef0(v.value);
      if v.error.Some? {
        return Some(ConversionFailed(v.error.value));
      }
      err := None;
    }

    /**
     * Setting `probability`: stores the object's truth value. A truth test
     * that raises counts as true, and its exception is left pending.
     */
    method SetProbability(o: PyValue) returns (pending: Option<Fault>)
      modifies cxx
      ensures cxx.param == old(cxx.param).(probability := IsTrue(o) != 0)
      ensures pending.Some? <==> IsTrue(o) == -1
      ensures pending.Some? ==> pending.value == TruthTestFailed
      ensures IsTrue(o) != -1 ==> IsTrue(ProbabilityAttr()) == IsTrue(o)
    {
      if IsTrue(o) != 0 {
        cxx.SetProbabilityEstimates(true);
      } else {
        cxx.SetProbabilityEstimates(false);
      }
      pending := if IsTrue(o) == -1 then Some(TruthTestFailed) else None;
    }

    /**
     * Setting `shrinking`: stores the object's truth value. A truth test
     * that raises counts as true, and its exception is left pending.
     */
    method SetShrinking(o: PyValue) returns (pending: Option<Fault>)
      modifies cxx
      ensures cxx.param == old(cxx.param).(shrinking := IsTrue(o) != 0)
      ensures pending.Some? <==> IsTrue(o) == -1
      ensures pending.Some? ==> pending.value == TruthTestFailed
      ensures IsTrue(o) != -1 ==> IsTrue(ShrinkingAttr()) == IsTrue(o)
    {
      if IsTrue(o) != 0 {
        cxx.SetUseShrinking(true);
      } else {
        cxx.SetUseShrinking(false);
      }
      pending := if IsTrue(o) == -1 then Some(TruthTestFailed) else None;
    }

    /**
     * `train(data, [subtract, divide])`: collects the class arrays in the
     * order `data` yields them, checks there are two classes at least and
     * that the scaling vectors come together, and then calls the normalising
     * C++ `train` when they are given and the plain one otherwise, with this
     * trainer's parameters.
     */
    method Train(data: Iterable, subtract: Option<Input>, divide: Option<Input>) returns (d: TrainDecision)
      requires data.Iterator? ==> ItemsWellFormed(data.items)
      requires subtract.Some? ==> subtract.value.WellFormed()
      requires divide.Some? ==> divide.value.WellFormed()
      ensures data.NotIterableObject? ==> d == Rejected(NotIterable)
      ensures data.Iterator? && !AllClassArrays(data.items) ==>
        exists p: nat :: FirstBadAt(data.items, p) && d == Rejected(ItemFault(data.items[p], p))
      ensures data.Iterator? && AllClassArrays(data.items) && data.failsAtEnd ==>
        d == Rejected(IterationFailed(|data.items|))
      ensures data.Iterator? && AllClassArrays(data.items) && !data.failsAtEnd ==>
        (d.Rejected? <==> CheckTrainArguments(|data.items|, subtract, divide).Some?)
      ensures d.Rejected? && data.Iterator? && AllClassArrays(data.items) && !data.failsAtEnd ==>
        Some(d.error) == CheckTrainArguments(|data.items|, subtract, divide)
      ensures d.Dispatched? ==>
        && data.Iterator? && AllClassArrays(data.items) && !data.failsAtEnd
        && |data.items| >= 2
        && d.param == cxx.param
        && |d.call.data| == |data.items|
        && (forall i :: 0 <= i < |data.items| ==> d.call.data[i] == data.items[i].arr)
        && (d.call.Normalised? <==> subtract.Some?)
        && (d.call.Normalised? ==> d.call.subtract == subtract.value && d.call.divide == divide.value)
        && d.pending == PendingDTypeError(subtract, divide)
    {
      if data.NotIterableObject? {
        return Rejected(NotIterable);
      }
      var collected := CollectClassArrays(data.items, data.failsAtEnd);
      if collected.Failure? {
        return Rejected(collected.error);
      }
      var arrays := collected.value;
      var refused := CheckTrainArguments(|arrays|, subtract, divide);
      if refused.Some? {
        return Rejected(refused.value);
      }
      var pending := PendingDTypeError(subtract, divide);
      if subtract.Some? && divide.Some? {
        d := Dispatched(cxx.param, Normalised(arrays, subtract.value, divide.value), pending);
      } else {
        d := Dispatched(cxx.param, Plain(arrays), pending);
      }
    }
  }
}
