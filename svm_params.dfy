/**
 * The C++ trainer: one libsvm parameter record with a getter and a setter
 * per field, the label assignment its `train` documents, and the
 * column-wise scaling its normalising `train` applies to the data.
 */
module SvmParams {
  import opened Wrappers

  datatype MachineType = C_SVC | NU_SVC | ONE_CLASS | EPSILON_SVR | NU_SVR

  datatype KernelType = LINEAR | POLY | RBF | SIGMOID | PRECOMPUTED

  /** A C `int`. */
  type Int32 = x: int | -0x8000_0000 <= x < 0x8000_0000

  /** The fields of libsvm's `svm_parameter` that the trainer exposes. */
  datatype SvmParameter = SvmParameter(
    svmType: MachineType,
    kernelType: KernelType,
    degree: Int32,
    gamma: real,
    coef0: real,
    cacheSize: real,   // in MB
    eps: real,         // stopping criterion
    cost: real,        // C
    nu: real,
    p: real,           // loss epsilon of epsilon-SVR
    shrinking: bool,
    probability: bool)

  /** The defaults of the command-line tool `svm-train`. */
  const Defaults := SvmParameter(C_SVC, RBF, 3, 0.0, 0.0, 100.0, 0.001, 1.0, 0.5, 0.1, true, false)

  class Trainer {
    var param: SvmParameter

    constructor (
      svmType: MachineType := C_SVC,
      kernelType: KernelType := RBF,
      degree: Int32 := 3,
      gamma: real := 0.0,
      coef0: real := 0.0,
      cacheSize: real := 100.0,
      eps: real := 0.001,
      cost: real := 1.0,
      nu: real := 0.5,
      p: real := 0.1,
      shrinking: bool := true,
      probability: bool := false)
      ensures param == SvmParameter(svmType, kernelType, degree, gamma, coef0, cacheSize,
                                    eps, cost, nu, p, shrinking, probability)
    {
      param := SvmParameter(svmType, kernelType, degree, gamma, coef0, cacheSize,
                            eps, cost, nu, p, shrinking, probability);
    }

    function GetSvmType(): MachineType reads this { param.svmType }
    function GetKernelType(): KernelType reads this { param.kernelType }
    function GetDegree(): Int32 reads this { param.degree }
    function GetGamma(): real reads this { param.gamma }
    function GetCoef0(): real reads this { param.coef0 }
    function GetCacheSizeInMB(): real reads this { param.cacheSize }
    function GetStopEpsilon(): real reads this { param.eps }
    function GetCost(): real reads this { param.cost }
    function GetNu(): real reads this { param.nu }
    function GetLossEpsilonSVR(): real reads this { param.p }
    function GetUseShrinking(): bool reads this { param.shrinking }
    function GetProbabilityEstimates(): bool reads this { param.probability }

    method SetSvmType(v: MachineType)
      modifies this
      ensures GetSvmType() == v
      ensures param == old(param).(svmType := v)
    {
      param := param.(svmType := v);
    }

    method SetKernelType(v: KernelType)
      modifies this
      ensures GetKernelType() == v
      ensures param == old(param).(kernelType := v)
    {
      param := param.(kernelType := v);
    }

    method SetDegree(v: Int32)
      modifies this
      ensures GetDegree() == v
      ensures param == old(param).(degree := v)
    {
      param := param.(degree := v);
    }

    method SetGamma(v: real)
      modifies this
      ensures GetGamma() == v
      ensures param == old(param).(gamma := v)
    {
      param := param.(gamma := v);
    }

    method SetCoef0(v: real)
      modifies this
      ensures GetCoef0() == v
      ensures param == old(param).(coef0 := v)
    {
      param := param.(coef0 := v);
    }

    method SetCacheSizeInMb(v: real)
      modifies this
      ensures GetCacheSizeInMB() == v
      ensures param == old(param).(cacheSize := v)
    {
      param := param.(cacheSize := v);
    }

    method SetStopEpsilon(v: real)
      modifies this
      ensures GetStopEpsilon() == v
      ensures param == old(param).(eps := v)
    {
      param := param.(eps := v);
    }

    method SetCost(v: real)
      modifies this
      ensures GetCost() == v
      ensures param == old(param).(cost := v)
    {
      param := param.(cost := v);
    }

    method SetNu(v: real)
      modifies this
      ensures GetNu() == v
      ensures param == old(param).(nu := v)
    {
      param := param.(nu := v);
    }

    method SetLossEpsilonSVR(v: real)
      modifies this
      ensures GetLossEpsilonSVR() == v
      ensures param == old(param).(p := v)
    {
      param := param.(p := v);
    }

    method SetUseShrinking(v: bool)
      modifies this
      ensures GetUseShrinking() == v
      ensures param == old(param).(shrinking := v)
    {
      param := param.(shrinking := v);
    }

    method SetProbabilityEstimates(v: bool)
      modifies this
      ensures GetProbabilityEstimates() == v
      ensures param == old(param).(probability := v)
    {
      param := param.(probability := v);
    }
  }

  /** A client of the constructor: building a trainer with no arguments gives the `svm-train` defaults. */
  method NewDefaultTrainer() returns (t: Trainer)
    ensures fresh(t)
    ensures t.param == Defaults
  {
    t := new Trainer();
  }

  // ---------------------------------------------------------------------
  // Labels assigned to the class groups handed to `train`
  // ---------------------------------------------------------------------

  /**
   * The solver label of each of `n` class groups, in group order: -1 and +1
   * for two groups, 1, 2, ..., n for more.
   */
  function AssignLabels(n: nat): (labels: seq<int>)
    requires n >= 2
    ensures |labels| == n
    ensures forall i, j :: 0 <= i < j < n ==> labels[i] < labels[j]
  {
    if n == 2 then [-1, 1] else seq(n, i => i + 1)
  }

  /** The group a solver label stands for, when there are `n` groups. */
  function LabelIndex(n: nat, lbl: int): (index: Option<nat>)
    requires n >= 2
    ensures index.Some? ==> index.value < n
  {
    if n == 2 then
      (if lbl == -1 then Some(0) else if lbl == 1 then Some(1) else None)
    else if 1 <= lbl <= n then Some(lbl - 1)
    else None
  }

  /** The binary convention and the multi-class convention, as the header documents them. */
  lemma AssignLabelsConvention(n: nat)
    requires n >= 2
    ensures n == 2 ==> AssignLabels(n) == [-1, 1]
    ensures n > 2 ==> forall i :: 0 <= i < n ==> AssignLabels(n)[i] == i + 1
  {
  }

  /** The label table is a bijection between groups and labels: LabelIndex inverts AssignLabels. */
  lemma LabelTableBijective(n: nat, i: nat, lbl: int)
    requires n >= 2
    ensures i < n ==> LabelIndex(n, AssignLabels(n)[i]) == Some(i)
    ensures LabelIndex(n, lbl) == Some(i) ==> AssignLabels(n)[i] == lbl
  {
  }

  // ---------------------------------------------------------------------
  // Column-wise scaling d' = (d - subtract) / divide
  // ---------------------------------------------------------------------

  /** Scaling vectors fit vectors of `width` entries, and no divisor is zero. */
  predicate ScalingFits(width: nat, subtract: seq<real>, divide: seq<real>) {
    && |subtract| == width
    && |divide| == width
    && forall j :: 0 <= j < width ==> divide[j] != 0.0
  }

  /** Undoes the scaling: d = d' * divide + subtract. */
  function Denormalize(y: seq<real>, subtract: seq<real>, divide: seq<real>): (x: seq<real>)
    requires |subtract| == |y| && |divide| == |y|
    ensures |x| == |y|
  {
    seq(|y|, j requires 0 <= j < |y| => y[j] * divide[j] + subtract[j])
  }

  /** Scales one vector column by column; Denormalize gives it back. */
  function Normalize(x: seq<real>, subtract: seq<real>, divide: seq<real>): (y: seq<real>)
    requires ScalingFits(|x|, subtract, divide)
    ensures |y| == |x|
    ensures Denormalize(y, subtract, divide) == x
  {
    var y := seq(|x|, j requires 0 <= j < |x| => (x[j] - subtract[j]) / divide[j]);
    forall j | 0 <= j < |x| ensures Denormalize(y, subtract, divide)[j] == x[j] {
      ScaleBack(x[j], subtract[j], divide[j]);
    }
    y
  }

  lemma ScaleBack(d: real, s: real, q: real)
    requires q != 0.0
    ensures ((d - s) / q) * q + s == d
  {
  }

  /** Scaling by the defaults (subtract 0, divide by 1) leaves a vector as it is. */
  lemma NormalizeIdentity(x: seq<real>)
    ensures ScalingFits(|x|, seq(|x|, _ => 0.0), seq(|x|, _ => 1.0))
    ensures Normalize(x, seq(|x|, _ => 0.0), seq(|x|, _ => 1.0)) == x
  {
  }

  /** Every row of every class group has `width` entries. */
  predicate GroupsHaveWidth(groups: seq<seq<seq<real>>>, width: nat) {
    forall g, k :: 0 <= g < |groups| && 0 <= k < |groups[g]| ==> |groups[g][k]| == width
  }

  /** The data the normalising `train` hands on: every row of every group scaled column-wise. */
  function NormalizeGroups(groups: seq<seq<seq<real>>>, subtract: seq<real>, divide: seq<real>)
    : (scaled: seq<seq<seq<real>>>)
    requires ScalingFits(|subtract|, subtract, divide)
    requires GroupsHaveWidth(groups, |subtract|)
    ensures |scaled| == |groups|
    ensures forall g :: 0 <= g < |groups| ==> |scaled[g]| == |groups[g]|
    ensures forall g, k :: 0 <= g < |groups| && 0 <= k < |groups[g]| ==>
              |scaled[g][k]| == |subtract| && Denormalize(scaled[g][k], subtract, divide) == groups[g][k]
  {
    seq(|groups|, g requires 0 <= g < |groups| =>
      seq(|groups[g]|, k requires 0 <= k < |groups[g]| => Normalize(groups[g][k], subtract, divide)))
  }
}
