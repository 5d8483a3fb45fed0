/**
 * The Python objects the bindings receive where they do not expect an
 * array, and the C-API conversions they apply to them: truth testing,
 * conversion to `Py_ssize_t` and conversion to a C `double`.
 */
module PyObjects {
  import opened Wrappers

  /** The Python exception classes the bindings raise. */
  datatype ErrorKind = TypeError | RuntimeError | OverflowError

  /** The range of `Py_ssize_t` on a 64-bit platform: [SsizeMin, SsizeBound). */
  const SsizeMin: int := -0x8000_0000_0000_0000
  const SsizeBound: int := 0x8000_0000_0000_0000

  /** A Python object; `PyOther` is any other object, with the outcome of its truth test (None when it raises). */
  datatype PyValue =
    | PyNone
    | PyBool(b: bool)
    | PyInt(i: int)
    | PyFloat(f: real)
    | PyStr(s: string)
    | PyList(items: seq<PyValue>)
    | PyOther(typeName: string, truth: Option<bool>)

  /** `PyObject_IsTrue`: 1 for a true object, 0 for a false one, -1 when the truth test raises. */
  function IsTrue(o: PyValue): (t: int)
    ensures -1 <= t <= 1
    ensures t == -1 <==> o.PyOther? && o.truth.None?
    ensures o.PyBool? ==> (t == 1 <==> o.b)
    ensures o.PyNone? ==> t == 0
  {
    match o
    case PyNone => 0
    case PyBool(b) => if b then 1 else 0
    case PyInt(i) => if i != 0 then 1 else 0
    case PyFloat(f) => if f != 0.0 then 1 else 0
    case PyStr(s) => if |s| > 0 then 1 else 0
    case PyList(items) => if |items| > 0 then 1 else 0
    case PyOther(_, truth) =>
      match truth
      case Some(b) => if b then 1 else 0
      case None => -1
  }

  /** What a C-API conversion returns, and the exception it leaves set, if any. */
  datatype Converted<T> = Converted(value: T, error: Option<ErrorKind>)

  /**
   * `PyNumber_AsSsize_t(o, PyExc_OverflowError)`: integers (booleans among
   * them) in range convert; an integer out of range gives an OverflowError,
   * anything else a TypeError, and both return -1.
   */
  function AsSsize(o: PyValue): (r: Converted<int>)
    ensures r.error.None? <==> o.PyBool? || (o.PyInt? && SsizeMin <= o.i < SsizeBound)
    ensures r.error.None? ==> SsizeMin <= r.value < SsizeBound
    ensures r.error.None? && o.PyInt? ==> r.value == o.i
    ensures o.PyBool? ==> r == Converted(if o.b then 1 else 0, None)
    ensures r.error.Some? ==> r.value == -1
    ensures r.error == Some(OverflowError) <==> o.PyInt? && !(SsizeMin <= o.i < SsizeBound)
    ensures !o.PyInt? && !o.PyBool? ==> r.error == Some(TypeError)
  {
    match o
    case PyBool(b) => Converted(if b then 1 else 0, None)
    case PyInt(i) =>
      if SsizeMin <= i < SsizeBound then Converted(i, None) else Converted(-1, Some(OverflowError))
    case _ => Converted(-1, Some(TypeError))
  }

  /**
   * `PyFloat_AsDouble`: floats as they are, integers and booleans by value;
   * anything else gives a TypeError and returns -1.0.
   */
  function AsDouble(o: PyValue): (r: Converted<real>)
    ensures r.error.None? <==> o.PyFloat? || o.PyInt? || o.PyBool?
    ensures r.error.None? && o.PyFloat? ==> r.value == o.f
    ensures o.PyInt? ==> r == Converted(o.i as real, None)
    ensures o.PyBool? ==> r == Converted(if o.b then 1.0 else 0.0, None)
    ensures r.error.Some? ==> r.value == -1.0 && r.error == Some(TypeError)
  {
    match o
    case PyFloat(f) => Converted(f, None)
    case PyInt(i) => Converted(i as real, None)
    case PyBool(b) => Converted(if b then 1.0 else 0.0, None)
    case _ => Converted(-1.0, Some(TypeError))
  }
}
