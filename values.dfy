/**
  The values held in the TOML configuration, in HPhi input dictionaries and in
  the store's `basic_info`, with Python's `==` on them, and the runtime
  services (float parsing and formatting, square root) that the code takes
  from Python and numpy.
 */
module Values {
  import opened Wrappers
  import opened Text

  datatype Value =
    | VStr(s: string)
    | VInt(i: int)
    | VReal(r: real)
    | VBool(b: bool)
    | VList(items: seq<Value>)
    | VTable(entries: seq<(string, Value)>)

  /** The number a bool, int or float stands for in a Python comparison (True == 1). */
  function NumberOf(v: Value): Option<real> {
    match v
    case VInt(i) => Some(i as real)
    case VReal(r) => Some(r)
    case VBool(b) => Some(if b then 1.0 else 0.0)
    case _ => None
  }

  /** Python's `a == b`: numbers compare by value across int, float and bool. */
  predicate PyEq(a: Value, b: Value) {
    if NumberOf(a).Some? && NumberOf(b).Some? then NumberOf(a).value == NumberOf(b).value
    else a == b
  }

  /** The float() conversions and text formats the code uses, taken as given. */
  datatype Runtime = Runtime(
    parseFloat: string -> Option<real>,  // float(s); None where Python raises ValueError
    str: real -> string,                 // str(x) and "{}".format(x)
    percentF: real -> string,            // "%f" % x
    percent12_8f: real -> string,        // "%12.8f" % x
    fmt16f: real -> string,              // "{0:.16f}".format(x)
    fmt8f: real -> string,               // "{:8f}".format(x)
    npArray: seq<Option<real>> -> string, // str() of a one-dimensional numpy array (None is nan)
    repr: Value -> string,               // str() of a list or a dict
    sqrt: real -> real,                  // math.sqrt
    sinPi: real -> real,                 // math.sin(math.pi * x)
    cosPi: real -> real)                 // math.cos(math.pi * x)

  /** float(s) */
  function Float(s: string, py: Runtime): Result<real> {
    match py.parseFloat(s)
    case None => Err(ValueError(s))
    case Some(x) => Ok(x)
  }

  /** int(x) for a float, and numpy's float -> int64 cast: truncation toward zero. */
  function Trunc(x: real): int {
    if x >= 0.0 then x.Floor else -((-x).Floor)
  }

  /** "{}".format(v) for a configuration value. */
  function ValueText(v: Value, py: Runtime): string {
    match v
    case VStr(s) => s
    case VInt(i) => IntToDecimal(i)
    case VReal(r) => py.str(r)
    case VBool(b) => if b then "True" else "False"
    case _ => py.repr(v)
  }

  lemma PyEqFacts(a: Value, b: Value)
    ensures PyEq(a, a)
    ensures PyEq(a, b) == PyEq(b, a)
    ensures PyEq(VInt(16), VReal(16.0)) && PyEq(VBool(true), VInt(1)) && !PyEq(VStr("16"), VInt(16))
  {
  }
}
