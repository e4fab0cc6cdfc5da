/** Decoded JSON values as `json.loads` hands them to the coordinator, and the
    Python built-ins (`int()`, `float()`, `str()`, truthiness) that the
    coordinator applies to them. */
module Json {

  import opened Options

  /** A decoded JSON value. Numbers written without a fraction or exponent
      decode to Python ints (`Integer`), the others to floats (`Number`). */
  datatype Value =
    | Null
    | Boolean(b: bool)
    | Integer(i: int)
    | Number(r: real)
    | Text(s: string)
    | List(items: seq<Value>)
    | Object(fields: map<string, Value>)

  /** One inbound WebSocket message once decoded: a top-level JSON object. */
  type Message = map<string, Value>

  /** The parts of Python's built-ins that read text. They are library code,
      so the model takes them as given: `parseInt(s)` is `int(s)` and
      `parseFloat(s)` is `float(s)` for a `str` s (None where Python raises
      ValueError), and `show(v)` is `str(v)` for a value that is not a `str`. */
  datatype Builtins = Builtins(
    parseInt: string -> Option<int>,
    parseFloat: string -> Option<real>,
    show: Value -> string)

  /** `int(r)` of a float: truncation toward zero. */
  function TruncTowardZero(r: real): (n: int)
    ensures 0.0 <= r ==> 0 <= n && n as real <= r < n as real + 1.0
    ensures r < 0.0 ==> n <= 0 && n as real - 1.0 < r <= n as real
  {
    if 0.0 <= r then r.Floor else -((-r).Floor)
  }

  /** `int(v)`; None where Python raises (TypeError for None, lists and dicts). */
  function IntOf(py: Builtins, v: Value): Option<int>
  {
    match v
    case Integer(i) => Some(i)
    case Number(r) => Some(TruncTowardZero(r))
    case Boolean(b) => Some(if b then 1 else 0)
    case Text(s) => py.parseInt(s)
    case _ => None
  }

  /** 2^1024 - 2^970, halfway between the largest finite double,
      (2^53 - 1) * 2^971, and 2^1024. An integer of at least this magnitude
      rounds to 2^1024 under round-half-to-even, so converting it to a float
      raises OverflowError. */
  const FloatLimit: int :=
    0xFFFFFFFFFFFFFC00_0000000000000000_0000000000000000_0000000000000000_0000000000000000_0000000000000000_0000000000000000_0000000000000000_0000000000000000_0000000000000000_0000000000000000_0000000000000000_0000000000000000_0000000000000000_0000000000000000_0000000000000000

  /** `float(i)` of an int does not raise. */
  predicate FitsFloat(i: int)
  {
    -FloatLimit < i < FloatLimit
  }

  /** `float(v)`; None where Python raises. */
  function FloatOf(py: Builtins, v: Value): Option<real>
  {
    match v
    case Integer(i) => if FitsFloat(i) then Some(i as real) else None
    case Number(r) => Some(r)
    case Boolean(b) => Some(if b then 1.0 else 0.0)
    case Text(s) => py.parseFloat(s)
    case _ => None
  }

  /** The number a value stands for in Python arithmetic and `round()`
      (bools are ints); None for the values on which they raise TypeError. */
  function NumberOf(v: Value): Option<real>
  {
    match v
    case Integer(i) => Some(i as real)
    case Number(r) => Some(r)
    case Boolean(b) => Some(if b then 1.0 else 0.0)
    case _ => None
  }

  /** `str(v)`. */
  function StrOf(py: Builtins, v: Value): string
  {
    if v.Text? then v.s else py.show(v)
  }

  /** Python truthiness of a decoded value. */
  predicate Truthy(v: Value)
  {
    match v
    case Null => false
    case Boolean(b) => b
    case Integer(i) => i != 0
    case Number(r) => r != 0.0
    case Text(s) => s != []
    case List(items) => items != []
    case Object(fields) => fields != map[]
  }

  /** `m.get(key, default)` on a dict. */
  function Get(m: map<string, Value>, key: string, default: Value): Value
  {
    if key in m then m[key] else default
  }
}
