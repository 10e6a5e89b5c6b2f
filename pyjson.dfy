/**
  * The Python values the backend handles: what `json.load` and
  * `request.get_json()` produce, plus numpy scalars, with the parts of
  * Python's built-ins the backend relies on (truthiness, `dict.get`,
  * `float()`, `int()` and `+`).
  */
module PyJson {
  import opened Wrappers

  datatype Value =
    | Null
    | Bool(b: bool)
    | Int(i: int)
    | Real(r: real)
    | Str(s: string)
    | List(items: seq<Value>)
    | Dict(fields: map<string, Value>)
    | Np(item: Value)  // a numpy scalar (np.generic); `item` is what `.item()` returns

  /** The exception classes the modelled code can raise. */
  datatype PyError = TypeError | ValueError | AttributeError

  /**
    * The text parsers of the Python runtime, left abstract: `float(s)` on a
    * string and `datetime.fromisoformat(s).timestamp()`; None when they raise.
    */
  datatype TextParsers = TextParsers(float: string -> Option<real>, iso: string -> Option<real>)

  /** Python's `bool(v)`. */
  predicate Truthy(v: Value) {
    match v
    case Null => false
    case Bool(b) => b
    case Int(i) => i != 0
    case Real(r) => r != 0.0
    case Str(s) => s != ""
    case List(xs) => xs != []
    case Dict(m) => m != map[]
    case Np(x) => Truthy(x)
  }

  /** `d.get(key, default)`. */
  function Get(d: map<string, Value>, key: string, default: Value): Value {
    if key in d then d[key] else default
  }

  /** `int(x)` for a float: truncation toward zero. */
  function Trunc(x: real): (n: int)
    ensures 0.0 <= x ==> 0 <= n && n as real <= x < n as real + 1.0
    ensures x < 0.0 ==> n <= 0 && n as real - 1.0 < x <= n as real
  {
    if x >= 0.0 then x.Floor else -((-x).Floor)
  }

  predicate IsDigit(c: char) { '0' <= c <= '9' }

  /** The value of a string of decimal digits. */
  function DigitsValue(ds: string): (n: nat)
    requires forall i :: 0 <= i < |ds| ==> IsDigit(ds[i])
  {
    if ds == [] then 0
    else
      assert IsDigit(ds[|ds| - 1]);
      DigitsValue(ds[..|ds| - 1]) * 10 + (ds[|ds| - 1] as int - '0' as int)
  }

  /**
    * `int(s)` on a string: an optional sign followed by one or more ASCII
    * digits; None where Python raises ValueError.
    */
  function ParseInt(s: string): Option<int> {
    if |s| > 0 && (s[0] == '-' || s[0] == '+') then
      var ds := s[1..];
      if |ds| > 0 && forall i :: 0 <= i < |ds| ==> IsDigit(ds[i]) then
        Some(if s[0] == '-' then 0 - DigitsValue(ds) else DigitsValue(ds))
      else None
    else if |s| > 0 && forall i :: 0 <= i < |s| ==> IsDigit(s[i]) then
      Some(DigitsValue(s))
    else None
  }

  /** Python's `float(v)`. */
  function ToFloat(v: Value, p: TextParsers): Result<real, PyError> {
    match v
    case Null => Err(TypeError)
    case Bool(b) => Ok(if b then 1.0 else 0.0)
    case Int(i) => Ok(i as real)
    case Real(r) => Ok(r)
    case Str(s) => if p.float(s).Some? then Ok(p.float(s).value) else Err(ValueError)
    case List(_) => Err(TypeError)
    case Dict(_) => Err(TypeError)
    case Np(x) => ToFloat(x, p)
  }

  /** Python's `int(v)`. */
  function ToInt(v: Value): Result<int, PyError> {
    match v
    case Null => Err(TypeError)
    case Bool(b) => Ok(if b then 1 else 0)
    case Int(i) => Ok(i)
    case Real(r) => Ok(Trunc(r))
    case Str(s) => if ParseInt(s).Some? then Ok(ParseInt(s).value) else Err(ValueError)
    case List(_) => Err(TypeError)
    case Dict(_) => Err(TypeError)
    case Np(x) => ToInt(x)
  }

  /** Numbers in Python's sense (bool is a subclass of int). */
  predicate IsNumber(v: Value) {
    v.Bool? || v.Int? || v.Real? || (v.Np? && IsNumber(v.item))
  }

  predicate IsIntLike(v: Value) {
    v.Bool? || v.Int? || (v.Np? && IsIntLike(v.item))
  }

  function NumberOf(v: Value): real
    requires IsNumber(v)
  {
    match v
    case Bool(b) => if b then 1.0 else 0.0
    case Int(i) => i as real
    case Real(r) => r
    case Np(x) => NumberOf(x)
  }

  function IntOf(v: Value): int
    requires IsIntLike(v)
  {
    match v
    case Bool(b) => if b then 1 else 0
    case Int(i) => i
    case Np(x) => IntOf(x)
  }

  /** Python's `a + b` on the values JSON can carry. */
  function Add(a: Value, b: Value): Result<Value, PyError> {
    if IsNumber(a) && IsNumber(b) then
      if IsIntLike(a) && IsIntLike(b) then Ok(Int(IntOf(a) + IntOf(b)))
      else Ok(Real(NumberOf(a) + NumberOf(b)))
    else if a.Str? && b.Str? then Ok(Str(a.s + b.s))
    else if a.List? && b.List? then Ok(List(a.items + b.items))
    else Err(TypeError)
  }

  /** No numpy scalar anywhere inside: what `jsonify` can serialise. */
  predicate IsNative(v: Value) {
    match v
    case Np(_) => false
    case List(xs) => forall i :: 0 <= i < |xs| ==> IsNative(xs[i])
    case Dict(m) => forall k :: k in m ==> IsNative(m[k])
    case _ => true
  }

  /** Every numpy scalar inside wraps a Python bool, int or float. */
  predicate WellFormed(v: Value) {
    match v
    case Np(x) => x.Bool? || x.Int? || x.Real?
    case List(xs) => forall i :: 0 <= i < |xs| ==> WellFormed(xs[i])
    case Dict(m) => forall k :: k in m ==> WellFormed(m[k])
    case _ => true
  }
}
