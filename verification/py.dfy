/**
 * The Python value semantics the client relies on: decoded JSON values,
 * the exceptions the client raises or lets escape, dictionary indexing,
 * truthiness, `str()` and `int()` on the values that reach them.
 */
module Py {

  datatype Option<+T> = None | Some(value: T)

  /** The Python exceptions that the modelled code raises or lets escape. */
  datatype Error =
    | KeyError(key: Json)               // missing dictionary key
    | TypeError(reason: string)         // wrong kind of value for an operation
    | ValueError(text: string)          // `int()` of a malformed string
    | AttributeError(name: string)      // attribute looked up on the wrong object
    | NameError(name: string)           // name not bound at run time
    | IndexError                        // list index out of range
    | Exception(message: string)        // a plain `Exception(...)` with its message
    | AuthenticationError(message: string)
    | TrackLoadError(message: string)

  datatype Result<+T> = Ok(value: T) | Err(error: Error) {
    predicate IsFailure() { Err? }
    function PropagateFailure<U>(): Result<U>
      requires Err?
    {
      Err(error)
    }
    function Extract(): T
      requires Ok?
    {
      value
    }
  }

  /** A decoded JSON value. Numbers are integers; objects are keyed by string. */
  datatype Json =
    | JNull
    | JBool(b: bool)
    | JInt(i: int)
    | JStr(s: string)
    | JArr(items: seq<Json>)
    | JObj(fields: map<string, Json>)

  /** `payload[key]` on a decoded JSON value. */
  function Index(j: Json, key: string): (r: Result<Json>)
    ensures r.Ok? <==> j.JObj? && key in j.fields
    ensures r.Ok? ==> r.value == j.fields[key]
    ensures j.JObj? && key !in j.fields ==> r == Err(KeyError(JStr(key)))
  {
    match j
    case JObj(m) => if key in m then Ok(m[key]) else Err(KeyError(JStr(key)))
    case JArr(_) => Err(TypeError("list indices must be integers or slices, not str"))
    case JStr(_) => Err(TypeError("string indices must be integers"))
    case _ => Err(TypeError("object is not subscriptable"))
  }

  /** `payload.get(key, None)`: JSON null stands for Python's None. */
  function Get(j: Json, key: string): (r: Result<Json>)
    ensures r.Ok? <==> j.JObj?
    ensures j.JObj? ==> r.value == (if key in j.fields then j.fields[key] else JNull)
  {
    match j
    case JObj(m) => Ok(if key in m then m[key] else JNull)
    case _ => Err(AttributeError("get"))
  }

  /** `payload[0]`: the first element of a list (or character of a string). */
  function First(j: Json): (r: Result<Json>)
    ensures j.JArr? && |j.items| > 0 ==> r == Ok(j.items[0])
    ensures j.JArr? && |j.items| == 0 ==> r == Err(IndexError)
  {
    match j
    case JArr(xs) => if |xs| > 0 then Ok(xs[0]) else Err(IndexError)
    case JStr(s) => if |s| > 0 then Ok(JStr([s[0]])) else Err(IndexError)
    case JObj(m) => Err(KeyError(JInt(0)))
    case _ => Err(TypeError("object is not subscriptable"))
  }

  /** Python truthiness of a decoded JSON value. */
  predicate Truthy(j: Json) {
    match j
    case JNull => false
    case JBool(b) => b
    case JInt(i) => i != 0
    case JStr(s) => s != ""
    case JArr(xs) => xs != []
    case JObj(m) => m != map[]
  }

  function DigitChar(d: nat): (c: char)
    requires d < 10
    ensures '0' <= c <= '9'
  {
    "0123456789"[d]
  }

  function DigitValue(c: char): (d: nat)
    requires '0' <= c <= '9'
    ensures d < 10 && DigitChar(d) == c
  {
    (c as int - '0' as int) as nat
  }

  predicate IsDigits(s: string) {
    |s| > 0 && forall k :: 0 <= k < |s| ==> '0' <= s[k] <= '9'
  }

  /** Decimal rendering of a natural number, most significant digit first. */
  function NatStr(n: nat): (s: string)
    ensures IsDigits(s)
  {
    if n < 10 then [DigitChar(n)] else NatStr(n / 10) + [DigitChar(n % 10)]
  }

  /** Value of a non-empty string of decimal digits. */
  function DigitsValue(s: string): (n: nat)
    requires IsDigits(s)
  {
    if |s| == 1 then DigitValue(s[0])
    else DigitsValue(s[..|s| - 1]) * 10 + DigitValue(s[|s| - 1])
  }

  /** `str(i)` for an integer, such as a guild snowflake. */
  function IntStr(i: int): string {
    if i < 0 then "-" + NatStr(-i) else NatStr(i)
  }

  /** `int(s)` for a string: an optional sign followed by decimal digits. */
  function ParseInt(s: string): (r: Option<int>)
    ensures r.Some? ==> |s| > 0 && IsDigits(if s[0] == '-' || s[0] == '+' then s[1..] else s)
  {
    if |s| > 0 && (s[0] == '-' || s[0] == '+') then
      if IsDigits(s[1..]) then
        var v: int := DigitsValue(s[1..]);
        Some(if s[0] == '-' then -v else v)
      else None
    else if IsDigits(s) then Some(DigitsValue(s))
    else None
  }

  /** `int(v)` for a decoded JSON value: booleans are integers in Python. */
  function PyInt(j: Json): (r: Result<int>)
    ensures j.JInt? ==> r == Ok(j.i)
    ensures j.JBool? ==> r == Ok(if j.b then 1 else 0)
    ensures j.JStr? ==> (r.Ok? <==> ParseInt(j.s).Some?)
    ensures j.JStr? && r.Ok? ==> r.value == ParseInt(j.s).value
    ensures j.JStr? && r.Err? ==> r.error == ValueError(j.s)
    ensures !j.JInt? && !j.JBool? && !j.JStr? ==> r.Err? && r.error.TypeError?
  {
    match j
    case JInt(i) => Ok(i)
    case JBool(b) => Ok(if b then 1 else 0)
    case JStr(s) =>
      (match ParseInt(s)
       case Some(i) => Ok(i)
       case None => Err(ValueError(s)))
    case _ => Err(TypeError("int() argument must be a string or a number"))
  }

  /** `str(v)` for the scalar JSON values that reach an f-string. */
  function Str(j: Json): string {
    match j
    case JNull => "None"
    case JBool(b) => if b then "True" else "False"
    case JInt(i) => IntStr(i)
    case JStr(s) => s
    case JArr(_) => "[...]"
    case JObj(_) => "{...}"
  }

  lemma {:induction false} DigitsOfNatStr(n: nat)
    ensures DigitsValue(NatStr(n)) == n
  {
    if n >= 10 {
      var s := NatStr(n);
      DigitsOfNatStr(n / 10);
      assert s[..|s| - 1] == NatStr(n / 10);
      assert DigitValue(s[|s| - 1]) == n % 10;
    }
  }

  /** `int(str(g)) == g`: the guild id a frame carries parses back to the guild. */
  lemma ParseIntStr(i: int)
    ensures ParseInt(IntStr(i)) == Some(i)
  {
    var s := IntStr(i);
    if i < 0 {
      DigitsOfNatStr(-i);
      assert s[1..] == NatStr(-i);
    } else {
      DigitsOfNatStr(i);
    }
  }

  /** Distinct guilds are rendered as distinct strings. */
  lemma IntStrInjective(i: int, k: int)
    ensures IntStr(i) == IntStr(k) ==> i == k
  {
    ParseIntStr(i);
    ParseIntStr(k);
  }

  lemma PyIntOfIntStr(i: int)
    ensures PyInt(JStr(IntStr(i))) == Ok(i)
  {
    ParseIntStr(i);
  }
}
