/**
 * The slice of JavaScript semantics the relay depends on: the values that
 * `JSON.parse` yields, property reads (which throw on `undefined` and `null`),
 * truthiness, the `String(v)` conversion used by template literals, and
 * thrown errors as a `Result`.
 */
module Js {

  /** An optional value, for fields that JavaScript may leave absent. */
  datatype Option<+T> = None | Some(value: T) {

    /** The value, or `default` when absent (JavaScript's `x || default` on objects). */
    function GetOr(default: T): T {
      match this
      case Some(v) => v
      case None => default
    }
  }

  /**
   * A JavaScript value as produced by `JSON.parse` or by reading a property of
   * such a value. Numbers are restricted to integers.
   */
  datatype JsValue =
    | Undefined
    | Null
    | Bool(b: bool)
    | Num(n: int)
    | Str(s: string)
    | Arr(items: seq<JsValue>)
    | Obj(fields: map<string, JsValue>)

  /** What `throw` carries: the handlers only ever look at `error.message`. */
  datatype Error = Error(message: string)

  /** A computation that either returns a value or throws. */
  datatype Result<+T> = Ok(value: T) | Throw(error: Error) {

    predicate IsFailure() {
      Throw?
    }

    function PropagateFailure<U>(): Result<U>
      requires Throw?
    {
      Throw(error)
    }

    function Extract(): T
      requires Ok?
    {
      value
    }
  }

  /** A side-effecting call with no useful result: it returns or it throws. */
  datatype Outcome = Pass | Fail(error: Error)

  /** `JSON.parse`: the parsed value, or the `SyntaxError` it throws. */
  type Parser = string -> Result<JsValue>

  /** `undefined` and `null`: the values whose properties cannot be read. */
  predicate Nullish(v: JsValue) {
    v.Undefined? || v.Null?
  }

  /** JavaScript truthiness (`!!v`). */
  predicate Truthy(v: JsValue) {
    match v
    case Undefined => false
    case Null => false
    case Bool(b) => b
    case Num(n) => n != 0
    case Str(s) => s != ""
    case Arr(_) => true
    case Obj(_) => true
  }

  /**
   * `v[key]` for a key that no built-in prototype defines: an own field of an
   * object, `undefined` on every other non-nullish value, and V8's TypeError
   * when `v` is `undefined` or `null`.
   */
  function Get(v: JsValue, key: string): (r: Result<JsValue>)
    ensures r.Throw? <==> Nullish(v)
    ensures r.Throw? ==> r.error.message == ReadErrorMessage(v, key)
    ensures r.Ok? && v.Obj? && key in v.fields ==> r.value == v.fields[key]
    ensures r.Ok? && !(v.Obj? && key in v.fields) ==> r.value == Undefined
  {
    if Nullish(v) then Throw(Error(ReadErrorMessage(v, key)))
    else if v.Obj? && key in v.fields then Ok(v.fields[key])
    else Ok(Undefined)
  }

  /** V8's message for reading `key` of `undefined` or `null`. */
  function ReadErrorMessage(v: JsValue, key: string): string {
    "Cannot read properties of " + (if v.Null? then "null" else "undefined") + " (reading '" + key + "')"
  }

  /** `v[keys[0]][keys[1]]...`, throwing at the first nullish intermediate value. */
  function GetPath(v: JsValue, keys: seq<string>): (r: Result<JsValue>)
    ensures |keys| == 0 ==> r == Ok(v)
    ensures |keys| > 0 && Nullish(v) ==> r.Throw?
    decreases |keys|
  {
    if |keys| == 0 then Ok(v)
    else
      var next :- Get(v, keys[0]);
      GetPath(next, keys[1..])
  }

  /** The TypeError V8 throws when an object has no usable `toString` or `valueOf`. */
  const CannotConvert := Error("Cannot convert object to primitive value")

  /**
   * `String(v)` does not throw. A parsed object converts through the inherited
   * `toString` unless it has an own `toString` field, which is never callable
   * and leaves only the inherited `valueOf`, whose result is no primitive. An
   * array converts each non-nullish element in turn.
   */
  predicate Convertible(v: JsValue)
    decreases v
  {
    match v
    case Obj(fields) => "toString" !in fields
    case Arr(items) => forall i :: 0 <= i < |items| ==> Convertible(items[i])
    case _ => true
  }

  /** `String(v)`, which is what `${v}` in a template literal produces. */
  function ToDisplayString(v: JsValue): (r: Result<string>)
    ensures r.Ok? <==> Convertible(v)
    ensures r.Throw? ==> r.error == CannotConvert
    ensures v == Undefined ==> r == Ok("undefined")
    ensures v == Null ==> r == Ok("null")
    ensures v.Str? ==> r == Ok(v.s)
    ensures v.Num? && v.n >= 0 ==>
      r.Ok? && IsDigits(r.value) && DecimalValue(r.value) == v.n && |r.value| > 0 && (r.value == "0" || r.value[0] != '0')
    ensures v.Num? && v.n < 0 ==>
      r.Ok? && |r.value| > 1 && r.value[0] == '-' && IsDigits(r.value[1..]) && DecimalValue(r.value[1..]) == -v.n
    ensures v.Num? && v.n < 0 ==> r.Ok? && |r.value| > 1 && r.value[1] != '0'
    ensures v.Obj? && "toString" !in v.fields ==> r == Ok("[object Object]")
    decreases v, 1
  {
    match v
    case Undefined => Ok("undefined")
    case Null => Ok("null")
    case Bool(b) => Ok(if b then "true" else "false")
    case Num(n) =>
      var digits := NatToDecimal(if n < 0 then -n else n);
      NatToDecimalRoundTrip(if n < 0 then -n else n);
      assert n < 0 ==> IntToDecimal(n)[1..] == digits;
      Ok(IntToDecimal(n))
    case Str(s) => Ok(s)
    case Arr(items) => JoinElements(items)
    case Obj(fields) => if "toString" in fields then Throw(CannotConvert) else Ok("[object Object]")
  }

  /**
   * `Array.prototype.join(",")`: nullish elements print as the empty string;
   * the first element that cannot be converted makes the join throw.
   */
  function JoinElements(items: seq<JsValue>): (r: Result<string>)
    ensures r.Ok? <==> forall i :: 0 <= i < |items| ==> Convertible(items[i])
    ensures r.Throw? ==> r.error == CannotConvert
    decreases items, 0
  {
    if |items| == 0 then Ok("")
    else
      assert forall i :: 1 <= i < |items| ==> items[i] == items[1..][i - 1];
      var head :- if Nullish(items[0]) then Ok("") else ToDisplayString(items[0]);
      if |items| == 1 then Ok(head)
      else
        var tail :- JoinElements(items[1..]);
        Ok(head + "," + tail)
  }

  /** The decimal digit character for `d`. */
  function DigitChar(d: nat): char
    requires d < 10
  {
    "0123456789"[d]
  }

  /** The value of a decimal digit character. */
  function DigitValue(c: char): nat
    requires '0' <= c <= '9'
  {
    c as nat - '0' as nat
  }

  predicate IsDigits(s: string) {
    forall i :: 0 <= i < |s| ==> '0' <= s[i] <= '9'
  }

  /** The decimal rendering of a natural number, without leading zeros. */
  function NatToDecimal(n: nat): (r: string)
    ensures |r| > 0 && IsDigits(r)
    ensures r[0] == '0' ==> n == 0
    ensures n == 0 ==> r == "0"
    decreases n
  {
    if n < 10 then [DigitChar(n)]
    else NatToDecimal(n / 10) + [DigitChar(n % 10)]
  }

  /** The number a string of decimal digits denotes. */
  function DecimalValue(s: string): nat
    requires IsDigits(s)
    decreases |s|
  {
    if |s| == 0 then 0
    else 10 * DecimalValue(s[..|s| - 1]) + DigitValue(s[|s| - 1])
  }

  /** Reading back the decimal rendering gives the number again. */
  lemma {:induction false} NatToDecimalRoundTrip(n: nat)
    ensures DecimalValue(NatToDecimal(n)) == n
    decreases n
  {
    var r := NatToDecimal(n);
    if n < 10 {
      assert r == [DigitChar(n)];
      assert r[..0] == [];
    } else {
      var prefix := NatToDecimal(n / 10);
      assert r == prefix + [DigitChar(n % 10)];
      assert r[..|r| - 1] == prefix;
      NatToDecimalRoundTrip(n / 10);
    }
  }

  /**
   * The decimal rendering is the only canonical one: any digit string without
   * a leading zero (other than "0" itself) that reads back to `n` is it.
   */
  lemma {:induction false} NatToDecimalUnique(s: string, n: nat)
    requires |s| > 0 && IsDigits(s) && (s == "0" || s[0] != '0') && DecimalValue(s) == n
    ensures s == NatToDecimal(n)
    decreases |s|
  {
    var d := s[|s| - 1];
    if |s| == 1 {
      assert n == DigitValue(d);
      assert DigitChar(n) == d;
    } else {
      var prefix := s[..|s| - 1];
      assert prefix[0] == s[0];
      assert n == 10 * DecimalValue(prefix) + DigitValue(d);
      assert n / 10 == DecimalValue(prefix) && n % 10 == DigitValue(d);
      NatToDecimalUnique(prefix, n / 10);
      assert DigitChar(n % 10) == d;
      assert s == prefix + [d];
    }
  }

  /** `String(n)` for an integer number. */
  function IntToDecimal(n: int): (r: string)
    ensures n >= 0 ==> r == NatToDecimal(n)
    ensures n < 0 ==> r == "-" + NatToDecimal(-n)
  {
    if n < 0 then "-" + NatToDecimal(-n) else NatToDecimal(n)
  }
}
