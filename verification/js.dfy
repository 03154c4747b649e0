/**
 * The slice of JavaScript's value semantics that the application's logic
 * depends on: truthiness, `||`, property reads (plain and optional),
 * string coercion, thrown exceptions, and the shape of an HTTP reply.
 */
module Js {

  datatype Option<T> = None | Some(value: T)

  /** A JavaScript value. Numbers are integers; an object is its own-property map. */
  datatype Value =
    | Undefined
    | Null
    | Bool(b: bool)
    | Num(n: int)
    | Str(s: string)
    | Obj(fields: map<string, Value>)

  /** How an expression or an async function ends: normally, or by throwing. */
  datatype Completion = Return(value: Value) | Throw(exception: Value)

  /** What an awaited axios request produces: a response carrying `data`, or a rejection. */
  datatype HttpOutcome = Response(data: Value) | Failure(error: Value)

  predicate Nullish(v: Value) {
    v.Undefined? || v.Null?
  }

  /** JavaScript's ToBoolean. */
  predicate Truthy(v: Value) {
    match v
    case Undefined => false
    case Null => false
    case Bool(b) => b
    case Num(n) => n != 0
    case Str(s) => s != ""
    case Obj(_) => true
  }

  /** Reading `key` of an object record: absent properties read as undefined. */
  function Field(fields: map<string, Value>, key: string): Value {
    if key in fields then fields[key] else Undefined
  }

  /** `v.key` for a value that is neither null nor undefined. */
  function Member(v: Value, key: string): Value
    requires !Nullish(v)
  {
    match v
    case Obj(fields) => Field(fields, key)
    case _ => Undefined
  }

  /** The message of the TypeError V8 raises when a property of null or undefined is read. */
  function ReadErrorMessage(v: Value, key: string): string {
    "Cannot read properties of " + (if v.Null? then "null" else "undefined") + " (reading '" + key + "')"
  }

  function ErrorObject(name: string, message: string): Value {
    Obj(map["name" := Str(name), "message" := Str(message)])
  }

  /** A plain `{message: m}` object literal. */
  function MessageObject(message: string): Value {
    Obj(map["message" := Str(message)])
  }

  /** `v.key`: yields the property, or throws a TypeError when v is null or undefined. */
  function Read(v: Value, key: string): (r: Completion)
    ensures r.Throw? <==> Nullish(v)
    ensures r.Return? ==> r.value == Member(v, key)
    ensures r.Throw? ==> r.exception == ErrorObject("TypeError", ReadErrorMessage(v, key))
  {
    if Nullish(v) then Throw(ErrorObject("TypeError", ReadErrorMessage(v, key))) else Return(Member(v, key))
  }

  /** `v?.key`: undefined when v is null or undefined, never throws. */
  function OptionalRead(v: Value, key: string): Value {
    if Nullish(v) then Undefined else Member(v, key)
  }

  /** `a || b`. */
  function Or(a: Value, b: Value): Value {
    if Truthy(a) then a else b
  }

  lemma {:induction false} OrTruthy(a: Value, b: Value)
    ensures Truthy(Or(a, b)) <==> Truthy(a) || Truthy(b)
    ensures Or(a, b) == a || Or(a, b) == b
  {
  }

  function DigitChar(d: nat): (c: char)
    requires d < 10
    ensures '0' <= c <= '9' && c as int - '0' as int == d
  {
    ('0' as int + d) as char
  }

  /** The number a string of decimal digits denotes, most significant digit first. */
  function DecimalValue(s: string): nat
    requires forall i :: 0 <= i < |s| ==> '0' <= s[i] <= '9'
    decreases |s|
  {
    if s == [] then 0 else 10 * DecimalValue(s[..|s| - 1]) + (s[|s| - 1] as int - '0' as int)
  }

  /** Decimal notation of a natural number: its digits denote `n`, without leading zeros. */
  function NatToDecimal(n: nat): (r: string)
    ensures |r| >= 1
    ensures forall i :: 0 <= i < |r| ==> '0' <= r[i] <= '9'
    ensures DecimalValue(r) == n
    ensures r[0] == '0' <==> n == 0
    decreases n
  {
    if n < 10 then [DigitChar(n)]
    else
      var init := NatToDecimal(n / 10);
      var r := init + [DigitChar(n % 10)];
      assert r[..|r| - 1] == init;
      r
  }

  /** Decimal notation of an integer: a minus sign before the digits of a negative one. */
  function IntToDecimal(n: int): (r: string)
    ensures |r| >= 1
    ensures n >= 0 ==> (forall i :: 0 <= i < |r| ==> '0' <= r[i] <= '9') && DecimalValue(r) == n
    ensures n < 0 ==> |r| >= 2 && r[0] == '-' && (forall i :: 1 <= i < |r| ==> '0' <= r[i] <= '9') && DecimalValue(r[1..]) == -n
  {
    if n < 0 then
      var digits := NatToDecimal(-n);
      assert ("-" + digits)[1..] == digits;
      "-" + digits
    else NatToDecimal(n)
  }

  /**
   * JavaScript's ToString, as used by template literals, `new Error(m)` and
   * `localStorage.setItem`: a string is kept, a number is written in
   * decimal, and a truthy value never becomes the empty string.
   */
  function ToJsString(v: Value): (r: string)
    ensures v.Str? ==> r == v.s
    ensures v.Num? && v.n >= 0 ==> (forall i :: 0 <= i < |r| ==> '0' <= r[i] <= '9') && DecimalValue(r) == v.n
    ensures v.Num? && v.n < 0 ==>
              |r| >= 2 && r[0] == '-' && (forall i :: 1 <= i < |r| ==> '0' <= r[i] <= '9') && DecimalValue(r[1..]) == -v.n
    ensures Nullish(v) ==> r == (if v.Null? then "null" else "undefined")
    ensures Truthy(v) ==> r != ""
  {
    match v
    case Undefined => "undefined"
    case Null => "null"
    case Bool(b) => if b then "true" else "false"
    case Num(n) => IntToDecimal(n)
    case Str(s) => s
    case Obj(_) => "[object Object]"
  }
}
