/**
 * The slice of JavaScript semantics that the reducers, the action creators and the
 * API middleware rely on: dynamically typed values, property reads (which throw a
 * TypeError on `undefined` and `null`), truthiness, and conversion to a string as a
 * template literal performs it.
 */
module Js {

  /** A JavaScript value. Numbers are the integers the application uses as ids;
      `Obj` is a plain object, `Arr` an array. */
  datatype Value =
    | Undefined
    | Null
    | Bool(b: bool)
    | Num(n: int)
    | Str(s: string)
    | Obj(fields: map<string, Value>)
    | Arr(items: seq<Value>)

  /** The completion of a JavaScript evaluation: a normal value, or a thrown error
      carrying its `message`. */
  datatype Result<T> = Normal(value: T) | Throw(message: string) {
    predicate IsFailure() { Throw? }

    function PropagateFailure<U>(): Result<U>
      requires Throw?
    {
      Throw(message)
    }

    function Extract(): T
      requires Normal?
    {
      value
    }
  }

  /** `undefined` and `null`: the values whose properties cannot be read. */
  predicate Nullish(v: Value) {
    v.Undefined? || v.Null?
  }

  /** Reading `v[key]` (or `v.key`): a TypeError on a nullish value, `undefined` for a
      key an object does not have and for every key of a primitive. */
  function Prop(v: Value, key: string): (r: Result<Value>)
    ensures r.Throw? <==> Nullish(v)
    ensures v.Obj? && key in v.fields ==> r == Normal(v.fields[key])
    ensures v.Obj? && key !in v.fields ==> r == Normal(Undefined)
    ensures !v.Obj? && !Nullish(v) ==> r == Normal(Undefined)
  {
    match v
    case Undefined => Throw("Cannot read properties of undefined (reading '" + key + "')")
    case Null => Throw("Cannot read properties of null (reading '" + key + "')")
    case Obj(fields) => Normal(if key in fields then fields[key] else Undefined)
    case _ => Normal(Undefined)
  }

  /** The value `if (v)` takes. */
  predicate Truthy(v: Value) {
    match v
    case Undefined => false
    case Null => false
    case Bool(b) => b
    case Num(n) => n != 0
    case Str(s) => s != ""
    case Obj(_) => true
    case Arr(_) => true
  }

  /** `String(v)`, as a template literal `${v}` converts its operand. */
  function ToStr(v: Value): string
    decreases v, 1
  {
    match v
    case Undefined => "undefined"
    case Null => "null"
    case Bool(b) => if b then "true" else "false"
    case Num(n) => IntToDecimal(n)
    case Str(s) => s
    case Obj(_) => "[object Object]"
    case Arr(items) => Join(items, v)
  }

  /** `Array.prototype.join(",")` over the elements of the array `parent`. */
  function Join(items: seq<Value>, ghost parent: Value): string
    requires forall x :: x in items ==> x < parent
    decreases parent, 0, |items|
  {
    if items == [] then ""
    else
      var last := items[|items| - 1];
      assert last in items;
      var init := items[..|items| - 1];
      assert forall x :: x in init ==> x in items;
      (if init == [] then "" else Join(init, parent) + ",") + JoinElement(last)
  }

  /** An array element as `join` renders it: `undefined` and `null` become empty. */
  function JoinElement(x: Value): string
    decreases x, 2
  {
    if Nullish(x) then "" else ToStr(x)
  }

  function DigitChar(d: nat): (c: char)
    requires d < 10
    ensures '0' <= c <= '9'
  {
    "0123456789"[d]
  }

  function DigitValue(c: char): nat {
    if '0' <= c <= '9' then c as int - '0' as int else 0
  }

  /** The decimal numeral of a natural number, without leading zeros. */
  function NatToDecimal(n: nat): (r: string)
    ensures |r| > 0 && forall i :: 0 <= i < |r| ==> '0' <= r[i] <= '9'
  {
    if n < 10 then [DigitChar(n)] else NatToDecimal(n / 10) + [DigitChar(n % 10)]
  }

  /** How a JavaScript number holding an integer prints. */
  function IntToDecimal(n: int): string {
    if n < 0 then "-" + NatToDecimal(-n) else NatToDecimal(n)
  }

  function ParseNat(s: string): nat {
    if s == [] then 0 else ParseNat(s[..|s| - 1]) * 10 + DigitValue(s[|s| - 1])
  }

  /** Reads a numeral back, with an optional leading minus sign. */
  function ParseDecimal(s: string): int {
    if |s| > 0 && s[0] == '-' then -(ParseNat(s[1..]) as int) else ParseNat(s)
  }

  lemma {:induction false} NatDecimalRoundTrip(n: nat)
    ensures ParseNat(NatToDecimal(n)) == n
  {
    if n >= 10 {
      var s := NatToDecimal(n);
      assert s[..|s| - 1] == NatToDecimal(n / 10);
      assert s[|s| - 1] == DigitChar(n % 10);
      NatDecimalRoundTrip(n / 10);
    }
  }

  /** Printing an integer and reading the numeral back gives the integer again. */
  lemma {:induction false} DecimalRoundTrip(n: int)
    ensures ParseDecimal(IntToDecimal(n)) == n
  {
    if n < 0 {
      NegativeRoundTrip(-n);
    } else {
      NatDecimalRoundTrip(n);
      assert NatToDecimal(n)[0] != '-';
    }
  }

  lemma {:induction false} NegativeRoundTrip(m: nat)
    requires m > 0
    ensures ParseDecimal(IntToDecimal(-(m as int))) == -(m as int)
  {
    var digits := NatToDecimal(m);
    assert IntToDecimal(-(m as int)) == "-" + digits;
    ReadSigned(digits);
    NatDecimalRoundTrip(m);
  }

  lemma ReadSigned(digits: string)
    ensures ParseDecimal("-" + digits) == -(ParseNat(digits) as int)
  {
    assert ("-" + digits)[1..] == digits;
  }
}
