/**
 * The slice of JavaScript value semantics the dashboard's handlers rely on:
 * truthiness (`!x`, `x || y`), `String(x)`, property reads (`x.key`, which
 * throw on null and undefined) and the decimal text of an integer.
 * Numbers are integers (amounts in minor units); floating point is not modelled.
 */
module Js {
  import opened Wrappers

  /** A value as produced by JSON.parse, a Firestore document or a request body. */
  datatype Value =
    | Undefined
    | Null
    | Bool(b: bool)
    | Num(n: int)
    | Str(s: string)
    | Arr(elems: seq<Value>)
    | Obj(fields: Record)

  /** A plain object: its own properties, by name. */
  type Record = map<string, Value>

  /** JavaScript truthiness: false, 0, "", null and undefined are falsy. */
  predicate Truthy(v: Value)
  {
    match v
    case Undefined => false
    case Null => false
    case Bool(b) => b
    case Num(n) => n != 0
    case Str(s) => s != ""
    case _ => true
  }

  predicate Nullish(v: Value)
  {
    v.Undefined? || v.Null?
  }

  /** `a || b` */
  function Or(a: Value, b: Value): Value
  {
    if Truthy(a) then a else b
  }

  /** `r[key]` on a plain object: undefined when the property is absent. */
  function Field(r: Record, key: string): Value
  {
    if key in r then r[key] else Undefined
  }

  /**
   * `v.key`: a TypeError on null and undefined; an object's own property;
   * undefined on the other primitives (none of the keys read by the handlers
   * names a built-in property of strings, numbers or arrays).
   */
  function GetProp(v: Value, key: string): (r: Result<Value, string>)
    ensures r.Failure? <==> Nullish(v)
    ensures v.Obj? ==> r == Success(Field(v.fields, key))
  {
    match v
    case Undefined => Failure("Cannot read properties of undefined (reading '" + key + "')")
    case Null => Failure("Cannot read properties of null (reading '" + key + "')")
    case Obj(m) => Success(Field(m, key))
    case _ => Success(Undefined)
  }

  function DigitChar(d: nat): (c: char)
    requires d < 10
  {
    "0123456789"[d]
  }

  predicate IsDigit(c: char)
  {
    '0' <= c <= '9'
  }

  function DigitValue(c: char): (d: nat)
    requires IsDigit(c)
  {
    (c as int - '0' as int)
  }

  /** The decimal text of a natural number, as Number.prototype.toString gives it. */
  function NatToDecimal(n: nat): (s: string)
    decreases n
  {
    if n < 10 then [DigitChar(n)] else NatToDecimal(n / 10) + [DigitChar(n % 10)]
  }

  /** `String(i)` for an integer: a minus sign before the magnitude's digits. */
  function IntToDecimal(i: int): string
  {
    if i < 0 then "-" + NatToDecimal(-i) else NatToDecimal(i)
  }

  /** Reads a string of decimal digits back as a number. */
  function ParseDecimal(s: string): nat
    requires forall k :: 0 <= k < |s| ==> IsDigit(s[k])
  {
    if s == [] then 0 else 10 * ParseDecimal(s[..|s| - 1]) + DigitValue(s[|s| - 1])
  }

  /**
   * The decimal text is non-empty, made of digits, has no leading zero and
   * reads back as the number it was made from.
   */
  lemma {:induction false} NatToDecimalRoundTrip(n: nat)
    ensures var s := NatToDecimal(n);
      && |s| >= 1
      && (forall k :: 0 <= k < |s| ==> IsDigit(s[k]))
      && (|s| > 1 ==> s[0] != '0')
      && ParseDecimal(s) == n
    decreases n
  {
    if n >= 10 {
      NatToDecimalRoundTrip(n / 10);
      var p := NatToDecimal(n / 10);
      var s := NatToDecimal(n);
      assert s == p + [DigitChar(n % 10)];
      assert s[..|s| - 1] == p;
    }
  }

  /** Different numbers have different decimal texts. */
  lemma NatToDecimalInjective(m: nat, n: nat)
    requires NatToDecimal(m) == NatToDecimal(n)
    ensures m == n
  {
    NatToDecimalRoundTrip(m);
    NatToDecimalRoundTrip(n);
  }

  /** `String(v)`: the text JavaScript gives a value when it must be a string. */
  function ToStr(v: Value): string
    decreases v
  {
    match v
    case Undefined => "undefined"
    case Null => "null"
    case Bool(b) => if b then "true" else "false"
    case Num(n) => IntToDecimal(n)
    case Str(s) => s
    case Arr(es) => JoinElements(es)
    case Obj(_) => "[object Object]"
  }

  /** Array.prototype.join(","): null and undefined elements become empty text. */
  function JoinElements(es: seq<Value>): string
    decreases es
  {
    if es == [] then ""
    else
      (if Nullish(es[0]) then "" else ToStr(es[0]))
      + (if |es| == 1 then "" else "," + JoinElements(es[1..]))
  }

  /**
   * `const { key, ... } = v`: destructuring throws a TypeError on null and
   * undefined; otherwise each name reads a property (undefined on primitives).
   */
  function Destructure(v: Value, firstKey: string): (r: Result<Record, string>)
    ensures r.Failure? <==> Nullish(v)
    ensures v.Obj? ==> r == Success(v.fields)
    ensures !Nullish(v) && !v.Obj? ==> r == Success(map[])
  {
    match v
    case Undefined => Failure("Cannot destructure property '" + firstKey + "' of 'body' as it is undefined.")
    case Null => Failure("Cannot destructure property '" + firstKey + "' of 'body' as it is null.")
    case Obj(m) => Success(m)
    case _ => Success(map[])
  }

  /** Distinct indices have distinct property names. */
  lemma IndexNamesDistinct()
    ensures forall m: nat, n: nat :: NatToDecimal(m) == NatToDecimal(n) ==> m == n
  {
    forall m: nat, n: nat | NatToDecimal(m) == NatToDecimal(n) ensures m == n {
      NatToDecimalInjective(m, n);
    }
  }

  /** The own properties of an array-like: "0", "1", ... */
  function IndexEntries(es: seq<Value>): (r: Record)
    ensures forall i :: 0 <= i < |es| ==> NatToDecimal(i) in r && r[NatToDecimal(i)] == es[i]
    ensures forall k :: k in r ==> exists i :: 0 <= i < |es| && k == NatToDecimal(i)
  {
    IndexNamesDistinct();
    map i | 0 <= i < |es| :: NatToDecimal(i) := es[i]
  }

  /** The properties `{ ...v }` copies: an object's own, a string's characters or an array's elements by index, none otherwise. */
  function OwnEntries(v: Value): Record
  {
    match v
    case Obj(m) => m
    case Str(s) => IndexEntries(seq(|s|, i requires 0 <= i < |s| => Str([s[i]])))
    case Arr(es) => IndexEntries(es)
    case _ => map[]
  }
}
