/**
 * The JavaScript values the relay inspects: what `JSON.parse` yields, error
 * objects, and the result of property reads. Only the operations the core
 * uses are modelled: truthiness, reading a named property, and the string a
 * template literal `${v}` produces.
 */
module JsValue {

  /** A JavaScript value. Numbers are integers in this model. */
  datatype Value =
    | Undefined
    | Null
    | Bool(b: bool)
    | Num(n: int)
    | Str(s: string)
    | Arr(items: seq<Value>)
    | Obj(fields: map<string, Value>)
  {
    /** `null` or `undefined`: reading a property of these throws a TypeError. */
    predicate Nullish() {
      Undefined? || Null?
    }
  }

  /** JavaScript truthiness (`if (v)`, `v && w`, `v || w`). */
  predicate Truthy(v: Value) {
    match v
    case Undefined => false
    case Null => false
    case Bool(b) => b
    case Num(n) => n != 0
    case Str(s) => s != ""
    case Arr(_) => true
    case Obj(_) => true
  }

  /**
   * `v.key` for a value that is not null or undefined. Only plain objects
   * carry the property names the relay reads; primitives and arrays answer
   * `undefined` for all of them.
   */
  function Member(v: Value, key: string): (r: Value)
    requires !v.Nullish()
    ensures !v.Obj? ==> r == Undefined
    ensures v.Obj? && key !in v.fields ==> r == Undefined
  {
    if v.Obj? && key in v.fields then v.fields[key] else Undefined
  }

  /** `v?.key`: undefined instead of a TypeError when `v` is null or undefined. */
  function OptMember(v: Value, key: string): (r: Value)
    ensures v.Nullish() ==> r == Undefined
    ensures r != Undefined ==> v.Obj? && key in v.fields && r == v.fields[key]
    ensures !v.Nullish() ==> r == Member(v, key)
  {
    if v.Nullish() then Undefined else Member(v, key)
  }

  function DigitChar(d: nat): (c: char)
    requires d < 10
    ensures '0' <= c <= '9'
  {
    "0123456789"[d]
  }

  /** Decimal text of a natural number, most significant digit first. */
  function NatToString(n: nat): (r: string)
    ensures |r| >= 1
    ensures forall k :: 0 <= k < |r| ==> '0' <= r[k] <= '9'
    ensures |r| > 1 ==> r[0] != '0'
    decreases n
  {
    if n < 10 then [DigitChar(n)] else NatToString(n / 10) + [DigitChar(n % 10)]
  }

  /** The number a string of decimal digits denotes. */
  function DigitsValue(s: string): nat
    requires forall k :: 0 <= k < |s| ==> '0' <= s[k] <= '9'
  {
    if s == [] then 0 else 10 * DigitsValue(s[..|s| - 1]) + (s[|s| - 1] - '0') as nat
  }

  lemma DigitCharValue(d: nat)
    requires d < 10
    ensures (DigitChar(d) - '0') as nat == d
  {
    assert "0123456789"[d] as int == '0' as int + d;
  }

  /** The decimal text of a number reads back as that number. */
  lemma {:induction false} NatToStringRoundTrip(n: nat)
    ensures DigitsValue(NatToString(n)) == n
    decreases n
  {
    var s := NatToString(n);
    if n >= 10 {
      NatToStringRoundTrip(n / 10);
      assert s == NatToString(n / 10) + [DigitChar(n % 10)];
      assert s[..|s| - 1] == NatToString(n / 10);
      DigitCharValue(n % 10);
    } else {
      assert s == [DigitChar(n)];
      DigitCharValue(n);
    }
  }

  /** Decimal text of an integer: a minus sign exactly for negative numbers, then the digits. */
  function IntToString(n: int): (r: string)
    ensures |r| >= 1
    ensures r[0] == '-' <==> n < 0
    ensures forall k :: (if n < 0 then 1 else 0) <= k < |r| ==> '0' <= r[k] <= '9'
    ensures n >= 0 ==> r == NatToString(n)
    ensures n < 0 ==> r == "-" + NatToString(-n)
  {
    if n < 0 then "-" + NatToString(-n) else NatToString(n)
  }

  /** The digits after the optional sign read back as the number's magnitude. */
  lemma IntToStringRoundTrip(n: int)
    ensures n < 0 ==> |IntToString(n)| >= 2 && DigitsValue(IntToString(n)[1..]) == -n
    ensures n >= 0 ==> DigitsValue(IntToString(n)) == n
  {
    if n < 0 {
      NatToStringRoundTrip(-n);
      SignStripped(IntToString(n), NatToString(-n));
    } else {
      NatToStringRoundTrip(n);
    }
  }

  /** Dropping the sign of `"-" + d` gives back the digits `d`. */
  lemma SignStripped(r: string, d: string)
    requires r == "-" + d
    requires forall k :: 0 <= k < |d| ==> '0' <= d[k] <= '9'
    ensures r[1..] == d && DigitsValue(r[1..]) == DigitsValue(d)
  {
    assert r[1..] == d;
  }

  /** The text `${v}` produces for a value. */
  function Display(v: Value): (r: string)
    ensures v.Str? ==> r == v.s
    decreases v, 1, 0
  {
    match v
    case Undefined => "undefined"
    case Null => "null"
    case Bool(b) => if b then "true" else "false"
    case Num(n) => IntToString(n)
    case Str(s) => s
    case Arr(items) => JoinItems(v, 0)
    case Obj(_) => "[object Object]"
  }

  /** `Array.prototype.join(",")` from index `i` on: null and undefined elements print as "". */
  function JoinItems(v: Value, i: nat): string
    requires v.Arr? && i <= |v.items|
    decreases v, 0, |v.items| - i
  {
    if i == |v.items| then ""
    else
      var e := v.items[i];
      var text := if e.Nullish() then "" else Display(e);
      if i + 1 == |v.items| then text else text + "," + JoinItems(v, i + 1)
  }
}
