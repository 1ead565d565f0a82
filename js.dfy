/**
 * JavaScript values as the pages receive them from the API, and the few
 * language operations the pages apply to them: truthiness and `||`,
 * property reads, `String(v)` and `parseInt(s, 10)`.
 * Numbers are integers: fractions, NaN and the infinities are not modelled.
 */
module Js {
  import opened Base
  import opened Text

  datatype Value =
    | Undefined
    | Null
    | Bool(b: bool)
    | Num(n: int)
    | Str(s: string)
    | Arr(items: seq<Value>)
    | Obj(fields: map<string, Value>)

  predicate IsNullish(v: Value) { v.Undefined? || v.Null? }

  /** The falsy values are undefined, null, false, 0 and the empty string. */
  predicate Truthy(v: Value) {
    match v
    case Undefined => false
    case Null => false
    case Bool(b) => b
    case Num(n) => n != 0
    case Str(s) => s != ""
    case _ => true
  }

  /** `a || b`. */
  function Or(a: Value, b: Value): Value {
    if Truthy(a) then a else b
  }

  lemma OrDefault(a: Value, b: Value)
    ensures Truthy(a) ==> Or(a, b) == a
    ensures !Truthy(a) ==> Or(a, b) == b
    ensures IsNullish(a) ==> Or(a, b) == b
  {
  }

  /**
   * `v.key` on a value that is not null or undefined (reads of those throw,
   * see `Read`). Only own properties of objects are modelled: strings,
   * arrays and primitives have none of the keys the pages read.
   */
  function Get(v: Value, key: string): Value {
    match v
    case Obj(m) => if key in m then m[key] else Undefined
    case _ => Undefined
  }

  /** `v.key`, where a read from null or undefined throws a TypeError (None). */
  function Read(v: Value, key: string): (r: Option<Value>)
    ensures r.None? <==> IsNullish(v)
    ensures r.Some? ==> r.value == Get(v, key)
  {
    if IsNullish(v) then None else Some(Get(v, key))
  }

  /** `v?.key`: undefined when `v` is null or undefined. */
  function OptRead(v: Value, key: string): (r: Value)
    ensures IsNullish(v) ==> r == Undefined
    ensures !IsNullish(v) ==> r == Get(v, key)
  {
    if IsNullish(v) then Undefined else Get(v, key)
  }

  function DigitChar(d: nat): char
    requires d < 10
  {
    ('0' as int + d) as char
  }

  predicate IsDigit(c: char) { '0' <= c <= '9' }

  function DigitValue(c: char): nat
    requires IsDigit(c)
  {
    c as int - '0' as int
  }

  /** Decimal notation of a natural number, without leading zeros. */
  function NatToString(n: nat): (r: string)
    ensures |r| >= 1
    ensures forall i :: 0 <= i < |r| ==> IsDigit(r[i])
  {
    if n < 10 then [DigitChar(n)] else NatToString(n / 10) + [DigitChar(n % 10)]
  }

  /** `String(n)` for an integer. */
  function IntToString(n: int): string {
    if n < 0 then "-" + NatToString(-n) else NatToString(n)
  }

  /** `String(v)`; array elements that are null or undefined print as the empty string. */
  function ToStr(v: Value): string
    decreases v
  {
    match v
    case Undefined => "undefined"
    case Null => "null"
    case Bool(b) => if b then "true" else "false"
    case Num(n) => IntToString(n)
    case Str(s) => s
    case Arr(items) =>
      Join(seq(|items|, i requires 0 <= i < |items| =>
             if IsNullish(items[i]) then "" else ToStr(items[i])), ",")
    case Obj(_) => "[object Object]"
  }

  /** Length of the longest prefix of decimal digits. */
  function DigitRun(s: string): (n: nat)
    ensures n <= |s|
    ensures forall i :: 0 <= i < n ==> IsDigit(s[i])
    ensures n < |s| ==> !IsDigit(s[n])
  {
    if s == [] || !IsDigit(s[0]) then 0 else 1 + DigitRun(s[1..])
  }

  /** The number a string of decimal digits denotes. */
  function DigitsValue(d: string): nat
    requires forall i :: 0 <= i < |d| ==> IsDigit(d[i])
  {
    if d == [] then 0 else 10 * DigitsValue(d[..|d| - 1]) + DigitValue(d[|d| - 1])
  }

  /**
   * `parseInt(s, 10)`: skip leading white space, take an optional sign and
   * the longest run of digits after it; no digits gives NaN (None).
   */
  function ParseInt(s: string): (r: Option<int>)
    ensures r.None? <==> DigitRun(Unsigned(TrimStart(s))) == 0
    ensures r.Some? ==>
      var t := TrimStart(s);
      var digits := Unsigned(t)[..DigitRun(Unsigned(t))];
      (t[0] == '-' ==> r.value == -(DigitsValue(digits) as int))
      && (t[0] != '-' ==> r.value == DigitsValue(digits))
  {
    var t := TrimStart(s);
    var u := Unsigned(t);
    var n := DigitRun(u);
    if n == 0 then None
    else
      var magnitude: int := DigitsValue(u[..n]);
      Some(if t != [] && t[0] == '-' then -magnitude else magnitude)
  }

  /** What follows an optional leading sign. */
  function Unsigned(t: string): string {
    if t != [] && (t[0] == '-' || t[0] == '+') then t[1..] else t
  }

  lemma {:induction false} DigitsValueOfNatToString(n: nat)
    ensures DigitsValue(NatToString(n)) == n
  {
    var d := NatToString(n);
    if n >= 10 {
      DigitsValueOfNatToString(n / 10);
      assert d[..|d| - 1] == NatToString(n / 10);
    }
  }

  lemma DigitRunAll(s: string)
    requires forall i :: 0 <= i < |s| ==> IsDigit(s[i])
    ensures DigitRun(s) == |s|
  {
  }

  /** A string opening with a character that is no space, sign or digit parses to NaN. */
  lemma ParseIntOfNonNumeric(s: string)
    requires s != [] && !IsSpace(s[0]) && !IsDigit(s[0]) && s[0] != '-' && s[0] != '+'
    ensures ParseInt(s).None?
  {
    assert LeadingSpaces(s) == 0;
    assert TrimStart(s) == s;
  }

  /** `parseInt(String(n), 10) == n` for every integer `n`. */
  lemma {:induction false} ParseIntToString(n: int)
    ensures ParseInt(IntToString(n)) == Some(n)
  {
    var m: nat := if n < 0 then -n else n;
    var d := NatToString(m);
    DigitsValueOfNatToString(m);
    if n < 0 {
      ParseIntOfNegativeDigits(d);
    } else {
      ParseIntOfDigits(d);
    }
  }

  /** A run of digits parses to its value. */
  lemma ParseIntOfDigits(d: string)
    requires |d| >= 1 && forall i :: 0 <= i < |d| ==> IsDigit(d[i])
    ensures ParseInt(d) == Some(DigitsValue(d))
  {
    TrimStartNoSpace(d);
    assert Unsigned(d) == d;
    DigitRunAll(d);
    assert DigitRun(d) == |d|;
    assert d[..|d|] == d;
    var v := DigitsValue(d);
    assert ParseInt(d) == Some(v);
  }

  /** A minus sign followed by a run of digits parses to the negated value. */
  lemma ParseIntOfNegativeDigits(d: string)
    requires |d| >= 1 && forall i :: 0 <= i < |d| ==> IsDigit(d[i])
    ensures ParseInt("-" + d) == Some(-(DigitsValue(d) as int))
  {
    var s := "-" + d;
    assert s[0] == '-' && s[1..] == d;
    ParseIntOfSigned(s, d);
  }

  /** A string of a minus sign and then the digits `d`, with nothing around them. */
  lemma ParseIntOfSigned(t: string, d: string)
    requires |d| >= 1 && forall i :: 0 <= i < |d| ==> IsDigit(d[i])
    requires t != [] && t[0] == '-' && t[1..] == d
    ensures ParseInt(t) == Some(-(DigitsValue(d) as int))
  {
    TrimStartNoSpace(t);
    assert Unsigned(t) == d;
    DigitRunAll(d);
    assert d[..|d|] == d;
  }

  /** A string that opens with a digit or a sign has no leading white space to skip. */
  lemma TrimStartNoSpace(s: string)
    requires s != [] && (IsDigit(s[0]) || s[0] == '-')
    ensures TrimStart(s) == s
  {
    assert !IsSpace(s[0]);
    assert LeadingSpaces(s) == 0;
  }
}
