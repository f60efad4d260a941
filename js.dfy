/**
 * The pieces of the JavaScript runtime that the modelled code relies on:
 * `undefined`/`null` as an option, three.js vectors, the values found in
 * lobby settings, template-literal rendering (`${v}`), truthiness, and
 * `parseInt(s, 10)`.
 */
module Js {

  datatype Option<+T> = None | Some(value: T)

  /** A three.js `Vector3`. Coordinates are reals: float rounding is not modelled. */
  datatype Vec3 = Vec3(x: real, y: real, z: real)

  /**
   * A JavaScript value as read from a settings or player record.
   * Numbers are integers here; fractional numbers are not modelled.
   */
  datatype Value = Undefined | Null | Bool(b: bool) | Int(i: int) | Str(s: string)

  /** JavaScript truthiness: `undefined`, `null`, `false`, `0` and `""` are falsy. */
  predicate Truthy(v: Value) {
    match v
    case Undefined => false
    case Null => false
    case Bool(b) => b
    case Int(i) => i != 0
    case Str(s) => s != ""
  }

  /** Reading a property of a plain object: a missing key reads as `undefined`. */
  function Get(obj: map<string, Value>, key: string): Value
  {
    if key in obj then obj[key] else Undefined
  }

  predicate IsDigit(c: char) {
    '0' <= c <= '9'
  }

  function DigitChar(d: nat): (c: char)
    requires d < 10
    ensures IsDigit(c) && DigitValue(c) == d
  {
    (48 + d) as char
  }

  function DigitValue(c: char): nat
    requires IsDigit(c)
  {
    (c as int) - 48
  }

  /** `n.toString()` for a non-negative integer: decimal, no leading zeros. */
  function NatToString(n: nat): (s: string)
    ensures |s| >= 1
    ensures forall i :: 0 <= i < |s| ==> IsDigit(s[i])
    ensures (s[0] == '0') == (n == 0)
    ensures |s| > 1 ==> n >= 10
    decreases n
  {
    if n < 10 then [DigitChar(n)] else NatToString(n / 10) + [DigitChar(n % 10)]
  }

  /** `String(v)`, which is what a template literal `${v}` inserts. */
  function ToString(v: Value): (s: string)
    ensures v.Str? ==> s == v.s
    ensures v.Int? && v.i >= 0 ==> s == NatToString(v.i)
    ensures v.Int? && v.i < 0 ==> s == "-" + NatToString(-v.i)
  {
    match v
    case Undefined => "undefined"
    case Null => "null"
    case Bool(b) => if b then "true" else "false"
    case Int(i) => if i < 0 then "-" + NatToString(-i) else NatToString(i)
    case Str(s) => s
  }

  predicate IsSpace(c: char) {
    c == ' ' || c == '\t' || c == '\n' || c == '\r'
  }

  /** Leading white space is skipped by `parseInt`. */
  function TrimStart(s: string): (t: string)
    ensures |t| <= |s| && t == s[|s| - |t|..]
    ensures t == [] || !IsSpace(t[0])
  {
    if s != [] && IsSpace(s[0]) then TrimStart(s[1..]) else s
  }

  /** The longest prefix of `s` made of decimal digits. */
  function LeadingDigits(s: string): (d: string)
    ensures |d| <= |s| && d == s[..|d|]
    ensures forall i :: 0 <= i < |d| ==> IsDigit(d[i])
    ensures |d| < |s| ==> !IsDigit(s[|d|])
  {
    if s == [] || !IsDigit(s[0]) then [] else [s[0]] + LeadingDigits(s[1..])
  }

  /** The value of a string of decimal digits, most significant first. */
  function DigitsValue(d: string): nat
    requires forall i :: 0 <= i < |d| ==> IsDigit(d[i])
  {
    if d == [] then 0 else DigitsValue(d[..|d| - 1]) * 10 + DigitValue(d[|d| - 1])
  }

  /**
   * `parseInt(s, 10)`: skip leading white space, read an optional sign,
   * then the longest run of decimal digits; `None` stands for `NaN`
   * (no digit at all).
   */
  function ParseInt(s: string): (r: Option<int>)
    ensures r.None? <==> LeadingDigits(Unsigned(TrimStart(s))) == []
  {
    var t := TrimStart(s);
    var u := Unsigned(t);
    var digits := LeadingDigits(u);
    if digits == [] then None
    else
      var magnitude: int := DigitsValue(digits);
      if t != [] && t[0] == '-' then Some(-magnitude) else Some(magnitude)
  }

  /** The text after an optional leading `+` or `-`. */
  function Unsigned(t: string): (u: string)
    ensures |u| <= |t|
  {
    if t != [] && (t[0] == '-' || t[0] == '+') then t[1..] else t
  }

  lemma {:induction false} AllDigitsAreLeading(s: string)
    requires forall i :: 0 <= i < |s| ==> IsDigit(s[i])
    ensures LeadingDigits(s) == s
  {
    if s != [] {
      AllDigitsAreLeading(s[1..]);
    }
  }

  lemma {:induction false} DigitsValueOfNatToString(n: nat)
    ensures DigitsValue(NatToString(n)) == n
    decreases n
  {
    var s := NatToString(n);
    if n < 10 {
      assert s[..0] == [];
    } else {
      DigitsValueOfNatToString(n / 10);
      assert s[..|s| - 1] == NatToString(n / 10);
    }
  }

  /** `parseInt(n.toString(), 10) == n` for every non-negative integer. */
  lemma ParseIntOfNatToString(n: nat)
    ensures ParseInt(NatToString(n)) == Some(n)
  {
    var s := NatToString(n);
    assert IsDigit(s[0]);
    assert !IsSpace(s[0]) && s[0] != '-' && s[0] != '+';
    assert TrimStart(s) == s;
    assert Unsigned(s) == s;
    AllDigitsAreLeading(s);
    DigitsValueOfNatToString(n);
  }

  /** The same round trip through `String(v)` for every integer value. */
  lemma ParseIntOfToString(i: int)
    ensures ParseInt(ToString(Int(i))) == Some(i)
  {
    if i >= 0 {
      ParseIntOfNatToString(i);
    } else {
      var s := NatToString(-i);
      var t := "-" + s;
      assert t[0] == '-' && t[1..] == s;
      assert TrimStart(t) == t;
      assert Unsigned(t) == s;
      AllDigitsAreLeading(s);
      DigitsValueOfNatToString(-i);
    }
  }
}
