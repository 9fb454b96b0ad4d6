/**
  The slice of JavaScript's value semantics that the server-ops code relies on:
  `??`, truthiness, property reads that throw on `null`/`undefined`,
  `String.prototype.toLowerCase` as far as HTTP method names need it, and
  `parseInt(…, 10)`.
 */
module Js {
  import opened Wrappers

  /** A JavaScript number: a finite double (held exactly as a real), NaN, or an infinity. */
  datatype Number = Finite(r: real) | NaN | Infinity(positive: bool)

  /**
    A JavaScript value. `Obj` is a plain object given by its own enumerable
    properties; `Func` is a function, identified by an opaque number.
   */
  datatype Value =
    | Undefined
    | Null
    | Bool(b: bool)
    | Num(n: Number)
    | Str(s: string)
    | Obj(props: map<string, Value>)
    | Func(id: nat)

  /** The object literal `{}`. */
  const EmptyObject: Value := Obj(map[])

  predicate IsNullish(v: Value) {
    v.Undefined? || v.Null?
  }

  /** `a ?? b`. */
  function Coalesce(a: Value, b: Value): Value {
    if IsNullish(a) then b else a
  }

  /** JavaScript's ToBoolean. */
  predicate Truthy(v: Value) {
    match v
    case Undefined => false
    case Null => false
    case Bool(b) => b
    case Num(n) => !n.NaN? && n != Finite(0.0)
    case Str(s) => s != ""
    case Obj(_) => true
    case Func(_) => true
  }

  /**
    The property read `v.key`: `None` is the TypeError thrown when `v` is
    `null` or `undefined`. Primitives and functions carry none of the keys this
    model reads, so reading from them gives `undefined`.
   */
  function GetProp(v: Value, key: string): (r: Option<Value>)
    ensures r.None? <==> IsNullish(v)
    ensures v.Obj? && key in v.props ==> r == Some(v.props[key])
    ensures v.Obj? && key !in v.props ==> r == Some(Undefined)
  {
    match v
    case Undefined => None
    case Null => None
    case Obj(props) => Some(if key in props then props[key] else Undefined)
    case _ => Some(Undefined)
  }

  /* ---------- toLowerCase ---------- */

  /**
    Lower-cases ASCII letters and leaves every other character alone. For the
    only use made of it, comparing a method name with "get" or "post", this is
    exact: no non-ASCII character lower-cases to any of g, e, t, p, o, s.
   */
  function LowerAscii(s: string): (r: string)
    ensures |r| == |s|
    ensures forall i :: 0 <= i < |s| ==>
      r[i] == (if 'A' <= s[i] <= 'Z' then (s[i] as int + 32) as char else s[i])
  {
    if s == [] then []
    else [if 'A' <= s[0] <= 'Z' then (s[0] as int + 32) as char else s[0]] + LowerAscii(s[1..])
  }

  /* ---------- parseInt(s, 10) ---------- */

  predicate IsDigit(c: char) {
    '0' <= c <= '9'
  }

  predicate AllDigits(s: string) {
    forall i :: 0 <= i < |s| ==> IsDigit(s[i])
  }

  /** ECMAScript's StrWhiteSpaceChar: WhiteSpace and LineTerminator code points. */
  predicate IsJsWhiteSpace(c: char) {
    || c == '\t' || c == '\U{000B}' || c == '\U{000C}' || c == ' ' || c == '\U{00A0}'
    || c == '\U{FEFF}' || c == '\U{1680}' || ('\U{2000}' <= c <= '\U{200A}')
    || c == '\U{202F}' || c == '\U{205F}' || c == '\U{3000}'
    || c == '\n' || c == '\r' || c == '\U{2028}' || c == '\U{2029}'
  }

  /** Drops leading white space, as parseInt does before reading a sign. */
  function TrimStart(s: string): string {
    if s != [] && IsJsWhiteSpace(s[0]) then TrimStart(s[1..]) else s
  }

  /** The longest prefix of `s` made of decimal digits. */
  function DigitPrefix(s: string): (p: string)
    ensures |p| <= |s| && p == s[..|p|]
    ensures AllDigits(p)
    ensures |p| < |s| ==> !IsDigit(s[|p|])
  {
    if s != [] && IsDigit(s[0]) then [s[0]] + DigitPrefix(s[1..]) else []
  }

  function DigitValue(c: char): nat
    requires IsDigit(c)
  {
    c as int - '0' as int
  }

  /** The number a string of decimal digits denotes, most significant digit first. */
  function DigitsValue(ds: string): nat
    requires AllDigits(ds)
  {
    if ds == [] then 0 else DigitsValue(ds[..|ds| - 1]) * 10 + DigitValue(ds[|ds| - 1])
  }

  /**
    `parseInt(s, 10)` on a string: skip white space, read an optional sign,
    then the longest run of decimal digits. `None` is NaN (no digits at all).
   */
  function ParseIntDecimal(s: string): Option<int> {
    var t := TrimStart(s);
    var ds := DigitPrefix(AfterSign(t));
    if ds == [] then None
    else if t[0] == '-' then Some(0 - DigitsValue(ds))
    else Some(DigitsValue(ds))
  }

  /** What follows an optional leading `+` or `-`. */
  function AfterSign(t: string): string {
    if t != [] && (t[0] == '-' || t[0] == '+') then t[1..] else t
  }

  function DigitChar(d: nat): (c: char)
    requires d < 10
    ensures IsDigit(c) && DigitValue(c) == d
  {
    "0123456789"[d]
  }

  /** The decimal rendering JavaScript gives a non-negative integer below 10^21. */
  function DecimalText(n: nat): (s: string)
    ensures s != [] && AllDigits(s)
  {
    if n < 10 then [DigitChar(n)] else DecimalText(n / 10) + [DigitChar(n % 10)]
  }

  /** Reading back the decimal text of `n` gives `n`. */
  lemma {:induction false} DigitsValueOfDecimal(n: nat)
    ensures DigitsValue(DecimalText(n)) == n
  {
    if n >= 10 {
      var s := DecimalText(n);
      DigitsValueOfDecimal(n / 10);
      assert s[..|s| - 1] == DecimalText(n / 10);
    }
  }

  /** The digit prefix of a digit string followed by a non-digit is that digit string. */
  lemma {:induction false} DigitPrefixOfDigits(ds: string, rest: string)
    requires AllDigits(ds)
    requires rest == [] || !IsDigit(rest[0])
    ensures DigitPrefix(ds + rest) == ds
  {
    if ds != [] {
      assert (ds + rest)[1..] == ds[1..] + rest;
      DigitPrefixOfDigits(ds[1..], rest);
    }
  }

  /**
    parseInt round trip: the decimal text of `n`, optionally signed and
    followed by anything that does not start with a digit, parses back to
    the signed `n`.
   */
  lemma ParseIntOfDecimal(n: nat, negative: bool, rest: string)
    requires rest == [] || !IsDigit(rest[0])
    ensures ParseIntDecimal((if negative then "-" else "") + DecimalText(n) + rest)
      == Some(if negative then 0 - n else n)
  {
    ParseIntOfDigits(DecimalText(n), negative, rest);
    DigitsValueOfDecimal(n);
  }

  /** A non-empty run of digits, optionally signed and then ended by a non-digit, parses as its value. */
  lemma ParseIntOfDigits(d: string, negative: bool, rest: string)
    requires d != [] && AllDigits(d)
    requires rest == [] || !IsDigit(rest[0])
    ensures ParseIntDecimal((if negative then "-" else "") + d + rest)
      == Some(if negative then 0 - DigitsValue(d) else DigitsValue(d))
  {
    var s := (if negative then "-" else "") + d + rest;
    SignedTextShape(d, negative, rest);
    SignedTextIsTrimmed(s);
    DigitPrefixOfDigits(d, rest);
    ParseIntOfParts(s, d, negative);
  }

  /** The first character and the unsigned remainder of optionally signed text. */
  lemma SignedTextShape(d: string, negative: bool, rest: string)
    requires d != [] && AllDigits(d)
    ensures var s := (if negative then "-" else "") + d + rest;
      && s != []
      && (s[0] == '-' <==> negative)
      && (IsDigit(s[0]) || s[0] == '-')
      && AfterSign(s) == d + rest
  {
    var s := (if negative then "-" else "") + d + rest;
    assert s[0] == (if negative then '-' else d[0]);
    if negative {
      assert s[1..] == d + rest;
    } else {
      assert s == d + rest;
    }
  }

  /** parseInt on trimmed text whose unsigned part starts with the digit run `d`. */
  lemma ParseIntOfParts(s: string, d: string, negative: bool)
    requires d != [] && AllDigits(d)
    requires TrimStart(s) == s && s != [] && (s[0] == '-' <==> negative)
    requires DigitPrefix(AfterSign(s)) == d
    ensures ParseIntDecimal(s) == Some(if negative then 0 - DigitsValue(d) else DigitsValue(d))
  {
  }

  /** Text starting with a digit or a minus sign has no white space to trim. */
  lemma SignedTextIsTrimmed(s: string)
    requires s != [] && (IsDigit(s[0]) || s[0] == '-')
    ensures TrimStart(s) == s
  {
    assert !IsJsWhiteSpace(s[0]);
  }

  /** Leading white space does not change what parseInt reads. */
  lemma {:induction false} ParseIntSkipsWhiteSpace(ws: string, s: string)
    requires forall i :: 0 <= i < |ws| ==> IsJsWhiteSpace(ws[i])
    ensures ParseIntDecimal(ws + s) == ParseIntDecimal(s)
  {
    TrimStartSkips(ws, s);
  }

  lemma {:induction false} TrimStartSkips(ws: string, s: string)
    requires forall i :: 0 <= i < |ws| ==> IsJsWhiteSpace(ws[i])
    ensures TrimStart(ws + s) == TrimStart(s)
  {
    if ws != [] {
      assert (ws + s)[0] == ws[0] && IsJsWhiteSpace(ws[0]);
      assert (ws + s)[1..] == ws[1..] + s;
      TrimStartSkips(ws[1..], s);
    } else {
      assert ws + s == s;
    }
  }
}
