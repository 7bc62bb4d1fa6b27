/**
 * The few pieces of JavaScript value semantics the flag-submission code
 * leans on: truthiness of strings, the `a || b || fallback` chains used
 * for defaults and header fallbacks, and the global `parseInt` (with no
 * radix argument) used for the SMTP port, as section 19.2.5 of
 * ECMA-262 defines it. `NaN` is `None`.
 */
module JsValues {

  datatype Option<T> = None | Some(value: T)

  /** A string is falsy in JavaScript exactly when it is empty. */
  predicate Truthy(s: string) {
    s != ""
  }

  /**
   * `candidates[0] || candidates[1] || ... || fallback` on strings: the
   * first truthy candidate, or the fallback when every candidate is empty.
   */
  function FirstTruthy(candidates: seq<string>, fallback: string): (r: string)
    ensures (forall i :: 0 <= i < |candidates| ==> !Truthy(candidates[i])) ==> r == fallback
    ensures forall i :: 0 <= i < |candidates| && Truthy(candidates[i]) ==>
                          (forall j :: 0 <= j < i ==> !Truthy(candidates[j])) ==> r == candidates[i]
    ensures r == fallback || r in candidates
  {
    if candidates == [] then fallback
    else if Truthy(candidates[0]) then candidates[0]
    else
      var rest := FirstTruthy(candidates[1..], fallback);
      assert forall i :: 1 <= i < |candidates| ==> candidates[1..][i - 1] == candidates[i];
      rest
  }

  // ----- parseInt -----

  /** WhiteSpace and LineTerminator code points that `parseInt` skips first. */
  predicate IsJsWhiteSpace(c: char) {
    || c == ' ' || c == '\t' || c == '\n' || c == '\r'
    || c == '\U{000B}' || c == '\U{000C}' || c == '\U{00A0}' || c == '\U{FEFF}'
    || c == '\U{1680}' || ('\U{2000}' <= c <= '\U{200A}')
    || c == '\U{2028}' || c == '\U{2029}' || c == '\U{202F}' || c == '\U{205F}' || c == '\U{3000}'
  }

  /** The string with its leading white space removed. */
  function TrimStart(s: string): (r: string)
    ensures |r| <= |s| && r == s[|s| - |r|..]
    ensures forall i :: 0 <= i < |s| - |r| ==> IsJsWhiteSpace(s[i])
    ensures r == [] || !IsJsWhiteSpace(r[0])
  {
    if s != [] && IsJsWhiteSpace(s[0]) then TrimStart(s[1..]) else s
  }

  /** Value of a digit in radices up to 36; 36 for a character that is no digit. */
  function DigitValue(c: char): nat {
    if '0' <= c <= '9' then c as nat - '0' as nat
    else if 'a' <= c <= 'z' then c as nat - 'a' as nat + 10
    else if 'A' <= c <= 'Z' then c as nat - 'A' as nat + 10
    else 36
  }

  predicate IsDigit(c: char, radix: nat) {
    DigitValue(c) < radix
  }

  predicate AllDigits(z: string, radix: nat) {
    forall i :: 0 <= i < |z| ==> IsDigit(z[i], radix)
  }

  /** The longest prefix of `s` made of digits of the radix. */
  function DigitPrefix(s: string, radix: nat): (z: string)
    ensures |z| <= |s| && z == s[..|z|]
    ensures AllDigits(z, radix)
    ensures |z| < |s| ==> !IsDigit(s[|z|], radix)
  {
    if s != [] && IsDigit(s[0], radix) then [s[0]] + DigitPrefix(s[1..], radix) else []
  }

  /** The number a digit string denotes in the radix, most significant digit first. */
  function DigitsValue(z: string, radix: nat): nat {
    if z == [] then 0 else DigitsValue(z[..|z| - 1], radix) * radix + DigitValue(z[|z| - 1])
  }

  /** -1 when the text starts with a minus sign, 1 otherwise. */
  function Sign(t: string): int {
    if t != [] && t[0] == '-' then -1 else 1
  }

  /** The text without one leading sign character. */
  function StripSign(t: string): string {
    if t != [] && (t[0] == '-' || t[0] == '+') then t[1..] else t
  }

  /**
   * The magnitude `parseInt` reads once white space and sign are gone: a
   * hexadecimal number after a `0x` or `0X` prefix, a decimal one
   * otherwise, up to the first character that is not a digit; NaN when no
   * digit was read.
   */
  function ParseMagnitude(u: string): Option<nat> {
    var hex := |u| >= 2 && u[0] == '0' && (u[1] == 'x' || u[1] == 'X');
    var radix := if hex then 16 else 10;
    var z := DigitPrefix(if hex then u[2..] else u, radix);
    if z == [] then None else Some(DigitsValue(z, radix))
  }

  /** `parseInt(s)` with no radix argument. */
  function ParseInt(s: string): Option<int> {
    var t := TrimStart(s);
    match ParseMagnitude(StripSign(t))
    case None => None
    case Some(m) => Some(Sign(t) * m)
  }

  // ----- decimal rendering, the reference the parser is checked against -----

  function DecimalDigit(d: nat): (c: char)
    requires d < 10
    ensures IsDigit(c, 10) && DigitValue(c) == d
  {
    ('0' as nat + d) as char
  }

  /** The usual decimal rendering of a natural number, without leading zeros. */
  function ToDecimal(n: nat): (r: string)
    ensures |r| >= 1 && AllDigits(r, 10)
    ensures n >= 10 ==> |r| >= 2
    ensures r[0] == '0' ==> n == 0
  {
    if n < 10 then [DecimalDigit(n)] else ToDecimal(n / 10) + [DecimalDigit(n % 10)]
  }

  lemma {:induction false} ToDecimalValue(n: nat)
    ensures DigitsValue(ToDecimal(n), 10) == n
  {
    if n >= 10 {
      var r := ToDecimal(n);
      assert r[..|r| - 1] == ToDecimal(n / 10);
      ToDecimalValue(n / 10);
    }
  }

  /** Reading digits stops exactly where the digits stop. */
  lemma {:induction false} DigitPrefixOfDigits(z: string, rest: string, radix: nat)
    requires AllDigits(z, radix)
    requires rest == [] || !IsDigit(rest[0], radix)
    ensures DigitPrefix(z + rest, radix) == z
  {
    if z != [] {
      assert (z + rest)[1..] == z[1..] + rest;
      DigitPrefixOfDigits(z[1..], rest, radix);
    } else {
      assert z + rest == rest;
    }
  }

  /**
   * A decimal numeral followed by anything that is not a digit reads as its
   * value, except that an `x` right after a lone `0` makes it a hex prefix.
   */
  lemma MagnitudeOfDecimal(n: nat, rest: string)
    requires rest == [] || (!IsDigit(rest[0], 10) && (n != 0 || (rest[0] != 'x' && rest[0] != 'X')))
    ensures ParseMagnitude(ToDecimal(n) + rest) == Some(n)
  {
    var d := ToDecimal(n);
    var s := d + rest;
    assert s[0] == d[0];
    if |s| >= 2 && s[0] == '0' {
      assert |d| == 1;
      assert s[1] == rest[0];
    }
    DigitPrefixOfDigits(d, rest, 10);
    ToDecimalValue(n);
  }

  /** A decimal digit is neither white space nor a sign. */
  lemma DecimalDigitIsPlain(c: char)
    requires IsDigit(c, 10)
    ensures '0' <= c <= '9'
    ensures !IsJsWhiteSpace(c) && c != '-' && c != '+'
  {
  }

  /** A string that starts with a decimal digit is read from its first character. */
  lemma StartsPlain(s: string)
    requires s != [] && IsDigit(s[0], 10)
    ensures TrimStart(s) == s && StripSign(s) == s && Sign(s) == 1
  {
    DecimalDigitIsPlain(s[0]);
  }

  /** A decimal numeral followed by a non-digit parses to its value. */
  lemma ParseIntDecimalPrefix(n: nat, rest: string)
    requires rest == [] || (!IsDigit(rest[0], 10) && (n != 0 || (rest[0] != 'x' && rest[0] != 'X')))
    ensures ParseInt(ToDecimal(n) + rest) == Some(n)
  {
    var s := ToDecimal(n) + rest;
    assert s[0] == ToDecimal(n)[0];
    StartsPlain(s);
    MagnitudeOfDecimal(n, rest);
  }

  lemma ParseIntDecimal(n: nat)
    ensures ParseInt(ToDecimal(n)) == Some(n)
  {
    ParseIntDecimalPrefix(n, []);
    assert ToDecimal(n) + [] == ToDecimal(n);
  }

  /** A minus sign negates the value that follows it. */
  lemma ParseIntNegative(n: nat)
    ensures ParseInt("-" + ToDecimal(n)) == Some(-(n as int))
  {
    var d := ToDecimal(n);
    var s := "-" + d;
    assert s[0] == '-' && s[1..] == d;
    assert TrimStart(s) == s;
    assert StripSign(s) == d && Sign(s) == -1;
    MagnitudeOfDecimal(n, []);
    assert d + [] == d;
  }

  /** Leading white space does not change what `parseInt` reads. */
  lemma ParseIntSkipsWhiteSpace(c: char, s: string)
    requires IsJsWhiteSpace(c)
    ensures ParseInt([c] + s) == ParseInt(s)
  {
    assert ([c] + s)[1..] == s;
  }

  /** A string without a single decimal digit is NaN. */
  lemma NoDigitsIsNaN(s: string)
    requires forall i :: 0 <= i < |s| ==> !IsDigit(s[i], 10)
    ensures ParseInt(s) == None
  {
    var u := StripSign(TrimStart(s));
    assert forall i :: 0 <= i < |u| ==> u[i] in s;
  }
}
