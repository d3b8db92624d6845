/** The number conversions the pages and the ML API rely on, over exact
    integers and reals: JavaScript `parseInt(s)` (no radix) and `Number(s)`
    restricted to finite results, the decimal-literal grammar shared with
    Python's `float(s)`, and JavaScript `Math.round`. */
module Numbers {
  import opened Values

  /** Value of `c` as a digit in base `radix` (at most 16), if it is one. */
  function DigitValue(c: char, radix: nat): (r: Option<nat>)
    ensures r.Some? ==> r.value < radix
  {
    var d :=
      if '0' <= c <= '9' then c as int - '0' as int
      else if 'a' <= c <= 'f' then c as int - 'a' as int + 10
      else if 'A' <= c <= 'F' then c as int - 'A' as int + 10
      else 16;
    if d < radix then Some(d) else None
  }

  predicate IsDigit(c: char, radix: nat) {
    DigitValue(c, radix).Some?
  }

  predicate AllDigits(s: string, radix: nat) {
    forall i :: 0 <= i < |s| ==> IsDigit(s[i], radix)
  }

  /** Length of the longest prefix of `s` made of base-`radix` digits. */
  function LeadingDigits(s: string, radix: nat): (n: nat)
    ensures n <= |s|
    ensures AllDigits(s[..n], radix)
    ensures n < |s| ==> !IsDigit(s[n], radix)
  {
    if s != [] && IsDigit(s[0], radix) then 1 + LeadingDigits(s[1..], radix) else 0
  }

  /** Value of a digit string, most significant digit first. */
  function DigitsValue(s: string, radix: nat): nat
    requires AllDigits(s, radix)
  {
    if s == [] then 0
    else DigitsValue(s[..|s| - 1], radix) * radix + DigitValue(s[|s| - 1], radix).value
  }

  /** The decimal digit for `d`. */
  function DigitChar(d: nat): (c: char)
    requires d < 10
    ensures DigitValue(c, 10) == Some(d)
  {
    ('0' as int + d) as char
  }

  /** The canonical decimal spelling of `n` (no sign, no leading zeros). */
  function NatToString(n: nat): (r: string)
    ensures |r| >= 1 && AllDigits(r, 10)
    ensures DigitsValue(r, 10) == n
    ensures |r| > 1 ==> r[0] != '0'
  {
    if n < 10 then [DigitChar(n)]
    else
      var p := NatToString(n / 10);
      var r := p + [DigitChar(n % 10)];
      assert r[..|r| - 1] == p;
      r
  }

  /** `t` without its leading `+` or `-`, if it has one. */
  function DropSign(t: string): string {
    if t != [] && (t[0] == '-' || t[0] == '+') then t[1..] else t
  }

  /** `parseInt` after the sign: a `0x`/`0X` prefix selects base 16, then as many
      digits as there are; `None` when there is no digit at all. */
  function ParseUnsignedInt(u: string): Option<nat> {
    var hex := |u| >= 2 && u[0] == '0' && (u[1] == 'x' || u[1] == 'X');
    var radix := if hex then 16 else 10;
    var body := if hex then u[2..] else u;
    var n := LeadingDigits(body, radix);
    if n == 0 then None else Some(DigitsValue(body[..n], radix))
  }

  /** JavaScript `parseInt(s)` with no radix argument: leading white space is
      skipped, then an optional sign and `ParseUnsignedInt`; `None` is NaN. */
  function ParseInt(s: string): Option<int> {
    if s != [] && IsSpace(s[0]) then ParseInt(s[1..])
    else
      match ParseUnsignedInt(DropSign(s))
      case None => None
      case Some(v) => Some(if s != [] && s[0] == '-' then -(v as int) else v as int)
  }

  /** A digit string followed by non-digits: the leading digits are exactly it. */
  lemma {:induction false} LeadingDigitsOfPrefix(d: string, rest: string, radix: nat)
    requires AllDigits(d, radix)
    requires rest == [] || !IsDigit(rest[0], radix)
    ensures LeadingDigits(d + rest, radix) == |d|
  {
    if d != [] {
      assert (d + rest)[1..] == d[1..] + rest;
      LeadingDigitsOfPrefix(d[1..], rest, radix);
    }
  }

  /** White space is no digit in any base. */
  lemma SpaceIsNoDigit(c: char, radix: nat)
    requires IsSpace(c) && radix <= 16
    ensures !IsDigit(c, radix)
  {
    assert DigitValue(c, radix).None?;
  }

  /** The unsigned part of `parseInt` reads a canonical number followed by white space. */
  lemma ParseUnsignedIntOfNat(n: nat, rest: string)
    requires rest == [] || IsSpace(rest[0])
    ensures ParseUnsignedInt(NatToString(n) + rest) == Some(n)
  {
    var d := NatToString(n);
    var s := d + rest;
    var hex := |s| >= 2 && s[0] == '0' && (s[1] == 'x' || s[1] == 'X');
    assert !hex by {
      if |d| >= 2 {
        assert s[0] == d[0];
      } else if |s| >= 2 {
        assert s[1] == rest[0];
      }
    }
    if rest != [] {
      SpaceIsNoDigit(rest[0], 10);
    }
    LeadingDigitsOfPrefix(d, rest, 10);
    assert LeadingDigits(s, 10) == |d|;
    assert s[..|d|] == d;
  }

  /** Text that starts with neither white space nor a sign is read by `parseInt`
      exactly as its unsigned part. */
  lemma ParseIntOfUnsigned(s: string, n: nat)
    requires s != [] && !IsSpace(s[0]) && s[0] != '-' && s[0] != '+'
    requires ParseUnsignedInt(s) == Some(n)
    ensures ParseInt(s) == Some(n)
  {
    assert DropSign(s) == s;
  }

  /** `parseInt` reads back a canonical decimal number followed by white space
      and any text, as in an area written "25 acres". */
  lemma ParseIntReadsNumberBeforeText(n: nat, rest: string)
    requires rest == [] || IsSpace(rest[0])
    ensures ParseInt(NatToString(n) + rest) == Some(n)
  {
    var d := NatToString(n);
    var s := d + rest;
    assert s[0] == d[0] && IsDigit(d[0], 10);
    assert DigitValue(s[0], 10).Some?;
    assert !IsSpace(s[0]) && s[0] != '-' && s[0] != '+';
    ParseUnsignedIntOfNat(n, rest);
    ParseIntOfUnsigned(s, n);
  }

  /** 10 to the power `n`. */
  function Pow10(n: nat): (r: real)
    ensures r >= 1.0
  {
    if n == 0 then 1.0 else 10.0 * Pow10(n - 1)
  }

  /** `m` times 10 to the power `e`. */
  function Scale(m: real, e: int): real {
    if e >= 0 then m * Pow10(e) else m / Pow10(-e)
  }

  /** An exponent after `e`/`E`: an optional sign and at least one digit, nothing else. */
  function Exponent(t: string): Option<int> {
    var negative := t != [] && t[0] == '-';
    var u := if t != [] && (t[0] == '-' || t[0] == '+') then t[1..] else t;
    if u != [] && LeadingDigits(u, 10) == |u| then
      var v: int := DigitsValue(u, 10);
      Some(if negative then -v else v)
    else None
  }

  /** An unsigned decimal literal: digits, an optional `.` and fraction digits (at
      least one digit in all), then an optional exponent, and nothing else. */
  function UnsignedDecimal(t: string): Option<real> {
    var i := LeadingDigits(t, 10);
    var rest := t[i..];
    var hasDot := rest != [] && rest[0] == '.';
    var afterDot := if hasDot then rest[1..] else rest;
    var j := if hasDot then LeadingDigits(afterDot, 10) else 0;
    var tail := afterDot[j..];
    if i == 0 && j == 0 then None
    else
      var m := DigitsValue(t[..i], 10) as real + DigitsValue(afterDot[..j], 10) as real / Pow10(j);
      if tail == [] then Some(m)
      else if tail[0] == 'e' || tail[0] == 'E' then
        match Exponent(tail[1..])
        case None => None
        case Some(e) => Some(Scale(m, e))
      else None
  }

  /** A decimal literal with an optional leading sign, the grammar JavaScript
      `Number` and Python `float` share; `None` when `t` is not one. */
  function DecimalLiteral(t: string): Option<real> {
    if t != [] && (t[0] == '+' || t[0] == '-') then
      match UnsignedDecimal(t[1..])
      case None => None
      case Some(v) => Some(if t[0] == '-' then -v else v)
    else UnsignedDecimal(t)
  }

  /** Whether `t` starts with one of the prefixes `0x`, `0o`, `0b` (either case). */
  predicate HasRadixPrefix(t: string) {
    |t| >= 2 && t[0] == '0' && t[1] in "xXoObB"
  }

  /** An unsigned integer written with a radix prefix and nothing else. */
  function PrefixedInteger(t: string): Option<real>
    requires HasRadixPrefix(t)
  {
    var radix := if t[1] in "xX" then 16 else if t[1] in "oO" then 8 else 2;
    var body := t[2..];
    if body != [] && LeadingDigits(body, radix) == |body| then Some(DigitsValue(body, radix) as real)
    else None
  }

  /** JavaScript `Number(s)` when it is finite, `None` when it is NaN or infinite:
      surrounding white space is ignored, the empty string is 0, `0x`/`0o`/`0b`
      prefixes give unsigned integers in base 16, 8 and 2, and anything else must
      be a decimal literal. */
  function JsNumber(s: string): Option<real> {
    var t := Trim(s);
    if t == [] then Some(0.0)
    else if HasRadixPrefix(t) then PrefixedInteger(t)
    else DecimalLiteral(t)
  }

  /** A digit string alone is an unsigned decimal literal with its own value. */
  lemma UnsignedDecimalOfDigits(d: string)
    requires d != [] && AllDigits(d, 10)
    ensures UnsignedDecimal(d) == Some(DigitsValue(d, 10) as real)
  {
    LeadingDigitsOfPrefix(d, [], 10);
    assert d + [] == d;
    assert d[..|d|] == d;
    assert d[|d|..] == [];
  }

  /** `Number` reads back the canonical decimal spelling of a natural number. */
  lemma JsNumberReadsNat(n: nat)
    ensures JsNumber(NatToString(n)) == Some(n as real)
  {
    var d := NatToString(n);
    assert IsDigit(d[0], 10) && IsDigit(d[|d| - 1], 10);
    assert TrimStart(d) == d;
    assert TrimEnd(d) == d;
    assert Trim(d) == d;
    assert !HasRadixPrefix(d);
    UnsignedDecimalOfDigits(d);
  }

  /** Text whose first non-blank character cannot begin a number (a letter, say)
      is NaN to `Number`. */
  lemma JsNumberRejectsText(s: string)
    requires Trim(s) != [] && !IsDigit(Trim(s)[0], 10) && Trim(s)[0] !in "+-."
    ensures JsNumber(s) == None
  {
    var t := Trim(s);
    assert !HasRadixPrefix(t);
    assert LeadingDigits(t, 10) == 0;
    assert t[0..] == t;
  }

  /** JavaScript `Math.round(x)`: the nearest integer, halves rounded up. */
  function RoundHalfUp(x: real): (r: int)
    ensures x - 0.5 < r as real <= x + 0.5
  {
    (x + 0.5).Floor
  }
}
