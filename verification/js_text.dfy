/**
 * The pieces of JavaScript's string semantics the client relies on:
 * `String.prototype.trim`, the global `parseInt` (one argument),
 * `Number.prototype.toString` on integers, and `String.prototype.includes`.
 */
module JsText {
  import opened Common

  /** ECMAScript WhiteSpace and LineTerminator code points: what `trim` and `parseInt` skip. */
  predicate IsWhitespace(c: char) {
    || c == ' ' || c == '\t' || c == '\n' || c == '\r'
    || c == '\U{000B}' || c == '\U{000C}' || c == '\U{00A0}' || c == '\U{1680}'
    || ('\U{2000}' <= c <= '\U{200A}')
    || c == '\U{2028}' || c == '\U{2029}' || c == '\U{202F}' || c == '\U{205F}'
    || c == '\U{3000}' || c == '\U{FEFF}'
  }

  /** Every character of `s` is whitespace. */
  predicate IsBlank(s: string) {
    s == [] || (IsWhitespace(s[0]) && IsBlank(s[1..]))
  }

  /** `IsBlank` read position by position. */
  lemma {:induction false} IsBlankAt(s: string)
    ensures IsBlank(s) <==> forall i :: 0 <= i < |s| ==> IsWhitespace(s[i])
  {
    if s != [] {
      IsBlankAt(s[1..]);
      assert forall i :: 1 <= i < |s| ==> s[i] == s[1..][i - 1];
    }
  }

  /** `s` without its leading whitespace. */
  function TrimStart(s: string): (r: string)
    ensures |r| <= |s| && r == s[|s| - |r|..]
    ensures r != [] ==> !IsWhitespace(r[0])
  {
    if s != [] && IsWhitespace(s[0]) then TrimStart(s[1..]) else s
  }

  /** `s` without its trailing whitespace. */
  function TrimEnd(s: string): (r: string)
    ensures |r| <= |s| && r == s[..|r|]
    ensures r != [] ==> !IsWhitespace(r[|r| - 1])
  {
    if s != [] && IsWhitespace(s[|s| - 1]) then TrimEnd(s[..|s| - 1]) else s
  }

  /** `s.trim()`. */
  function Trim(s: string): string {
    TrimEnd(TrimStart(s))
  }

  /** `s.trim()` is the empty string exactly when every character of `s` is whitespace. */
  lemma {:induction false} TrimEmptyIffBlank(s: string)
    ensures Trim(s) == [] <==> IsBlank(s)
  {
    var t := TrimStart(s);
    TrimStartEmptyIffBlank(s);
    if t != [] && TrimEnd(t) == [] {
      TrimEndEmptyMeansBlank(t);
      assert false;
    }
  }

  lemma {:induction false} TrimStartEmptyIffBlank(s: string)
    ensures TrimStart(s) == [] <==> IsBlank(s)
  {
    if s != [] && IsWhitespace(s[0]) {
      TrimStartEmptyIffBlank(s[1..]);
    }
  }

  lemma {:induction false} TrimEndEmptyMeansBlank(s: string)
    requires TrimEnd(s) == []
    ensures IsBlank(s)
  {
    if s != [] {
      TrimEndEmptyMeansBlank(s[..|s| - 1]);
      IsBlankAt(s[..|s| - 1]);
      forall i | 0 <= i < |s| ensures IsWhitespace(s[i]) {
        if i < |s| - 1 { assert s[i] == s[..|s| - 1][i]; }
      }
      IsBlankAt(s);
    }
  }

  // ---------------------------------------------------------------------------
  // Digits

  predicate IsDecimalDigit(c: char) {
    '0' <= c <= '9'
  }

  predicate IsHexDigit(c: char) {
    IsDecimalDigit(c) || ('a' <= c <= 'f') || ('A' <= c <= 'F')
  }

  function HexDigitValue(c: char): (v: nat)
    requires IsHexDigit(c)
    ensures v < 16
  {
    if IsDecimalDigit(c) then c as int - '0' as int
    else if 'a' <= c <= 'f' then c as int - 'a' as int + 10
    else c as int - 'A' as int + 10
  }

  /** The decimal digit character for `d`. */
  function DigitChar(d: nat): (c: char)
    requires d < 10
    ensures IsDecimalDigit(c) && HexDigitValue(c) == d
  {
    ('0' as int + d) as char
  }

  /** The longest prefix of `s` made of characters satisfying `IsDecimalDigit`. */
  function DecimalPrefix(s: string): (d: string)
    ensures d <= s
    ensures forall i :: 0 <= i < |d| ==> IsDecimalDigit(d[i])
    ensures |d| < |s| ==> !IsDecimalDigit(s[|d|])
  {
    if s != [] && IsDecimalDigit(s[0]) then [s[0]] + DecimalPrefix(s[1..]) else []
  }

  /** The longest prefix of `s` made of hexadecimal digits. */
  function HexPrefix(s: string): (d: string)
    ensures d <= s
    ensures forall i :: 0 <= i < |d| ==> IsHexDigit(d[i])
    ensures |d| < |s| ==> !IsHexDigit(s[|d|])
  {
    if s != [] && IsHexDigit(s[0]) then [s[0]] + HexPrefix(s[1..]) else []
  }

  /** The number a digit string denotes in the given radix, most significant digit first. */
  function DigitsValue(d: string, radix: nat): nat
    requires forall i :: 0 <= i < |d| ==> IsHexDigit(d[i])
  {
    if d == [] then 0 else DigitsValue(d[..|d| - 1], radix) * radix + HexDigitValue(d[|d| - 1])
  }

  // ---------------------------------------------------------------------------
  // parseInt and toString

  /**
   * `parseInt(s)` with no radix argument: skip leading whitespace, read an
   * optional sign, read a `0x`/`0X` prefix as radix 16 (radix 10 otherwise),
   * then read the longest run of digits of that radix. No digit at all is
   * `NaN`, here `None`. Trailing text after the digits is ignored.
   */
  function ParseInt(s: string): (r: Option<int>)
  {
    var t := TrimStart(s);
    if t != [] && t[0] == '-' then
      match ParseUnsigned(t[1..])
      case None => None
      case Some(v) => Some(-(v as int))
    else if t != [] && t[0] == '+' then
      match ParseUnsigned(t[1..])
      case None => None
      case Some(v) => Some(v)
    else
      match ParseUnsigned(t)
      case None => None
      case Some(v) => Some(v)
  }

  /** The digits after the sign: a `0x`/`0X` prefix selects radix 16, otherwise radix 10. */
  function ParseUnsigned(u: string): (r: Option<nat>)
  {
    if |u| >= 2 && u[0] == '0' && (u[1] == 'x' || u[1] == 'X') then
      var d := HexPrefix(u[2..]);
      if d == [] then None else Some(DigitsValue(d, 16))
    else
      var d := DecimalPrefix(u);
      if d == [] then None else Some(DigitsValue(d, 10))
  }

  /** The decimal numeral of a natural number, without leading zeros. */
  function NatToString(n: nat): (s: string)
    ensures s != []
    ensures forall i :: 0 <= i < |s| ==> IsDecimalDigit(s[i])
  {
    if n < 10 then [DigitChar(n)] else NatToString(n / 10) + [DigitChar(n % 10)]
  }

  /** `n.toString()` for an integer-valued Number. */
  function IntToString(n: int): (s: string)
    ensures s != []
    ensures forall i :: 0 <= i < |s| ==> IsDecimalDigit(s[i]) || s[i] == '-'
  {
    if n < 0 then "-" + NatToString(-n) else NatToString(n)
  }

  lemma {:induction false} NatToStringValue(n: nat)
    ensures DigitsValue(NatToString(n), 10) == n
  {
    var s := NatToString(n);
    if n >= 10 {
      NatToStringValue(n / 10);
      assert s[..|s| - 1] == NatToString(n / 10);
    }
  }

  lemma {:induction false} DecimalPrefixOfDigits(s: string, rest: string)
    requires forall i :: 0 <= i < |s| ==> IsDecimalDigit(s[i])
    requires rest == [] || !IsDecimalDigit(rest[0])
    ensures DecimalPrefix(s + rest) == s
  {
    if s != [] {
      assert (s + rest)[1..] == s[1..] + rest;
      DecimalPrefixOfDigits(s[1..], rest);
    }
  }

  lemma NumeralNotWhitespace(c: char)
    requires IsDecimalDigit(c) || c == '-'
    ensures !IsWhitespace(c)
  {
  }

  /** A decimal digit string that does not begin `0x` is read as a decimal number. */
  lemma {:induction false} ParseUnsignedOfDigits(digits: string, rest: string)
    requires digits != [] && forall i :: 0 <= i < |digits| ==> IsDecimalDigit(digits[i])
    requires |digits| == 1 ==> digits[0] != '0' || rest == [] || (rest[0] != 'x' && rest[0] != 'X')
    requires rest == [] || !IsDecimalDigit(rest[0])
    ensures ParseUnsigned(digits + rest) == Some(DigitsValue(digits, 10))
  {
    var u := digits + rest;
    assert u[0] == digits[0];
    if |digits| >= 2 {
      assert u[1] == digits[1];
    } else if rest != [] {
      assert u[1] == rest[0];
    }
    DecimalPrefixOfDigits(digits, rest);
  }

  /** Reading back a printed integer gives the integer: `parseInt(n.toString()) === n`. */
  lemma {:induction false} ParseIntOfIntToString(n: int)
    ensures ParseInt(IntToString(n)) == Some(n)
  {
    var m: nat := if n < 0 then -n else n;
    var digits := NatToString(m);
    var s := IntToString(n);
    NumeralNotWhitespace(s[0]);
    assert TrimStart(s) == s;
    ParseUnsignedOfDigits(digits, []);
    assert digits + [] == digits;
    NatToStringValue(m);
    if n < 0 {
      assert s[1..] == digits;
      assert IsDecimalDigit(digits[0]);
    } else {
      assert s == digits;
    }
  }

  /** Trailing non-digits are ignored: `parseInt("12abc") === 12`. */
  lemma {:induction false} ParseIntIgnoresTrailingText(digits: string, rest: string)
    requires digits != [] && forall i :: 0 <= i < |digits| ==> IsDecimalDigit(digits[i])
    requires |digits| == 1 ==> digits[0] != '0' || rest == [] || (rest[0] != 'x' && rest[0] != 'X')
    requires rest == [] || !IsDecimalDigit(rest[0])
    ensures ParseInt(digits + rest) == Some(DigitsValue(digits, 10))
  {
    var s := digits + rest;
    assert s[0] == digits[0];
    NumeralNotWhitespace(s[0]);
    assert TrimStart(s) == s;
    ParseUnsignedOfDigits(digits, rest);
  }

  /** A text whose first character is neither whitespace, a sign nor a digit is `NaN`: `parseInt("abc")`. */
  lemma ParseIntRejectsNonNumeric(s: string)
    requires s != [] && !IsWhitespace(s[0]) && !IsDecimalDigit(s[0]) && s[0] != '-' && s[0] != '+'
    ensures ParseInt(s) == None
  {
    assert TrimStart(s) == s;
  }

  // ---------------------------------------------------------------------------
  // includes

  /** `s.includes(w)`: `w` occurs in `s` at some position. */
  predicate Includes(s: string, w: string)
    decreases |s|
  {
    w <= s || (s != [] && Includes(s[1..], w))
  }

  /** `w` occurs in `s` starting at position `i`. */
  predicate OccursAt(s: string, w: string, i: nat) {
    i + |w| <= |s| && s[i..i + |w|] == w
  }

  /** An occurrence starting at position `i` witnesses `Includes`. */
  lemma {:induction false} IncludesAt(s: string, w: string, i: nat)
    requires OccursAt(s, w, i)
    ensures Includes(s, w)
  {
    if i > 0 {
      assert s[1..][i - 1..i - 1 + |w|] == s[i..i + |w|];
      IncludesAt(s[1..], w, i - 1);
    }
  }

  /** `s.includes(w)` holds exactly when `w` occurs in `s` at some position. */
  lemma {:induction false} IncludesIffOccurs(s: string, w: string)
    ensures Includes(s, w) <==> exists i: nat :: OccursAt(s, w, i)
    decreases |s|
  {
    if exists i: nat :: OccursAt(s, w, i) {
      var i: nat :| OccursAt(s, w, i);
      IncludesAt(s, w, i);
    }
    if Includes(s, w) {
      if w <= s {
        assert OccursAt(s, w, 0);
      } else {
        var t := s[1..];
        IncludesIffOccurs(t, w);
        var j: nat :| OccursAt(t, w, j);
        assert s[j + 1..j + 1 + |w|] == t[j..j + |w|];
        assert OccursAt(s, w, j + 1);
      }
    }
  }

  /**
   * A non-empty word whose first character does not occur in `p` is found in
   * `p + b` exactly when it is found in `b`.
   */
  lemma {:induction false} IncludesPastPrefix(p: string, b: string, w: string)
    requires w != [] && forall i :: 0 <= i < |p| ==> p[i] != w[0]
    ensures Includes(p + b, w) <==> Includes(b, w)
  {
    if p != [] {
      assert (p + b)[0] == p[0];
      assert !(w <= p + b);
      assert (p + b)[1..] == p[1..] + b;
      IncludesPastPrefix(p[1..], b, w);
    } else {
      assert p + b == b;
    }
  }
}
