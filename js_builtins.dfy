/**
 * The ECMAScript built-ins `adjustColor` in stores/theme.ts relies on:
 * `String.prototype.replace` with a string pattern, `parseInt(s, 16)`
 * (section 19.2.5 of ECMA-262), the rounding of its result to a double, and
 * `ToInt32` (section 7.1.6 of ECMA-262), which the shift and bitwise
 * operators apply to their operands.
 */
module JsBuiltins {
  import opened Wrappers
  import opened Text

  /** `s.replace('#', '')`: a string pattern replaces its first occurrence only. */
  function RemoveFirstHash(s: string): (r: string)
    ensures '#' in s ==> |r| == |s| - 1
    ensures '#' !in s ==> r == s
    ensures s != [] && s[0] == '#' ==> r == s[1..]
    ensures forall c :: c in r ==> c in s
  {
    if s == [] then []
    else if s[0] == '#' then s[1..]
    else [s[0]] + RemoveFirstHash(s[1..])
  }

  /** `StrWhiteSpaceChar`: the white space and line terminators `parseInt` skips. */
  predicate IsStrWhiteSpace(c: char)
  {
    || c == '\t' || c == '\U{000B}' || c == '\U{000C}' || c == ' ' || c == '\U{00A0}' || c == '\U{FEFF}'
    || c == '\U{1680}' || '\U{2000}' <= c <= '\U{200A}' || c == '\U{202F}' || c == '\U{205F}' || c == '\U{3000}'
    || c == '\n' || c == '\r' || c == '\U{2028}' || c == '\U{2029}'
  }

  /** `s` without its leading white space. */
  function TrimStart(s: string): (r: string)
    ensures |r| <= |s| && r == s[|s| - |r|..]
    ensures r == [] || !IsStrWhiteSpace(r[0])
    ensures forall i :: 0 <= i < |s| - |r| ==> IsStrWhiteSpace(s[i])
  {
    if s != [] && IsStrWhiteSpace(s[0]) then TrimStart(s[1..]) else s
  }

  /** The length of the longest prefix of `s` made of hexadecimal digits. */
  function HexPrefixLength(s: string): (k: nat)
    ensures k <= |s| && AllHexDigits(s[..k])
    ensures k < |s| ==> !IsHexDigit(s[k])
  {
    if s == [] || !IsHexDigit(s[0]) then 0
    else
      var k := 1 + HexPrefixLength(s[1..]);
      assert forall i :: 1 <= i < k ==> s[..k][i] == s[1..][..k - 1][i - 1];
      k
  }

  /** Drops a leading `0x` or `0X`. */
  function StripHexPrefix(s: string): (r: string)
    ensures r == s || (|s| >= 2 && r == s[2..])
  {
    if |s| >= 2 && s[0] == '0' && (s[1] == 'x' || s[1] == 'X') then s[2..] else s
  }

  /**
   * `parseInt(s, 16)` before its value is rounded to a double: leading white
   * space skipped, an optional sign, an optional `0x`, then the longest run
   * of hexadecimal digits; `None` (NaN) when that run is empty.
   */
  function ParseIntHex(s: string): Option<int>
  {
    ParseSigned(TrimStart(s))
  }

  function ParseSigned(t: string): Option<int>
  {
    if t != [] && t[0] == '-' then
      match ParseUnsigned(t[1..])
      case None => None
      case Some(v) => Some(-v)
    else if t != [] && t[0] == '+' then ParseUnsigned(t[1..])
    else ParseUnsigned(t)
  }

  function ParseUnsigned(u: string): (r: Option<int>)
    ensures r.Some? ==> r.value >= 0
  {
    var digits := StripHexPrefix(u);
    var k := HexPrefixLength(digits);
    if k == 0 then None else Some(HexDigitsValue(digits[..k]))
  }

  /** A run of hexadecimal digits is its own longest hexadecimal prefix. */
  lemma {:induction false} HexPrefixOfDigits(s: string, rest: string)
    requires AllHexDigits(s)
    requires rest == [] || !IsHexDigit(rest[0])
    ensures HexPrefixLength(s + rest) == |s|
  {
    if s != [] {
      assert (s + rest)[1..] == s[1..] + rest;
      HexPrefixOfDigits(s[1..], rest);
    }
  }

  /**
   * A non-empty run of hexadecimal digits, followed by anything that starts
   * with neither a digit nor the `x` of a `0x` prefix, parses to the run's
   * value; upper and lower case count alike.
   */
  lemma ParseIntHexOfDigits(s: string, rest: string)
    requires |s| >= 1 && AllHexDigits(s)
    requires rest == [] || (!IsHexDigit(rest[0]) && rest[0] != 'x' && rest[0] != 'X')
    ensures ParseIntHex(s + rest) == Some(HexDigitsValue(s))
  {
    var w := s + rest;
    HexDigitIsNoMark(s[0]);
    assert w[0] == s[0];
    assert TrimStart(w) == w;
    UnsignedOfDigits(s, rest);
  }

  /** Without a sign or white space in front, the digits are read as they stand. */
  lemma UnsignedOfDigits(s: string, rest: string)
    requires |s| >= 1 && AllHexDigits(s)
    requires rest == [] || (!IsHexDigit(rest[0]) && rest[0] != 'x' && rest[0] != 'X')
    ensures ParseUnsigned(s + rest) == Some(HexDigitsValue(s))
  {
    var w := s + rest;
    assert w[0] == s[0];
    if |s| >= 2 {
      HexDigitIsNoMark(s[1]);
      assert w[1] == s[1];
    } else if rest != [] {
      assert w[1] == rest[0];
    }
    assert StripHexPrefix(w) == w;
    HexPrefixOfDigits(s, rest);
    assert w[..|s|] == s;
  }

  /** A hexadecimal digit is neither white space, a sign nor the `x` of a prefix. */
  lemma HexDigitIsNoMark(c: char)
    requires IsHexDigit(c)
    ensures !IsStrWhiteSpace(c) && c != '-' && c != '+' && c != 'x' && c != 'X'
  {
  }

  /** Leading white space is skipped: the rest is read as a signed number. */
  lemma SkipSpace(space: string, t: string)
    requires forall i :: 0 <= i < |space| ==> IsStrWhiteSpace(space[i])
    requires t == [] || !IsStrWhiteSpace(t[0])
    ensures ParseIntHex(space + t) == ParseSigned(t)
  {
    TrimSpace(space, t);
  }

  /** A `-` followed by digits alone: the digits' value, negated. */
  lemma NegativeDigits(t: string, s: string)
    requires |s| >= 1 && AllHexDigits(s)
    requires |t| >= 2 && t[0] == '-' && t[1..] == s
    ensures ParseSigned(t) == Some(-(HexDigitsValue(s) as int))
  {
    assert s + [] == s;
    UnsignedOfDigits(s, []);
  }

  lemma {:induction false} TrimSpace(space: string, s: string)
    requires forall i :: 0 <= i < |space| ==> IsStrWhiteSpace(space[i])
    requires s == [] || !IsStrWhiteSpace(s[0])
    ensures TrimStart(space + s) == s
  {
    if space != [] {
      assert (space + s)[1..] == space[1..] + s;
      TrimSpace(space[1..], s);
    }
  }

  /** A string without a single hexadecimal digit parses to NaN. */
  lemma ParseIntHexNaN(s: string)
    requires forall i :: 0 <= i < |s| ==> !IsHexDigit(s[i])
    ensures ParseIntHex(s) == None
  {
    var t := TrimStart(s);
    var unsigned := if t != [] && (t[0] == '-' || t[0] == '+') then t[1..] else t;
    var digits := StripHexPrefix(unsigned);
    assert ParseUnsigned(unsigned) == None by {
      if digits != [] {
        assert digits[0] in s;
      }
    }
  }

  function Pow2(e: nat): (p: nat)
    ensures p >= 1
  {
    if e == 0 then 1 else 2 * Pow2(e - 1)
  }

  /** The number of binary digits of `m`. */
  function BitLength(m: nat): (w: nat)
    ensures m < Pow2(w)
  {
    if m == 0 then 0 else 1 + BitLength(m / 2)
  }

  /** A number below `2^e` has at most `e` binary digits. */
  lemma {:induction false} BitLengthBelow(m: nat, e: nat)
    requires m < Pow2(e)
    ensures BitLength(m) <= e
  {
    if m != 0 {
      BitLengthBelow(m / 2, e - 1);
    }
  }

  /** The width of a double's significand. */
  const SignificandBits: nat := 53
  /** `Number.MAX_SAFE_INTEGER`, 2^53 - 1. */
  const MaxSafe: nat := 0x1F_FFFF_FFFF_FFFF
  /** A finite double is below `2^MaxExponent`. */
  const MaxExponent: nat := 1024

  /**
   * `m` rounded to a multiple of `2^shift`: to the nearer one, and on a tie to
   * the one with an even quotient.
   */
  function RoundMagnitude(m: nat, shift: nat): (r: nat)
    ensures 2 * (m - r) <= Pow2(shift) && 2 * (r - m) <= Pow2(shift)
  {
    var q := Pow2(shift);
    var rem := m % q;
    var lo := m - rem;
    if 2 * rem < q || (2 * rem == q && (m / q) % 2 == 0) then lo else lo + q
  }

  /**
   * The double nearest to the integer `x`, ties to an even significand, with
   * `None` where the magnitude overflows to Infinity; integers of at most 53
   * binary digits are exact.
   */
  function RoundToDouble(x: int): (d: Option<int>)
    ensures -(MaxSafe as int) <= x <= MaxSafe ==> d == Some(x)
    ensures d.Some? && x >= 0 ==> d.value >= 0
    ensures d.Some? && x < 0 ==> d.value <= 0
  {
    var m := if x < 0 then -x else x;
    SmallIsExact(m);
    if BitLength(m) <= SignificandBits then
      Some(x)
    else
      var r := RoundMagnitude(m, BitLength(m) - SignificandBits);
      if BitLength(r) > MaxExponent then None else Some(if x < 0 then -(r as int) else r)
  }

  lemma SmallIsExact(m: nat)
    ensures m <= MaxSafe ==> BitLength(m) <= SignificandBits
  {
    if m <= MaxSafe {
      Pow16IsPow2(13);
      assert Pow16(13) == 0x10_0000_0000_0000;
      assert Pow2(SignificandBits) == 2 * Pow2(52);
      BitLengthBelow(m, SignificandBits);
    }
  }

  /**
   * `ToInt32` of a double that holds an integer (`None` stands for NaN and
   * the infinities): the value modulo 2^32, read as a signed 32-bit number.
   */
  function ToInt32(d: Option<int>): (n: int)
    ensures -0x8000_0000 <= n < 0x8000_0000
    ensures d.None? ==> n == 0
    ensures d.Some? ==> (n - d.value) % 0x1_0000_0000 == 0
  {
    match d
    case None => 0
    case Some(x) =>
      var low := x % 0x1_0000_0000;
      if low >= 0x8000_0000 then low - 0x1_0000_0000 else low
  }

  /** `parseInt(s, 16)` as a shift or bitwise operator reads it. */
  function ParsedInt32(s: string): int
  {
    match ParseIntHex(s)
    case None => ToInt32(None)
    case Some(x) => ToInt32(RoundToDouble(x))
  }

  /** Up to seven hexadecimal digits are read as their value. */
  lemma ParsedInt32OfDigits(s: string)
    requires 1 <= |s| <= 7 && AllHexDigits(s)
    ensures ParsedInt32(s) == HexDigitsValue(s)
  {
    var v := HexDigitsValue(s);
    ParseIntHexOfDigits(s, []);
    assert s + [] == s;
    assert ParseIntHex(s) == Some(v as int);
    HexDigitsBound(s);
    Pow16Grows(|s|, 7);
    assert Pow16(7) == 0x1000_0000;
    assert v < 0x1000_0000;
    assert RoundToDouble(v) == Some(v as int);
    SmallInt32(v);
  }

  /** A non-negative value below 2^31 is its own `ToInt32`. */
  lemma SmallInt32(v: int)
    requires 0 <= v < 0x8000_0000
    ensures ToInt32(Some(v)) == v
  {
  }

  lemma {:induction false} Pow16Grows(a: nat, b: nat)
    requires a <= b
    ensures Pow16(a) <= Pow16(b)
  {
    if a < b {
      Pow16Grows(a, b - 1);
    }
  }

  lemma {:induction false} Pow16IsPow2(w: nat)
    ensures Pow16(w) == Pow2(4 * w)
  {
    if w > 0 {
      Pow16IsPow2(w - 1);
      assert Pow2(4 * w) == 2 * Pow2(4 * w - 1) == 4 * Pow2(4 * w - 2) == 8 * Pow2(4 * w - 3) == 16 * Pow2(4 * (w - 1));
    }
  }

  /** A string without a hexadecimal digit is read as 0. */
  lemma ParsedInt32NaN(s: string)
    requires forall i :: 0 <= i < |s| ==> !IsHexDigit(s[i])
    ensures ParsedInt32(s) == 0
  {
    ParseIntHexNaN(s);
  }
}
