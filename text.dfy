/** Character classes and decimal/hexadecimal numerals on strings. */
module Text {

  predicate IsDigit(c: char) { '0' <= c <= '9' }
  predicate IsLower(c: char) { 'a' <= c <= 'z' }
  predicate IsUpper(c: char) { 'A' <= c <= 'Z' }
  predicate IsHexDigit(c: char) { IsDigit(c) || 'a' <= c <= 'f' || 'A' <= c <= 'F' }
  predicate IsLowerHexDigit(c: char) { IsDigit(c) || 'a' <= c <= 'f' }

  predicate AllDigits(s: string) { forall i :: 0 <= i < |s| ==> IsDigit(s[i]) }
  predicate AllHexDigits(s: string) { forall i :: 0 <= i < |s| ==> IsHexDigit(s[i]) }
  predicate AllLowerHexDigits(s: string) { forall i :: 0 <= i < |s| ==> IsLowerHexDigit(s[i]) }

  /**
   * Lexicographic order on strings by character code: `a` sorts no later
   * than `b`; a proper prefix sorts first.
   */
  predicate LexLe(a: string, b: string)
    decreases |a|
  {
    a == [] || (b != [] && (a[0] < b[0] || (a[0] == b[0] && LexLe(a[1..], b[1..]))))
  }

  /** `s.startsWith(prefix)`. */
  predicate StartsWith(s: string, prefix: string) { prefix <= s }

  function DigitValue(c: char): (d: nat)
    requires IsDigit(c)
    ensures d < 10
  {
    (c as int - '0' as int) as nat
  }

  function DigitChar(d: nat): (c: char)
    requires d < 10
    ensures IsDigit(c) && DigitValue(c) == d
  {
    ('0' as int + d) as char
  }

  /** `parseInt(s, 10)` on a non-empty run of ASCII digits. */
  function DigitsValue(s: string): nat
    requires AllDigits(s)
    decreases |s|
  {
    if s == [] then 0 else DigitsValue(s[..|s| - 1]) * 10 + DigitValue(s[|s| - 1])
  }

  /** The shortest decimal numeral of `n`: the inverse of `DigitsValue`. */
  function NatToDigits(n: nat): (s: string)
    ensures |s| >= 1 && AllDigits(s)
    ensures DigitsValue(s) == n
    decreases n
  {
    if n < 10 then [DigitChar(n)]
    else
      var prefix := NatToDigits(n / 10);
      var s := prefix + [DigitChar(n % 10)];
      assert s[..|s| - 1] == prefix;
      s
  }

  function HexValue(c: char): (d: nat)
    requires IsHexDigit(c)
    ensures d < 16
  {
    if IsDigit(c) then DigitValue(c)
    else if 'a' <= c <= 'f' then (c as int - 'a' as int + 10) as nat
    else (c as int - 'A' as int + 10) as nat
  }

  function LowerHexChar(d: nat): (c: char)
    requires d < 16
    ensures IsLowerHexDigit(c) && HexValue(c) == d
  {
    if d < 10 then DigitChar(d) else ('a' as int + d - 10) as char
  }

  /** The value of a run of hexadecimal digits, most significant first. */
  function HexDigitsValue(s: string): nat
    requires AllHexDigits(s)
    decreases |s|
  {
    if s == [] then 0 else HexDigitsValue(s[..|s| - 1]) * 16 + HexValue(s[|s| - 1])
  }

  /** `n.toString(16)` for a natural number: lower-case digits, no leading zeros. */
  function ToHexString(n: nat): (s: string)
    ensures |s| >= 1 && AllLowerHexDigits(s)
    decreases n
  {
    if n < 16 then [LowerHexChar(n)] else ToHexString(n / 16) + [LowerHexChar(n % 16)]
  }

  function Pow16(w: nat): (p: nat)
    ensures p >= 1
  {
    if w == 0 then 1 else 16 * Pow16(w - 1)
  }

  /** `w` hexadecimal digits stand for less than `16^w`. */
  lemma {:induction false} HexDigitsBound(s: string)
    requires AllHexDigits(s)
    ensures HexDigitsValue(s) < Pow16(|s|)
  {
    if s != [] {
      HexDigitsBound(s[..|s| - 1]);
    }
  }

  /** Exactly `w` lower-case hexadecimal digits of `n`, zero-padded. */
  function HexFixed(n: nat, w: nat): (s: string)
    ensures |s| == w && AllLowerHexDigits(s)
  {
    if w == 0 then [] else HexFixed(n / 16, w - 1) + [LowerHexChar(n % 16)]
  }

  /** Reading back a fixed-width rendering gives the number, when it fits in `w` digits. */
  lemma {:induction false} HexFixedValue(n: nat, w: nat)
    requires n < Pow16(w)
    ensures AllHexDigits(HexFixed(n, w)) && HexDigitsValue(HexFixed(n, w)) == n
  {
    var s := HexFixed(n, w);
    assert AllHexDigits(s) by {
      forall i | 0 <= i < |s| ensures IsHexDigit(s[i]) { assert IsLowerHexDigit(s[i]); }
    }
    if w > 0 {
      HexFixedValue(n / 16, w - 1);
      assert s[..|s| - 1] == HexFixed(n / 16, w - 1);
    }
  }

  /** `(16^w + n).toString(16)` is a leading `1` followed by the `w`-digit rendering of `n`. */
  lemma {:induction false} ToHexStringOfMarked(n: nat, w: nat)
    requires n < Pow16(w)
    ensures ToHexString(Pow16(w) + n) == ['1'] + HexFixed(n, w)
  {
    if w == 0 {
      assert Pow16(0) + n == 1;
    } else {
      var m := Pow16(w) + n;
      assert m / 16 == Pow16(w - 1) + n / 16 && m % 16 == n % 16;
      ToHexStringOfMarked(n / 16, w - 1);
    }
  }
}
