/** The C library's decimal printing and parsing, as the source uses them:
    `printf ("%u")`, `strtol (.., .., 10)`, and the cast of a long to a 32-bit integer. */
module CStrings {

  const UINT32 := 0x1_0000_0000

  function DigitChar(d: nat): (c: char)
    requires d < 10
  {
    ('0' as int + d) as char
  }

  predicate IsDigit(c: char) { '0' <= c <= '9' }

  function DigitValue(c: char): nat
    requires IsDigit(c)
  {
    c as int - '0' as int
  }

  /** `printf ("%u", n)`. */
  function PrintNat(n: nat): (s: string)
    ensures |s| > 0
  {
    if n < 10 then [DigitChar(n)] else PrintNat(n / 10) + [DigitChar(n % 10)]
  }

  /** The longest prefix made of digits. */
  function DigitPrefix(s: string): (n: nat)
    ensures n <= |s| && (forall i :: 0 <= i < n ==> IsDigit(s[i])) && (n < |s| ==> !IsDigit(s[n]))
  {
    if s == [] || !IsDigit(s[0]) then 0 else 1 + DigitPrefix(s[1..])
  }

  function DigitsValue(s: string): nat
    requires forall i :: 0 <= i < |s| ==> IsDigit(s[i])
  {
    if s == [] then 0 else 10 * DigitsValue(s[..|s| - 1]) + DigitValue(s[|s| - 1])
  }

  predicate IsSpace(c: char) { c == ' ' || ('\t' <= c <= '\r') }

  function SkipSpace(s: string): string {
    if s != [] && IsSpace(s[0]) then SkipSpace(s[1..]) else s
  }

  /** What `strtol` returns, and the unread rest its `endptr` points at. */
  datatype Parsed = Parsed(value: int, rest: string)

  /** Overflow saturates; `max` is LONG_MAX. */
  function Saturate(v: int, max: int): int {
    if v > max then max else if v < -max - 1 then -max - 1 else v
  }

  function Strtol(s: string, max: nat): Parsed {
    var t := SkipSpace(s);
    var negative := t != [] && t[0] == '-';
    var u := if t != [] && (t[0] == '-' || t[0] == '+') then t[1..] else t;
    var n := DigitPrefix(u);
    if n == 0 then Parsed(0, s)
    else
      var v: int := DigitsValue(u[..n]);
      Parsed(Saturate(if negative then -v else v, max), u[n..])
  }

  /** The cast `(guint) (int) v`. */
  function ToUint32(v: int): nat { v % UINT32 }

  /** The cast `(int) v`. */
  function ToInt32(v: int): int {
    var u := v % UINT32;
    if u < UINT32 / 2 then u else u - UINT32
  }

  lemma {:induction false} PrintedDigits(n: nat)
    ensures forall i :: 0 <= i < |PrintNat(n)| ==> IsDigit(PrintNat(n)[i])
    ensures DigitsValue(PrintNat(n)) == n
  {
    if n < 10 {
      assert PrintNat(n)[..0] == [];
    } else {
      PrintedDigits(n / 10);
      assert PrintNat(n)[..|PrintNat(n)| - 1] == PrintNat(n / 10);
    }
  }

  /** Different numbers print differently. */
  lemma PrintInjective(a: nat, b: nat)
    requires PrintNat(a) == PrintNat(b)
    ensures a == b
  {
    PrintedDigits(a);
    PrintedDigits(b);
  }

  lemma {:induction false} DigitsThenGarbage(s: string, garbage: string)
    requires (forall i :: 0 <= i < |s| ==> IsDigit(s[i])) && (garbage != [] ==> !IsDigit(garbage[0]))
    ensures DigitPrefix(s + garbage) == |s|
  {
    if s == [] {
      assert s + garbage == garbage;
    } else {
      assert (s + garbage)[1..] == s[1..] + garbage;
      DigitsThenGarbage(s[1..], garbage);
    }
  }

  /** Parsing stops where the digits do. */
  lemma ParseGarbage(n: nat, garbage: string, max: nat)
    requires garbage != [] ==> !IsDigit(garbage[0])
    ensures Strtol(PrintNat(n) + garbage, max) == Parsed(if n > max then max else n, garbage)
  {
    hide PrintNat, DigitPrefix, DigitsValue;
    var s := PrintNat(n);
    PrintedDigits(n);
    DigitsThenGarbage(s, garbage);
    assert IsDigit(s[0]) && (s + garbage)[0] == s[0];
    assert SkipSpace(s + garbage) == s + garbage;
    assert (s + garbage)[..|s|] == s && (s + garbage)[|s|..] == garbage;
  }

  /** A printed number parses back, up to saturation, with nothing left over. */
  lemma ParsePrinted(n: nat, max: nat)
    ensures Strtol(PrintNat(n), max) == Parsed(if n > max then max else n, "")
  {
    ParseGarbage(n, "", max);
    assert PrintNat(n) + "" == PrintNat(n);
  }

  lemma {:induction false} SpacesSkipped(w: string, s: string)
    requires (forall i :: 0 <= i < |w| ==> IsSpace(w[i])) && (s != [] ==> !IsSpace(s[0]))
    ensures SkipSpace(w + s) == s
  {
    if w == [] {
      assert w + s == s;
    } else {
      assert (w + s)[1..] == w[1..] + s;
      SpacesSkipped(w[1..], s);
    }
  }

  /** White space before a number is skipped, and one sign is understood; a negative number saturates at LONG_MIN. */
  lemma ParseSigned(w: string, sign: char, n: nat, garbage: string, max: nat)
    requires (forall i :: 0 <= i < |w| ==> IsSpace(w[i])) && (sign == '-' || sign == '+') && (garbage != [] ==> !IsDigit(garbage[0]))
    ensures var v: int := if sign == '+' then n else 0 - n;
      Strtol(w + ([sign] + PrintNat(n) + garbage), max)
        == Parsed(if v > max then max else if v < 0 - max - 1 then 0 - max - 1 else v, garbage)
  {
    hide PrintNat, DigitPrefix, DigitsValue, SkipSpace;
    var s := PrintNat(n);
    PrintedDigits(n);
    DigitsThenGarbage(s, garbage);
    SpacesSkipped(w, [sign] + s + garbage);
    assert ([sign] + s + garbage)[1..] == s + garbage;
    assert (s + garbage)[..|s|] == s && (s + garbage)[|s|..] == garbage;
  }

  /** A number below 10^k prints with at most k digits. */
  lemma {:induction false} PrintLength(n: nat, k: nat)
    requires k > 0 && n < Pow10(k)
    ensures |PrintNat(n)| <= k
  {
    if n >= 10 {
      assert k > 1;
      assert Pow10(k) == 10 * Pow10(k - 1);
      PrintLength(n / 10, k - 1);
    }
  }

  function Pow10(k: nat): nat { if k == 0 then 1 else 10 * Pow10(k - 1) }
}
