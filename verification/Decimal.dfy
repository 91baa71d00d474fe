/**
 Decimal numerals as Go's fmt package writes and reads them with the verb %d, for 64-bit integers,
 and the conversion to 32 bits.
 */
module Decimal {

  import opened Options

  const MIN64 := -0x8000_0000_0000_0000
  const MAX64 := 0x7FFF_FFFF_FFFF_FFFF

  predicate IsInt64(n: int) {
    MIN64 <= n <= MAX64
  }

  predicate IsInt32(n: int) {
    -0x8000_0000 <= n < 0x8000_0000
  }

  /** Go's conversion int32(n): the low 32 bits, as two's complement. */
  function ToInt32(n: int): int {
    (n + 0x8000_0000) % 0x1_0000_0000 - 0x8000_0000
  }

  predicate IsDigit(c: char) {
    '0' <= c <= '9'
  }

  function DigitValue(c: char): nat
    requires IsDigit(c)
  {
    c as int - '0' as int
  }

  function Digit(d: nat): (c: char)
    requires d < 10
    ensures IsDigit(c) && DigitValue(c) == d
  {
    '0' + d as char
  }

  predicate AllDigits(s: string) {
    forall i :: 0 <= i < |s| ==> IsDigit(s[i])
  }

  function Value(s: string): nat
    requires AllDigits(s)
  {
    if s == "" then 0 else 10 * Value(s[..|s| - 1]) + DigitValue(s[|s| - 1])
  }

  function PrintNat(n: nat): (s: string)
    ensures s != "" && AllDigits(s)
  {
    if n < 10 then [Digit(n)] else PrintNat(n / 10) + [Digit(n % 10)]
  }

  function Print(n: int): string {
    if n < 0 then "-" + PrintNat(-n) else PrintNat(n)
  }

  /** Positional notation: one digit is its character, and a further digit goes to the end. */
  lemma {:induction false} PrintSays(m: nat, d: nat)
    requires d < 10
    ensures Print(d) == ["0123456789"[d]]
    ensures m > 0 ==> Print(10 * m + d) == Print(m) + ["0123456789"[d]]
    ensures m > 0 ==> Print(0 - m) == "-" + Print(m)
  {
    var digits := "0123456789";
    assert digits[0] == '0' && digits[1] == '1' && digits[2] == '2' && digits[3] == '3' && digits[4] == '4';
    assert digits[5] == '5' && digits[6] == '6' && digits[7] == '7' && digits[8] == '8' && digits[9] == '9';
    assert digits[d] == Digit(d);
    assert (10 * m + d) / 10 == m && (10 * m + d) % 10 == d;
  }

  /** The characters that the scanner skips, without the newline. */
  predicate IsBlank(c: char) {
    || c == ' ' || c == '\t' || c == '\r' || c == '\U{0B}' || c == '\U{0C}' || c == '\U{85}' || c == '\U{A0}'
    || c == '\U{1680}' || '\U{2000}' <= c <= '\U{200A}' || c == '\U{2028}' || c == '\U{2029}'
    || c == '\U{202F}' || c == '\U{205F}' || c == '\U{3000}'
  }

  function SkipBlanks(s: string): string {
    if s != "" && IsBlank(s[0]) then SkipBlanks(s[1..]) else s
  }

  /** The length of the longest prefix of digits. */
  function DigitCount(s: string): (k: nat)
    ensures k <= |s| && AllDigits(s[..k]) && (k < |s| ==> !IsDigit(s[k]))
  {
    if s == "" || !IsDigit(s[0]) then 0 else 1 + DigitCount(s[1..])
  }

  /** At least one digit, and a value within 64 bits; what follows the digits is ignored. */
  function ScanDigits(u: string, negative: bool): (r: Option<int>)
    ensures r.Some? ==> IsInt64(r.value)
  {
    var k := DigitCount(u);
    if k == 0 then None
    else
      var n: int := if negative then 0 - Value(u[..k]) else Value(u[..k]);
      if IsInt64(n) then Some(n) else None
  }

  /** Sscanf with "%d" into an int64: blanks, an optional sign, and digits. */
  function ScanInt(s: string): (r: Option<int>)
    ensures r.Some? ==> IsInt64(r.value)
  {
    var t := SkipBlanks(s);
    if t != "" && (t[0] == '+' || t[0] == '-') then ScanDigits(t[1..], t[0] == '-') else ScanDigits(t, false)
  }

  lemma {:induction false} ValueOfPrint(n: nat)
    ensures Value(PrintNat(n)) == n
    decreases n
  {
    if n >= 10 {
      ValueOfPrint(n / 10);
      var s := PrintNat(n);
      assert s[..|s| - 1] == PrintNat(n / 10);
    }
  }

  lemma {:induction false} DigitCountOf(s: string, tail: string)
    requires AllDigits(s) && (tail == "" || !IsDigit(tail[0]))
    ensures DigitCount(s + tail) == |s|
    decreases |s|
  {
    if s == "" {
      assert s + tail == tail;
    } else {
      assert (s + tail)[1..] == s[1..] + tail;
      DigitCountOf(s[1..], tail);
    }
  }

  lemma {:induction false} ScanDigitsOf(n: nat, tail: string, negative: bool)
    requires IsInt64(if negative then 0 - n else n) && (tail == "" || !IsDigit(tail[0]))
    ensures ScanDigits(PrintNat(n) + tail, negative) == Some(if negative then 0 - n else n)
  {
    var u := PrintNat(n) + tail;
    DigitCountOf(PrintNat(n), tail);
    assert u[..|PrintNat(n)|] == PrintNat(n);
    ValueOfPrint(n);
  }

  /** Reading what was written gives the number back, whatever follows that is not a digit. */
  lemma {:induction false} ScanPrint(n: int, tail: string)
    requires IsInt64(n) && (tail == "" || !IsDigit(tail[0]))
    ensures ScanInt(Print(n) + tail) == Some(n)
  {
    var m: nat := if n < 0 then -n else n;
    ScanDigitsOf(m, tail, n < 0);
    ScanSigned(PrintNat(m) + tail, n < 0);
    assert "-" + PrintNat(m) + tail == "-" + (PrintNat(m) + tail);
  }

  lemma {:induction false} ScanSigned(u: string, negative: bool)
    requires u != "" && IsDigit(u[0])
    ensures ScanInt(if negative then "-" + u else u) == ScanDigits(u, negative)
  {
    if negative {
      assert ("-" + u)[1..] == u;
    }
  }

  /** What else the scanner accepts and refuses: blanks in front, a plus sign; no digits, too large a number. */
  lemma {:induction false} ScanSays(n: nat, blank: char, s: string, other: char)
    requires IsBlank(blank) && !IsBlank(other) && !IsDigit(other) && other != '+' && other != '-'
    ensures ScanInt([blank] + s) == ScanInt(s)
    ensures ScanInt("+" + PrintNat(n)) == if n <= 0x7FFF_FFFF_FFFF_FFFF then Some(n) else None
    ensures ScanInt("") == None && ScanInt([other] + s) == None
  {
    assert ([blank] + s)[1..] == s;
    DigitCountOf(PrintNat(n), "");
    assert PrintNat(n) + "" == PrintNat(n) && PrintNat(n)[..|PrintNat(n)|] == PrintNat(n);
    ValueOfPrint(n);
    assert ("+" + PrintNat(n))[1..] == PrintNat(n);
    assert ([other] + s)[0] == other;
  }

  /** A count that fits 32 bits survives print, parse and conversion. */
  lemma {:induction false} CountRoundTrip(n: int)
    requires IsInt64(n)
    ensures ScanInt(Print(n)) == Some(n)
    ensures ToInt32(n) == n <==> IsInt32(n)
    ensures -0x8000_0000 <= ToInt32(n) < 0x8000_0000 && (ToInt32(n) - n) % 0x1_0000_0000 == 0
  {
    ScanPrint(n, "");
    assert Print(n) + "" == Print(n);
  }
}
