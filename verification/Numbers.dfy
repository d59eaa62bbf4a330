/**
 Decimal printing (`std::to_string`) and parsing (`std::stoull`, `std::stoll`,
 `std::stoi`) of the 64-bit fields kept in the metadata prefix.

 The three parsers skip leading white space, take an optional sign and the longest run
 of digits, ignore what follows, and throw when there is no digit or the number does not
 fit; a thrown exception is `None`.
 */
module Numbers {
  import opened Text

  const U64: int := 0x1_0000_0000_0000_0000
  const I64: int := 0x8000_0000_0000_0000
  const I32: int := 0x8000_0000

  predicate IsDigit(c: char) {
    '0' <= c <= '9'
  }

  ghost predicate AllDigits(s: string) {
    forall i :: 0 <= i < |s| ==> IsDigit(s[i])
  }

  function DigitChar(d: nat): (c: char)
    requires d < 10
    ensures IsDigit(c) && c as int - '0' as int == d
  {
    '0' + d as char
  }

  /** `std::to_string` of a non-negative number. */
  function PrintNat(n: nat): (s: string)
    ensures |s| > 0 && AllDigits(s)
  {
    if n < 10 then [DigitChar(n)] else PrintNat(n / 10) + [DigitChar(n % 10)]
  }

  /** `std::to_string` of a signed number. */
  function PrintInt(n: int): (s: string)
    ensures |s| > 0
  {
    if n < 0 then "-" + PrintNat(-n) else PrintNat(n)
  }

  /** The value of a digit string, most significant digit first. */
  function DecimalValue(s: string): nat
    requires AllDigits(s)
  {
    if s == [] then 0
    else 10 * DecimalValue(s[..|s| - 1]) + (s[|s| - 1] as int - '0' as int)
  }

  /** Length of the longest digit prefix. */
  function DigitRun(s: string): (n: nat)
    ensures n <= |s| && AllDigits(s[..n])
    ensures n < |s| ==> !IsDigit(s[n])
  {
    if s == [] || !IsDigit(s[0]) then 0
    else
      var m := DigitRun(s[1..]);
      assert s[..m + 1] == [s[0]] + s[1..][..m];
      m + 1
  }

  function SkipSpace(s: string): (r: string)
    ensures r == [] || !IsSpace(r[0])
  {
    if s == [] || !IsSpace(s[0]) then s else SkipSpace(s[1..])
  }

  /** The signed number at the head of the text, however large. */
  function ScanInteger(s: string): Option<int> {
    var t := SkipSpace(s);
    var negative := |t| > 0 && t[0] == '-';
    var u := if |t| > 0 && (t[0] == '-' || t[0] == '+') then t[1..] else t;
    var n := DigitRun(u);
    if n == 0 then None
    else Some(if negative then 0 - DecimalValue(u[..n]) else DecimalValue(u[..n]))
  }

  /** `std::stoull`: a negative number wraps modulo 2^64. */
  function ParseU64(s: string): (r: Option<nat>)
    ensures r.Some? ==> r.value < U64
  {
    match ScanInteger(s)
    case None => None
    case Some(v) => if -U64 < v < U64 then Some(v % U64) else None
  }

  /** `std::stoll`. */
  function ParseI64(s: string): (r: Option<int>)
    ensures r.Some? ==> -I64 <= r.value < I64
  {
    match ScanInteger(s)
    case None => None
    case Some(v) => if -I64 <= v < I64 then Some(v) else None
  }

  /** `std::stoi`. */
  function ParseI32(s: string): (r: Option<int>)
    ensures r.Some? ==> -I32 <= r.value < I32
  {
    match ScanInteger(s)
    case None => None
    case Some(v) => if -I32 <= v < I32 then Some(v) else None
  }

  lemma {:induction false} DecimalRoundTrip(n: nat)
    ensures DecimalValue(PrintNat(n)) == n
  {
    if n >= 10 {
      DecimalRoundTrip(n / 10);
      var s := PrintNat(n / 10) + [DigitChar(n % 10)];
      assert s[..|s| - 1] == PrintNat(n / 10);
    } else {
      assert DecimalValue([]) == 0;
      var s := [DigitChar(n)];
      assert s[..|s| - 1] == [];
    }
  }

  lemma {:induction false} DigitRunAll(s: string)
    requires AllDigits(s)
    ensures DigitRun(s) == |s|
  {
    if s != [] {
      DigitRunAll(s[1..]);
    }
  }

  lemma {:induction false} ScanPrintedNat(n: nat)
    ensures ScanInteger(PrintNat(n)) == Some(n)
  {
    var s := PrintNat(n);
    assert IsDigit(s[0]);
    DigitRunAll(s);
    assert s[..|s|] == s;
    DecimalRoundTrip(n);
  }

  lemma {:induction false} ScanPrintedInt(n: int)
    ensures ScanInteger(PrintInt(n)) == Some(n)
  {
    if n >= 0 {
      ScanPrintedNat(n);
    } else {
      var s := PrintNat(-n);
      DigitRunAll(s);
      assert s[..|s|] == s;
      assert PrintInt(n)[1..] == s;
      DecimalRoundTrip(-n);
    }
  }

  /** Every unsigned 64-bit number survives print and parse. */
  lemma {:induction false} U64RoundTrip(n: nat)
    requires n < U64
    ensures ParseU64(PrintNat(n)) == Some(n)
  {
    ScanPrintedNat(n);
  }

  /** Every signed 64-bit number survives print and parse. */
  lemma {:induction false} I64RoundTrip(n: int)
    requires -I64 <= n < I64
    ensures ParseI64(PrintInt(n)) == Some(n)
  {
    ScanPrintedInt(n);
  }

  lemma PrintNatInjective(m: nat, n: nat)
    requires PrintNat(m) == PrintNat(n)
    ensures m == n
  {
    DecimalRoundTrip(m);
    DecimalRoundTrip(n);
  }

  /** A printed number holds digits and at most a leading minus sign. */
  lemma PrintedIntChars(n: int, c: char)
    requires !IsDigit(c) && c != '-'
    ensures c !in PrintInt(n)
  {
    assert AllDigits(PrintNat(if n < 0 then -n else n));
  }

  /** Two's complement reduction to a signed 64-bit number. */
  function Wrap64(n: int): (r: int)
    ensures -I64 <= r < I64 && (r - n) % U64 == 0
  {
    (n + I64) % U64 - I64
  }

  /** C++ integer division, which truncates toward zero. */
  function DivTrunc(n: int, d: int): (r: int)
    requires d > 0
    ensures n >= 0 ==> r * d <= n < (r + 1) * d
    ensures n < 0 ==> (r - 1) * d < n <= r * d
  {
    if n >= 0 then n / d else -((-n) / d)
  }
}
