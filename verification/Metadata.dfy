/**
 The metadata vocabulary of gdpr_metadata.hpp: purpose bitmaps, comma lists, booleans,
 expiry times, and the two cuts that separate a stored text into metadata and value.
 */
module Metadata {
  import opened Text
  import opened Numbers

  const NUM_PURPOSES: nat := 64

  /** `std::bitset<64>`; bit i is element i. */
  type Bits = b: seq<bool> | |b| == NUM_PURPOSES witness seq(NUM_PURPOSES, i => false)

  function NoBits(): (b: Bits)
    ensures !Any(b)
  {
    seq(NUM_PURPOSES, i => false)
  }

  function And(a: Bits, b: Bits): Bits {
    seq(NUM_PURPOSES, i requires 0 <= i < NUM_PURPOSES => a[i] && b[i])
  }

  predicate Any(a: Bits) {
    exists i :: 0 <= i < NUM_PURPOSES && a[i]
  }

  /** The bits of `a` are all bits of `b`. */
  predicate Subset(a: Bits, b: Bits) {
    forall i :: 0 <= i < NUM_PURPOSES && a[i] ==> b[i]
  }

  predicate Disjoint(a: Bits, b: Bits) {
    forall i :: 0 <= i < NUM_PURPOSES ==> !(a[i] && b[i])
  }

  // ---------- bitmaps as numbers ----------

  function Pow2(n: nat): (p: nat)
    ensures p > 0
  {
    if n == 0 then 1 else 2 * Pow2(n - 1)
  }

  /** `to_ullong`, least significant bit first. */
  function ToNumber(b: seq<bool>): nat {
    if b == [] then 0 else (if b[0] then 1 else 0) + 2 * ToNumber(b[1..])
  }

  /** The constructor from a number: the `len` low bits. */
  function FromNumber(n: nat, len: nat): (b: seq<bool>)
    ensures |b| == len
  {
    if len == 0 then [] else [n % 2 == 1] + FromNumber(n / 2, len - 1)
  }

  function BitsOf(n: nat): Bits {
    FromNumber(n, NUM_PURPOSES)
  }

  lemma {:induction false} NumberRoundTrip(b: seq<bool>)
    ensures ToNumber(b) < Pow2(|b|)
    ensures FromNumber(ToNumber(b), |b|) == b
  {
    if b != [] {
      NumberRoundTrip(b[1..]);
      var n := ToNumber(b);
      assert n / 2 == ToNumber(b[1..]) && (n % 2 == 1 <==> b[0]);
      assert b == [b[0]] + b[1..];
    }
  }

  lemma {:induction false} Pow2Add(m: nat, n: nat)
    ensures Pow2(m + n) == Pow2(m) * Pow2(n)
  {
    if m > 0 {
      Pow2Add(m - 1, n);
      assert Pow2(m + n) == 2 * Pow2(m - 1 + n);
    }
  }

  lemma Pow2Is64()
    ensures Pow2(64) == U64
  {
    assert Pow2(4) == 16;
    Pow2Add(4, 4);
    Pow2Add(8, 8);
    Pow2Add(16, 16);
    Pow2Add(32, 32);
  }

  /** A bitmap survives being printed as a decimal number and parsed back. */
  lemma BitsRoundTrip(b: Bits)
    ensures ToNumber(b) < U64
    ensures ParseU64(PrintNat(ToNumber(b))) == Some(ToNumber(b))
    ensures BitsOf(ToNumber(b)) == b
  {
    Pow2Is64();
    NumberRoundTrip(b);
    U64RoundTrip(ToNumber(b));
  }

  // ---------- purposes ----------

  function PurposeName(i: nat): string {
    "purpose" + PrintNat(i)
  }

  /** Lookup in the table of names with `operator[]`: an unknown name yields 0. */
  function PurposeIndex(name: string): (i: nat)
    ensures i < NUM_PURPOSES
    ensures i != 0 ==> name == PurposeName(i)
  {
    IndexFrom(name, 1)
  }

  function IndexFrom(name: string, from: nat): (i: nat)
    requires 0 < from <= NUM_PURPOSES
    ensures i < NUM_PURPOSES
    ensures i != 0 ==> name == PurposeName(i)
    ensures i == 0 ==> forall j {:trigger PurposeName(j)} :: from <= j < NUM_PURPOSES ==> name != PurposeName(j)
    decreases NUM_PURPOSES - from
  {
    if from == NUM_PURPOSES then 0
    else if name == PurposeName(from) then from
    else IndexFrom(name, from + 1)
  }

  lemma PurposeNameInjective(i: nat, j: nat)
    requires PurposeName(i) == PurposeName(j)
    ensures i == j
  {
    assert PurposeName(i)[7..] == PrintNat(i) && PurposeName(j)[7..] == PrintNat(j);
    PrintNatInjective(i, j);
  }

  lemma KnownPurpose(i: nat)
    requires i < NUM_PURPOSES
    ensures PurposeIndex(PurposeName(i)) == i
  {
    var j := PurposeIndex(PurposeName(i));
    if j != 0 {
      PurposeNameInjective(i, j);
    }
  }

  function SetBits(bits: Bits, names: seq<string>): (r: Bits)
    ensures forall i :: 0 <= i < NUM_PURPOSES ==>
              (r[i] <==> bits[i] || exists n :: n in names && PurposeIndex(n) == i)
    decreases |names|
  {
    if names == [] then bits
    else SetBits(bits[PurposeIndex(names[0]) := true], names[1..])
  }

  /** `set_bitmap`. */
  method SetBitmap(bits: Bits, names: seq<string>) returns (r: Bits)
    ensures r == SetBits(bits, names)
  {
    r := bits;
    for k := 0 to |names|
      invariant SetBits(r, names[k..]) == SetBits(bits, names)
    {
      assert names[k..][1..] == names[k + 1..];
      r := r[PurposeIndex(names[k]) := true];
    }
    assert names[|names|..] == [];
  }

  /** Over known names, bit i is set exactly when `purpose<i>` is listed. */
  lemma KnownPurposeBits(names: seq<string>, i: nat)
    requires i < NUM_PURPOSES
    requires forall n :: n in names ==> exists j: nat :: j < NUM_PURPOSES && n == PurposeName(j)
    ensures SetBits(NoBits(), names)[i] <==> PurposeName(i) in names
  {
    KnownPurpose(i);
    if n :| n in names && PurposeIndex(n) == i {
      var j: nat :| j < NUM_PURPOSES && n == PurposeName(j);
      KnownPurpose(j);
    }
  }

  // ---------- comma lists ----------

  /** `split_comma_string`. */
  method SplitComma(str: string) returns (result: seq<string>)
    ensures result == Split(str, ',')
  {
    hide Split, Find;
    result := [];
    var start: nat := 0;
    var end := Find(str, ',', 0);
    assert str[0..] == str;
    while end != -1
      invariant start <= |str| && end == Find(str, ',', start)
      invariant result + Split(str[start..], ',') == Split(str, ',')
      decreases |str| - start
    {
      SplitFound(str, ',', start);
      ghost var before := result;
      result := result + [str[start..end]];
      start := end + 1;
      end := Find(str, ',', start);
      assert result + Split(str[start..], ',') == before + ([result[|before|]] + Split(str[start..], ','));
    }
    SplitLast(str, ',', start);
    result := result + [str[start..]];
  }

  // ---------- booleans and times ----------

  /** `str_to_bool`; `None` is the thrown error. */
  function StrToBool(s: string): Option<bool> {
    if Lowercase(s) == "true" then Some(true)
    else if Lowercase(s) == "false" then Some(false)
    else None
  }

  const NANOS: nat := 1_000_000_000

  /** The clock in whole seconds, as `duration_cast` truncates it. */
  function Seconds(nanos: int): int {
    DivTrunc(nanos, NANOS)
  }

  /** `get_expiration_time`: the sum is taken in 64-bit nanoseconds. */
  function ExpirationTime(now: int, secs: int): (r: int)
    ensures -I64 <= r < I64
  {
    if secs == 0 then 0 else Seconds(Wrap64(now + secs * NANOS))
  }

  /** Zero seconds give no expiry; others, without overflow, the clock plus so many seconds. */
  lemma ExpirationTimeExact(now: int, secs: int)
    ensures secs == 0 ==> ExpirationTime(now, secs) == 0
    ensures secs != 0 && 0 <= now && 0 <= now + secs * 1_000_000_000 < I64 ==>
              ExpirationTime(now, secs) == now / 1_000_000_000 + secs
  {
    var n := now + secs * NANOS;
    if secs != 0 && 0 <= now && 0 <= n < I64 {
      assert Wrap64(n) == n;
      assert now / NANOS * NANOS <= now < (now / NANOS + 1) * NANOS;
    }
  }

  // ---------- metadata and value ----------

  /** `remove_gdpr_metadata`. */
  function RemoveMetadata(value: string): string {
    var last := FindLast(value, '|');
    if last != -1 && last + 1 < |value| then value[last + 1..] else value
  }

  /** `preserve_only_gdpr_metadata`. */
  function PreserveMetadata(value: string): string {
    var last := FindLast(value, '|');
    if last != -1 && last + 1 < |value| then value[..last + 1] else value
  }

  lemma {:induction false} FindLastAppend(prefix: string, value: string)
    ensures FindLast(prefix + "|" + value, '|') ==
            if '|' in value then |prefix| + 1 + FindLast(value, '|') else |prefix|
  {
    var s := prefix + "|" + value;
    if '|' in value {
      var p := FindLast(value, '|');
      var q := |prefix| + 1 + p;
      assert s[q] == '|' && '|' !in s[q + 1..] by {
        assert s[q] == value[p] && s[q + 1..] == value[p + 1..];
      }
      FindLastIs(s, '|', q);
    } else {
      assert s[|prefix| + 1..] == value;
      FindLastIs(s, '|', |prefix|);
    }
  }

  /** Stripping the metadata returns the value exactly when it is non-empty and `|`-free. */
  lemma RemoveExact(prefix: string, value: string)
    ensures RemoveMetadata(prefix + "|" + value) == value <==> value != "" && '|' !in value
  {
    FindLastAppend(prefix, value);
    var s := prefix + "|" + value;
    if value != "" && '|' !in value {
      assert s[|prefix| + 1..] == value;
    } else {
      assert |RemoveMetadata(s)| != |value|;
    }
  }

  /** Stripping the value leaves exactly the metadata when the value is `|`-free. */
  lemma PreserveExact(prefix: string, value: string)
    ensures PreserveMetadata(prefix + "|" + value) == prefix + "|" <==> '|' !in value
  {
    FindLastAppend(prefix, value);
    var s := prefix + "|" + value;
    if '|' !in value {
      assert value != "" ==> s[..|prefix| + 1] == prefix + "|";
      assert value == "" ==> s == prefix + "|";
    } else {
      assert |PreserveMetadata(s)| != |prefix| + 1;
    }
  }
}
