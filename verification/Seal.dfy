/** The byte count that an artifact records about its own serialised body. */
module Seal {
  import opened Managed

  const MAX_SAFE_INTEGER: nat := 0x1F_FFFF_FFFF_FFFF

  type Byte = b: int | 0 <= b < 256

  // ---------- Decimal numbers ----------

  function Decimal(n: nat): (t: seq<Byte>)
    ensures |t| >= 1
  {
    if n < 10 then [0x30 + n] else Decimal(n / 10) + [0x30 + n % 10]
  }

  /** The number a string of digits stands for. */
  function Value(t: seq<Byte>): int {
    if t == [] then 0 else 10 * Value(t[..|t| - 1]) + (t[|t| - 1] as int - 0x30)
  }

  /** The printed count is the count. */
  lemma {:induction false} DecimalReadsBack(n: nat)
    ensures Value(Decimal(n)) == n && forall i | 0 <= i < |Decimal(n)| :: 0x30 <= Decimal(n)[i] <= 0x39
    ensures n > 0 ==> Decimal(n)[0] != 0x30
  {
    if n < 10 {
      assert [0x30 + n][..0] == [];
    } else {
      DecimalReadsBack(n / 10);
      var t := Decimal(n);
      assert t[..|t| - 1] == Decimal(n / 10) && t[|t| - 1] == 0x30 + n % 10;
    }
  }

  function Pow10(k: nat): (p: nat)
    ensures p >= 1
  {
    if k == 0 then 1 else 10 * Pow10(k - 1)
  }

  /** A number has `k` digits exactly when it lies between the powers of ten. */
  lemma {:induction false} DigitsBetween(n: nat, k: nat)
    requires k >= 1
    ensures |Decimal(n)| == k <==> (k == 1 || Pow10(k - 1) <= n) && n < Pow10(k)
    decreases n
  {
    assert Pow10(k) == 10 * Pow10(k - 1);
    if n < 10 {
      PowersGrow(k - 1);
    } else if k >= 2 {
      DigitsBetween(n / 10, k - 1);
      assert Pow10(k - 1) == 10 * Pow10(k - 2);
    }
  }

  /** Powers of ten outgrow ten times their exponent. */
  lemma {:induction false} PowersGrow(k: nat)
    ensures Pow10(k) >= 9 * k + 1
    ensures k >= 1 ==> Pow10(k) == 10 * Pow10(k - 1)
    ensures k >= 2 ==> Pow10(k) >= 100
  {
    if k >= 1 { PowersGrow(k - 1); }
  }

  // ---------- The artifact around its count ----------

  /** The serialised artifact, split at the digits of `cost.infrastructure.r2_bytes_written`. */
  datatype Doc = Doc(before: seq<Byte>, bytesWritten: nat, after: seq<Byte>)

  function Body(d: Doc): seq<Byte> {
    d.before + Decimal(d.bytesWritten) + d.after
  }

  /** The next count, given the last: the constant part of the body and the digits of the last count. */
  function Measured(constant: nat, bytes: nat): nat {
    constant + |Decimal(bytes)|
  }

  function Iterate(constant: nat, start: nat, n: nat): nat {
    if n == 0 then start else Measured(constant, Iterate(constant, start, n - 1))
  }

  /** Adding fewer than `9 * 10^m` to a number of `m` digits gives one more digit at most. */
  lemma Climbs(constant: nat, d0: nat, m: nat)
    requires m >= 1 && constant + d0 < Pow10(m) <= constant + m
    ensures |Decimal(constant + m)| == m + 1 && |Decimal(constant + m + 1)| == m + 1
  {
    PowersGrow(m);
    assert Pow10(m + 1) == 10 * Pow10(m);
    DigitsBetween(constant + m, m + 1);
    DigitsBetween(constant + m + 1, m + 1);
  }

  /** Falling below `10^(m - 1)` from at most 16 above the constant loses one digit and no more. */
  lemma Falls(constant: nat, d0: nat, m: nat)
    requires m >= 2 && d0 <= 16 && constant + m < Pow10(m - 1) <= constant + d0
    ensures |Decimal(constant + m)| == m - 1 && |Decimal(constant + m - 1)| == m - 1
  {
    PowersGrow(m - 1);
    if m >= 3 {
      PowersGrow(m - 2);
      assert Pow10(m - 1) == 10 * Pow10(m - 2);
    }
    DigitsBetween(constant + m, m - 1);
    DigitsBetween(constant + m - 1, m - 1);
  }

  /** From any count of at most 16 digits the iteration is at rest after three measurements. */
  lemma RestsAfterThree(constant: nat, start: nat)
    requires |Decimal(start)| <= 16
    ensures Iterate(constant, start, 4) == Iterate(constant, start, 3)
  {
    var d0 := |Decimal(start)|;
    var s1 := constant + d0;
    var m := |Decimal(s1)|;
    var s2 := constant + m;
    assert Iterate(constant, start, 1) == s1 && Iterate(constant, start, 2) == s2;
    DigitsBetween(s1, m);
    DigitsBetween(s2, m);
    if |Decimal(s2)| != m {
      if s2 >= Pow10(m) {
        Climbs(constant, d0, m);
      } else {
        Falls(constant, d0, m);
      }
    }
  }

  lemma SafeIntegersAreShort(n: nat)
    requires n <= MAX_SAFE_INTEGER
    ensures |Decimal(n)| <= 16
  {
    assert Pow10(4) == 10_000 by { assert Pow10(2) == 100; }
    assert Pow10(8) == 100_000_000 by { PowAdd(4, 4); }
    PowAdd(8, 8);
    var k := |Decimal(n)|;
    DigitsBetween(n, k);
    if k > 16 { PowAdd(16, k - 1 - 16); }
  }

  lemma {:induction false} PowAdd(a: nat, b: nat)
    ensures Pow10(a + b) == Pow10(a) * Pow10(b)
  {
    if b > 0 { PowAdd(a, b - 1); }
  }

  const ATTEMPTS: nat := 8

  /** Sealing never runs out of attempts; the sealed count is the exact length of the sealed body. */
  method SealArtifactCostBytes(d: Doc) returns (sealed: Option<Doc>, attempts: nat)
    requires d.bytesWritten <= MAX_SAFE_INTEGER
    ensures sealed.Some? && attempts <= 4
    ensures sealed.value.bytesWritten == |Body(sealed.value)|
    ensures sealed.value.before == d.before && sealed.value.after == d.after
  {
    hide Decimal;
    var bytes := d.bytesWritten;
    ghost var constant := |d.before| + |d.after|;
    SafeIntegersAreShort(d.bytesWritten);
    RestsAfterThree(constant, d.bytesWritten);
    attempts := 0;
    while attempts < ATTEMPTS
      invariant 0 <= attempts <= 3
      invariant bytes == Iterate(constant, d.bytesWritten, attempts)
      decreases ATTEMPTS - attempts
    {
      var current := Doc(d.before, bytes, d.after);
      var measured := |Body(current)|;
      attempts := attempts + 1;
      assert measured == Iterate(constant, d.bytesWritten, attempts);
      if measured == bytes { return Some(current), attempts; }
      bytes := measured;
    }
    return None, attempts;
  }

  /** Four attempts are sometimes needed: around a body of 98 constant bytes the counts run 0, 99, 100, 101. */
  lemma FourAttemptsAreNeeded()
    ensures Iterate(98, 0, 1) == 99 && Iterate(98, 0, 2) == 100 && Iterate(98, 0, 3) == 101 && Iterate(98, 0, 4) == 101
  {
    assert Iterate(98, 0, 1) == Measured(98, 0);
    assert Pow10(1) == 10 && Pow10(2) == 100 && Pow10(3) == 1000;
    DigitsBetween(99, 2);
    DigitsBetween(100, 3);
    DigitsBetween(101, 3);
  }

  // ---------- The meter's counters ----------

  function BoundedAdd(left: nat, right: nat): nat {
    if left + right <= MAX_SAFE_INTEGER then left + right else MAX_SAFE_INTEGER
  }

  function Metered(counts: seq<nat>): nat {
    if counts == [] then 0 else BoundedAdd(Metered(counts[..|counts| - 1]), counts[|counts| - 1])
  }

  function Sum(counts: seq<nat>): nat {
    if counts == [] then 0 else Sum(counts[..|counts| - 1]) + counts[|counts| - 1]
  }

  /** A counter holds the exact sum of what was observed until it saturates, and then stays saturated. */
  lemma {:induction false} MeterSaturates(counts: seq<nat>)
    ensures Metered(counts) == if Sum(counts) <= MAX_SAFE_INTEGER then Sum(counts) else MAX_SAFE_INTEGER
  {
    if counts != [] { MeterSaturates(counts[..|counts| - 1]); }
  }
}
