/** Conversions between milliseconds and clock ticks. */
module Ticks {

  const MSEC_PER_SEC: nat := 1000
  const TWO31: nat := 0x8000_0000
  const TWO32: nat := 0x1_0000_0000

  /** `ceiling_fraction` on non-negative operands. */
  function CeilDiv(a: nat, b: nat): nat
    requires b > 0
  {
    (a + (b - 1)) / b
  }

  /** The cast to `s32_t`. */
  function ToS32(x: nat): int {
    if x % TWO32 < TWO31 then x % TWO32 else x % TWO32 - TWO32
  }

  /** Hardware cycles in a tick-rate's worth of milliseconds; the 64-bit formula divides by it. */
  function Divisor(hz: nat, tps: nat): nat
    requires tps > 0
  {
    MSEC_PER_SEC * hz / tps
  }

  /** `_ms_to_ticks` before the cast: the 64-bit formula and the simple one. */
  function PreciseTicks(ms: nat, hz: nat, tps: nat): nat
    requires 0 < tps <= MSEC_PER_SEC * hz
  {
    CeilDiv(ms * hz, Divisor(hz, tps))
  }

  function SimpleTicks(ms: nat, tps: nat): nat
    requires 0 < tps <= MSEC_PER_SEC
  {
    CeilDiv(ms, MSEC_PER_SEC / tps)
  }

  /** `__ticks_to_ms`, the 64-bit formula and the simple one. */
  function PreciseMs(ticks: nat, tps: nat): nat
    requires tps > 0
  {
    ticks * MSEC_PER_SEC / tps
  }

  function SimpleMs(ticks: nat, tps: nat): nat
    requires tps > 0
  {
    ticks * (MSEC_PER_SEC / tps)
  }

  // ---------- arithmetic ----------

  /** What a ceiling division means. */
  lemma CeilMeaning(a: nat, b: nat)
    requires b > 0
    ensures a <= CeilDiv(a, b) * b < a + b
  {
    var q := (a + (b - 1)) / b;
    assert a + (b - 1) == q * b + (a + (b - 1)) % b;
  }

  lemma CeilUnique(a: nat, b: nat, q: nat)
    requires b > 0 && a <= q * b < a + b
    ensures CeilDiv(a, b) == q
  {
    CeilMeaning(a, b);
    var p := CeilDiv(a, b);
    if p < q { MulMono(p + 1, q, b); } else if q < p { MulMono(q + 1, p, b); }
  }

  lemma MulMono(a: nat, b: nat, c: nat)
    requires a <= b
    ensures a * c <= b * c
  {
  }

  lemma MulCancel(a: nat, b: nat, c: nat)
    requires c > 0 && a * c <= b * c
    ensures a <= b
  {
    if b < a { MulMono(b + 1, a, c); }
  }

  lemma FloorAtLeast(a: nat, b: nat, q: nat)
    requires b > 0 && q * b <= a
    ensures q <= a / b
  {
    var p := a / b;
    assert a == p * b + a % b;
    if p < q { MulMono(p + 1, q, b); }
  }

  lemma DivisorBounds(hz: nat, tps: nat)
    requires 0 < tps <= MSEC_PER_SEC * hz
    ensures 0 < Divisor(hz, tps) && Divisor(hz, tps) * tps <= MSEC_PER_SEC * hz
  {
    var a := MSEC_PER_SEC * hz;
    assert a == a / tps * tps + a % tps;
    FloorAtLeast(a, tps, 1);
  }

  lemma Swap(a: nat, b: nat, c: nat)
    ensures (a * b) * c == (a * c) * b == a * (b * c)
  {
  }

  // ---------- theorems ----------

  /** The ticks last at least as long as the milliseconds. */
  lemma EnoughTicks(ms: nat, hz: nat, tps: nat)
    requires 0 < tps <= MSEC_PER_SEC * hz
    ensures ms * tps <= PreciseTicks(ms, hz, tps) * MSEC_PER_SEC
  {
    var d, t := Divisor(hz, tps), PreciseTicks(ms, hz, tps);
    DivisorBounds(hz, tps);
    CeilMeaning(ms * hz, d);
    MulMono(ms * hz, t * d, tps);
    Swap(ms, hz, tps);
    Swap(t, d, tps);
    MulMono(d * tps, MSEC_PER_SEC * hz, t);
    Swap(t, MSEC_PER_SEC, hz);
    assert t * (d * tps) == (d * tps) * t && t * (MSEC_PER_SEC * hz) == (MSEC_PER_SEC * hz) * t;
    MulCancel(ms * tps, t * MSEC_PER_SEC, hz);
  }

  /** Converting to ticks and back never gives fewer milliseconds. */
  lemma RoundTripNeverShortens(ms: nat, hz: nat, tps: nat)
    requires 0 < tps <= MSEC_PER_SEC * hz
    ensures ms <= PreciseMs(PreciseTicks(ms, hz, tps), tps)
  {
    EnoughTicks(ms, hz, tps);
    FloorAtLeast(PreciseTicks(ms, hz, tps) * MSEC_PER_SEC, tps, ms);
  }

  /** At a rate that divides 1000 the simple formulas give the same ticks, and the round
      trip overshoots by less than a tick. */
  lemma SimpleIsPrecise(ms: nat, hz: nat, tps: nat)
    requires 0 < tps && hz > 0 && MSEC_PER_SEC % tps == 0
    ensures tps <= MSEC_PER_SEC && tps <= MSEC_PER_SEC * hz
    ensures PreciseTicks(ms, hz, tps) == SimpleTicks(ms, tps)
    ensures ms <= SimpleMs(SimpleTicks(ms, tps), tps) < ms + MSEC_PER_SEC / tps
  {
    var m := MSEC_PER_SEC / tps;
    assert MSEC_PER_SEC == m * tps + MSEC_PER_SEC % tps;
    MulMono(1, hz, MSEC_PER_SEC);
    Swap(m, tps, hz);
    DivExact(m * hz, tps);
    var t := SimpleTicks(ms, tps);
    CeilMeaning(ms, m);
    Swap(t, m, hz);
    MulMono(ms, t * m, hz);
    MulMono(t * m + 1, ms + m, hz);
    CeilUnique(ms * hz, m * hz, t);
  }

  lemma DivExact(a: nat, b: nat)
    requires b > 0
    ensures a * b / b == a
  {
    FloorAtLeast(a * b, b, a);
    var p := a * b / b;
    assert a * b == p * b + a * b % b;
    MulCancel(p, a, b);
  }

  /** At rates up to 1000 ticks a second the cast to 32 bits loses nothing. */
  lemma CastIsExact(ms: nat, hz: nat, tps: nat)
    requires ms < TWO31 && 0 < tps <= MSEC_PER_SEC && hz > 0
    ensures tps <= MSEC_PER_SEC * hz && ToS32(PreciseTicks(ms, hz, tps)) == PreciseTicks(ms, hz, tps) <= ms
  {
    MulMono(1, hz, MSEC_PER_SEC);
    var d, t := Divisor(hz, tps), PreciseTicks(ms, hz, tps);
    MulMono(tps, MSEC_PER_SEC, hz);
    FloorAtLeast(MSEC_PER_SEC * hz, tps, hz);
    CeilMeaning(ms * hz, d);
    MulMono(hz, d, ms);
    if ms < t { MulMono(ms + 1, t, d); }
  }

  /** At every valid rate, the ticks after the cast last long enough exactly when the
      milliseconds' cycles are within what 2^31 - 1 ticks cover. */
  lemma CastShortensIff(ms: nat, hz: nat, tps: nat)
    requires 0 < tps <= MSEC_PER_SEC * hz
    ensures ms * tps <= ToS32(PreciseTicks(ms, hz, tps)) * MSEC_PER_SEC <==> ms * hz <= (TWO31 - 1) * Divisor(hz, tps)
  {
    var t := PreciseTicks(ms, hz, tps);
    DivisorBounds(hz, tps);
    CeilAtMost(ms * hz, Divisor(hz, tps), TWO31 - 1);
    EnoughTicks(ms, hz, tps);
    if t > 0 { TicksUnderTwice(ms, hz, tps); }
    CastMeaning(t, ms * tps);
  }

  lemma CastMeaning(t: nat, m: nat)
    requires m <= t * MSEC_PER_SEC && (t > 0 ==> (t - 1) * MSEC_PER_SEC < 2 * m)
    ensures m <= ToS32(t) * MSEC_PER_SEC <==> t < TWO31
  {
    if TWO31 <= t < TWO32 { assert ToS32(t) < 0; }
    if t >= TWO32 { assert ToS32(t) < TWO31; }
  }

  /** Where the rate divides the cycles of a second in milliseconds, in terms of the rate. */
  lemma CastShortensIffExact(ms: nat, hz: nat, tps: nat)
    requires 0 < tps <= MSEC_PER_SEC * hz && (MSEC_PER_SEC * hz) % tps == 0
    ensures ms * tps <= ToS32(PreciseTicks(ms, hz, tps)) * MSEC_PER_SEC <==> ms * tps <= MSEC_PER_SEC * (TWO31 - 1)
  {
    var d, k := Divisor(hz, tps), TWO31 - 1;
    CastShortensIff(ms, hz, tps);
    assert d * tps == MSEC_PER_SEC * hz;
    Swap(ms, hz, tps);
    Swap(k, d, tps);
    Swap(k, MSEC_PER_SEC, hz);
    if ms * hz <= k * d {
      MulMono(ms * hz, k * d, tps);
      MulCancel(ms * tps, k * MSEC_PER_SEC, hz);
    }
    if ms * tps <= k * MSEC_PER_SEC {
      MulMono(ms * tps, k * MSEC_PER_SEC, hz);
      MulCancel(ms * hz, k * d, tps);
    }
  }

  /** About 18 hours at 32768 ticks a second come out as the most negative tick count. */
  lemma EighteenHoursWrap()
    ensures ToS32(PreciseTicks(65_536_000, 32_768, 32_768)) == -0x8000_0000
  {
    assert Divisor(32_768, 32_768) == 1000;
    CeilUnique(65_536_000 * 32_768, 1000, TWO31);
  }

  lemma CeilAtMost(a: nat, b: nat, k: nat)
    requires b > 0
    ensures CeilDiv(a, b) <= k <==> a <= k * b
  {
    var q := CeilDiv(a, b);
    CeilMeaning(a, b);
    if q <= k { MulMono(q, k, b); } else { MulMono(k + 1, q, b); }
  }

  /** Rounding the divisor down less than doubles the ticks. */
  lemma TicksUnderTwice(ms: nat, hz: nat, tps: nat)
    requires 0 < tps <= MSEC_PER_SEC * hz && PreciseTicks(ms, hz, tps) > 0
    ensures (PreciseTicks(ms, hz, tps) - 1) * MSEC_PER_SEC < 2 * (ms * tps)
  {
    var d, n := Divisor(hz, tps), PreciseTicks(ms, hz, tps) - 1;
    DivisorOverHalf(hz, tps);
    CeilMeaning(ms * hz, d);
    assert (n + 1) * d == n * d + d;
    MulMono(n * d + 1, ms * hz, 2 * tps);
    assert (n * d) * (2 * tps) < (ms * hz) * (2 * tps);
    MulMono(MSEC_PER_SEC * hz, d * (2 * tps), n);
    Swap(n, d, 2 * tps);
    Swap(n, MSEC_PER_SEC, hz);
    Swap(ms, hz, 2 * tps);
    Doubled(n * MSEC_PER_SEC, ms, tps, hz);
  }

  lemma Doubled(x: nat, ms: nat, tps: nat, hz: nat)
    requires x * hz < (ms * (2 * tps)) * hz
    ensures x < 2 * (ms * tps)
  {
    assert ms * (2 * tps) == 2 * (ms * tps);
  }

  lemma DivisorOverHalf(hz: nat, tps: nat)
    requires 0 < tps <= MSEC_PER_SEC * hz
    ensures 0 < Divisor(hz, tps) && MSEC_PER_SEC * hz <= Divisor(hz, tps) * (2 * tps)
  {
    var a, d := MSEC_PER_SEC * hz, Divisor(hz, tps);
    DivisorBounds(hz, tps);
    assert a == d * tps + a % tps;
    MulMono(1, d, tps);
    assert d * (2 * tps) == d * tps + d * tps;
  }

  /** The ticks are the fewest whose cycles cover those of the milliseconds. */
  lemma TicksMeaning(ms: nat, hz: nat, tps: nat, k: nat)
    requires 0 < tps <= 1000 * hz
    ensures PreciseTicks(ms, hz, tps) <= k <==> ms * hz <= k * (1000 * hz / tps)
  {
    DivisorBounds(hz, tps);
    CeilAtMost(ms * hz, Divisor(hz, tps), k);
  }

  /** Back in milliseconds, rounded down; at a rate that divides 1000 the fast formula gives
      the same. */
  lemma MillisecondsMeaning(ticks: nat, tps: nat)
    requires tps > 0
    ensures var ms := PreciseMs(ticks, tps); ms * tps <= ticks * 1000 < (ms + 1) * tps
    ensures 1000 % tps == 0 ==> SimpleMs(ticks, tps) == PreciseMs(ticks, tps)
  {
    var a, m := ticks * 1000, 1000 / tps;
    assert a == a / tps * tps + a % tps;
    if 1000 % tps == 0 {
      assert 1000 == m * tps;
      Swap(ticks, m, tps);
      DivExact(ticks * m, tps);
    }
  }

  /** The cast keeps the value modulo 2^32 and puts it in range. */
  lemma CastRange(x: nat)
    ensures -0x8000_0000 <= ToS32(x) < 0x8000_0000 && (x - ToS32(x)) % 0x1_0000_0000 == 0
  {
    assert x == x / TWO32 * TWO32 + x % TWO32;
  }
}
