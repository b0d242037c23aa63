/** Detection time and transmit jitter, in the 32-bit arithmetic of the source. */
module Intervals {
  import opened Basics

  const SLOW_INTERVAL_US: u32 := 1_000_000

  lemma DivBound(a: nat, n: nat, m: nat)
    requires m > 0
    ensures a > n / m <==> a * m > n
  {
    var q, r := n / m, n % m;
    assert n == q * m + r && r < m;
    if a > q {
      assert a * m >= (q + 1) * m by { Monotone(q + 1, a, m); }
    } else {
      assert a * m <= q * m by { Monotone(a, q, m); }
    }
  }

  lemma Monotone(a: nat, b: nat, m: nat)
    requires a <= b
    ensures a * m <= b * m
  {
  }

  /** Section 6.8.4 of RFC 5880, saturating: the source compares with a quotient so that the
      product is only formed when it fits. */
  function DetectTime(effMinRx: u32, remoteMinTx: u32, remoteMult: u8): (r: u32)
    requires remoteMult != 0
    ensures r == if Max(effMinRx, remoteMinTx) * remoteMult <= U32_MAX
                 then Max(effMinRx, remoteMinTx) * remoteMult else U32_MAX
  {
    var agreed := Max(effMinRx, remoteMinTx);
    DivBound(agreed, U32_MAX, remoteMult);
    if agreed > U32_MAX / remoteMult then U32_MAX else agreed * remoteMult
  }

  function MulU32(a: u32, b: u32): u32 { (a * b) % TWO_32 }
  function SubU32(a: u32, b: u32): u32 { (a - b) % TWO_32 }

  datatype Range = Range(lo: u32, hi: u32)

  /** The shortest and longest delay between two packets of a session, as userspace stores them
      in the kernel configuration. */
  function SendRange(down: bool, effMinTx: u32, remoteMinRx: u32, effMult: u8): Range {
    if down then Range(SLOW_INTERVAL_US, SLOW_INTERVAL_US)
    else
      var interval := Max(effMinTx, remoteMinRx);
      Range(MulU32(interval, 75) / 100,
            if effMult == 1 then MulU32(interval, 90) / 100 else interval)
  }

  /** The delay the kernel program picks for one trip of the packet, in microseconds. The
      difference is taken in 32 bits, the scaling in 64. */
  function SendDelay(range: Range, random: u32): nat {
    random * SubU32(range.hi, range.lo) / U32_MAX + range.lo
  }

  /** Longest delay section 6.8.7 of RFC 5880 allows for an interval. */
  function Ceiling(interval: u32, mult: u8): nat {
    if mult == 1 then interval * 90 / 100 else interval
  }

  predicate WithinJitter(range: Range, interval: u32, mult: u8) {
    forall random: u32 :: interval * 75 / 100 <= SendDelay(range, random) <= Ceiling(interval, mult)
  }

  predicate NoOverflow(interval: u32, mult: u8) {
    interval * (if mult == 1 then 90 else 75) <= U32_MAX
  }

  lemma ScaledBound(random: u32, width: u32)
    ensures 0 <= random * width / U32_MAX <= width
  {
    Monotone(random, U32_MAX, width);
    var p: nat := random * width;
    assert p <= U32_MAX * width;
    DivBound(width + 1, p, U32_MAX);
    Monotone(0, width, U32_MAX);
  }

  lemma DelayEnds(range: Range)
    ensures SendDelay(range, 0) == range.lo
    ensures SendDelay(range, U32_MAX) == range.lo + SubU32(range.hi, range.lo)
  {
    var w := SubU32(range.hi, range.lo);
    assert 0 * w / U32_MAX == 0;
    assert U32_MAX * w / U32_MAX == w;
  }

  lemma SmallMod(x: nat)
    requires x <= U32_MAX
    ensures x % TWO_32 == x
  {
  }

  lemma Percentages(x: nat)
    ensures x * 75 / 100 <= x * 90 / 100 <= x
  {
  }

  /** Without overflow the stored range is the exact one. */
  lemma ExactRange(effMinTx: u32, remoteMinRx: u32, mult: u8)
    requires NoOverflow(Max(effMinTx, remoteMinRx), mult)
    ensures var interval := Max(effMinTx, remoteMinRx);
            var range := SendRange(false, effMinTx, remoteMinRx, mult);
            range.lo == interval * 75 / 100 <= range.hi == Ceiling(interval, mult)
  {
    var interval: u32 := Max(effMinTx, remoteMinRx);
    SmallMod(interval * 75);
    if mult == 1 {
      SmallMod(interval * 90);
    }
    Percentages(interval);
  }

  lemma JitterHolds(effMinTx: u32, remoteMinRx: u32, mult: u8)
    requires NoOverflow(Max(effMinTx, remoteMinRx), mult)
    ensures WithinJitter(SendRange(false, effMinTx, remoteMinRx, mult), Max(effMinTx, remoteMinRx), mult)
  {
    var range := SendRange(false, effMinTx, remoteMinRx, mult);
    ExactRange(effMinTx, remoteMinRx, mult);
    var width := SubU32(range.hi, range.lo);
    assert width == range.hi - range.lo;
    forall random: u32
      ensures range.lo <= SendDelay(range, random) <= range.hi
    {
      ScaledBound(random, width);
    }
  }

  lemma JitterBreaks(effMinTx: u32, remoteMinRx: u32, mult: u8)
    requires !NoOverflow(Max(effMinTx, remoteMinRx), mult)
    ensures !WithinJitter(SendRange(false, effMinTx, remoteMinRx, mult), Max(effMinTx, remoteMinRx), mult)
  {
    var interval: u32 := Max(effMinTx, remoteMinRx);
    var range := SendRange(false, effMinTx, remoteMinRx, mult);
    DelayEnds(range);
    if interval * 75 > U32_MAX {
      assert range.lo < interval * 75 / 100;
    } else {
      assert range.hi < range.lo;
      assert SendDelay(range, U32_MAX) > Ceiling(interval, mult);
    }
  }

  /** Every delay of a session that is not Down lies between three quarters of its interval and
      the whole of it (nine tenths when the multiplier is one) exactly when the percentage is
      computed without overflow: for intervals up to 57 s, or 47 s with multiplier one. */
  lemma JitterExact(effMinTx: u32, remoteMinRx: u32, mult: u8)
    ensures WithinJitter(SendRange(false, effMinTx, remoteMinRx, mult), Max(effMinTx, remoteMinRx), mult)
       <==> NoOverflow(Max(effMinTx, remoteMinRx), mult)
  {
    if NoOverflow(Max(effMinTx, remoteMinRx), mult) {
      JitterHolds(effMinTx, remoteMinRx, mult);
    } else {
      JitterBreaks(effMinTx, remoteMinRx, mult);
    }
  }

  /** A minute is already too long: the shortest delay comes out as two seconds. */
  lemma JitterFailsAtAMinute(mult: u8)
    ensures SendDelay(SendRange(false, 60_000_000, 0, mult), 0) == 2_050_327
    ensures !WithinJitter(SendRange(false, 60_000_000, 0, mult), 60_000_000, mult)
  {
    DelayEnds(SendRange(false, 60_000_000, 0, mult));
    JitterBreaks(60_000_000, 0, mult);
  }

  /** A Down session sends at exactly the slow rate. */
  lemma DownIsSlow(effMinTx: u32, remoteMinRx: u32, mult: u8, random: u32)
    ensures SendDelay(SendRange(true, effMinTx, remoteMinRx, mult), random) == SLOW_INTERVAL_US
  {
    assert random * 0 / U32_MAX == 0;
  }
}
