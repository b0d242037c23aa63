/** The Internet checksum (section 1 of RFC 1071) over 16-bit words of the host's byte order. */
module Checksum {
  import opened Basics

  const ONES: nat := 0xFFFF

  function Word(b0: u8, b1: u8, little: bool): (w: u16) {
    var first: int, second: int := b0, b1;
    if little then first + 256 * second else 256 * first + second
  }

  /** The exact sum. A last odd byte counts by its plain value. */
  function WordSum(s: seq<u8>, little: bool): nat {
    if |s| == 0 then 0
    else if |s| == 1 then s[0]
    else Word(s[0], s[1], little) + WordSum(s[2..], little)
  }

  /** The loop that adds up, in 32 bits. */
  method Accumulate(start: u32, s: seq<u8>, little: bool) returns (sum: u32)
    ensures sum == (start + WordSum(s, little)) % TWO_32
  {
    sum := start;
    var p := 0;
    while |s| - p >= 2
      invariant 0 <= p <= |s|
      invariant (sum + WordSum(s[p..], little)) % TWO_32 == (start + WordSum(s, little)) % TWO_32
      decreases |s| - p
    {
      ghost var tail := WordSum(s[p + 2..], little);
      var w := Word(s[p], s[p + 1], little);
      assert s[p..][2..] == s[p + 2..];
      assert WordSum(s[p..], little) == w + tail;
      ModAdd(sum + w, tail);
      sum := (sum + w) % TWO_32;
      p := p + 2;
    }
    if |s| - p == 1 {
      assert WordSum(s[p..], little) == s[p];
      sum := (sum + s[p]) % TWO_32;
    } else {
      assert WordSum(s[p..], little) == 0;
    }
  }

  lemma ModAdd(a: nat, b: nat)
    ensures (a % TWO_32 + b) % TWO_32 == (a + b) % TWO_32
  {
    var q := a / TWO_32;
    assert a + b == q * TWO_32 + (a % TWO_32 + b);
    ModShift(q, a % TWO_32 + b);
  }

  lemma {:induction false} ModShift(q: nat, x: nat)
    ensures (q * TWO_32 + x) % TWO_32 == x % TWO_32
    decreases q
  {
    if q > 0 {
      ModShift(q - 1, x + TWO_32);
    }
  }

  /** `f` is what remains of a sum when every carry is added back: the same modulo 65535, in 16 bits,
      and zero only for a zero sum. There is one such number. */
  predicate Folds(sum: nat, f: nat) {
    f <= ONES && f % ONES == sum % ONES && (f == 0 <==> sum == 0)
  }

  lemma FoldsOnce(sum: nat, f: nat, g: nat)
    requires Folds(sum, f) && Folds(sum, g)
    ensures f == g
  {
  }

  /** The folding loop; it ends because each round makes the sum smaller. */
  method Fold(start: u32) returns (r: u16)
    ensures Folds(start, ONES - r)
  {
    var sum: nat := start;
    while sum / 0x1_0000 != 0
      invariant sum % ONES == start % ONES && (sum == 0 <==> start == 0)
      decreases sum
    {
      FoldStep(sum);
      sum := sum % 0x1_0000 + sum / 0x1_0000;
    }
    r := ONES - sum;
  }

  lemma FoldStep(sum: nat)
    requires sum >= 0x1_0000
    ensures var f := sum % 0x1_0000 + sum / 0x1_0000; 0 < f < sum && f % ONES == sum % ONES
  {
    var q, r := sum / 0x1_0000, sum % 0x1_0000;
    assert sum == q * ONES + (q + r);
    OnesShift(q, q + r);
  }

  lemma {:induction false} OnesShift(q: nat, x: nat)
    ensures (q * ONES + x) % ONES == x % ONES
    decreases q
  {
    if q > 0 {
      OnesShift(q - 1, x + ONES);
    }
  }

  /** `bbdd_bpf_inet_cksum`. The sum is the exact one unless the accumulator overflows, for which it
      takes more than 128 kB. */
  method InetChecksum(s: seq<u8>, little: bool) returns (r: u16)
    ensures Folds(WordSum(s, little) % TWO_32, ONES - r)
    ensures |s| <= 0x2_0000 ==> Folds(WordSum(s, little), ONES - r)
  {
    var sum := Accumulate(0, s, little);
    SumBound(s, little);
    r := Fold(sum);
  }

  /** `bbdd_bpf_udp6_cksum`: the 40 bytes of pseudo header first, then the datagram, whose length is a
      16-bit number. */
  method Udp6Checksum(pseudo: seq<u8>, udp: seq<u8>, little: bool) returns (r: u16)
    requires |pseudo| == 40 && |udp| <= 0xFFFF
    ensures Folds(WordSum(pseudo + udp, little), ONES - r)
  {
    SumSplits(pseudo, udp, little);
    SumBound(pseudo, little);
    SumBound(udp, little);
    var sum := Accumulate(0, pseudo, little);
    assert sum == WordSum(pseudo, little);
    sum := Accumulate(sum, udp, little);
    assert sum == WordSum(pseudo + udp, little);
    r := Fold(sum);
  }

  /** A buffer of up to 128 KiB cannot overflow the accumulator. */
  lemma {:induction false} SumBound(s: seq<u8>, little: bool)
    ensures WordSum(s, little) <= (|s| + 1) / 2 * ONES
    ensures |s| <= 0x2_0000 ==> WordSum(s, little) < TWO_32
  {
    if |s| > 1 {
      SumBound(s[2..], little);
    }
  }

  lemma {:induction false} SumSplits(a: seq<u8>, b: seq<u8>, little: bool)
    requires |a| % 2 == 0
    ensures WordSum(a + b, little) == WordSum(a, little) + WordSum(b, little)
  {
    if |a| == 0 {
      assert a + b == b;
    } else {
      assert (a + b)[2..] == a[2..] + b;
      SumSplits(a[2..], b, little);
    }
  }

  /** Storing a 16-bit value in the host's byte order. */
  function Store(s: seq<u8>, at: nat, c: u16, little: bool): (r: seq<u8>)
    requires at + 2 <= |s|
    ensures |r| == |s|
  {
    var lo: u8, hi: u8 := c % 256, c / 256;
    s[at := if little then lo else hi][at + 1 := if little then hi else lo]
  }

  lemma StoreAdds(s: seq<u8>, at: nat, c: u16, little: bool)
    requires at % 2 == 0 && at + 2 <= |s| && s[at] == 0 && s[at + 1] == 0
    ensures WordSum(Store(s, at, c, little), little) == WordSum(s, little) + c
  {
    var r := Store(s, at, c, little);
    var tail := s[at + 2..];
    assert s == s[..at] + ([0, 0] + tail);
    assert r == s[..at] + ([r[at], r[at + 1]] + tail);
    SumSplits(s[..at], [0, 0] + tail, little);
    SumSplits(s[..at], [r[at], r[at + 1]] + tail, little);
    assert ([0, 0] + tail)[2..] == tail && ([r[at], r[at + 1]] + tail)[2..] == tail;
  }

  /** The checksum verifies: with the computed value in its zeroed field, any value the same
      computation can return is zero. */
  lemma ChecksumVerifies(s: seq<u8>, at: nat, c: u16, again: u16, little: bool)
    requires at % 2 == 0 && at + 2 <= |s| && s[at] == 0 && s[at + 1] == 0
    requires Folds(WordSum(s, little), ONES - c)
    requires Folds(WordSum(Store(s, at, c, little), little), ONES - again)
    ensures again == 0
  {
    StoreAdds(s, at, c, little);
    var sum := WordSum(s, little);
    assert (ONES - c) % ONES == sum % ONES;
    VerifyArith(sum, ONES - c);
    FoldsOnce(sum + c, ONES - again, ONES);
  }

  lemma VerifyArith(sum: nat, f: nat)
    requires Folds(sum, f)
    ensures Folds(sum + (ONES - f), ONES)
  {
    var q := sum / ONES;
    if f == ONES {
      assert sum % ONES == 0;
    } else {
      assert sum == q * ONES + f;
      OnesShift(q, ONES);
    }
  }

  /** The computed value is zero, which over IPv6 means "no checksum" to the receiver (section 8.1 of
      RFC 8200), exactly when the sum is a positive multiple of 65535. The source sends it as it is. */
  lemma ZeroChecksum(sum: nat, c: u16)
    requires Folds(sum, ONES - c)
    ensures c == 0 <==> sum > 0 && sum % ONES == 0
  {
  }
}
