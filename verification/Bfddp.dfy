/** The DP_ADD_SESSION message of the BFD data plane protocol, byte by byte. */
module Bfddp {
  import opened Basics
  import opened Packet
  import opened Sessions
  import opened Framing
  import opened Requests

  const VERSION: u8 := 1
  const DP_ADD_SESSION: u16 := 2

  const SESSION_MULTIHOP: nat := 1
  const SESSION_DEMAND: nat := 2
  const SESSION_CBIT: nat := 4
  const SESSION_ECHO: nat := 8
  const SESSION_IPV6: nat := 16
  const SESSION_PASSIVE: nat := 32
  const SESSION_SHUTDOWN: nat := 64

  const SESSION_SIZE: nat := 132
  const IFNAME_SIZE: nat := 64
  const VRFNAME_SIZE: nat := 36
  const STD_LEN: u16 := HEADER_SIZE + SESSION_SIZE
  const CML_LEN: u16 := STD_LEN + 4 + VRFNAME_SIZE

  datatype DecodeError = EchoUnsupported | DemandUnsupported | HoldOverflow | BadLength
  datatype EncodeError = BadRequest(why: Invalid) | NoSuchInterface

  // ---- Numbers ----

  function Be16(x: u16): Bytes {
    [x / 256, x % 256]
  }

  function Be32(x: u32): (b: Bytes)
    ensures |b| == 4
  {
    [x / 256 / 256 / 256, x / 256 / 256 % 256, x / 256 % 256, x % 256]
  }

  function U32At(m: Bytes, i: nat): u32
    requires i + 4 <= |m|
  {
    var b0: int, b1: int, b2: int, b3: int := m[i], m[i + 1], m[i + 2], m[i + 3];
    ((b0 * 256 + b1) * 256 + b2) * 256 + b3
  }

  /** A number reads back wherever in the message it stands. */
  lemma Be32Reads(m: Bytes, i: nat, x: u32)
    requires i + 4 <= |m| && m[i..i + 4] == Be32(x)
    ensures U32At(m, i) == x
  {
    var b := Be32(x);
    assert m[i] == b[0] && m[i + 1] == b[1] && m[i + 2] == b[2] && m[i + 3] == b[3];
  }

  lemma Within(m: Bytes, lo: nat, hi: nat, i: nat, x: u32)
    requires lo + i + 4 <= hi <= |m| && m[lo..hi][i..i + 4] == Be32(x)
    ensures U32At(m, lo + i) == x
  {
    var part := m[lo..hi];
    Be32Reads(part, i, x);
    assert part[i] == m[lo + i] && part[i + 1] == m[lo + i + 1];
    assert part[i + 2] == m[lo + i + 2] && part[i + 3] == m[lo + i + 3];
  }

  // ---- Flags ----

  /** Testing and setting one bit, given by its weight. */
  predicate HasFlag(flags: nat, bit: nat)
    requires bit > 0
  {
    flags / bit % 2 == 1
  }

  function WithFlag(flags: nat, bit: nat): nat
    requires bit > 0
  {
    if HasFlag(flags, bit) then flags else flags + bit
  }

  function FlagWord(v6: bool, f: Flags): u32 {
    (if v6 then SESSION_IPV6 else 0) + (if f.multihop then SESSION_MULTIHOP else 0)
    + (if f.cpi then SESSION_CBIT else 0) + (if f.passive then SESSION_PASSIVE else 0)
    + (if f.shutdown then SESSION_SHUTDOWN else 0)
  }

  /** The flags are or-ed into a variable one after the other. */
  method BuildFlags(v6: bool, f: Flags) returns (w: nat)
    ensures w == FlagWord(v6, f)
  {
    w := 0;
    if v6 { w := WithFlag(w, SESSION_IPV6); }
    if f.multihop { w := WithFlag(w, SESSION_MULTIHOP); }
    if f.cpi { w := WithFlag(w, SESSION_CBIT); }
    if f.passive { w := WithFlag(w, SESSION_PASSIVE); }
    if f.shutdown { w := WithFlag(w, SESSION_SHUTDOWN); }
  }

  lemma FlagWordReads(v6: bool, f: Flags)
    ensures var w := FlagWord(v6, f);
            && HasFlag(w, SESSION_IPV6) == v6 && HasFlag(w, SESSION_MULTIHOP) == f.multihop
            && HasFlag(w, SESSION_CBIT) == f.cpi && HasFlag(w, SESSION_PASSIVE) == f.passive
            && HasFlag(w, SESSION_SHUTDOWN) == f.shutdown
            && !HasFlag(w, SESSION_ECHO) && !HasFlag(w, SESSION_DEMAND)
  {
  }

  /** The word as the protocol has it. */
  lemma FlagWeights(v6: bool, f: Flags)
    ensures FlagWord(v6, f)
         == (if f.multihop then 0x01 else 0) + (if f.cpi then 0x04 else 0) + (if v6 then 0x10 else 0)
            + (if f.passive then 0x20 else 0) + (if f.shutdown then 0x40 else 0)
    ensures HasFlag(2, SESSION_DEMAND) && HasFlag(8, SESSION_ECHO) && !HasFlag(8, SESSION_DEMAND)
  {
  }

  // ---- Addresses and names ----

  function AddrSize(v6: bool): nat {
    if v6 then 16 else 4
  }

  /** An address is as long as its family says. */
  predicate Sized(a: SockAddr) {
    match a.family
    case Unspec => a.addr == []
    case Inet => |a.addr| == 4
    case Inet6 => |a.addr| == 16
  }

  function Zeroes(n: nat): (z: Bytes)
    ensures |z| == n
  {
    seq(n, i => 0)
  }

  /** The 16 bytes of an address field: the address, and what lay behind it before. */
  function AddrField(a: SockAddr, behind: Bytes): (f: Bytes)
    requires Sized(a) && |behind| == 16
    ensures |f| == 16
  {
    a.addr + behind[|a.addr|..]
  }

  predicate Session(d: DSess) {
    WellFormed(d) && Sized(d.src) && Sized(d.dst)
  }

  // ---- The message ----

  function Header(id: u16, length: u16): (h: Bytes)
    ensures |h| == HEADER_SIZE
  {
    [VERSION, 0] + Be16(DP_ADD_SESSION) + Be16(id) + Be16(length)
  }

  function Numbers(d: DSess): (b: Bytes)
    ensures |b| == 24
  {
    Be32(d.local.discr) + Be32(d.local.timing.minTx) + Be32(d.local.timing.minRx)
    + Be32(0) + Be32(0) + Be32(d.holdTimeUs / 1000)
  }

  function Tail(d: DSess): (b: Bytes)
    ensures |b| == 8
  {
    [d.ttl, d.local.timing.mult, 0, 0] + Be32(d.ifindex)
  }

  /** The source field is cleared before the address is copied in. The destination field is not:
      `stack` is what it held. */
  function Payload(d: DSess, flags: u32, stack: Bytes, ifname: Bytes): (b: Bytes)
    requires Session(d) && |stack| == 16 && |ifname| == IFNAME_SIZE
    ensures |b| == SESSION_SIZE
  {
    Be32(flags) + AddrField(d.src, Zeroes(16)) + AddrField(d.dst, stack)
    + Numbers(d) + Tail(d) + ifname
  }

  function Encode(d: DSess, flags: u32, id: u16, stack: Bytes, ifname: Bytes, vrfname: Bytes): (m: Bytes)
    requires Session(d) && |stack| == 16 && |ifname| == IFNAME_SIZE && |vrfname| == VRFNAME_SIZE
    ensures WellFramed(m)
    ensures |m| == if d.vrfTable != 0 then CML_LEN else STD_LEN
  {
    if d.vrfTable != 0
    then Header(id, CML_LEN) + Payload(d, flags, stack, ifname) + (Be32(d.vrfTable) + vrfname)
    else Header(id, STD_LEN) + Payload(d, flags, stack, ifname)
  }

  // ---- Reading it ----

  /** `bbdd_bfdd_session_to_c`: the request in a payload and a VRF number. */
  function ToRequest(s: Bytes, vrf: u32): Result<Change, DecodeError>
    requires |s| == SESSION_SIZE
  {
    var flags := U32At(s, 0);
    var v6 := HasFlag(flags, SESSION_IPV6);
    var size := AddrSize(v6);
    if HasFlag(flags, SESSION_ECHO) then Err(EchoUnsupported)
    else if HasFlag(flags, SESSION_DEMAND) then Err(DemandUnsupported)
    else if U32At(s, 56) > U32_MAX / 1000 then Err(HoldOverflow)
    else
      var src, dst := s[4..4 + size], s[20..20 + size];
      Ok(Change(Some(HasFlag(flags, SESSION_MULTIHOP)), Some(HasFlag(flags, SESSION_CBIT)),
                Some(HasFlag(flags, SESSION_PASSIVE)), Some(HasFlag(flags, SESSION_SHUTDOWN)),
                None, NonZero(U32At(s, 36)), None,
                Some(U32At(s, 40)), Some(U32At(s, 44)), Some(s[61]), Some(U32At(s, 56) * 1000), Some(s[60]),
                if src == Zeroes(size) then UnsetAddr else GiveAddr(v6, Some(src)),
                GiveAddr(v6, Some(dst)),
                if U32At(s, 64) == 0 then UnsetNetif else GiveNetif(U32At(s, 64)),
                if vrf == 0 then UnsetNetif else KeepNetif, NonZero(vrf)))
  }

  /** `bbdd_bfdd_session_msg_to_c`: the length says which of the two forms it is. */
  function Decode(m: Bytes): Result<Change, DecodeError>
    requires WellFramed(m)
  {
    if |m| == STD_LEN then ToRequest(m[HEADER_SIZE..], 0)
    else if |m| == CML_LEN then ToRequest(m[HEADER_SIZE..STD_LEN], U32At(m, STD_LEN))
    else Err(BadLength)
  }

  /** A message is refused exactly when it has neither length, asks for Echo or Demand, or holds for longer
      than 32 bits of microseconds; and in this order. */
  lemma RefusedExactly(m: Bytes)
    requires WellFramed(m)
    ensures var flags := if |m| >= 12 then U32At(m, 8) else 0;
            var hold := if |m| >= 68 then U32At(m, 64) else 0;
            var r := Decode(m);
            && (r == Err(BadLength) <==> |m| != 140 && |m| != 180)
            && (|m| == 140 || |m| == 180 ==>
                  && (r == Err(EchoUnsupported) <==> flags / 8 % 2 == 1)
                  && (r == Err(DemandUnsupported) <==> flags / 8 % 2 == 0 && flags / 2 % 2 == 1)
                  && (r == Err(HoldOverflow) <==> flags / 8 % 2 == 0 && flags / 2 % 2 == 0 && hold > 4_294_967)
                  && (r.Ok? <==> flags / 8 % 2 == 0 && flags / 2 % 2 == 0 && hold <= 4_294_967))
  {
    if |m| == STD_LEN {
      WithinPayload(m, m[HEADER_SIZE..]);
    } else if |m| == CML_LEN {
      WithinPayload(m, m[HEADER_SIZE..STD_LEN]);
    }
  }

  lemma WithinPayload(m: Bytes, s: Bytes)
    requires |m| >= STD_LEN && s == m[HEADER_SIZE..STD_LEN]
    ensures U32At(s, 0) == U32At(m, 8) && U32At(s, 56) == U32At(m, 64)
  {
  }

  /** What the message says about a session. */
  function Carried(d: DSess): Change
    requires Session(d)
  {
    var v6 := d.dst.family.Inet6?;
    Change(Some(d.local.flags.multihop), Some(d.local.flags.cpi), Some(d.local.flags.passive),
           Some(d.local.flags.shutdown), None, Some(d.local.discr), None,
           Some(d.local.timing.minTx), Some(d.local.timing.minRx), Some(d.local.timing.mult),
           Some(d.holdTimeUs / 1000 * 1000), Some(d.ttl),
           if HasSource(d) then GiveAddr(v6, Some(d.src.addr)) else UnsetAddr, GiveAddr(v6, Some(d.dst.addr)),
           if d.ifindex == 0 then UnsetNetif else GiveNetif(d.ifindex),
           if d.vrfTable == 0 then UnsetNetif else KeepNetif, NonZero(d.vrfTable))
  }

  /** The all-zero address cannot be told from none. */
  predicate HasSource(d: DSess) {
    d.src.family != Unspec && d.src.addr != Zeroes(|d.src.addr|)
  }

  lemma PayloadParts(d: DSess, flags: u32, stack: Bytes, ifname: Bytes)
    requires Session(d) && |stack| == 16 && |ifname| == IFNAME_SIZE
    ensures var s := Payload(d, flags, stack, ifname);
            && s[0..4] == Be32(flags)
            && s[4..20] == AddrField(d.src, Zeroes(16)) && s[20..36] == AddrField(d.dst, stack)
            && s[36..60] == Numbers(d) && s[60..68] == Tail(d) && s[68..] == ifname
  {
  }

  /** Where everything stands in the message. */
  lemma Layout(d: DSess, flags: u32, id: u16, stack: Bytes, ifname: Bytes, vrfname: Bytes)
    requires Session(d) && |stack| == 16 && |ifname| == IFNAME_SIZE && |vrfname| == VRFNAME_SIZE
    ensures var m := Encode(d, flags, id, stack, ifname, vrfname);
            && |m| == (if d.vrfTable == 0 then 140 else 180)
            && m[0..4] == [1, 0, 0, 2] && m[4..6] == [id / 256, id % 256] && m[6..8] == [0, |m|]
            && m[8..12] == Be32(flags) && m[12..28] == AddrField(d.src, Zeroes(16))
            && m[28..44] == AddrField(d.dst, stack)
            && m[44..68] == Numbers(d) && m[68] == d.ttl && m[69] == d.local.timing.mult && m[72..76] == Be32(d.ifindex)
            && m[76..140] == ifname && (d.vrfTable != 0 ==> m[140..144] == Be32(d.vrfTable) && m[144..180] == vrfname)
  {
    var m := Encode(d, flags, id, stack, ifname, vrfname);
    var s := Payload(d, flags, stack, ifname);
    LayoutFrame(d, flags, id, stack, ifname, vrfname);
    PayloadParts(d, flags, stack, ifname);
    LayoutPayload(m, s);
    LayoutTail(d, s, ifname);
  }

  lemma LayoutFrame(d: DSess, flags: u32, id: u16, stack: Bytes, ifname: Bytes, vrfname: Bytes)
    requires Session(d) && |stack| == 16 && |ifname| == IFNAME_SIZE && |vrfname| == VRFNAME_SIZE
    ensures var m := Encode(d, flags, id, stack, ifname, vrfname);
            && m[0..4] == [1, 0, 0, 2] && m[4..6] == [id / 256, id % 256] && m[6..8] == [0, |m|]
            && m[8..140] == Payload(d, flags, stack, ifname)
            && (d.vrfTable != 0 ==> m[140..144] == Be32(d.vrfTable) && m[144..180] == vrfname)
  {
    var m := Encode(d, flags, id, stack, ifname, vrfname);
    var h := Header(id, |m|);
    assert h[0..4] == [1, 0, 0, 2] && h[4..6] == [id / 256, id % 256] && h[6..8] == [0, |m|];
    assert m[0..4] == h[0..4] && m[4..6] == h[4..6] && m[6..8] == h[6..8];
  }

  lemma LayoutTail(d: DSess, s: Bytes, ifname: Bytes)
    requires |s| == SESSION_SIZE && s[60..68] == Tail(d) && s[68..] == ifname
    ensures s[60] == d.ttl && s[61] == d.local.timing.mult && s[64..68] == Be32(d.ifindex) && s[68..132] == ifname
  {
    var b := Tail(d);
    assert s[60] == b[0] && s[61] == b[1] && s[64..68] == b[4..8];
  }

  lemma LayoutPayload(m: Bytes, s: Bytes)
    requires |m| >= 140 && m[8..140] == s
    ensures m[8..12] == s[0..4] && m[12..28] == s[4..20] && m[28..44] == s[20..36] && m[44..68] == s[36..60]
    ensures m[68] == s[60] && m[69] == s[61] && m[72..76] == s[64..68] && m[76..140] == s[68..132]
  {
    assert forall i :: 0 <= i < 132 ==> m[8 + i] == s[i];
  }

  /** The numbers of a session, each in four bytes, highest first. */
  lemma NumbersLayout(d: DSess)
    ensures var b := Numbers(d);
            && b[0..4] == Be32(d.local.discr) && b[4..8] == Be32(d.local.timing.minTx)
            && b[8..12] == Be32(d.local.timing.minRx) && b[12..20] == [0, 0, 0, 0, 0, 0, 0, 0]
            && b[20..24] == Be32(d.holdTimeUs / 1000)
    ensures forall x: u32 :: Be32(x)[3] == x % 256 && Be32(x)[2] == x / 256 % 256
  {
    assert Be32(0) == [0, 0, 0, 0];
    var b := Numbers(d);
    assert b[12..20] == b[12..16] + b[16..20];
    assert b[12..16] == Be32(0) && b[16..20] == Be32(0);
  }

  lemma NumbersRead(d: DSess, s: Bytes)
    requires |s| == SESSION_SIZE && s[36..60] == Numbers(d)
    ensures U32At(s, 36) == d.local.discr && U32At(s, 40) == d.local.timing.minTx
    ensures U32At(s, 44) == d.local.timing.minRx && U32At(s, 56) == d.holdTimeUs / 1000
  {
    NumbersLayout(d);
    Within(s, 36, 60, 0, d.local.discr);
    Within(s, 36, 60, 4, d.local.timing.minTx);
    Within(s, 36, 60, 8, d.local.timing.minRx);
    Within(s, 36, 60, 20, d.holdTimeUs / 1000);
  }

  lemma TailReads(d: DSess, s: Bytes)
    requires |s| == SESSION_SIZE && s[60..68] == Tail(d)
    ensures s[60] == d.ttl && s[61] == d.local.timing.mult && U32At(s, 64) == d.ifindex
  {
    var b := s[60..68];
    assert s[60] == b[0] && s[61] == b[1] && b[4..8] == Be32(d.ifindex);
    Within(s, 60, 68, 4, d.ifindex);
  }

  /** The source field reads as zero exactly when there is no source to speak of. */
  lemma SourceReads(d: DSess, s: Bytes)
    requires Session(d) && |s| == SESSION_SIZE && s[4..20] == AddrField(d.src, Zeroes(16))
    ensures var size := AddrSize(d.dst.family.Inet6?);
            && (s[4..4 + size] == Zeroes(size) <==> !HasSource(d))
            && (HasSource(d) ==> s[4..4 + size] == d.src.addr)
  {
    var size := AddrSize(d.dst.family.Inet6?);
    assert s[4..4 + size] == s[4..20][..size];
    if d.src.family == Unspec {
      assert AddrField(d.src, Zeroes(16))[..size] == Zeroes(size);
    } else {
      assert AddrField(d.src, Zeroes(16))[..size] == d.src.addr;
    }
  }

  lemma DestinationReads(d: DSess, stack: Bytes, s: Bytes)
    requires Session(d) && |stack| == 16 && |s| == SESSION_SIZE && s[20..36] == AddrField(d.dst, stack)
    ensures s[20..20 + AddrSize(d.dst.family.Inet6?)] == d.dst.addr
  {
    var size := AddrSize(d.dst.family.Inet6?);
    assert s[20..20 + size] == s[20..36][..size] == AddrField(d.dst, stack)[..size];
  }

  lemma PayloadReads(d: DSess, flags: u32, stack: Bytes, ifname: Bytes, vrf: u32)
    requires flags == FlagWord(d.dst.family.Inet6?, d.local.flags)
    requires Session(d) && |stack| == 16 && |ifname| == IFNAME_SIZE && vrf == d.vrfTable
    ensures ToRequest(Payload(d, flags, stack, ifname), vrf) == Ok(Carried(d))
  {
    var s := Payload(d, flags, stack, ifname);
    PayloadParts(d, flags, stack, ifname);
    Be32Reads(s, 0, flags);
    FlagWordReads(d.dst.family.Inet6?, d.local.flags);
    NumbersRead(d, s);
    TailReads(d, s);
    SourceReads(d, s);
    DestinationReads(d, stack, s);
  }

  /** What is read out of a message is what was put in, whatever lay in the padding, in both forms. */
  lemma EncodeThenDecode(d: DSess, flags: u32, id: u16, stack: Bytes, ifname: Bytes, vrfname: Bytes)
    requires flags == FlagWord(d.dst.family.Inet6?, d.local.flags)
    requires Session(d) && |stack| == 16 && |ifname| == IFNAME_SIZE && |vrfname| == VRFNAME_SIZE
    ensures Decode(Encode(d, flags, id, stack, ifname, vrfname)) == Ok(Carried(d))
  {
    var m := Encode(d, flags, id, stack, ifname, vrfname);
    var s := Payload(d, flags, stack, ifname);
    PayloadReads(d, flags, stack, ifname, d.vrfTable);
    if d.vrfTable == 0 {
      assert m[HEADER_SIZE..] == s;
    } else {
      assert m[HEADER_SIZE..STD_LEN] == s;
      assert m[STD_LEN..STD_LEN + 4] == Be32(d.vrfTable);
      Be32Reads(m, STD_LEN, d.vrfTable);
    }
  }

  /** Two records describe the same session, as far as a message can tell. */
  predicate SameSession(d: DSess, e: DSess) {
    && d.local.flags == e.local.flags && d.local.discr == e.local.discr && d.local.timing == e.local.timing
    && d.src.family == e.src.family && d.src.addr == e.src.addr
    && d.dst.family == e.dst.family && d.dst.addr == e.dst.addr
    && d.holdTimeUs == e.holdTimeUs && d.ttl == e.ttl && d.ifindex == e.ifindex && d.vrfTable == e.vrfTable
  }

  /** Whatever record the request is written over, the session arrives as it was sent, exactly when its
      hold time is in whole milliseconds and its source is not the all-zero address. */
  lemma SessionArrives(d: DSess, at: DSess)
    requires Session(d)
    ensures SameSession(d, Overwritten(at, Carried(d)))
            <==> d.holdTimeUs % 1000 == 0 && (d.src.family != Unspec ==> HasSource(d))
  {
    assert d.holdTimeUs == d.holdTimeUs / 1000 * 1000 + d.holdTimeUs % 1000;
  }

  // ---- The two ends ----

  /** A request that asks for nothing. */
  const NOTHING := Change(None, None, None, None, None, None, None, None, None, None, None, None,
                          KeepAddr, KeepAddr, KeepNetif, KeepNetif, None)

  /** `bbdd_bfdd_session_to_c`, field by field. */
  method ReadPayload(s: Bytes, vrf: u32) returns (r: Result<Change, DecodeError>)
    requires |s| == SESSION_SIZE
    ensures r == ToRequest(s, vrf)
  {
    var flags := U32At(s, 0);
    var v6 := HasFlag(flags, SESSION_IPV6);
    var size := AddrSize(v6);
    if HasFlag(flags, SESSION_ECHO) {
      return Err(EchoUnsupported);
    }
    if HasFlag(flags, SESSION_DEMAND) {
      return Err(DemandUnsupported);
    }

    var c := NOTHING;
    c := c.(multihop := Some(HasFlag(flags, SESSION_MULTIHOP)), cpi := Some(HasFlag(flags, SESSION_CBIT)),
            passive := Some(HasFlag(flags, SESSION_PASSIVE)), shutdown := Some(HasFlag(flags, SESSION_SHUTDOWN)));

    var src := s[4..4 + size];
    c := c.(src := if src == Zeroes(size) then UnsetAddr else GiveAddr(v6, Some(src)),
            dst := GiveAddr(v6, Some(s[20..20 + size])));

    c := c.(discr := NonZero(U32At(s, 36)), minTx := Some(U32At(s, 40)), minRx := Some(U32At(s, 44)));

    var holdTimeMs := U32At(s, 56);
    if holdTimeMs > U32_MAX / 1000 {
      return Err(HoldOverflow);
    }
    c := c.(holdTimeUs := Some(holdTimeMs * 1000), ttl := Some(s[60]), mult := Some(s[61]));

    if U32At(s, 64) == 0 {
      c := c.(netif := UnsetNetif);
    } else {
      c := c.(netif := GiveNetif(U32At(s, 64)));
    }
    if vrf == 0 {
      c := c.(vrf := UnsetNetif);
    } else {
      c := c.(vrfTable := Some(vrf));
    }
    return Ok(c);
  }

  method ReadMessage(m: Bytes) returns (r: Result<Change, DecodeError>)
    requires WellFramed(m)
    ensures r == Decode(m)
  {
    if |m| == STD_LEN {
      r := ReadPayload(m[HEADER_SIZE..], 0);
    } else if |m| == CML_LEN {
      r := ReadPayload(m[HEADER_SIZE..STD_LEN], U32At(m, STD_LEN));
    } else {
      r := Err(BadLength);
    }
  }

  const NO_ADDR := SockAddr(Unspec, [], 0)
  const NO_END := EndData(Flags(false, false, false, false), 0, Timing(0, 0, 0), EndState(AdminDown, DIAG_NOTHING))

  /** The record a request is tried on before it is sent. */
  const BLANK := DSess(NO_ADDR, NO_ADDR, "", 0, 255, 0, 0, 0, 0, NO_END, NO_END)

  /** The kernel's name of an interface, if there is such an interface. */
  type Names = u32 -> Option<Bytes>

  const IFNAMSIZ: nat := 16

  predicate Named(ifindex: u32, names: Names) {
    ifindex == 0 || names(ifindex).Some?
  }

  /** An address the text parser gave is as long as its family says. */
  predicate SizedChange(c: AddrChange) {
    c.GiveAddr? && c.parsed.Some? ==> |c.parsed.value| == AddrSize(c.v6)
  }

  /** `bbdd_bfdd_msg_fill_netif` into a cleared field. */
  method FillName(ifindex: u32, names: Names, size: nat) returns (r: Result<Bytes, EncodeError>)
    requires size >= IFNAMSIZ && forall i: u32 :: names(i).Some? ==> |names(i).value| < IFNAMSIZ
    ensures r.Ok? <==> Named(ifindex, names)
    ensures r.Ok? ==> |r.value| == size
    ensures r.Ok? && ifindex != 0 ==> names(ifindex).value < r.value
    ensures r.Err? ==> r.error == NoSuchInterface
  {
    if ifindex == 0 {
      return Ok(Zeroes(size));
    }
    var name := names(ifindex);
    if name.None? {
      return Err(NoSuchInterface);
    }
    return Ok(name.value + Zeroes(size - |name.value|));
  }

  /** `bbdd_bfdd_d_add_session`: a message goes out exactly when the request is good and its interfaces
      exist, and it says what the request says. */
  method AddSession(c: Change, vrfOk: VrfOracle, names: Names, id: u16, stack: Bytes)
    returns (r: Result<Bytes, EncodeError>)
    requires !c.dst.UnsetAddr? && SizedChange(c.src) && SizedChange(c.dst) && |stack| == 16
    requires forall i: u32 :: names(i).Some? ==> |names(i).value| < IFNAMSIZ
    ensures r.Ok? <==> Admissible(BLANK, c, vrfOk)
                       && Named(Overwritten(BLANK, c).vrfIfindex, names) && Named(Overwritten(BLANK, c).ifindex, names)
    ensures r.Ok? ==> WellFramed(r.value) && Session(Overwritten(BLANK, c))
                      && Decode(r.value) == Ok(Carried(Overwritten(BLANK, c)))
  {
    var record := new Record(BLANK);
    var applied := record.Apply(c, vrfOk);
    if applied.Err? {
      return Err(BadRequest(applied.error));
    }
    var d := record.d;
    var flags := BuildFlags(d.dst.family.Inet6?, d.local.flags);
    var vrfname := FillName(d.vrfIfindex, names, VRFNAME_SIZE);
    if vrfname.Err? {
      return Err(vrfname.error);
    }
    var ifname := FillName(d.ifindex, names, IFNAME_SIZE);
    if ifname.Err? {
      return Err(ifname.error);
    }
    EncodeThenDecode(d, flags, id, stack, ifname.value, vrfname.value);
    return Ok(Encode(d, flags, id, stack, ifname.value, vrfname.value));
  }
}
