/** The BFD control packet (section 4.1 of RFC 5880): layout, bit accessors, construction and
    validation. Multi-byte fields hold host values; byte order is not modelled. */
module Packet {
  import opened Basics

  datatype State = AdminDown | Down | Init | Up

  /** Diagnostic codes are five bits wide. */
  type Diag = d: bv8 | d < 32

  const DIAG_NOTHING: Diag := 0
  const DIAG_TIME_EXPIRED: Diag := 1
  const DIAG_DOWN: Diag := 3
  const DIAG_ADMIN_DOWN: Diag := 7

  const BIT_MULTI: bv8 := 1
  const BIT_DEMAND: bv8 := 2
  const BIT_AUTH: bv8 := 4
  const BIT_CPI: bv8 := 8
  const BIT_FINAL: bv8 := 16
  const BIT_POLL: bv8 := 32

  const PACKET_SIZE: u8 := 24

  datatype Timing = Timing(mult: u8, minTx: u32, minRx: u32)
  datatype EndState = EndState(state: State, diag: Diag)
  datatype Flags = Flags(multihop: bool, cpi: bool, passive: bool, shutdown: bool)

  /** What one end of a session is known to be: `bbdd_d_session_data`. */
  datatype EndData = EndData(flags: Flags, discr: u32, timing: Timing, st: EndState)

  datatype Pkt = Pkt(versionDiag: bv8, stateBits: bv8, mult: u8, length: u8,
                     myDisc: u32, yourDisc: u32, desiredTx: u32, requiredRx: u32, requiredEchoRx: u32)

  function StateCode(s: State): bv8 {
    match s
    case AdminDown => 0
    case Down => 1
    case Init => 2
    case Up => 3
  }

  function StateOf(code: bv8): State {
    if code == 0 then AdminDown else if code == 1 then Down else if code == 2 then Init else Up
  }

  function VersionField(p: Pkt): bv8 { p.versionDiag >> 5 }
  function DiagField(p: Pkt): (d: Diag) { p.versionDiag & 0x1f }
  function StateField(p: Pkt): State { StateOf(p.stateBits >> 6) }
  function Bits(p: Pkt): bv8 { p.stateBits & 0x3f }
  predicate HasBit(bits: bv8, bit: bv8) { bits & bit != 0 }

  function MakePacket(myDisc: u32, timing: Timing, st: EndState, yourDisc: u32, flags: bv8): Pkt {
    Pkt((1 << 5) | st.diag, (StateCode(st.state) << 6) | flags, timing.mult, PACKET_SIZE,
        myDisc, yourDisc, timing.minTx, timing.minRx, 0)
  }

  datatype Reject = Unsupported | MultipointNot0 | DetectMult0 | MyDiscr0 | YourDiscr0NotDown

  datatype Parsed = Parsed(remote: EndData, poll: bool, final: bool)

  /** What a valid packet says about its sender, over what was known before. */
  function RemoteFrom(p: Pkt, remote: EndData): EndData {
    EndData(remote.flags.(cpi := HasBit(Bits(p), BIT_CPI)), p.myDisc,
            Timing(p.mult, p.desiredTx, p.requiredRx), EndState(StateField(p), DiagField(p)))
  }

  /** Version and length have been checked by the kernel program before this runs. */
  function ParsePacket(p: Pkt, remote: EndData): Result<Parsed, Reject> {
    var bits := Bits(p);
    if p.requiredEchoRx != 0 || HasBit(bits, BIT_AUTH | BIT_DEMAND) then Err(Unsupported)
    else if HasBit(bits, BIT_MULTI) then Err(MultipointNot0)
    else if p.mult == 0 then Err(DetectMult0)
    else if p.myDisc == 0 then Err(MyDiscr0)
    else if p.yourDisc == 0 && StateField(p) != AdminDown && StateField(p) != Down then Err(YourDiscr0NotDown)
    else Ok(Parsed(RemoteFrom(p, remote), HasBit(bits, BIT_POLL), HasBit(bits, BIT_FINAL)))
  }

  /** The bits a packet carries, given the three that this implementation uses. */
  function FlagBits(poll: bool, final: bool, cpi: bool): (b: bv8)
    ensures b < 64
  {
    (if poll then BIT_POLL else 0) | (if final then BIT_FINAL else 0) | (if cpi then BIT_CPI else 0)
  }

  lemma FlagBitsRead(poll: bool, final: bool, cpi: bool)
    ensures var b := FlagBits(poll, final, cpi);
            HasBit(b, BIT_POLL) == poll && HasBit(b, BIT_FINAL) == final && HasBit(b, BIT_CPI) == cpi
            && !HasBit(b, BIT_AUTH | BIT_DEMAND) && !HasBit(b, BIT_MULTI)
  {
  }

  lemma FlagBitsBuild(bits: bv8)
    requires bits < 64 && !HasBit(bits, BIT_AUTH | BIT_DEMAND) && !HasBit(bits, BIT_MULTI)
    ensures bits == FlagBits(HasBit(bits, BIT_POLL), HasBit(bits, BIT_FINAL), HasBit(bits, BIT_CPI))
  {
  }

  lemma FieldsOfByte(state: State, diag: Diag, flags: bv8)
    requires flags < 64
    ensures (((1 as bv8) << 5) | diag) >> 5 == 1
    ensures (((1 as bv8) << 5) | diag) & 0x1f == diag
    ensures StateOf(((StateCode(state) << 6) | flags) >> 6) == state
    ensures ((StateCode(state) << 6) | flags) & 0x3f == flags
  {
  }

  lemma ByteOfFields(versionDiag: bv8, stateBits: bv8)
    requires versionDiag >> 5 == 1
    ensures versionDiag == ((1 as bv8) << 5) | (versionDiag & 0x1f)
    ensures stateBits == (StateCode(StateOf(stateBits >> 6)) << 6) | (stateBits & 0x3f)
  {
  }

  /** Reading back what was written. */
  lemma MakeThenRead(myDisc: u32, timing: Timing, st: EndState, yourDisc: u32, flags: bv8)
    requires flags < 64
    ensures var p := MakePacket(myDisc, timing, st, yourDisc, flags);
            VersionField(p) == 1 && p.length == PACKET_SIZE && DiagField(p) == st.diag
            && StateField(p) == st.state && Bits(p) == flags
  {
    FieldsOfByte(st.state, st.diag, flags);
  }

  /** The first two bytes as they stand on the wire (section 4.1 of RFC 5880): version and diagnostic, then
      state and flags. */
  lemma FirstBytes(myDisc: u32, timing: Timing, st: EndState, yourDisc: u32, poll: bool, final: bool, cpi: bool)
    ensures var p := MakePacket(myDisc, timing, st, yourDisc, FlagBits(poll, final, cpi));
            && p.versionDiag == 32 + st.diag
            && p.stateBits == (match st.state case AdminDown => 0 case Down => 64 case Init => 128 case Up => 192)
                              + (if poll then 32 else 0) + (if final then 16 else 0) + (if cpi then 8 else 0)
  {
  }

  /** Every packet the parser accepts is the packet made from what the parser learnt: parsing
      loses nothing, so comparing packets is comparing what they say. */
  lemma ParseThenMake(p: Pkt, remote: EndData)
    requires VersionField(p) == 1 && p.length == PACKET_SIZE && ParsePacket(p, remote).Ok?
    ensures var r := ParsePacket(p, remote).value;
            p == MakePacket(r.remote.discr, r.remote.timing, r.remote.st, p.yourDisc,
                            FlagBits(r.poll, r.final, r.remote.flags.cpi))
  {
    ByteOfFields(p.versionDiag, p.stateBits);
    FlagBitsBuild(Bits(p));
  }

  /** Packets made for a live end parse back to that end. */
  lemma MakeThenParse(e: EndData, yourDisc: u32, poll: bool, final: bool)
    requires e.discr != 0 && e.timing.mult != 0
    requires yourDisc != 0 || e.st.state.Down? || e.st.state.AdminDown?
    ensures var p := MakePacket(e.discr, e.timing, e.st, yourDisc, FlagBits(poll, final, e.flags.cpi));
            ParsePacket(p, e) == Ok(Parsed(e, poll, final))
  {
    MakeThenRead(e.discr, e.timing, e.st, yourDisc, FlagBits(poll, final, e.flags.cpi));
    FlagBitsRead(poll, final, e.flags.cpi);
  }
}
