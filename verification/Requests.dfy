/** Requests of the user and their validated, all-or-nothing application to a session's record. */
module Requests {
  import opened Basics
  import opened Packet
  import opened Sessions

  /** An address in a request: leave it, unset it, or give one. Parsing the text is done elsewhere
      and its result is carried along. */
  datatype AddrChange = KeepAddr | UnsetAddr | GiveAddr(v6: bool, parsed: Option<seq<u8>>)

  datatype NetifChange = KeepNetif | UnsetNetif | GiveNetif(ifindex: u32)

  /** `bbdd_c_session`: everything is optional. */
  datatype Change = Change(multihop: Option<bool>, cpi: Option<bool>, passive: Option<bool>, shutdown: Option<bool>,
                           name: Option<string>, discr: Option<u32>, remoteDiscr: Option<u32>,
                           minTx: Option<u32>, minRx: Option<u32>, mult: Option<u8>,
                           holdTimeUs: Option<u32>, ttl: Option<u8>,
                           src: AddrChange, dst: AddrChange,
                           netif: NetifChange, vrf: NetifChange, vrfTable: Option<u32>)

  /** Whether the kernel has such a VRF: interface and routing table, as far as they are given. */
  type VrfOracle = (Option<u32>, Option<u32>) -> bool

  /** Why a request is refused. */
  datatype Invalid = DiscrChange | NoDestination | FamilyMismatch | BadAddress | BadVrf | ZeroField

  const SINGLE_HOP_PORT: u16 := 3784
  const MULTI_HOP_PORT: u16 := 4784

  function Or<T>(o: Option<T>, keep: T): T {
    if o.Some? then o.value else keep
  }

  function FamilyOf(v6: bool): Family {
    if v6 then Inet6 else Inet
  }

  predicate Parses(c: AddrChange) {
    c.GiveAddr? ==> c.parsed.Some?
  }

  function NewAddr(c: AddrChange, keep: SockAddr): SockAddr
    requires Parses(c)
  {
    match c
    case KeepAddr => keep
    case UnsetAddr => SockAddr(Unspec, [], keep.port)
    case GiveAddr(v6, parsed) => SockAddr(FamilyOf(v6), parsed.value, keep.port)
  }

  function NewIfindex(c: NetifChange, keep: u32): u32 {
    match c
    case KeepNetif => keep
    case UnsetNetif => 0
    case GiveNetif(ifindex) => ifindex
  }

  function NonZero(x: u32): Option<u32> {
    if x == 0 then None else Some(x)
  }

  /** The VRF configuration to be: the present one with the request on top. */
  function VrfIfindex(d: DSess, c: Change): Option<u32> {
    match c.vrf
    case KeepNetif => NonZero(d.vrfIfindex)
    case UnsetNetif => None
    case GiveNetif(ifindex) => Some(ifindex)
  }

  function VrfTable(d: DSess, c: Change): Option<u32> {
    if c.vrfTable.Some? then c.vrfTable else NonZero(d.vrfTable)
  }

  /** The record with the request written over it: `__bbdd_d_session_apply_c`. */
  function Overwritten(d: DSess, c: Change): DSess
    requires Parses(c.src) && Parses(c.dst)
  {
    var flags := Flags(Or(c.multihop, d.local.flags.multihop), Or(c.cpi, d.local.flags.cpi),
                       Or(c.passive, d.local.flags.passive), Or(c.shutdown, d.local.flags.shutdown));
    var timing := Timing(Or(c.mult, d.local.timing.mult), Or(c.minTx, d.local.timing.minTx),
                         Or(c.minRx, d.local.timing.minRx));
    DSess(NewAddr(c.src, d.src),
          NewAddr(c.dst, d.dst).(port := if flags.multihop then MULTI_HOP_PORT else SINGLE_HOP_PORT),
          Or(c.name, d.name), Or(c.holdTimeUs, d.holdTimeUs), Or(c.ttl, d.ttl),
          NewIfindex(c.netif, d.ifindex), NewIfindex(c.vrf, d.vrfIfindex), Or(c.remoteDiscr, d.userRemoteDiscr),
          Or(c.vrfTable, if c.vrf.UnsetNetif? then 0 else d.vrfTable),
          EndData(flags, Or(c.discr, d.local.discr), timing, d.local.st),
          d.remote.(discr := Or(c.remoteDiscr, d.remote.discr)))
  }

  predicate ChangesDiscr(d: DSess, c: Change) {
    c.discr.Some? && d.local.discr != 0 && c.discr.value != d.local.discr
  }

  /** The request is good: it leaves the discriminator alone, its addresses are addresses, the kernel
      has the VRF, and what comes out is well-formed. */
  predicate Admissible(d: DSess, c: Change, vrfOk: VrfOracle) {
    && !ChangesDiscr(d, c)
    && Parses(c.src) && Parses(c.dst)
    && vrfOk(VrfIfindex(d, c), VrfTable(d, c))
    && WellFormed(Overwritten(d, c))
  }

  /** The session's record, whose fields a request overwrites. */
  class Record {
    var d: DSess

    constructor (d: DSess)
      ensures this.d == d
    {
      this.d := d;
    }

    /** `bbdd_d_session_apply_c`: check everything, then apply infallibly. It succeeds exactly when the
        request is good, and otherwise the record is as it was. */
    method Apply(c: Change, vrfOk: VrfOracle) returns (r: Result<bool, Invalid>)
      requires !c.dst.UnsetAddr?
      modifies this
      ensures r.Ok? <==> Admissible(old(d), c, vrfOk)
      ensures r.Ok? ==> d == Overwritten(old(d), c) && r.value == (d != old(d))
      ensures r.Err? ==> d == old(d)
    {
      var orig := d;
      if c.discr.Some? && d.local.discr != 0 && c.discr.value != d.local.discr {
        return Err(DiscrChange);
      }

      var newDst := if c.dst.GiveAddr? then FamilyOf(c.dst.v6) else d.dst.family;
      if newDst == Unspec {
        return Err(NoDestination);
      }
      var newSrc := if c.src.UnsetAddr? then Unspec else if c.src.GiveAddr? then FamilyOf(c.src.v6) else d.src.family;
      if newSrc != Unspec && newSrc != newDst {
        return Err(FamilyMismatch);
      }

      if (c.src.GiveAddr? && c.src.parsed.None?) || (c.dst.GiveAddr? && c.dst.parsed.None?) {
        return Err(BadAddress);
      }
      if !vrfOk(VrfIfindex(d, c), VrfTable(d, c)) {
        return Err(BadVrf);
      }

      if Or(c.discr, d.local.discr) == 0 || Or(c.minRx, d.local.timing.minRx) == 0
         || Or(c.minTx, d.local.timing.minTx) == 0 || Or(c.mult, d.local.timing.mult) == 0 {
        return Err(ZeroField);
      }

      Write(c);
      return Ok(d != orig);
    }

    /** `__bbdd_d_session_apply_c`, field by field. */
    method Write(c: Change)
      requires Parses(c.src) && Parses(c.dst)
      modifies this
      ensures d == Overwritten(old(d), c)
    {
      WriteFlags(c);
      if c.name.Some? {
        d := d.(name := c.name.value);
      }
      WriteAddrs(c);

      d := d.(ifindex := NewIfindex(c.netif, d.ifindex));
      if c.vrf.UnsetNetif? {
        d := d.(vrfIfindex := 0, vrfTable := 0);
      } else if c.vrf.GiveNetif? {
        d := d.(vrfIfindex := c.vrf.ifindex);
      }

      var timing := Timing(Or(c.mult, d.local.timing.mult), Or(c.minTx, d.local.timing.minTx),
                           Or(c.minRx, d.local.timing.minRx));
      d := d.(local := d.local.(discr := Or(c.discr, d.local.discr), timing := timing));
      d := d.(holdTimeUs := Or(c.holdTimeUs, d.holdTimeUs), ttl := Or(c.ttl, d.ttl));
      d := d.(vrfTable := Or(c.vrfTable, d.vrfTable));
      if c.remoteDiscr.Some? {
        d := d.(remote := d.remote.(discr := c.remoteDiscr.value), userRemoteDiscr := c.remoteDiscr.value);
      }
    }

    method WriteFlags(c: Change)
      modifies this
      ensures d == old(d).(local := old(d).local.(flags :=
                Flags(Or(c.multihop, old(d).local.flags.multihop), Or(c.cpi, old(d).local.flags.cpi),
                      Or(c.passive, old(d).local.flags.passive), Or(c.shutdown, old(d).local.flags.shutdown))))
    {
      var flags := d.local.flags;
      if c.multihop.Some? { flags := flags.(multihop := c.multihop.value); }
      if c.cpi.Some? { flags := flags.(cpi := c.cpi.value); }
      if c.passive.Some? { flags := flags.(passive := c.passive.value); }
      if c.shutdown.Some? { flags := flags.(shutdown := c.shutdown.value); }
      d := d.(local := d.local.(flags := flags));
    }

    /** The source port survives whatever happens to the address. */
    method WriteAddrs(c: Change)
      requires Parses(c.src) && Parses(c.dst)
      modifies this
      ensures d == old(d).(src := NewAddr(c.src, old(d).src),
                           dst := NewAddr(c.dst, old(d).dst).(port := if old(d).local.flags.multihop then MULTI_HOP_PORT
                                                                      else SINGLE_HOP_PORT))
    {
      var sport := d.src.port;
      if c.src.UnsetAddr? {
        d := d.(src := SockAddr(Unspec, [], 0));
      } else if c.src.GiveAddr? {
        d := d.(src := SockAddr(FamilyOf(c.src.v6), c.src.parsed.value, 0));
      }
      if c.dst.UnsetAddr? {
        d := d.(dst := SockAddr(Unspec, [], 0));
      } else if c.dst.GiveAddr? {
        d := d.(dst := SockAddr(FamilyOf(c.dst.v6), c.dst.parsed.value, 0));
      }
      d := d.(src := d.src.(port := sport));
      d := d.(dst := d.dst.(port := if d.local.flags.multihop then MULTI_HOP_PORT else SINGLE_HOP_PORT));
    }
  }

  /** A value is the one said, or else the one there was. */
  predicate SaidOr<T(==)>(said: Option<T>, before: T, after: T) {
    match said
    case None => after == before
    case Some(x) => after == x
  }

  predicate AddrSaid(said: AddrChange, before: SockAddr, after: SockAddr) {
    match said
    case KeepAddr => after.family == before.family && after.addr == before.addr
    case UnsetAddr => after.family == Unspec && after.addr == []
    case GiveAddr(v6, parsed) => after.family == (if v6 then Inet6 else Inet) && Some(after.addr) == parsed
  }

  predicate NetifSaid(said: NetifChange, before: u32, after: u32) {
    match said
    case KeepNetif => after == before
    case UnsetNetif => after == 0
    case GiveNetif(ifindex) => after == ifindex
  }

  /** A request writes what it says and nothing else: field by field, what is unsaid stays. The source port
      always does, the destination port goes with the hops, and unsetting the VRF unsets the table too,
      unless the request gives one. */
  lemma WritesWhatItSays(d: DSess, c: Change)
    requires Parses(c.src) && Parses(c.dst)
    ensures var e := Overwritten(d, c);
            && SaidOr(c.multihop, d.local.flags.multihop, e.local.flags.multihop)
            && SaidOr(c.cpi, d.local.flags.cpi, e.local.flags.cpi)
            && SaidOr(c.passive, d.local.flags.passive, e.local.flags.passive)
            && SaidOr(c.shutdown, d.local.flags.shutdown, e.local.flags.shutdown)
            && SaidOr(c.mult, d.local.timing.mult, e.local.timing.mult)
            && SaidOr(c.minTx, d.local.timing.minTx, e.local.timing.minTx)
            && SaidOr(c.minRx, d.local.timing.minRx, e.local.timing.minRx)
    ensures var e := Overwritten(d, c);
            && SaidOr(c.name, d.name, e.name) && SaidOr(c.discr, d.local.discr, e.local.discr)
            && SaidOr(c.holdTimeUs, d.holdTimeUs, e.holdTimeUs) && SaidOr(c.ttl, d.ttl, e.ttl)
            && SaidOr(c.remoteDiscr, d.remote.discr, e.remote.discr)
            && SaidOr(c.remoteDiscr, d.userRemoteDiscr, e.userRemoteDiscr)
            && e.local.st == d.local.st && e.remote.(discr := d.remote.discr) == d.remote
    ensures var e := Overwritten(d, c);
            && AddrSaid(c.src, d.src, e.src) && e.src.port == d.src.port
            && AddrSaid(c.dst, d.dst, e.dst) && e.dst.port == (if e.local.flags.multihop then 4784 else 3784)
            && NetifSaid(c.netif, d.ifindex, e.ifindex) && NetifSaid(c.vrf, d.vrfIfindex, e.vrfIfindex)
            && SaidOr(c.vrfTable, if c.vrf.UnsetNetif? then 0 else d.vrfTable, e.vrfTable)
  {
  }

  /** A request is admitted exactly when it does not change a discriminator, its addresses parse and are of
      one family with a destination among them, no interval, multiplier or discriminator comes out as
      zero, and the kernel has the VRF. */
  lemma AdmittedExactly(d: DSess, c: Change, vrfOk: VrfOracle)
    ensures Admissible(d, c, vrfOk) <==>
            && Parses(c.src) && Parses(c.dst) && vrfOk(VrfIfindex(d, c), VrfTable(d, c))
            && (c.discr.Some? && d.local.discr != 0 ==> c.discr.value == d.local.discr)
            && var e := Overwritten(d, c);
               && e.local.discr != 0 && e.local.timing.mult != 0
               && e.local.timing.minTx != 0 && e.local.timing.minRx != 0
               && e.dst.family != Unspec && (e.src.family == Unspec || e.src.family == e.dst.family)
  {
  }
}
