/** One BFD session: the daemon's record, the dataplane's record, the kernel's copy, and the two
    state machines that move them (sections 6.2, 6.5, 6.8.3, 6.8.6 and 6.8.16 of RFC 5880). */
module Sessions {
  import opened Basics
  import opened Packet
  import opened Intervals

  datatype Family = Unspec | Inet | Inet6

  datatype SockAddr = SockAddr(family: Family, addr: seq<u8>, port: u16)

  /** `bbdd_d_session`: what the user configured and what the two ends are in. */
  datatype DSess = DSess(src: SockAddr, dst: SockAddr, name: string, holdTimeUs: u32, ttl: u8,
                         ifindex: u32, vrfIfindex: u32, userRemoteDiscr: u32, vrfTable: u32,
                         local: EndData, remote: EndData)

  datatype BState = OnHold | Stable | AwaitFinal | AwaitNonFinal | ShuttingDown

  datatype BData = BData(timing: Timing, shutdown: bool)

  /** `bbdd_bpf_session`. `shwait` and `hold` say whether the pointer to the timer is set, in which
      case that timer is in the timer list; `orphans` counts the session's shutdown timers that are
      in the list without the pointer leading to them. The generation is unbounded: wrap-around is
      not modelled. */
  datatype BSess = BSess(genId: nat, bstate: BState, eff: BData, dfr: BData, qd: bool,
                         shwait: bool, orphans: nat, hold: bool, period: u32)

  datatype Fib = Fib(family: Family, src: seq<u8>, dst: seq<u8>, sport: u16, dport: u16,
                     ifindex: u32, tbid: u32, mark: nat,
                     direct: bool, output: bool, pickSrc: bool)

  /** `bbdd_prog_session_config`: what the kernel program works from. */
  datatype Config = Config(fib: Fib, range: Range, detect: u32, gen: nat, adminDown: bool,
                           rearm: bool, ttl: u8, rxExpect: Pkt)

  /** The kernel's side of a session: its configuration, and whether its detection timer runs. */
  datatype Kern = Kern(conf: Config, timer: bool)

  /** A session with four history variables: how many packets passed the parser, whether one of
      them had a sender in Init or Up, how many packets the dataplane had logged at its birth, and
      whether its discriminator then had an expiry waiting in the ring buffer. */
  datatype Sess = Sess(d: DSess, b: BSess, k: Kern, accepted: nat, heardUp: bool, born: nat, stale: bool)

  // ---- Well-formedness ----

  predicate GoodTiming(t: Timing) {
    t.mult != 0 && t.minTx != 0 && t.minRx != 0
  }

  /** What validation of the configuration guarantees of every live session. */
  predicate WellFormed(d: DSess) {
    && d.local.discr != 0
    && GoodTiming(d.local.timing)
    && d.dst.family != Unspec
    && (d.src.family == Unspec || d.src.family == d.dst.family)
  }

  // ---- Selectors ----

  function UserData(d: DSess): BData {
    BData(d.local.timing, d.local.flags.shutdown)
  }

  /** The configuration a change is compared with, and the one injected packets carry. */
  function Current(b: BSess): BData {
    if b.bstate.Stable? then b.eff else b.dfr
  }

  function CpiBit(e: EndData): bv8 {
    if e.flags.cpi then BIT_CPI else 0
  }

  function ExpectFlags(d: DSess, b: BSess): bv8 {
    (if b.bstate.AwaitNonFinal? then BIT_FINAL else 0) | CpiBit(d.remote)
  }

  function InjectFlags(d: DSess, b: BSess): bv8
    requires !b.bstate.OnHold?
  {
    (if b.bstate.AwaitFinal? then BIT_POLL else 0) | CpiBit(d.local)
  }

  function PacketWith(d: DSess, b: BSess, flags: bv8): Pkt
    requires !b.bstate.OnHold? && Current(b).timing.mult != 0
  {
    MakePacket(d.local.discr, Current(b).timing, d.local.st, d.remote.discr, flags)
  }

  predicate IsDown(d: DSess) { d.local.st.state.Down? }
  predicate IsAdminDown(d: DSess) { d.local.st.state.AdminDown? }

  predicate ShouldInject(d: DSess, b: BSess) {
    !(IsAdminDown(d) && b.bstate.Stable?) && !(d.remote.discr == 0 && d.local.flags.passive)
  }

  function ExpectedPacket(d: DSess, b: BSess): Pkt {
    MakePacket(d.remote.discr, d.remote.timing, d.remote.st, d.local.discr, ExpectFlags(d, b))
  }

  /** `bbdd_bpf_session_conf_update`. The family it uses is the source's, or the destination's when
      the source is not set; a mismatch is an error there, and excluded here. */
  function MakeConfig(d: DSess, b: BSess, ifindex: u32, tbid: u32, direct: bool, output: bool, pickSrc: bool,
                      range: Range, detect: u32, rearm: bool): Config
    requires d.dst.family != Unspec && (d.src.family == Unspec || d.src.family == d.dst.family)
  {
    Config(Fib(d.dst.family, d.src.addr, d.dst.addr, d.src.port, d.dst.port, ifindex, tbid, b.genId,
               direct, output, pickSrc),
           range, detect, b.genId, IsAdminDown(d), rearm, d.ttl, ExpectedPacket(d, b))
  }

  /** The kernel configuration that belongs to a session past its hold time. */
  function Project(veth: u32, d: DSess, b: BSess): Config
    requires WellFormed(d) && d.remote.timing.mult != 0
  {
    MakeConfig(d, b, if d.ifindex != 0 then d.ifindex else veth, d.vrfTable,
               d.vrfTable != 0, d.ifindex != 0, d.src.family == Unspec,
               SendRange(IsDown(d), b.eff.timing.minTx, d.remote.timing.minRx, b.eff.timing.mult),
               DetectTime(b.eff.timing.minRx, d.remote.timing.minTx, d.remote.timing.mult),
               !IsDown(d) && !IsAdminDown(d))
  }

  /** The configuration of a session still on hold. */
  function ShellConfig(d: DSess, b: BSess): Config
    requires WellFormed(d)
  {
    MakeConfig(d, b, 0, 0, false, false, false, Range(0, 0), 0, false)
  }

  // ---- User updates: bbdd_bpf_handle_session_update ----

  predicate TimingDiffers(u: BData, c: BData) {
    u.timing.minTx != c.timing.minTx || u.timing.minRx != c.timing.minRx
  }

  /** A change an Up session must not adopt before its poll is answered. */
  predicate MustHold(d: DSess, c: BData) {
    d.local.st.state.Up? && (d.local.timing.minTx > c.timing.minTx || d.local.timing.minRx < c.timing.minRx)
  }

  datatype Pair = Pair(d: DSess, b: BSess)

  /** Turning the shutdown flag on: from a settled state the session goes AdminDown and waits, from
      a poll it queues the change. A pointer that was set is overwritten. */
  function StartShutdown(d: DSess, b: BSess): Pair
    requires !b.bstate.OnHold?
  {
    if b.bstate.AwaitFinal? || b.bstate.AwaitNonFinal? then Pair(d, b.(qd := true))
    else
      Pair(ShutDown(d),
           b.(dfr := UserData(d), bstate := ShuttingDown, shwait := true,
              orphans := b.orphans + if b.shwait then 1 else 0))
  }

  function ShutDown(d: DSess): DSess {
    d.(local := d.local.(st := EndState(AdminDown, DIAG_ADMIN_DOWN)),
       remote := d.remote.(st := EndState(Down, DIAG_DOWN)))
  }

  /** Any other change, given the configuration `c` it is compared with. */
  function ChangeTiming(d: DSess, b: BSess, c: BData): Pair
    requires !b.bstate.OnHold? && c == Current(b)
  {
    var u := UserData(d);
    var enable := c.shutdown && !u.shutdown;
    var poll := TimingDiffers(u, c);
    var now := !MustHold(d, c);
    match b.bstate
    case AwaitFinal | AwaitNonFinal =>
      Pair(d, b.(dfr := if now then u else b.dfr, qd := b.qd || poll || enable))
    case Stable =>
      Pair(if enable then Reopened(d) else d,
           b.(eff := if now then u else b.eff,
              dfr := if poll then u else b.dfr,
              bstate := if poll then AwaitFinal else Stable))
    case ShuttingDown =>
      Pair(if enable then Reopened(d) else d,
           b.(dfr := if now || poll then u else b.dfr,
              shwait := b.shwait && !enable,
              bstate := if poll || enable then AwaitFinal else ShuttingDown))
  }

  function Reopened(d: DSess): DSess {
    d.(local := d.local.(st := EndState(Down, DIAG_DOWN)))
  }

  function HandleUpdate(d: DSess, b: BSess): Pair
    requires !b.bstate.OnHold?
  {
    if d.local.flags.shutdown && !Current(b).shutdown then StartShutdown(d, b)
    else ChangeTiming(d, b, Current(b))
  }

  // ---- The closing of a poll: bbdd_bpf_handle_packet_got_non_final, up to its last update ----

  function Settle(d: DSess, b: BSess): Pair {
    var b1 := b.(eff := b.dfr, bstate := Stable);
    if b.qd then HandleUpdate(d, b1.(qd := false)) else Pair(d, b1)
  }

  // ---- The BFD state machine: section 6.8.6 of RFC 5880 ----

  function NextLocal(local: EndState, remote: State): EndState {
    if remote.AdminDown? then
      if local.state.Down? then local else EndState(Down, DIAG_DOWN)
    else
      match local.state
      case AdminDown => local
      case Down =>
        if remote.Down? then EndState(Init, DIAG_NOTHING)
        else if remote.Init? then EndState(Up, DIAG_NOTHING)
        else local
      case Init => if remote.Init? || remote.Up? then EndState(Up, DIAG_NOTHING) else local
      case Up => if remote.Down? then EndState(Down, DIAG_DOWN) else local
  }

  /** The session's record after an accepted packet. */
  function Received(d: DSess, remote: EndData): DSess {
    d.(remote := remote, local := d.local.(st := NextLocal(d.local.st, remote.st.state)))
  }

  /** The session's record after its detection time ran out. */
  function Lapsed(d: DSess): DSess {
    d.(local := d.local.(st := EndState(Down, DIAG_TIME_EXPIRED)),
       remote := d.remote.(st := EndState(Down, DIAG_TIME_EXPIRED), discr := d.userRemoteDiscr))
  }

  predicate IsInitOrUp(s: State) { s.Init? || s.Up? }
}
