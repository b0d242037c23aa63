/** What a session past its hold time has in the kernel and on the wire, field by field. */
module Published {
  import opened Basics
  import opened Packet
  import opened Intervals
  import opened Sessions
  import opened Machine
  import opened Nodes
  import opened Invariants
  import opened Runs
  import opened Conduct

  // ---- The configuration ----

  /** Section 6.8.4 of RFC 5880: the remote's multiplier times the larger of what this end requires and
      what the remote sends, saturated. */
  predicate Detects(detect: u32, d: DSess, b: BSess) {
    var agreed := if b.eff.timing.minRx > d.remote.timing.minTx then b.eff.timing.minRx else d.remote.timing.minTx;
    detect == if agreed * d.remote.timing.mult < 0x1_0000_0000 then agreed * d.remote.timing.mult else 0xFFFF_FFFF
  }

  /** The larger of what this end wants to send and what the remote takes. */
  function Interval(d: DSess, b: BSess): u32 {
    if b.eff.timing.minTx > d.remote.timing.minRx then b.eff.timing.minTx else d.remote.timing.minRx
  }

  /** Section 6.8.7 of RFC 5880: a second when Down, and otherwise the interval less a quarter at most, and
      less a tenth at least with a multiplier of one, as long as the percentage fits 32 bits. */
  predicate Paces(range: Range, d: DSess, b: BSess) {
    if d.local.st.state == Down then forall random: u32 :: SendDelay(range, random) == 1_000_000
    else
      var most := if b.eff.timing.mult == 1 then 90 else 100;
      Interval(d, b) * (if b.eff.timing.mult == 1 then 90 else 75) < 0x1_0000_0000 ==>
        forall random: u32 ::
          Interval(d, b) * 75 / 100 <= SendDelay(range, random) <= Interval(d, b) * most / 100
  }

  /** Where its packets go. */
  predicate Leads(f: Fib, veth: u32, d: DSess, b: BSess) {
    && f.family == d.dst.family && f.src == d.src.addr && f.dst == d.dst.addr
    && f.sport == d.src.port && f.dport == d.dst.port
    && f.tbid == d.vrfTable && f.ifindex == (if d.ifindex == 0 then veth else d.ifindex) && f.mark == b.genId
    && (f.direct <==> d.vrfTable != 0) && (f.output <==> d.ifindex != 0) && (f.pickSrc <==> d.src.family == Unspec)
  }

  /** The packet of a remote that does what it did: no Poll, and a Final exactly while one is waited out. */
  predicate Expectation(p: Pkt, d: DSess, b: BSess) {
    && VersionField(p) == 1 && p.length == 24 && p.requiredEchoRx == 0
    && p.myDisc == d.remote.discr && p.yourDisc == d.local.discr
    && StateField(p) == d.remote.st.state && DiagField(p) == d.remote.st.diag
    && p.mult == d.remote.timing.mult && p.desiredTx == d.remote.timing.minTx && p.requiredRx == d.remote.timing.minRx
    && !HasBit(Bits(p), BIT_POLL) && (HasBit(Bits(p), BIT_FINAL) <==> b.bstate == AwaitNonFinal)
    && (HasBit(Bits(p), BIT_CPI) <==> d.remote.flags.cpi)
  }

  predicate Mirrors(c: Config, veth: u32, d: DSess, b: BSess) {
    && Detects(c.detect, d, b) && Paces(c.range, d, b) && Leads(c.fib, veth, d, b) && Expectation(c.rxExpect, d, b)
    && c.gen == b.genId && c.ttl == d.ttl
    && (c.adminDown <==> d.local.st.state == AdminDown)
    && (c.rearm <==> d.local.st.state == Init || d.local.st.state == Up)
  }

  lemma PacesRange(d: DSess, b: BSess)
    ensures Paces(SendRange(IsDown(d), b.eff.timing.minTx, d.remote.timing.minRx, b.eff.timing.mult), d, b)
  {
    if IsDown(d) {
      forall random: u32
        ensures SendDelay(SendRange(true, b.eff.timing.minTx, d.remote.timing.minRx, b.eff.timing.mult), random)
             == 1_000_000
      {
        DownIsSlow(b.eff.timing.minTx, d.remote.timing.minRx, b.eff.timing.mult, random);
      }
    } else {
      JitterExact(b.eff.timing.minTx, d.remote.timing.minRx, b.eff.timing.mult);
      WholeOf(Interval(d, b));
    }
  }

  lemma WholeOf(x: nat)
    ensures x * 100 / 100 == x
  {
  }

  lemma ExpectationReads(d: DSess, b: BSess)
    ensures Expectation(ExpectedPacket(d, b), d, b)
  {
    var final := b.bstate == AwaitNonFinal;
    var flags := ExpectFlags(d, b);
    assert flags == FlagBits(false, final, d.remote.flags.cpi);
    FlagBitsRead(false, final, d.remote.flags.cpi);
    MakeThenRead(d.remote.discr, d.remote.timing, d.remote.st, d.local.discr, flags);
  }

  lemma ProjectMirrors(veth: u32, d: DSess, b: BSess)
    requires WellFormed(d) && d.remote.timing.mult != 0
    ensures Mirrors(Project(veth, d, b), veth, d, b)
  {
    PacesRange(d, b);
    ExpectationReads(d, b);
  }

  /** In every run, a session past hold that waits for no update has in the kernel exactly what it is. */
  lemma KernelHas(n: Node, k: u32)
    requires Reached(n) && k in n.sess && n.sess[k].b.bstate != OnHold && !HasSlot(n.tx.periodics, k)
    ensures Mirrors(n.sess[k].k.conf, n.tx.veth, n.sess[k].d, n.sess[k].b)
  {
    ReachedInv(n);
    assert InOrder(n, k);
    ProjectMirrors(n.tx.veth, n.sess[k].d, n.sess[k].b);
  }

  /** In every run, an expiry that finds a session in Init or Up leaves it Down in the kernel too: the timer
      is not to be started and the pace is slow, unless its update has to wait. */
  lemma TimedOutSlows(n: Node, k: u32)
    requires Reached(n) && Enabled(n, TimedOut(k)) && !Stops(n, TimedOut(k))
    requires IsInitOrUp(n.sess[k].d.local.st.state)
    requires !(n.sess[k].b.qd && n.sess[k].d.local.flags.shutdown != n.sess[k].b.dfr.shutdown)
    ensures Safe(n, TimedOut(k)) && k in Step(n, TimedOut(k)).sess
    ensures var m := Step(n, TimedOut(k));
            HasSlot(m.tx.periodics, k)
            || (!m.sess[k].k.conf.rearm && forall random: u32 :: SendDelay(m.sess[k].k.conf.range, random) == 1_000_000)
  {
    TimedOutMeans(n, k);
    Advances(n, TimedOut(k));
    var m := Step(n, TimedOut(k));
    if !HasSlot(m.tx.periodics, k) {
      PastHold(n, k);
      KernelHas(m, k);
    }
  }

  lemma PastHold(n: Node, k: u32)
    requires Reached(n) && Enabled(n, TimedOut(k)) && !Stops(n, TimedOut(k))
    ensures Safe(n, TimedOut(k)) && Step(n, TimedOut(k)).sess[k].b.bstate != OnHold
  {
    ReachedInv(n);
    assert InOrder(n, k);
    EntryAlive(n, TimedOut(k));
    HandledKeeps(n, TimedOut(k));
  }

  /** A session just added is on hold, with the record it was added with; the kernel has its addresses and
      what it would expect, and neither a pace nor a timer. */
  lemma AddedHas(n: Node, d: DSess)
    requires Enabled(n, Add(d))
    ensures var k := d.local.discr;
            && k in Step(n, Add(d)).sess
            && var s := Step(n, Add(d)).sess[k];
               && s.d == d && s.b.bstate == OnHold && s.b.hold && s.accepted == 0 && !s.heardUp && !s.k.timer
               && s.k.conf.gen == 0 && !s.k.conf.rearm && !s.k.conf.adminDown && s.k.conf.ttl == d.ttl
               && s.k.conf.range == Range(0, 0) && s.k.conf.detect == 0 && Expectation(s.k.conf.rxExpect, d, s.b)
               && s.k.conf.fib == Fib(d.dst.family, d.src.addr, d.dst.addr, d.src.port, d.dst.port, 0, 0, 0,
                                      false, false, false)
  {
    var s := Step(n, Add(d)).sess[d.local.discr];
    ExpectationReads(d, s.b);
  }

  // ---- The looping packet ----

  /** A session falls silent when it is AdminDown and settled, and when it is passive and knows no remote. */
  predicate Speaks(d: DSess, b: BSess) {
    !(d.local.st.state == AdminDown && b.bstate == Stable) && !(d.local.flags.passive && d.remote.discr == 0)
  }

  /** The packet of a session as it is: it polls exactly while a Final is awaited, and then with the data
      being polled. */
  predicate Carries(l: Loop, s: Sess) {
    var t := if s.b.bstate == Stable then s.b.eff.timing else s.b.dfr.timing;
    var p := l.pkt;
    && l.gen == s.k.conf.gen && l.discr == p.myDisc == s.d.local.discr && p.yourDisc == s.d.remote.discr
    && VersionField(p) == 1 && p.length == 24 && p.requiredEchoRx == 0
    && StateField(p) == s.d.local.st.state && DiagField(p) == s.d.local.st.diag
    && p.mult == t.mult && p.desiredTx == t.minTx && p.requiredRx == t.minRx
    && (HasBit(Bits(p), BIT_POLL) <==> s.b.bstate == AwaitFinal) && !HasBit(Bits(p), BIT_FINAL)
    && (HasBit(Bits(p), BIT_CPI) <==> s.d.local.flags.cpi)
  }

  lemma SpinnerCarries(s: Sess)
    requires Ready(s) && s.k.conf.gen == s.b.genId
    ensures Carries(Spinner(s), s)
  {
    var poll := s.b.bstate == AwaitFinal;
    var flags := InjectFlags(s.d, s.b);
    assert flags == FlagBits(poll, false, s.d.local.flags.cpi);
    FlagBitsRead(poll, false, s.d.local.flags.cpi);
    MakeThenRead(s.d.local.discr, Current(s.b).timing, s.d.local.st, s.d.remote.discr, flags);
  }

  /** In every run, of a session past hold that waits for no update exactly one packet of its generation
      loops when it speaks, and it says what the session is; and none when it does not. */
  lemma WireHas(n: Node, k: u32)
    requires Reached(n) && k in n.sess && n.sess[k].b.bstate != OnHold && !HasSlot(n.tx.periodics, k)
    ensures var s, flight := n.sess[k], n.tx.flight;
            && (Speaks(s.d, s.b) ==> exists i :: 0 <= i < |flight| && Carries(flight[i], s))
            && (forall i, j :: 0 <= i < j < |flight| ==>
                  !(Live(flight[i], k, s.k.conf.gen) && Live(flight[j], k, s.k.conf.gen)))
            && (!Speaks(s.d, s.b) ==> forall i :: 0 <= i < |flight| ==> !Live(flight[i], k, s.k.conf.gen))
  {
    ReachedInv(n);
    assert InOrder(n, k);
    var s, flight := n.sess[k], n.tx.flight;
    SpinnerCarries(s);
    if Speaks(s.d, s.b) {
      var i :| 0 <= i < |flight| && flight[i] == Spinner(s);
      assert Carries(flight[i], s);
    }
  }
}
