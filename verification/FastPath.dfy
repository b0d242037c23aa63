/** The kernel's receive fast path: it compares each packet with the one it expects and keeps those
    that match to itself. When is that as good as handing them to userspace? */
module FastPath {
  import opened Basics
  import opened Packet
  import opened Sessions
  import opened Machine
  import opened Nodes
  import opened Invariants
  import opened Runs

  datatype Verdict = Discard | Fast | Slow

  /** `bbdd_recv`, for a packet whose Your Discriminator names the session. */
  function KernelReceive(conf: Config, p: Pkt, ttl: u8): Verdict {
    if VersionField(p) != 1 || p.length != PACKET_SIZE then Discard
    else if conf.adminDown || conf.ttl > ttl then Discard
    else if p != conf.rxExpect then Slow
    else Fast
  }

  /** What the fast path does to the session: it restarts the detection timer. */
  function FastReceive(s: Sess): Sess {
    s.(k := KernelRearm(s.k))
  }

  lemma ExpectedAs(d: DSess, b: BSess)
    ensures ExpectedPacket(d, b)
         == MakePacket(d.remote.discr, d.remote.timing, d.remote.st, d.local.discr,
                       FlagBits(false, b.bstate.AwaitNonFinal?, d.remote.flags.cpi))
  {
  }

  /** The comparison of two 24-byte blocks decides what it is meant to decide: a packet matches
      exactly when it is valid, repeats everything that is known of the remote, does not poll, and
      carries the Final bit just when a Final is what is being waited out. */
  lemma MatchMeansRepeats(d: DSess, b: BSess, p: Pkt)
    requires VersionField(p) == 1 && p.length == PACKET_SIZE && p.yourDisc == d.local.discr != 0
    requires d.remote.discr != 0 && d.remote.timing.mult != 0
    ensures p == ExpectedPacket(d, b)
       <==> ParsePacket(p, d.remote) == Ok(Parsed(d.remote, false, b.bstate.AwaitNonFinal?))
  {
    ExpectedAs(d, b);
    MakeThenParse(d.remote, d.local.discr, false, b.bstate.AwaitNonFinal?);
    if ParsePacket(p, d.remote).Ok? {
      ParseThenMake(p, d.remote);
    }
  }

  /** The kernel has a copy of the session's present state and lets the expected packet through. */
  predicate InStep(cx: Cx, ttl: u8) {
    && Good(cx) && Ready(cx.s) && Hears(cx.s, ttl)
    && cx.s.k.conf == Project(cx.tx.veth, cx.s.d, cx.s.b)
    && cx.s.d.remote.discr != 0
  }

  /** The remote repeats a state from which the local end still has a step to make. */
  predicate StepPending(d: DSess) {
    IsDown(d) && (d.remote.st.state.Down? || d.remote.st.state.Init?)
  }

  /** The two paths come to the same: userspace would change nothing, answer nothing and queue
      nothing, and would restart the timer by sending itself a packet. */
  ghost predicate Agree(cx: Cx, p: Pkt, ttl: u8)
    requires Ready(cx.s)
  {
    HandlePacket(cx, p, ttl) == Cx(Count(FastReceive(cx.s), cx.s.d.remote.st.state), SendRearm(cx.tx))
  }

  lemma ExpectedIsFast(cx: Cx, ttl: u8)
    requires InStep(cx, ttl)
    ensures var p := cx.s.k.conf.rxExpect;
            KernelReceive(cx.s.k.conf, p, ttl) == Fast
            && ParsePacket(p, cx.s.d.remote) == Ok(Parsed(cx.s.d.remote, false, cx.s.b.bstate.AwaitNonFinal?))
  {
    var d, b := cx.s.d, cx.s.b;
    ExpectedAs(d, b);
    MakeThenRead(d.remote.discr, d.remote.timing, d.remote.st, d.local.discr,
                 FlagBits(false, b.bstate.AwaitNonFinal?, d.remote.flags.cpi));
    MatchMeansRepeats(d, b, ExpectedPacket(d, b));
  }

  /** For every session in step with the kernel, swallowing the expected packet is right exactly
      when the state machine has no step pending on it. */
  lemma FastPathExact(cx: Cx, ttl: u8)
    requires InStep(cx, ttl)
    ensures KernelReceive(cx.s.k.conf, cx.s.k.conf.rxExpect, ttl) == Fast
    ensures Agree(cx, cx.s.k.conf.rxExpect, ttl) <==> !StepPending(cx.s.d)
  {
    ExpectedIsFast(cx, ttl);
    var remote := cx.s.d.remote;
    AbsorbKeeps(cx, remote);
    if StepPending(cx.s.d) {
      PendingMoves(cx, ttl);
    } else {
      assert Received(cx.s.d, remote) == cx.s.d;
    }
  }

  /** Otherwise the slow path would have moved the session on, to Init or Up. */
  lemma PendingMoves(cx: Cx, ttl: u8)
    requires InStep(cx, ttl) && StepPending(cx.s.d)
    ensures IsInitOrUp(HandlePacket(cx, cx.s.k.conf.rxExpect, ttl).s.d.local.st.state)
  {
    ExpectedIsFast(cx, ttl);
    AbsorbKeeps(cx, cx.s.d.remote);
  }

  /** In every run, a session in Init or Up that knows its remote and is in step with the kernel
      loses nothing to the fast path. */
  lemma FastPathAgrees(ns: seq<Node>, es: seq<Event>, i: nat, k: u32, ttl: u8)
    requires IsRun(ns, es) && i < |ns| && k in ns[i].sess
    requires var s := ns[i].sess[k];
             && IsInitOrUp(s.d.local.st.state) && s.d.remote.discr != 0 && s.d.ttl <= ttl
             && WellFormed(s.d) && s.d.remote.timing.mult != 0
             && s.k.conf == Project(ns[i].tx.veth, s.d, s.b)
    ensures var cx := Cxt(ns[i], k);
            Ready(cx.s) && KernelReceive(cx.s.k.conf, cx.s.k.conf.rxExpect, ttl) == Fast
            && Agree(cx, cx.s.k.conf.rxExpect, ttl)
  {
    RunInv(ns, es, i);
    assert InOrder(ns[i], k);
    FastPathExact(Cxt(ns[i], k), ttl);
  }

  /** It can go wrong: give a session the remote's discriminator beforehand, and once its hold time
      is over the kernel swallows the very packet that should take it to Init. */
  lemma SwallowedAfterHold(d: DSess, tx: Tx, ttl: u8, stale: bool)
    requires Fresh(d) && d.remote.discr != 0 && d.ttl <= ttl
    requires Accounts(tx) && HasCapacity(tx)
    requires forall i :: 0 <= i < |tx.flight| ==> !Mine(tx.flight[i], d.local.discr)
    ensures var cx := HoldExpired(Cx(NewSess(d, |tx.log|, stale), tx));
            var p := cx.s.k.conf.rxExpect;
            && KernelReceive(cx.s.k.conf, p, ttl) == Fast
            && FastReceive(cx.s).d.local.st.state == Down
            && Ready(cx.s) && HandlePacket(cx, p, ttl).s.d.local.st.state == Init
  {
    var cx0 := Cx(NewSess(d, |tx.log|, stale), tx);
    assert Alive(cx0.s) && Settled(cx0.s, tx);
    HoldExpiredKeeps(cx0);
    var cx := HoldExpired(cx0);
    UpdateKeeps(cx0.(s := Released(cx0.s)));
    assert !Defers(cx0.(s := Released(cx0.s)));
    ExpectedIsFast(cx, ttl);
    AbsorbKeeps(cx, cx.s.d.remote);
  }
}
