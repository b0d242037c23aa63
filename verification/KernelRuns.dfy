/** The kernel's part of a run is what the kernel programs do: each of the events of the run model that
    happen in the kernel, and each packet it takes from userspace, is one call of a program. */
module KernelRuns {
  import opened Basics
  import opened Packet
  import opened Sessions
  import opened Machine
  import opened Nodes
  import opened Invariants
  import opened Runs
  import opened FastPath
  import opened Kernel
  import opened Published

  /** The expiries among the notices in the ring buffer. */
  function Expiries(ring: seq<Notice>): multiset<u32> {
    if ring == [] then multiset{}
    else
      var last := ring[|ring| - 1];
      Expiries(ring[..|ring| - 1]) + if last.NoticeTimeout? then multiset{last.discr} else multiset{}
  }

  lemma ExpiriesGrow(ring: seq<Notice>, k: u32)
    ensures Expiries(ring + [NoticeTimeout(k)]) == Expiries(ring) + multiset{k}
  {
    assert (ring + [NoticeTimeout(k)])[..|ring|] == ring;
  }

  /** Other notices do not count. */
  lemma ExpiriesStay(ring: seq<Notice>, more: seq<Notice>)
    requires |more| <= 1 && forall i :: 0 <= i < |more| ==> !more[i].NoticeTimeout?
    ensures Expiries(ring + more) == Expiries(ring)
  {
    if more == [] {
      assert ring + more == ring;
    } else {
      assert (ring + more)[..|ring|] == ring;
    }
  }

  /** The map entries of a session are what the model says of it. */
  predicate ShowsSession(c: Config, d: Data, k: Kern) {
    c == k.conf && d.timer == k.timer
  }

  predicate ShowsAll(conf: Confs, data: Datas, sess: map<u32, Sess>) {
    && conf.Keys == data.Keys == sess.Keys
    && forall k :: k in sess ==> ShowsSession(conf[k], data[k], sess[k].k)
  }

  /** The kernel's memory is what the model says of it. */
  ghost predicate Shows(p: Program, n: Node)
    reads p
  {
    && ShowsAll(p.conf, p.data, n.sess) && p.veth == n.tx.veth
    && p.released == n.tx.released && Expiries(p.ring) == n.expired
  }

  /** Sending changes nothing of a session that the model knows of. */
  lemma TxShows(conf: Confs, data: Datas, sess: map<u32, Sess>, skb: Skb, e: Egress, veth: u32)
    requires ShowsAll(conf, data, sess)
    ensures ShowsAll(conf, AfterTx(conf, data, skb, e, veth), sess)
  {
  }

  lemma LoopsOn(n: Node, i: nat)
    requires Reached(n) && i < |n.tx.flight|
    ensures MayLoop(n.tx.flight[i])
  {
    ReachedInv(n);
  }

  /** A packet loops on exactly while it is of its session's present generation. */
  lemma PassIsCurrent(conf: Confs, data: Datas, n: Node, l: Loop, skb: Skb)
    requires ShowsAll(conf, data, n.sess) && MayLoop(l) && skb.bfd == Some(l.pkt) && skb.mark == l.gen
    ensures UpToDate(conf, data, skb) <==> !Retired(n, l)
    ensures !IsFinal(l.pkt)
  {
  }

  /** A looping packet comes round: it passes exactly while it is of its session's present generation,
      wherever its route leads, and is otherwise shot and released. */
  method Spins(p: Program, ghost n: Node, ghost i: nat, skb: Skb, e: Egress, random: u32, now: nat)
    returns (v: Action, due: Option<nat>)
    requires Reached(n) && Shows(p, n) && i < |n.tx.flight|
    requires skb.bfd == Some(n.tx.flight[i].pkt) && skb.mark == n.tx.flight[i].gen
    modifies p
    ensures Shows(p, Spun(n, i)) && (v == Pass <==> !Retired(n, n.tx.flight[i]))
  {
    LoopsOn(n, i);
    PassIsCurrent(p.conf, p.data, n, n.tx.flight[i], skb);
    TxShows(p.conf, p.data, n.sess, skb, e, p.veth);
    ExpiriesStay(p.ring, [NoticeNoNeighbour]);
    ExpiriesStay(p.ring, []);
    v, due := p.XmitTx(skb, e, random, now);
  }

  lemma FinalReads(s: Sess)
    requires Ready(s)
    ensures var l := LoopWith(s, BIT_FINAL); IsFinal(l.pkt) && l.pkt.myDisc == s.d.local.discr && l.gen == s.b.genId
  {
    MakeThenRead(s.d.local.discr, Current(s.b).timing, s.d.local.st, s.d.remote.discr, BIT_FINAL);
  }

  /** The Final of a session is always of its present generation. */
  lemma FinalIsCurrent(conf: Confs, data: Datas, n: Node, k: u32, skb: Skb)
    requires Reached(n) && ShowsAll(conf, data, n.sess) && k in n.sess && Ready(n.sess[k])
    requires skb.bfd == Some(LoopWith(n.sess[k], BIT_FINAL).pkt) && skb.mark == LoopWith(n.sess[k], BIT_FINAL).gen
    ensures UpToDate(conf, data, skb) && IsFinal(skb.bfd.value)
  {
    ReachedAlive(n, k);
    FinalReads(n.sess[k]);
    assert ShowsSession(conf[k], data[k], n.sess[k].k);
  }

  lemma FinalFate(p: Pkt, e: Egress, veth: u32)
    requires IsFinal(p)
    ensures Fate(p, e, veth) != Pass && (Fate(p, e, veth) == Shot <==> !Taken(e, veth))
  {
  }

  /** A Final is handed over: it is released in either case, and refused exactly when it neither leaves
      the host nor waits for a neighbour. */
  method SendsFinal(p: Program, ghost n: Node, ghost l: Loop, skb: Skb, e: Egress, random: u32, now: nat)
    returns (v: Action, due: Option<nat>)
    requires Shows(p, n) && UpToDate(p.conf, p.data, skb) && IsFinal(skb.bfd.value) && e == n.tx.egress(n.tx.tries)
    modifies p
    ensures Shows(p, n.(tx := SendFinal(n.tx, l))) && (v == Shot <==> !Taken(e, n.tx.veth))
  {
    TxShows(p.conf, p.data, n.sess, skb, e, p.veth);
    ExpiriesStay(p.ring, [NoticeNoNeighbour]);
    ExpiriesStay(p.ring, []);
    FinalFate(skb.bfd.value, e, p.veth);
    ghost var to := SendFinal(n.tx, l);
    assert to.released == n.tx.released + 1 && to.veth == n.tx.veth;
    v, due := p.XmitTx(skb, e, random, now);
  }

  /** A rearm packet is handed over, and the helpers work. */
  method SendsRearm(p: Program, ghost n: Node, ghost k: u32, skb: Skb) returns (v: Action)
    requires Shows(p, n) && k in n.sess && skb.bfd.Some? && skb.bfd.value.myDisc == k
    modifies p
    ensures var cx := InjectRearm(Cxt(n, k)); Shows(p, Put(n, k, cx)) && v == Stolen
  {
    v := p.XmitRearm(skb, true, true);
  }

  /** What the receive program does to an expected packet's session. */
  lemma RecvShows(conf: Confs, data: Datas, sess: map<u32, Sess>, k: u32, ttl: u8, len: nat)
    requires ShowsAll(conf, data, sess) && k in sess && k != 0 && conf[k].rxExpect.yourDisc == k
    requires KernelReceive(conf[k], conf[k].rxExpect, ttl) == Fast
    ensures var p := conf[k].rxExpect;
            && ShowsAll(conf, AfterRecv(conf, data, p, ttl, len, true, true), sess[k := FastReceive(sess[k])])
            && Told(conf, data, p, ttl) == []
  {
  }

  /** The packet a session expects arrives, and the helpers work. */
  method Expects(p: Program, ghost n: Node, k: u32, ttl: u8, len: nat) returns (v: Action)
    requires Shows(p, n) && k in n.sess && k != 0 && n.sess[k].k.conf.rxExpect.yourDisc == k
    requires KernelReceive(n.sess[k].k.conf, n.sess[k].k.conf.rxExpect, ttl) == Fast
    modifies p
    ensures Shows(p, n.(sess := n.sess[k := FastReceive(n.sess[k])])) && v == Shot
  {
    assert ShowsSession(p.conf[k], p.data[k], n.sess[k].k);
    RecvShows(p.conf, p.data, n.sess, k, ttl, len);
    ExpiriesStay(p.ring, []);
    v := p.Recv(Some(p.conf[k].rxExpect), ttl, len, true, true);
  }

  /** Any other packet leaves the model's kernel as it is, and reaches userspace exactly when it has no
      discriminator or its session hears it and expected another. */
  method Receives(p: Program, ghost n: Node, q: Pkt, ttl: u8, len: nat) returns (v: Action)
    requires Shows(p, n) && !Kept(p.conf, p.data, q, ttl)
    modifies p
    ensures Shows(p, n) && v == Shot
    ensures p.ring == old(p.ring) + Told(old(p.conf), old(p.data), q, ttl)
  {
    ExpiriesStay(p.ring, Told(p.conf, p.data, q, ttl));
    v := p.Recv(Some(q), ttl, len, true, true);
  }

  /** The detection timer goes off. */
  method Fires(p: Program, ghost n: Node, k: u32)
    requires Shows(p, n) && k in n.sess && n.sess[k].k.timer
    modifies p
    ensures Shows(p, Fired(n, k))
  {
    assert ShowsSession(p.conf[k], p.data[k], n.sess[k].k);
    ExpiriesGrow(p.ring, k);
    p.Expired(k);
  }

  /** In every run, no packet is lost between the two: every valid packet that names a session which has no
      update waiting, and that the session would accept, is the one the kernel expects or is told to
      userspace. */
  lemma NothingMissed(n: Node, conf: Confs, data: Datas, k: u32, p: Pkt, ttl: u8)
    requires Reached(n) && ShowsAll(conf, data, n.sess) && k in n.sess && !HasSlot(n.tx.periodics, k)
    requires VersionField(p) == 1 && p.length == 24 && p.yourDisc == k && Accepts(n.sess[k], p, ttl)
    ensures p == conf[k].rxExpect || Told(conf, data, p, ttl) == [NoticeUnexpected(p, ttl)]
  {
    ReachedAlive(n, k);
    assert ShowsSession(conf[k], data[k], n.sess[k].k);
    KernelHas(n, k);
    ToldExactly(conf, data, p, ttl);
  }

  /** These are the events of the run model. */
  lemma KernelEvents(n: Node, i: nat, k: u32)
    ensures i < |n.tx.flight| ==> Step(n, Event.Spin(i)) == Spun(n, i)
    ensures k in n.sess ==> Step(n, Expect(k)) == n.(sess := n.sess[k := FastReceive(n.sess[k])])
    ensures k in n.sess && n.sess[k].k.timer ==> Step(n, TimerFires(k)) == Fired(n, k)
  {
  }
}
