/** The handshake of two dataplanes: what being Up says about the other end. */
module Handshake {
  import opened Basics
  import opened Packet
  import opened Sessions
  import opened Machine
  import opened Nodes
  import opened Invariants
  import opened Runs
  import opened Changes
  import opened Links

  // ---- History variables ----

  lemma PacketHistory(cx: Cx, p: Pkt, ttl: u8)
    requires Alive(cx.s)
    ensures var s := HandlePacket(cx, p, ttl).s;
            s.heardUp ==> cx.s.heardUp || (Accepts(cx.s, p, ttl) && IsInitOrUp(StateField(p)))
  {
    if Accepts(cx.s, p, ttl) {
      var r := ParsePacket(p, cx.s.d.remote).value;
      AbsorbKeeps(cx, r.remote);
      var cx1 := Absorb(cx, r.remote);
      var cx2 := if r.poll then AnswerPoll(cx1) else cx1;
      if cx2.s.b.bstate.AwaitFinal? && r.final {
        UpdateKeeps(cx2.(s := cx2.s.(b := cx2.s.b.(bstate := AwaitNonFinal))));
      } else if cx2.s.b.bstate.AwaitNonFinal? && !r.final {
        ClosingHistory(cx2);
      }
    }
  }

  lemma ClosingHistory(cx: Cx)
    requires Ready(cx.s) && GoodTiming(cx.s.b.dfr.timing)
    ensures GotNonFinal(cx).s.accepted == cx.s.accepted && GotNonFinal(cx).s.heardUp == cx.s.heardUp
  {
    SettleReady(cx.s);
    UpdateKeeps(cx.(s := WithPair(cx.s, Settle(cx.s.d, cx.s.b))));
  }

  lemma TimeoutHistory(cx: Cx)
    requires Ready(cx.s)
    ensures HandleTimeout(cx).s.heardUp == cx.s.heardUp
  {
    TimeoutClosesReady(cx);
    var cx1 := TimeoutCloses(cx);
    if cx.s.b.bstate.ShuttingDown? {
      ClosingHistory(cx.(s := cx.s.(b := cx.s.b.(shwait := false))));
    } else if !cx.s.b.bstate.Stable? {
      ClosingHistory(cx);
    }
    if IsInitOrUp(cx1.s.d.local.st.state) {
      UpdateKeeps(cx1.(s := cx1.s.(d := Lapsed(cx1.s.d))));
    }
  }

  /** Only accepting a packet from a sender in Init or Up adds to what a session has heard. */
  lemma HandledHistory(n: Node, e: Event)
    requires Enabled(n, e) && Handles(e) && !Stops(n, e) && Alive(n.sess[e.k])
    ensures Safe(n, e)
    ensures var s, t := n.sess[e.k], Handled(n, e).s;
            t.heardUp ==> s.heardUp || HearsUp(n, e, e.k)
  {
    EntryAlive(n, e);
    var cx := Entry(n, e);
    match e
    case User(_, to) =>
      if !cx.s.b.bstate.OnHold? {
        var s := cx.s.(d := to);
        HandleUpdateReady(s);
        UpdateKeeps(cx.(s := WithPair(s, HandleUpdate(to, s.b))));
      }
    case HoldEnd(_) => UpdateKeeps(cx.(s := Released(cx.s)));
    case ShutdownEnd(_) | OrphanEnd(_, _) => ClosingHistory(cx.(s := cx.s.(b := cx.s.b.(shwait := false))));
    case Receive(_, p, ttl) => PacketHistory(cx, p, ttl);
    case TimedOut(_) => TimeoutHistory(cx);
  }

  /** An event that is heard. */
  predicate HearsUp(n: Node, e: Event, k: u32)
    requires k in n.sess
  {
    e.Receive? && e.k == k && Accepts(n.sess[k], e.p, e.ttl) && IsInitOrUp(StateField(e.p))
  }

  lemma OwnHistory(n: Node, e: Event)
    requires Inv(n) && Enabled(n, e) && Safe(n, e) && Handles(e)
    ensures var s, t := n.sess[e.k], Handled(n, e).s;
            s.accepted <= t.accepted && (t.heardUp ==> s.heardUp || HearsUp(n, e, e.k))
  {
    StepInv(n, e);
    assert InOrder(n, e.k);
    HandledHistory(n, e);
    HandledKeeps(n, e);
  }

  lemma StaysThere(n: Node, e: Event, k: u32)
    requires Enabled(n, e) && Safe(n, e) && k in n.sess && e != Del(k)
    ensures k in Step(n, e).sess
  {
    if e.Writable? {
      DrainKeys(n);
    }
  }

  /** What one event does to session k: it stays, its count does not fall, and it has heard of Init
      or Up only if it had before or accepts a packet that says so now. */
  lemma StepHistory(n: Node, e: Event, k: u32)
    requires Inv(n) && Enabled(n, e) && Safe(n, e) && k in n.sess && e != Del(k)
    ensures k in Step(n, e).sess
    ensures var s, t := n.sess[k], Step(n, e).sess[k];
            s.accepted <= t.accepted && (t.heardUp ==> s.heardUp || HearsUp(n, e, k))
  {
    StaysThere(n, e, k);
    if Concerns(e, k) {
      OwnHistory(n, e);
    } else {
      Elsewhere(n, e, k);
    }
  }

  // ---- The handshake ----

  lemma SentHonestly(n: Node, k: u32, p: Pkt)
    requires Inv(n) && k in n.sess && HasSent(n, k, p) && IsInitOrUp(StateField(p))
    ensures n.sess[k].accepted > 0
  {
    assert InOrder(n, k);
    var i :| n.sess[k].born <= i < |n.tx.log| && Mine(n.tx.log[i], k) && n.tx.log[i].pkt == p;
    assert SaysInitOrUp(n.tx.log[i]);
  }

  /** One end moves. */
  lemma EndMoves(n: Node, k: u32, other: Node, j: u32, e: Event)
    requires Inv(n) && Inv(other) && Mutual(Link(n, other), k, j) && MayHappen(n, k, other, j, e)
    ensures Mutual(Link(Step(n, e), other), k, j)
  {
    StepHistory(n, e, k);
    if HearsUp(n, e, k) {
      SentHonestly(other, j, e.p);
    }
  }

  lemma MutualSwaps(a: Node, ka: u32, b: Node, kb: u32)
    ensures Mutual(Link(a, b), ka, kb) <==> Mutual(Link(b, a), kb, ka)
  {
  }

  lemma MovesMutual(l: Link, ka: u32, kb: u32, m: Move, to: Link)
    requires Inv(l.a) && Inv(l.b) && Mutual(l, ka, kb) && Moves(l, ka, kb, m, to)
    ensures Mutual(to, ka, kb)
  {
    match m
    case AtA(e) => EndMoves(l.a, ka, l.b, kb, e);
    case AtB(e) =>
      MutualSwaps(l.a, ka, l.b, kb);
      EndMoves(l.b, kb, l.a, ka, e);
      MutualSwaps(l.a, ka, Step(l.b, e), kb);
  }

  lemma MovesReached(l: Link, ka: u32, kb: u32, m: Move, to: Link)
    requires Reached(l.a) && Reached(l.b) && Moves(l, ka, kb, m, to)
    ensures Reached(to.a) && Reached(to.b)
  {
    match m
    case AtA(e) => StepReached(l.a, e);
    case AtB(e) => StepReached(l.b, e);
  }

  lemma {:induction false} HistoryReached(ls: seq<Link>, ms: seq<Move>, ka: u32, kb: u32, i: nat)
    requires IsHistory(ls, ms, ka, kb) && i < |ls|
    ensures Reached(ls[i].a) && Reached(ls[i].b)
    decreases i
  {
    if i > 0 {
      HistoryReached(ls, ms, ka, kb, i - 1);
      assert MovesAt(ls, ms, ka, kb, i - 1);
      MovesReached(ls[i - 1], ka, kb, ms[i - 1], ls[i]);
    }
  }

  lemma StepMutual(l: Link, ka: u32, kb: u32, m: Move, to: Link)
    requires Reached(l.a) && Reached(l.b) && Mutual(l, ka, kb) && Moves(l, ka, kb, m, to)
    ensures Mutual(to, ka, kb)
  {
    ReachedInv(l.a);
    ReachedInv(l.b);
    MovesMutual(l, ka, kb, m, to);
  }

  lemma {:induction false} HistoryMutual(ls: seq<Link>, ms: seq<Move>, ka: u32, kb: u32, i: nat)
    requires IsHistory(ls, ms, ka, kb) && i < |ls|
    ensures Mutual(ls[i], ka, kb)
    decreases i
  {
    if i > 0 {
      HistoryMutual(ls, ms, ka, kb, i - 1);
      HistoryReached(ls, ms, ka, kb, i - 1);
      assert MovesAt(ls, ms, ka, kb, i - 1);
      StepMutual(ls[i - 1], ka, kb, ms[i - 1], ls[i]);
    }
  }

  /** Up means both directions worked: however the network treats the packets, and whatever timeouts,
      shutdowns, reconfigurations and stale packets there are, an end is Up only if each of the two
      has accepted a packet of the other. */
  lemma UpMeansBothWays(ls: seq<Link>, ms: seq<Move>, ka: u32, kb: u32, i: nat)
    requires IsHistory(ls, ms, ka, kb) && i < |ls|
    ensures ka in ls[i].a.sess && kb in ls[i].b.sess
    ensures var sa, sb := ls[i].a.sess[ka], ls[i].b.sess[kb];
            sa.d.local.st.state.Up? || sb.d.local.st.state.Up? ==> sa.accepted > 0 && sb.accepted > 0
  {
    HistoryReached(ls, ms, ka, kb, i);
    HistoryMutual(ls, ms, ka, kb, i);
    ReachedAlive(ls[i].a, ka);
    ReachedAlive(ls[i].b, kb);
  }
}
