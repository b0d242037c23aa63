/** What the run invariant says in the system's own terms: the kernel's copy, the looping packets,
    the pinned-packet counters and the deferred queue. */
module Guarantees {
  import opened Basics
  import opened Sessions
  import opened Machine
  import opened Nodes
  import opened Invariants
  import opened Runs

  // ---- The kernel's copy ----

  /** After every event, the kernel's configuration of a session past hold is the projection of
      the session as userspace sees it, or the session waits in the queue for its update. */
  lemma KernelInSyncOrQueued(ns: seq<Node>, es: seq<Event>, i: nat, k: u32)
    requires IsRun(ns, es) && i < |ns| && k in ns[i].sess && !ns[i].sess[k].b.bstate.OnHold?
    ensures var s, tx := ns[i].sess[k], ns[i].tx;
            Ready(s) && (s.k.conf == Project(tx.veth, s.d, s.b) || HasSlot(tx.periodics, k))
  {
    RunInv(ns, es, i);
    assert InOrder(ns[i], k);
  }

  // ---- The looping packets ----

  /** At most one looping packet carries a session's generation. A session that should be sending
      and does not wait in the queue has one, and it is the packet of its present state; a session
      on hold, one that is AdminDown and settled, and a passive one that knows no remote have none. */
  lemma OneLiveSpinner(ns: seq<Node>, es: seq<Event>, i: nat, k: u32)
    requires IsRun(ns, es) && i < |ns| && k in ns[i].sess
    ensures var s, tx := ns[i].sess[k], ns[i].tx;
            && OneLive(tx.flight, k, s.k.conf.gen)
            && (s.b.bstate.OnHold? || !ShouldInject(s.d, s.b) ==> NoneLive(tx.flight, k, s.k.conf.gen))
            && (!s.b.bstate.OnHold? && ShouldInject(s.d, s.b) && !HasSlot(tx.periodics, k) ==>
                  Ready(s) && Spinner(s) in tx.flight && Live(Spinner(s), k, s.k.conf.gen))
  {
    RunInv(ns, es, i);
    assert InOrder(ns[i], k);
  }

  /** Bump and send are one to the wire: an update that has to wait changes neither the generation
      nor the packet that is looping, and one that need not wait leaves no packet of the old
      generation alive. */
  lemma UpdateIsAtomic(cx: Cx)
    requires Good(cx) && Ready(cx.s)
    ensures var to, k := Update(cx), cx.s.d.local.discr;
            if Defers(cx) then to.s == cx.s && to.tx.flight == cx.tx.flight && HasSlot(to.tx.periodics, k)
            else NoneLive(cx.tx.flight, k, to.s.k.conf.gen) && to.s.k.conf.gen == to.s.b.genId == cx.s.b.genId + 1
  {
    UpdateKeeps(cx);
    if Defers(cx) {
      PeriodicQueued(cx.tx, Slot(cx.s.d.local.discr, InjectFlags(cx.s.d, cx.s.b)));
    } else {
      BumpSilent(cx);
    }
  }

  // ---- The counters ----

  /** In every run the two counters differ by the looping packets less the refused Finals. So they
      tell the number of looping packets exactly when no Final was refused, and stay in order
      exactly when no more were refused than loop. The packets that loop never exceed the largest
      capacity there was by more than the refused. */
  lemma PinnedAccounting(ns: seq<Node>, es: seq<Event>, i: nat)
    requires IsRun(ns, es) && i < |ns|
    ensures var tx := ns[i].tx;
            && tx.sent + tx.refused == tx.released + |tx.flight|
            && (tx.sent - tx.released == |tx.flight| <==> tx.refused == 0)
            && (tx.sent >= tx.released <==> tx.refused <= |tx.flight|)
            && |tx.flight| <= tx.peak + tx.refused
            && (tx.refused == 0 ==> Pinned(tx) == |tx.flight|)
  {
    RunInv(ns, es, i);
  }

  /** The capacity and its peak, and the environment they come from. */
  predicate SameRoom(n: Node, m: Node) {
    m.env == n.env && m.tx.cap == n.tx.cap && m.tx.peak == n.tx.peak
  }

  lemma DrainOneRoom(n: Node)
    requires Inv(n) && Pending(n.tx) && HasCapacity(n.tx)
    ensures Head(n.tx).discr in n.sess && Ready(n.sess[Head(n.tx).discr])
    ensures SameRoom(n, DrainOne(n))
  {
    DrainOneInv(n);
  }

  lemma {:induction false} DrainRoom(n: Node)
    requires Inv(n)
    ensures SameRoom(n, Drain(n))
    decreases Backlog(n.tx)
  {
    if Pending(n.tx) && HasCapacity(n.tx) {
      DrainOneInv(n);
      DrainOneShrinks(n);
      DrainOneRoom(n);
      DrainRoom(DrainOne(n));
    }
  }

  lemma HandledRoom(n: Node, e: Event)
    requires Inv(n) && Enabled(n, e) && Safe(n, e) && Handles(e)
    ensures SameRoom(n, Step(n, e))
  {
    StepInv(n, e);
    assert InOrder(n, e.k);
    HandledKeeps(n, e);
  }

  lemma ResizeRoom(tx: Tx, cap: u32)
    requires tx.cap <= tx.peak
    ensures var to := TryResize(tx, cap); to.peak == Max(tx.peak, to.cap) && (to.cap == tx.cap || to.cap == cap)
  {
  }

  lemma SessionsRoom(n: Node, e: Event)
    requires n.tx.cap <= n.tx.peak && Enabled(n, e) && (e.Add? || e.Del?)
    ensures var m := Step(n, e);
            && m.env == n.env && m.tx.peak == Max(n.tx.peak, m.tx.cap)
            && (n.env != 0 ==> m.tx.cap == n.tx.cap || m.tx.cap == n.env)
  {
    if e.Add? {
      ResizeRoom(n.tx, Wanted(n.env, |n.sess| + 1));
    } else {
      ResizeRoom(Unlink(n.tx, e.k), Wanted(n.env, |n.sess - {e.k}|));
    }
  }

  lemma OtherRoom(n: Node, e: Event)
    requires Inv(n) && Enabled(n, e) && Safe(n, e) && !e.Add? && !e.Del?
    ensures SameRoom(n, Step(n, e))
  {
    if Handles(e) {
      HandledRoom(n, e);
    } else if e.Writable? {
      DrainRoom(n);
    }
  }

  /** Only adding and deleting sessions change the capacity, to what is wanted if that can be had; and
      the peak goes with it. */
  lemma StepRoom(n: Node, e: Event)
    requires Inv(n) && Enabled(n, e) && Safe(n, e)
    ensures var m := Step(n, e);
            && m.env == n.env && m.tx.peak == Max(n.tx.peak, m.tx.cap)
            && (!e.Add? && !e.Del? ==> m.tx.cap == n.tx.cap)
            && (n.env != 0 ==> m.tx.cap == n.tx.cap || m.tx.cap == n.env)
  {
    assert n.tx.cap <= n.tx.peak;
    if e.Add? || e.Del? {
      SessionsRoom(n, e);
    } else {
      OtherRoom(n, e);
    }
  }

  lemma ResizedTo(tx: Tx, cap: u32)
    ensures TryResize(tx, cap).cap == if cap * 2048 <= 0x3FFF_FFFF then cap else tx.cap
  {
  }

  /** Two packets for every session, unless the environment says otherwise. */
  lemma AddedCapacity(n: Node, d: DSess)
    requires Enabled(n, Add(d))
    ensures var m := Grown(n, d);
            && |m.sess| == |n.sess| + 1
            && m.tx.cap == if n.env != 0 then n.env else 2 * |m.sess| % 0x1_0000_0000
  {
    var m := Grown(n, d);
    assert m.sess.Keys == n.sess.Keys + {d.local.discr};
    assert |m.sess| == |m.sess.Keys| && |n.sess| == |n.sess.Keys|;
    ResizedTo(n.tx, Wanted(n.env, |n.sess| + 1));
  }

  /** What the socket buffer cannot hold, at 2 KiB a packet, leaves the capacity alone. */
  lemma DeletedCapacity(n: Node, k: u32)
    requires k in n.sess
    ensures var m := Remove(n, k);
            var wanted := if n.env != 0 then n.env else 2 * |m.sess| % 0x1_0000_0000;
            && |m.sess| == |n.sess| - 1 && m.tx.cap == if wanted * 2048 <= 0x3FFF_FFFF then wanted else n.tx.cap
  {
    var m := Remove(n, k);
    assert n.sess.Keys == m.sess.Keys + {k};
    assert |m.sess| == |m.sess.Keys| && |n.sess| == |n.sess.Keys|;
    ResizedTo(Unlink(n.tx, k), Wanted(n.env, |m.sess|));
  }

  lemma RunStepRoom(ns: seq<Node>, es: seq<Event>, i: nat)
    requires IsRun(ns, es) && i < |es|
    ensures ns[i + 1].env == ns[i].env && ns[i + 1].tx.peak == Max(ns[i].tx.peak, ns[i + 1].tx.cap)
    ensures ns[i].env != 0 ==> ns[i + 1].tx.cap == ns[i].tx.cap || ns[i + 1].tx.cap == ns[i].env
  {
    RunInv(ns, es, i);
    assert Follows(ns, es, i);
    StepRoom(ns[i], es[i]);
  }

  /** The peak is the largest capacity there has been. */
  lemma {:induction false} PeakIsMax(ns: seq<Node>, es: seq<Event>, i: nat)
    requires IsRun(ns, es) && i < |ns|
    ensures forall j :: 0 <= j <= i ==> ns[j].tx.cap <= ns[i].tx.peak
    ensures exists j :: 0 <= j <= i && ns[j].tx.cap == ns[i].tx.peak
  {
    if i == 0 {
      var env, veth, egress :| ns[0] == Empty(env, veth, egress);
      assert ns[0].tx.cap == ns[0].tx.peak;
    } else {
      PeakIsMax(ns, es, i - 1);
      RunStepRoom(ns, es, i - 1);
      var j :| 0 <= j <= i - 1 && ns[j].tx.cap == ns[i - 1].tx.peak;
      assert ns[i].tx.peak == ns[j].tx.cap || ns[i].tx.peak == ns[i].tx.cap;
    }
  }

  /** No step up to `i` takes capacity away. */
  predicate NeverShrinks(ns: seq<Node>, i: nat)
    requires i < |ns|
  {
    forall j, k :: 0 <= j <= k <= i ==> ns[j].tx.cap <= ns[k].tx.cap
  }

  /** With a capacity that is never reduced, and no Final refused so far, the number of looping packets is
      what the counters say and never exceeds the capacity. */
  lemma WithinCapacity(ns: seq<Node>, es: seq<Event>, i: nat)
    requires IsRun(ns, es) && i < |ns| && NeverShrinks(ns, i)
    ensures ns[i].tx.refused == 0 ==> Pinned(ns[i].tx) == |ns[i].tx.flight| <= ns[i].tx.cap
  {
    PeakIsMax(ns, es, i);
    PinnedAccounting(ns, es, i);
    var j :| 0 <= j <= i && ns[j].tx.cap == ns[i].tx.peak;
    assert ns[j].tx.cap <= ns[i].tx.cap;
  }

  lemma {:induction false} RunFixed(ns: seq<Node>, es: seq<Event>, i: nat)
    requires IsRun(ns, es) && i < |ns| && ns[0].env != 0 && Affordable(ns[0].env)
    ensures ns[i].env == ns[0].env == ns[i].tx.cap
  {
    if i == 0 {
      var env, veth, egress :| ns[0] == Empty(env, veth, egress);
    } else {
      RunFixed(ns, es, i - 1);
      RunStepRoom(ns, es, i - 1);
    }
  }

  /** A capacity set by the environment is one that is never reduced. */
  lemma WithinFixedCapacity(ns: seq<Node>, es: seq<Event>, i: nat)
    requires IsRun(ns, es) && i < |ns| && ns[0].env != 0 && Affordable(ns[0].env)
    ensures ns[i].tx.cap == ns[0].env
    ensures ns[i].tx.refused == 0 ==> Pinned(ns[i].tx) == |ns[i].tx.flight| <= ns[0].env
  {
    forall j | 0 <= j <= i
      ensures ns[j].tx.cap == ns[0].env
    {
      RunFixed(ns, es, j);
    }
    WithinCapacity(ns, es, i);
  }

  // ---- The queue ----

  /** Everything queued was queued once: it was taken off, or deleted with its session, or is still
      there. Each class holds a session at most once, every slot has its session, and whenever
      something is queued the socket is polled for room. */
  lemma QueueAccounting(ns: seq<Node>, es: seq<Event>, i: nat)
    requires IsRun(ns, es) && i < |ns|
    ensures var n := ns[i];
            && n.tx.enq == n.tx.deq + |n.tx.finals| + |n.tx.periodics| + n.tx.dropped
            && Distinct(n.tx.finals) && Distinct(n.tx.periodics) && QueueOk(n)
            && (n.tx.finals + n.tx.periodics != [] ==> n.tx.armed)
  {
    RunInv(ns, es, i);
  }

  function Queue(tx: Tx): seq<Slot> {
    tx.finals + tx.periodics
  }

  /** A drain takes a prefix off the queue, Finals before updates and each in order, one slot a
      round; it queues nothing itself; and it stops only when the queue is empty, which disarms the
      poll, or when the socket is full. */
  predicate TookPrefix(tx: Tx, to: Tx) {
    var taken := to.deq - tx.deq;
    && 0 <= taken <= |Queue(tx)|
    && Queue(to) == Queue(tx)[taken..]
    && to.enq == tx.enq
    && (if taken == |Queue(tx)| then !to.armed else to.armed == tx.armed && !HasCapacity(to))
  }

  lemma TookOneMore(tx: Tx, tx1: Tx, to: Tx)
    requires Pending(tx) && TookPrefix(tx1, to)
    requires tx1.finals == Dequeue(tx).finals && tx1.periodics == Dequeue(tx).periodics
    requires tx1.deq == tx.deq + 1 && tx1.enq == tx.enq && tx1.armed == tx.armed
    ensures TookPrefix(tx, to)
  {
    assert Queue(tx1) == Queue(tx)[1..];
    var taken := to.deq - tx1.deq;
    assert Queue(tx)[1..][taken..] == Queue(tx)[taken + 1..];
  }

  lemma {:induction false} DrainTakesPrefix(n: Node)
    requires QueueOk(n)
    ensures TookPrefix(n.tx, Drain(n).tx)
    decreases Backlog(n.tx)
  {
    if Pending(n.tx) && HasCapacity(n.tx) {
      DrainOneShrinks(n);
      DrainTakesPrefix(DrainOne(n));
      TookOneMore(n.tx, DrainOne(n).tx, Drain(DrainOne(n)).tx);
    }
  }

  /** When a drain empties the queue, every session past hold is in step with the kernel. */
  lemma DrainedMeansInSync(n: Node, k: u32)
    requires Inv(n) && Queue(Drain(n).tx) == [] && k in Drain(n).sess && !Drain(n).sess[k].b.bstate.OnHold?
    ensures var m := Drain(n); Ready(m.sess[k]) && Synced(m.sess[k], m.tx)
  {
    DrainInv(n);
    var m := Drain(n);
    assert InOrder(m, k);
    assert |m.tx.periodics| == 0 by { assert |Queue(m.tx)| == 0; }
  }
}
