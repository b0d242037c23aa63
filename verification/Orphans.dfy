/** What may stop the daemon in the end: a shutdown timer its session has lost sight of, and an expiry
    that outlives its session. Orderly runs have neither. */
module Orphans {
  import opened Basics
  import opened Packet
  import opened Sessions
  import opened Machine
  import opened Nodes
  import opened Invariants
  import opened Runs
  import opened Changes

  // ---- When a timer is orphaned ----

  /** A shutdown wait starts from Stable while a shutdown timer is still pending. */
  predicate Overwrites(d: DSess, b: BSess) {
    b.bstate.Stable? && b.shwait && d.local.flags.shutdown && !b.eff.shutdown
  }

  /** An update orphans a timer exactly then, and never gives one back. */
  lemma HandleUpdateOrphans(s: Sess, to: DSess)
    requires Alive(s) && Ready(s)
    ensures HandleUpdate(to, s.b).b.orphans == s.b.orphans + if Overwrites(to, s.b) then 1 else 0
  {
  }

  /** So does the closing of a poll, with the change that was queued. */
  lemma GotNonFinalOrphans(cx: Cx)
    requires Ready(cx.s) && GoodTiming(cx.s.b.dfr.timing)
    ensures GotNonFinal(cx).s.b.orphans == cx.s.b.orphans + if OverwritesQueued(cx.s) then 1 else 0
  {
    SettleReady(cx.s);
    UpdateKeeps(cx.(s := WithPair(cx.s, Settle(cx.s.d, cx.s.b))));
  }

  predicate OverwritesQueued(s: Sess) {
    s.b.qd && s.b.shwait && s.d.local.flags.shutdown && !s.b.dfr.shutdown
  }

  /** What the event at hand makes of it. */
  predicate LosesTimer(n: Node, e: Event, k: u32)
    requires k in n.sess
  {
    var s := n.sess[k];
    match e
    case User(j, to) => j == k && Overwrites(to, s.b)
    case TimedOut(j) => j == k && !s.b.bstate.Stable? && OverwritesQueued(s)
    case Receive(j, _, _) => j == k && Closes(n, e, k) && OverwritesQueued(s)
    case _ => false
  }

  lemma UserOrphans(cx: Cx, to: DSess)
    requires Alive(cx.s) && UserMayChange(cx.s.d, to)
    ensures UserUpdate(cx, to).s.b.orphans == cx.s.b.orphans + if Overwrites(to, cx.s.b) then 1 else 0
  {
    if !cx.s.b.bstate.OnHold? {
      HandleUpdateOrphans(cx.s, to);
      var s := cx.s.(d := to);
      HandleUpdateReady(s);
      UpdateKeeps(cx.(s := WithPair(s, HandleUpdate(to, s.b))));
    }
  }

  lemma FinalOrphans(cx: Cx)
    requires Ready(cx.s) && GoodTiming(cx.s.b.dfr.timing)
    ensures GotFinal(cx).s.b.orphans == cx.s.b.orphans
  {
    UpdateKeeps(cx.(s := cx.s.(b := cx.s.b.(bstate := AwaitNonFinal))));
  }

  lemma AbsorbOrphans(cx: Cx, remote: EndData)
    requires Ready(cx.s) && remote.timing.mult != 0
    ensures var s := Absorb(cx, remote).s;
            && Ready(s) && s.b.orphans == cx.s.b.orphans && s.b.bstate == cx.s.b.bstate
            && (OverwritesQueued(s) <==> OverwritesQueued(cx.s))
  {
    AbsorbKeeps(cx, remote);
  }

  lemma PacketOrphans(cx: Cx, p: Pkt, ttl: u8)
    requires !cx.s.b.bstate.OnHold? ==> Ready(cx.s)
    ensures var closes := cx.s.b.bstate.AwaitNonFinal? && Accepts(cx.s, p, ttl) && !HasBit(Bits(p), BIT_FINAL);
            HandlePacket(cx, p, ttl).s.b.orphans
            == cx.s.b.orphans + if closes && OverwritesQueued(cx.s) then 1 else 0
  {
    if Accepts(cx.s, p, ttl) {
      var r := ParsePacket(p, cx.s.d.remote).value;
      AbsorbOrphans(cx, r.remote);
      var cx1 := Absorb(cx, r.remote);
      var cx2 := if r.poll then AnswerPoll(cx1) else cx1;
      assert cx2.s == cx1.s;
      if cx2.s.b.bstate.AwaitFinal? && r.final {
        FinalOrphans(cx2);
      } else if cx2.s.b.bstate.AwaitNonFinal? && !r.final {
        GotNonFinalOrphans(cx2);
      }
    }
  }

  lemma TimeoutOrphans(cx: Cx)
    requires Ready(cx.s) && (cx.s.b.qd ==> !cx.s.b.bstate.ShuttingDown?)
    ensures HandleTimeout(cx).s.b.orphans
         == cx.s.b.orphans + if !cx.s.b.bstate.Stable? && OverwritesQueued(cx.s) then 1 else 0
  {
    TimeoutClosesReady(cx);
    var cx1 := TimeoutCloses(cx);
    if cx.s.b.bstate.ShuttingDown? {
      GotNonFinalOrphans(cx.(s := cx.s.(b := cx.s.b.(shwait := false))));
    } else if !cx.s.b.bstate.Stable? {
      GotNonFinalOrphans(cx);
    }
    if IsInitOrUp(cx1.s.d.local.st.state) {
      UpdateKeeps(cx1.(s := cx1.s.(d := Lapsed(cx1.s.d))));
    }
  }

  lemma HandledOrphans(n: Node, e: Event)
    requires Enabled(n, e) && Handles(e) && !Stops(n, e) && Alive(n.sess[e.k])
    ensures Safe(n, e)
    ensures Handled(n, e).s.b.orphans == Entry(n, e).s.b.orphans + if LosesTimer(n, e, e.k) then 1 else 0
  {
    EntryAlive(n, e);
    var cx := Entry(n, e);
    match e
    case User(_, to) => UserOrphans(cx, to);
    case HoldEnd(_) => UpdateKeeps(cx.(s := Released(cx.s)));
    case ShutdownEnd(_) | OrphanEnd(_, _) => GotNonFinalOrphans(cx.(s := cx.s.(b := cx.s.b.(shwait := false))));
    case Receive(_, p, ttl) => PacketOrphans(cx, p, ttl);
    case TimedOut(_) => TimeoutOrphans(cx);
  }

  /** In every state of every run, the next event orphans a shutdown timer of a session exactly when it
      starts a shutdown wait from Stable with a timer pending, at once or after closing a poll; and
      only an orphaned timer that fires makes them fewer. */
  lemma OrphanedExactly(ns: seq<Node>, es: seq<Event>, e: Event, k: u32)
    requires IsRun(ns, es) && Enabled(ns[|es|], e) && Safe(ns[|es|], e)
    requires k in ns[|es|].sess && k in Step(ns[|es|], e).sess
    ensures var n := ns[|es|];
            Step(n, e).sess[k].b.orphans + (if e.OrphanEnd? && e.k == k then 1 else 0)
            == n.sess[k].b.orphans + if LosesTimer(n, e, k) then 1 else 0
  {
    var n := ns[|es|];
    RunInv(ns, es, |es|);
    StepInv(n, e);
    assert InOrder(n, k);
    if Concerns(e, k) {
      HandledOrphans(n, e);
    } else {
      Elsewhere(n, e, k);
    }
  }

  // ---- Orderly runs ----

  /** The event changes no timing during a shutdown wait that it keeps, and gives no discriminator to a
      new session of which an expiry still waits. */
  predicate Orderly(n: Node, e: Event) {
    && (e.User? && e.k in n.sess ==> !Untidy(n.sess[e.k], e.to))
    && (e.Add? ==> e.d.local.discr !in n.expired)
  }

  predicate OrderlyAt(ns: seq<Node>, es: seq<Event>, i: nat)
    requires |ns| == |es| + 1 && i < |es|
  {
    Orderly(ns[i], es[i])
  }

  /** No session was added on an expiry. */
  predicate NoneStale(n: Node) {
    forall k :: k in n.sess ==> !n.sess[k].stale
  }

  lemma StaleStays(n: Node, e: Event, k: u32)
    requires Inv(n) && Enabled(n, e) && Safe(n, e) && k in n.sess && k in Step(n, e).sess
    ensures Step(n, e).sess[k].stale == n.sess[k].stale
  {
    StepInv(n, e);
    if Concerns(e, k) {
      assert InOrder(n, k);
      EntryAlive(n, e);
      HandledKeeps(n, e);
    } else {
      Elsewhere(n, e, k);
    }
  }

  lemma StepNoneStale(n: Node, e: Event)
    requires Inv(n) && Enabled(n, e) && Safe(n, e) && NoneStale(n) && Orderly(n, e)
    ensures NoneStale(Step(n, e))
  {
    var m := Step(n, e);
    forall k | k in m.sess
      ensures !m.sess[k].stale
    {
      if k in n.sess {
        StaleStays(n, e, k);
      } else if e.Writable? {
        DrainKeys(n);
      }
    }
  }

  lemma {:induction false} DrainDangling(n: Node)
    requires QueueOk(n)
    ensures Drain(n).dangling == n.dangling
    decreases Backlog(n.tx)
  {
    if Pending(n.tx) && HasCapacity(n.tx) {
      DrainOneShrinks(n);
      DrainDangling(DrainOne(n));
    }
  }

  lemma StepDangling(n: Node, e: Event)
    requires Enabled(n, e) && Safe(n, e)
    requires forall k :: k in n.sess ==> n.sess[k].b.orphans == 0
    ensures Step(n, e).dangling == n.dangling
  {
    if e.Writable? {
      DrainDangling(n);
    }
  }

  lemma OrderlyFaithful(ns: seq<Node>, es: seq<Event>, i: nat, k: u32)
    requires IsRun(ns, es) && i < |ns| && k in ns[i].sess
    requires forall j :: 0 <= j < i ==> OrderlyAt(ns, es, j)
    ensures Faithful(ns[i].sess[k])
  {
    forall j | 0 <= j < i
      ensures TidyAt(ns, es, j, k)
    {
      assert OrderlyAt(ns, es, j);
    }
    NoChangeLost(ns, es, i, k);
  }

  lemma {:induction false} OrderlyRun(ns: seq<Node>, es: seq<Event>, i: nat)
    requires IsRun(ns, es) && i < |ns|
    requires forall j :: 0 <= j < i ==> OrderlyAt(ns, es, j)
    ensures NoneStale(ns[i]) && ns[i].dangling == 0
    decreases i
  {
    if i == 0 {
      var env, veth, egress :| ns[0] == Empty(env, veth, egress);
    } else {
      OrderlyRun(ns, es, i - 1);
      RunInv(ns, es, i - 1);
      assert Follows(ns, es, i - 1) && OrderlyAt(ns, es, i - 1);
      var n := ns[i - 1];
      StepNoneStale(n, es[i - 1]);
      forall k | k in n.sess
        ensures n.sess[k].b.orphans == 0
      {
        OrderlyFaithful(ns, es, i - 1, k);
      }
      StepDangling(n, es[i - 1]);
    }
  }

  /** No orderly run stops the daemon: whatever event comes next, the source's aborts and assertions are
      not reached and no pointer is followed that is not set or whose target is gone. */
  lemma NeverAborts(ns: seq<Node>, es: seq<Event>, e: Event)
    requires IsRun(ns, es) && Enabled(ns[|es|], e)
    requires forall j :: 0 <= j < |es| ==> OrderlyAt(ns, es, j)
    ensures Safe(ns[|es|], e)
  {
    AbortsExactly(ns, es, e);
    OrderlyRun(ns, es, |es|);
    if e.OrphanEnd? {
      OrderlyFaithful(ns, es, |es|, e.k);
    }
  }
}
