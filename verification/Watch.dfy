/** No session in Init or Up goes unwatched: its detection timer runs, or its expiry is on the way. */
module Watch {
  import opened Basics
  import opened Packet
  import opened Sessions
  import opened Machine
  import opened Nodes
  import opened Invariants
  import opened Runs
  import opened Changes
  import opened Conduct

  /** `pending` says whether an expiry of the session is in the ring buffer. A period is remembered only
      while the kernel is to run the timer. */
  predicate Watched(s: Sess, pending: bool) {
    && (!s.k.conf.rearm ==> s.b.period == 0)
    && (s.k.conf.rearm && IsInitOrUp(s.d.local.st.state) ==> s.k.timer || pending)
  }

  // ---- Handlers ----

  lemma RetimeWatched(cx: Cx, pending: bool)
    requires cx.s.k.conf.rearm ==> cx.s.k.timer || pending || cx.s.b.period != cx.s.k.conf.detect
    ensures Watched(Retime(cx).s, pending)
  {
  }

  lemma UpdateWatched(cx: Cx, pending: bool)
    requires Ready(cx.s) && Watched(cx.s, pending)
    ensures Watched(Update(cx).s, pending)
  {
    if !Defers(cx) {
      DetectPositive(cx.s);
      var s := Bump(cx.tx.veth, cx.s);
      RetimeWatched(Cx(s, if ShouldInject(s.d, s.b) then SendSpinner(cx.tx, Spinner(s)) else cx.tx), pending);
    }
  }

  /** A change that leads into neither Init nor Up. */
  predicate NoRise(s: Sess, t: Sess) {
    && t.k == s.k && t.b.period == s.b.period
    && (IsInitOrUp(t.d.local.st.state) ==> t.d.local.st.state == s.d.local.st.state)
  }

  lemma ChangeWatched(cx: Cx, t: Sess, pending: bool)
    requires Watched(cx.s, pending) && Ready(t) && NoRise(cx.s, t)
    ensures Watched(Update(cx.(s := t)).s, pending)
  {
    UpdateWatched(cx.(s := t), pending);
  }

  lemma HandleUpdateNoRise(s: Sess, to: DSess)
    requires Ready(s) && to.local.st == s.d.local.st
    ensures NoRise(s, WithPair(s, HandleUpdate(to, s.b)))
  {
  }

  lemma UserWatched(cx: Cx, to: DSess, pending: bool)
    requires Alive(cx.s) && Watched(cx.s, pending) && UserMayChange(cx.s.d, to)
    ensures Watched(UserUpdate(cx, to).s, pending)
  {
    if !cx.s.b.bstate.OnHold? {
      var s := cx.s.(d := to);
      HandleUpdateReady(s);
      HandleUpdateNoRise(cx.s, to);
      ChangeWatched(cx, WithPair(s, HandleUpdate(to, s.b)), pending);
    }
  }

  lemma ClosingWatched(cx: Cx, pending: bool)
    requires Ready(cx.s) && GoodTiming(cx.s.b.dfr.timing) && Watched(cx.s, pending)
    ensures Watched(GotNonFinal(cx).s, pending)
  {
    SettleReady(cx.s);
    var b := cx.s.b.(eff := cx.s.b.dfr, bstate := Stable, qd := false);
    HandleUpdateNoRise(cx.s.(b := b), cx.s.d);
    ChangeWatched(cx, WithPair(cx.s, Settle(cx.s.d, cx.s.b)), pending);
  }

  lemma AbsorbWatched(cx: Cx, remote: EndData, pending: bool)
    requires Ready(cx.s) && remote.timing.mult != 0 && Watched(cx.s, pending)
    ensures Watched(Absorb(cx, remote).s, pending)
  {
    var cx1 := InjectRearm(cx);
    UpdateWatched(cx1.(s := Absorbed(cx1.s, remote)), pending);
  }

  lemma BitsWatched(cx: Cx, poll: bool, final: bool, pending: bool)
    requires Ready(cx.s) && Watched(cx.s, pending)
    ensures Watched(HandleBits(cx, poll, final).s, pending)
  {
    var cx1 := if poll then AnswerPoll(cx) else cx;
    if cx1.s.b.bstate.AwaitFinal? && final {
      ChangeWatched(cx1, cx1.s.(b := cx1.s.b.(bstate := AwaitNonFinal)), pending);
    } else if cx1.s.b.bstate.AwaitNonFinal? && !final {
      ClosingWatched(cx1, pending);
    }
  }

  lemma PacketWatched(cx: Cx, p: Pkt, ttl: u8, pending: bool)
    requires Alive(cx.s) && Watched(cx.s, pending)
    ensures Watched(HandlePacket(cx, p, ttl).s, pending)
  {
    if Accepts(cx.s, p, ttl) {
      var r := ParsePacket(p, cx.s.d.remote).value;
      AbsorbKeeps(cx, r.remote);
      AbsorbWatched(cx, r.remote, pending);
      BitsWatched(Absorb(cx, r.remote), r.poll, r.final, pending);
    }
  }

  /** After an expiry there is nothing to watch. */
  lemma TimeoutWatched(cx: Cx, before: bool, pending: bool)
    requires Alive(cx.s) && Ready(cx.s) && Watched(cx.s, before)
    ensures Watched(HandleTimeout(cx).s, pending)
  {
    TimeoutMeans(cx);
    TimeoutClosesReady(cx);
    var cx1 := TimeoutCloses(cx);
    if cx.s.b.bstate.ShuttingDown? {
      ClosingWatched(cx.(s := cx.s.(b := cx.s.b.(shwait := false))), before);
    } else if !cx.s.b.bstate.Stable? {
      ClosingWatched(cx, before);
    }
    if IsInitOrUp(cx1.s.d.local.st.state) {
      ChangeWatched(cx1, cx1.s.(d := Lapsed(cx1.s.d)), before);
    }
  }

  lemma HandledWatched(n: Node, e: Event, before: bool, pending: bool)
    requires Enabled(n, e) && Handles(e) && !Stops(n, e) && Alive(n.sess[e.k]) && Watched(n.sess[e.k], before)
    requires before == pending || e.TimedOut?
    ensures Safe(n, e) && Watched(Handled(n, e).s, pending)
  {
    EntryAlive(n, e);
    var cx := Entry(n, e);
    assert Watched(cx.s, before);
    match e
    case User(_, to) => UserWatched(cx, to, pending);
    case HoldEnd(_) => ChangeWatched(cx, Released(cx.s), pending);
    case ShutdownEnd(_) | OrphanEnd(_, _) =>
      ClosingWatched(cx.(s := cx.s.(b := cx.s.b.(shwait := false))), pending);
    case Receive(_, p, ttl) => PacketWatched(cx, p, ttl, pending);
    case TimedOut(_) => TimeoutWatched(cx, before, pending);
  }

  // ---- Runs ----

  predicate WatchedAt(n: Node, k: u32)
    requires k in n.sess
  {
    Watched(n.sess[k], k in n.expired)
  }

  lemma {:induction false} DrainWatched(n: Node, k: u32)
    requires QueueOk(n) && k in n.sess && WatchedAt(n, k)
    ensures k in Drain(n).sess && WatchedAt(Drain(n), k)
    decreases Backlog(n.tx)
  {
    if Pending(n.tx) && HasCapacity(n.tx) {
      DrainOneShrinks(n);
      if k == Head(n.tx).discr {
        UpdateWatched(Cx(n.sess[k], Dequeue(n.tx)), k in n.expired);
      }
      DrainWatched(DrainOne(n), k);
    }
  }

  lemma ElsewhereWatched(n: Node, e: Event, k: u32)
    requires Enabled(n, e) && Safe(n, e) && !Concerns(e, k) && k in n.sess && k in Step(n, e).sess && WatchedAt(n, k)
    ensures WatchedAt(Step(n, e), k)
  {
    if Handles(e) {
    } else if e.Writable? {
      DrainWatched(n, k);
    }
  }

  lemma OwnWatched(n: Node, e: Event, k: u32)
    requires Enabled(n, e) && !Stops(n, e) && Concerns(e, k) && Alive(n.sess[k]) && WatchedAt(n, k)
    ensures Safe(n, e) && k in Step(n, e).sess && WatchedAt(Step(n, e), k)
  {
    EntryAlive(n, e);
    HandledWatched(n, e, k in n.expired, k in Step(n, e).expired);
  }

  lemma NewWatched(n: Node, e: Event, k: u32)
    requires Enabled(n, e) && Safe(n, e) && k !in n.sess && k in Step(n, e).sess
    ensures WatchedAt(Step(n, e), k)
  {
    if e.Writable? {
      DrainKeys(n);
    }
  }

  lemma StepWatched(n: Node, e: Event, k: u32)
    requires Inv(n) && Enabled(n, e) && Safe(n, e) && k in Step(n, e).sess && (k in n.sess ==> WatchedAt(n, k))
    ensures WatchedAt(Step(n, e), k)
  {
    if k !in n.sess {
      NewWatched(n, e, k);
    } else if Concerns(e, k) {
      StepInv(n, e);
      assert InOrder(n, k);
      OwnWatched(n, e, k);
    } else {
      ElsewhereWatched(n, e, k);
    }
  }

  lemma {:induction false} RunWatched(ns: seq<Node>, es: seq<Event>, i: nat, k: u32)
    requires IsRun(ns, es) && i < |ns| && k in ns[i].sess
    ensures WatchedAt(ns[i], k)
    decreases i
  {
    if i > 0 {
      if k in ns[i - 1].sess {
        RunWatched(ns, es, i - 1, k);
      }
      RunInv(ns, es, i - 1);
      assert Follows(ns, es, i - 1);
      StepWatched(ns[i - 1], es[i - 1], k);
    }
  }

  /** In every run, the peer of a session that is in Init or Up in the kernel too is watched: the detection
      timer runs, or its expiry waits to be heard. */
  lemma AlwaysWatched(ns: seq<Node>, es: seq<Event>, i: nat, k: u32)
    requires IsRun(ns, es) && i < |ns| && k in ns[i].sess && !HasSlot(ns[i].tx.periodics, k)
    requires IsInitOrUp(ns[i].sess[k].d.local.st.state)
    ensures ns[i].sess[k].k.timer || k in ns[i].expired
  {
    RunWatched(ns, es, i, k);
    RunInv(ns, es, i);
    assert InOrder(ns[i], k);
  }
}
