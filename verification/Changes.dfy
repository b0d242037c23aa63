/** What becomes of a configuration change: it is never lost, and an Up session does not act on it
    before the poll that announces it has closed (sections 6.5 and 6.8.3 of RFC 5880). */
module Changes {
  import opened Basics
  import opened Packet
  import opened Sessions
  import opened Machine
  import opened Nodes
  import opened Invariants
  import opened Runs

  // ---- Which part of a session an event touches ----

  lemma {:induction false} DrainUntouched(n: Node, k: u32)
    requires QueueOk(n) && k in n.sess
    ensures k in Drain(n).sess && Untouched(n.sess[k], Drain(n).sess[k])
    decreases Backlog(n.tx)
  {
    if Pending(n.tx) && HasCapacity(n.tx) {
      DrainOneShrinks(n);
      UpdateKeeps(Cx(n.sess[Head(n.tx).discr], Dequeue(n.tx)));
      DrainUntouched(DrainOne(n), k);
    }
  }

  /** The event runs a handler of session k. */
  predicate Concerns(e: Event, k: u32) {
    Handles(e) && e.k == k
  }

  lemma Elsewhere(n: Node, e: Event, k: u32)
    requires Enabled(n, e) && Safe(n, e) && !Concerns(e, k) && k in n.sess && k in Step(n, e).sess
    ensures Untouched(n.sess[k], Step(n, e).sess[k])
  {
    if Handles(e) {
    } else if e.Writable? {
      DrainUntouched(n, k);
    }
  }

  // ---- No change is lost ----

  /** Where the user's latest configuration is: in force, or being polled, or marked as queued. */
  predicate Faithful(s: Sess) {
    var u := UserData(s.d);
    && (s.b.bstate.Stable? ==> s.b.eff == u)
    && ((s.b.bstate.AwaitFinal? || s.b.bstate.AwaitNonFinal?) && !s.b.qd ==> s.b.dfr == u)
    && (s.b.bstate.ShuttingDown? ==> s.b.dfr == u && u.shutdown)
    && (s.b.qd ==> s.b.bstate.AwaitFinal? || s.b.bstate.AwaitNonFinal?)
    && (s.b.shwait <==> s.b.bstate.ShuttingDown?)
    && s.b.orphans == 0
  }

  /** The update the shutdown wait does not survive: new timing while it runs, shutdown kept. */
  predicate Untidy(s: Sess, to: DSess) {
    s.b.bstate.ShuttingDown? && to.local.flags.shutdown && TimingDiffers(UserData(to), s.b.dfr)
  }

  predicate Tidy(n: Node, e: Event, k: u32) {
    e.User? && e.k == k && k in n.sess ==> !Untidy(n.sess[k], e.to)
  }

  predicate TidyAt(ns: seq<Node>, es: seq<Event>, i: nat, k: u32)
    requires |ns| == |es| + 1 && i < |es|
  {
    Tidy(ns[i], es[i], k)
  }

  /** Every session that is shutting down can be led astray by it: the new timing sends it into a
      poll with the shutdown timer still running. */
  lemma UntidyStraysFrom(s: Sess, minTx: u32)
    requires Ready(s) && Faithful(s) && s.b.bstate.ShuttingDown? && minTx != 0 && minTx != s.d.local.timing.minTx
    ensures var to := s.d.(local := s.d.local.(timing := s.d.local.timing.(minTx := minTx)));
            UserMayChange(s.d, to) && Untidy(s, to)
            && HandleUpdate(to, s.b).b.bstate == AwaitFinal && HandleUpdate(to, s.b).b.shwait
  {
  }

  lemma UntouchedFaithful(s: Sess, t: Sess)
    requires Untouched(s, t)
    ensures Faithful(t) <==> Faithful(s)
  {
  }

  /** The decisive step: a user update, from a faithful session. */
  lemma HandleUpdateFaithful(s: Sess, to: DSess)
    requires Ready(s) && Faithful(s) && UserMayChange(s.d, to)
    ensures Faithful(WithPair(s, HandleUpdate(to, s.b))) <==> !Untidy(s, to)
  {
  }

  lemma SettleFaithful(s: Sess)
    requires Ready(s) && Faithful(s) && !s.b.bstate.Stable?
    ensures Faithful(WithPair(s, Settle(s.d, s.b.(shwait := false))))
  {
    var t := s.(b := s.b.(eff := s.b.dfr, bstate := Stable, shwait := false, qd := false));
    if s.b.qd {
      assert s.b.(eff := s.b.dfr, bstate := Stable, shwait := false).(qd := false) == t.b;
    }
  }

  lemma GotNonFinalFaithful(cx: Cx)
    requires Ready(cx.s) && Faithful(cx.s) && GoodTiming(cx.s.b.dfr.timing) && !cx.s.b.bstate.Stable?
    ensures Faithful(ShwaitExpired(cx).s)
    ensures !cx.s.b.shwait ==> Faithful(GotNonFinal(cx).s)
  {
    var s := cx.s.(b := cx.s.b.(shwait := false));
    SettleFaithful(cx.s);
    SettleReady(s);
    var t := WithPair(s, Settle(s.d, s.b));
    UpdateKeeps(cx.(s := t));
    UntouchedFaithful(t, Update(cx.(s := t)).s);
    assert WithPair(cx.s, Settle(s.d, s.b)) == t;
    assert !cx.s.b.shwait ==> cx.s.b == s.b;
  }

  lemma UserUpdateFaithful(cx: Cx, to: DSess)
    requires Alive(cx.s) && Faithful(cx.s) && UserMayChange(cx.s.d, to)
    ensures Faithful(UserUpdate(cx, to).s) <==> !Untidy(cx.s, to)
  {
    if !cx.s.b.bstate.OnHold? {
      HandleUpdateFaithful(cx.s, to);
      var s := cx.s.(d := to);
      HandleUpdateReady(s);
      var t := WithPair(s, HandleUpdate(to, s.b));
      assert t == WithPair(cx.s, HandleUpdate(to, cx.s.b));
      UpdateKeeps(cx.(s := t));
      UntouchedFaithful(t, Update(cx.(s := t)).s);
    }
  }

  lemma PacketFaithful(cx: Cx, p: Pkt, ttl: u8)
    requires Alive(cx.s) && Faithful(cx.s)
    ensures Faithful(HandlePacket(cx, p, ttl).s)
  {
    if Accepts(cx.s, p, ttl) {
      var r := ParsePacket(p, cx.s.d.remote).value;
      AbsorbKeeps(cx, r.remote);
      var cx1 := Absorb(cx, r.remote);
      var cx2 := if r.poll then AnswerPoll(cx1) else cx1;
      assert cx2.s == cx1.s && Faithful(cx2.s);
      if cx2.s.b.bstate.AwaitFinal? && r.final {
        UpdateKeeps(cx2.(s := cx2.s.(b := cx2.s.b.(bstate := AwaitNonFinal))));
      } else if cx2.s.b.bstate.AwaitNonFinal? && !r.final {
        GotNonFinalFaithful(cx2);
      }
    }
  }

  lemma TimeoutClosesFaithful(cx: Cx)
    requires Ready(cx.s) && Faithful(cx.s)
    ensures Faithful(TimeoutCloses(cx).s)
  {
    if !cx.s.b.bstate.Stable? {
      GotNonFinalFaithful(cx);
    }
  }

  lemma TimeoutFaithful(cx: Cx)
    requires Ready(cx.s) && Faithful(cx.s)
    ensures Faithful(HandleTimeout(cx).s)
  {
    TimeoutClosesFaithful(cx);
    TimeoutClosesReady(cx);
    var cx1 := TimeoutCloses(cx);
    if IsInitOrUp(cx1.s.d.local.st.state) {
      UpdateKeeps(cx1.(s := cx1.s.(d := Lapsed(cx1.s.d))));
    }
  }

  lemma HoldFaithful(cx: Cx)
    requires Alive(cx.s) && cx.s.b.bstate.OnHold?
    ensures Faithful(HoldExpired(cx).s)
  {
    UpdateKeeps(cx.(s := Released(cx.s)));
  }

  lemma HandledFaithful(n: Node, e: Event, k: u32)
    requires Enabled(n, e) && !Stops(n, e) && Concerns(e, k) && Alive(n.sess[k]) && Faithful(n.sess[k])
    ensures Safe(n, e) && (Faithful(Handled(n, e).s) <==> Tidy(n, e, k))
  {
    EntryAlive(n, e);
    var cx := Entry(n, e);
    match e
    case User(_, to) => UserUpdateFaithful(cx, to);
    case HoldEnd(_) => HoldFaithful(cx);
    case ShutdownEnd(_) => GotNonFinalFaithful(cx);
    case OrphanEnd(_, _) =>
    case Receive(_, p, ttl) => PacketFaithful(cx, p, ttl);
    case TimedOut(_) => TimeoutFaithful(cx);
  }

  /** One event keeps a session faithful exactly when it is tidy. */
  lemma StepFaithful(n: Node, e: Event, k: u32)
    requires Inv(n) && Enabled(n, e) && Safe(n, e) && k in n.sess && k in Step(n, e).sess
    requires Faithful(n.sess[k])
    ensures Faithful(Step(n, e).sess[k]) <==> Tidy(n, e, k)
  {
    assert InOrder(n, k);
    if Concerns(e, k) {
      StepInv(n, e);
      HandledFaithful(n, e, k);
    } else {
      Elsewhere(n, e, k);
      UntouchedFaithful(n.sess[k], Step(n, e).sess[k]);
    }
  }

  lemma BornFaithful(n: Node, e: Event, k: u32)
    requires Enabled(n, e) && Safe(n, e) && k !in n.sess && k in Step(n, e).sess
    ensures Faithful(Step(n, e).sess[k])
  {
    if e.Writable? {
      DrainKeys(n);
    }
  }

  lemma {:induction false} DrainKeys(n: Node)
    requires QueueOk(n)
    ensures Drain(n).sess.Keys == n.sess.Keys
    decreases Backlog(n.tx)
  {
    if Pending(n.tx) && HasCapacity(n.tx) {
      DrainOneShrinks(n);
      DrainKeys(DrainOne(n));
    }
  }

  lemma RunFaithful(ns: seq<Node>, es: seq<Event>, i: nat, k: u32)
    requires IsRun(ns, es) && i < |es| && k in ns[i + 1].sess && Tidy(ns[i], es[i], k)
    requires k in ns[i].sess ==> Faithful(ns[i].sess[k])
    ensures Faithful(ns[i + 1].sess[k])
  {
    RunInv(ns, es, i);
    var n, e := ns[i], es[i];
    assert Follows(ns, es, i);
    if k in n.sess {
      StepFaithful(n, e, k);
    } else {
      BornFaithful(n, e, k);
    }
  }

  /** No user change is lost: in every run, as long as the events of a session are tidy, its latest
      configuration is in force, being polled or marked as queued, and there is a shutdown timer, one
      and with the pointer leading to it, exactly while shutting down. */
  lemma {:induction false} NoChangeLost(ns: seq<Node>, es: seq<Event>, i: nat, k: u32)
    requires IsRun(ns, es) && i < |ns| && k in ns[i].sess
    requires forall j :: 0 <= j < i ==> TidyAt(ns, es, j, k)
    ensures Faithful(ns[i].sess[k])
  {
    if i > 0 {
      if k in ns[i - 1].sess {
        NoChangeLost(ns, es, i - 1, k);
      }
      assert TidyAt(ns, es, i - 1, k);
      RunFaithful(ns, es, i - 1, k);
    }
  }

  /** Two closings are enough: whatever a faithful session is waiting for, when that is closed, and
      what it then waits for is closed too, the user's configuration is in force. */
  lemma TwoClosings(cx: Cx)
    requires Ready(cx.s) && Faithful(cx.s)
    ensures Ready(TimeoutCloses(cx).s)
    ensures var s := TimeoutCloses(TimeoutCloses(cx)).s;
            s.b.bstate.Stable? && s.b.eff == UserData(s.d) && UserData(s.d) == UserData(cx.s.d)
  {
    TimeoutClosesReady(cx);
    ClosingSettles(cx);
    var cx1 := TimeoutCloses(cx);
    TimeoutClosesFaithful(cx);
    ClosingSettles(cx1);
    TimeoutClosesFaithful(cx1);
  }

  /** Closing without a queued mark ends in Stable; with one it leaves no mark behind. */
  lemma ClosingSettles(cx: Cx)
    requires Ready(cx.s) && Faithful(cx.s)
    ensures var s := TimeoutCloses(cx).s;
            !s.b.qd && (!cx.s.b.qd ==> s.b.bstate.Stable?) && UserData(s.d) == UserData(cx.s.d)
  {
    if !cx.s.b.bstate.Stable? {
      var s := cx.s.(b := cx.s.b.(shwait := false));
      SettleReady(s);
      var t := WithPair(s, Settle(s.d, s.b));
      UpdateKeeps(cx.(s := t));
      assert !cx.s.b.bstate.ShuttingDown? ==> cx.s == s;
    }
  }

  // ---- Effective timing is held ----

  /** The event closes a poll or the shutdown wait of session k. */
  predicate Closes(n: Node, e: Event, k: u32)
    requires k in n.sess
  {
    var s := n.sess[k];
    match e
    case ShutdownEnd(j) => j == k
    case OrphanEnd(j, _) => j == k
    case TimedOut(j) => j == k && !s.b.bstate.Stable?
    case Receive(j, p, ttl) =>
      j == k && s.b.bstate.AwaitNonFinal? && Accepts(s, p, ttl) && !HasBit(Bits(p), BIT_FINAL)
    case _ => false
  }

  /** The session neither sends more slowly nor gives up on the peer sooner. */
  predicate NoLaxer(eff: BData, to: BData) {
    to.timing.minTx <= eff.timing.minTx && to.timing.minRx >= eff.timing.minRx
  }

  lemma HandleUpdateHeld(d: DSess, b: BSess)
    requires !b.bstate.OnHold? && d.local.st.state.Up?
    ensures NoLaxer(b.eff, HandleUpdate(d, b).b.eff)
  {
  }

  lemma PacketHeld(cx: Cx, p: Pkt, ttl: u8)
    requires Alive(cx.s) && !cx.s.b.bstate.OnHold?
    requires !(cx.s.b.bstate.AwaitNonFinal? && Accepts(cx.s, p, ttl) && !HasBit(Bits(p), BIT_FINAL))
    ensures HandlePacket(cx, p, ttl).s.b.eff == cx.s.b.eff
  {
    if Accepts(cx.s, p, ttl) {
      var r := ParsePacket(p, cx.s.d.remote).value;
      AbsorbKeeps(cx, r.remote);
      var cx1 := Absorb(cx, r.remote);
      var cx2 := if r.poll then AnswerPoll(cx1) else cx1;
      if cx2.s.b.bstate.AwaitFinal? && r.final {
        UpdateKeeps(cx2.(s := cx2.s.(b := cx2.s.b.(bstate := AwaitNonFinal))));
      }
    }
  }

  lemma HandledHeld(n: Node, e: Event, k: u32)
    requires Enabled(n, e) && !Stops(n, e) && Concerns(e, k) && Alive(n.sess[k])
    requires !n.sess[k].b.bstate.OnHold? && n.sess[k].d.local.st.state.Up? && !Closes(n, e, k)
    ensures Safe(n, e) && NoLaxer(n.sess[k].b.eff, Handled(n, e).s.b.eff)
  {
    EntryAlive(n, e);
    var cx := Entry(n, e);
    match e
    case User(_, to) =>
      var s := cx.s.(d := to);
      HandleUpdateHeld(to, s.b);
      HandleUpdateReady(s);
      UpdateKeeps(cx.(s := WithPair(s, HandleUpdate(to, s.b))));
    case Receive(_, p, ttl) => PacketHeld(cx, p, ttl);
    case TimedOut(_) => UpdateKeeps(cx.(s := cx.s.(d := Lapsed(cx.s.d))));
  }

  /** A step that closes nothing leaves an Up session's effective timing as strict as it was. */
  lemma StepHeld(n: Node, e: Event, k: u32)
    requires Inv(n) && Enabled(n, e) && Safe(n, e) && k in n.sess && k in Step(n, e).sess
    requires !n.sess[k].b.bstate.OnHold? && n.sess[k].d.local.st.state.Up? && !Closes(n, e, k)
    ensures NoLaxer(n.sess[k].b.eff, Step(n, e).sess[k].b.eff)
  {
    assert InOrder(n, k);
    if Concerns(e, k) {
      StepInv(n, e);
      HandledHeld(n, e, k);
    } else {
      Elsewhere(n, e, k);
    }
  }

  /** At step i, session k is Up, past hold, and nothing of it is closed. */
  predicate Holding(ns: seq<Node>, es: seq<Event>, i: nat, k: u32)
    requires |ns| == |es| + 1 && i < |es|
  {
    && k in ns[i].sess
    && !ns[i].sess[k].b.bstate.OnHold? && ns[i].sess[k].d.local.st.state.Up?
    && !Closes(ns[i], es[i], k)
  }

  lemma RunHeld(ns: seq<Node>, es: seq<Event>, i: nat, k: u32)
    requires IsRun(ns, es) && i < |es| && Holding(ns, es, i, k) && k in ns[i + 1].sess
    ensures NoLaxer(ns[i].sess[k].b.eff, ns[i + 1].sess[k].b.eff)
  {
    RunInv(ns, es, i);
    assert Follows(ns, es, i);
    StepHeld(ns[i], es[i], k);
  }

  /** Over any stretch of a run in which a session stays Up and nothing of it is closed, its
      effective transmit interval never rises and its required receive interval never falls,
      whatever the user asks for meanwhile. */
  lemma {:induction false} TimingHeld(ns: seq<Node>, es: seq<Event>, lo: nat, hi: nat, k: u32)
    requires IsRun(ns, es) && lo <= hi < |ns| && k in ns[lo].sess && k in ns[hi].sess
    requires forall i :: lo <= i < hi ==> Holding(ns, es, i, k)
    ensures NoLaxer(ns[lo].sess[k].b.eff, ns[hi].sess[k].b.eff)
    decreases hi
  {
    if lo < hi {
      assert Holding(ns, es, hi - 1, k);
      TimingHeld(ns, es, lo, hi - 1, k);
      RunHeld(ns, es, hi - 1, k);
    }
  }
}
