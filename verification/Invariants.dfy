/** What every event keeps: the invariant of a dataplane, its preservation by each transmit
    primitive and handler, and the step function. */
module Invariants {
  import opened Basics
  import opened Packet
  import opened Intervals
  import opened Sessions
  import opened Machine
  import opened Nodes

  // ---- One session by itself ----

  predicate Core(s: Sess) {
    && WellFormed(s.d)
    && s.d.remote.timing.mult != 0
    && (s.b.bstate.OnHold? <==> s.b.hold)
    && (!s.b.bstate.OnHold? ==> Ready(s))
    && (s.b.qd ==> s.b.bstate.AwaitFinal? || s.b.bstate.AwaitNonFinal?)
    && (s.b.bstate.ShuttingDown? ==> s.b.shwait && s.b.dfr.shutdown && IsAdminDown(s.d))
    && s.k.conf.gen == s.b.genId
  }

  /** A session on hold has sent nothing, hears nothing and has no timer that could go off. */
  predicate Quiet(s: Sess) {
    && IsDown(s.d) && !s.b.shwait && s.b.orphans == 0 && !s.k.conf.rearm && !s.k.timer && s.b.genId == 0
  }

  /** What the two ends' states say of each other, and what must have been heard. */
  predicate Ends(s: Sess) {
    var l, r := s.d.local.st.state, s.d.remote.st.state;
    && (l.Init? ==> r.Down?)
    && (l.Up? ==> IsInitOrUp(r) && s.heardUp)
    && (IsInitOrUp(l) ==> s.accepted > 0)
  }

  predicate Alive(s: Sess) {
    Core(s) && Ends(s) && (s.b.bstate.OnHold? ==> Quiet(s))
  }

  // ---- One session and the transmit side ----

  predicate Mine(l: Loop, k: u32) { l.discr == k }

  predicate Live(l: Loop, k: u32, gen: nat) { l.discr == k && l.gen == gen }

  /** No packet is ahead of the session's generation and at most one is at it. */
  predicate OneLive(flight: seq<Loop>, k: u32, gen: nat) {
    && (forall i :: 0 <= i < |flight| && Mine(flight[i], k) ==> flight[i].gen <= gen)
    && (forall i, j :: 0 <= i < j < |flight| ==> !(Live(flight[i], k, gen) && Live(flight[j], k, gen)))
  }

  predicate NoneLive(flight: seq<Loop>, k: u32, gen: nat) {
    forall i :: 0 <= i < |flight| ==> !Live(flight[i], k, gen)
  }

  /** The kernel works from the session's present state and the wire carries its present packet. */
  predicate Synced(s: Sess, tx: Tx)
    requires Ready(s)
  {
    && s.k.conf == Project(tx.veth, s.d, s.b)
    && (ShouldInject(s.d, s.b) ==> Spinner(s) in tx.flight)
  }

  predicate SaysInitOrUp(l: Loop) { IsInitOrUp(StateField(l.pkt)) }

  /** The session announced Init or Up only after it had accepted a packet. */
  predicate Honest(s: Sess, log: seq<Loop>) {
    s.born <= |log|
    && forall i :: s.born <= i < |log| && Mine(log[i], s.d.local.discr) && SaysInitOrUp(log[i]) ==> s.accepted > 0
  }

  /** Holds while a handler runs. */
  predicate Mid(s: Sess, tx: Tx) {
    OneLive(tx.flight, s.d.local.discr, s.b.genId) && Honest(s, tx.log)
  }

  /** Holds between events. */
  predicate Settled(s: Sess, tx: Tx) {
    && Mid(s, tx)
    && (!s.b.bstate.OnHold? ==> Ready(s) && (Synced(s, tx) || HasSlot(tx.periodics, s.d.local.discr)))
    && (s.b.bstate.OnHold? || !ShouldInject(s.d, s.b) ==> NoneLive(tx.flight, s.d.local.discr, s.b.genId))
  }

  // ---- The transmit side by itself ----

  predicate Distinct(q: seq<Slot>) {
    forall i, j :: 0 <= i < j < |q| ==> q[i].discr != q[j].discr
  }

  predicate Accounts(tx: Tx) {
    && tx.sent + tx.refused == tx.released + |tx.flight|
    && |tx.flight| <= tx.peak + tx.refused
    && tx.cap <= tx.peak
    && tx.enq == tx.deq + Backlog(tx) + tx.dropped
    && (Pending(tx) ==> tx.armed)
    && Distinct(tx.finals) && Distinct(tx.periodics)
    && (forall i :: 0 <= i < |tx.finals| ==> tx.finals[i].flags == BIT_FINAL)
    && (forall i :: 0 <= i < |tx.flight| ==> MayLoop(tx.flight[i]))
  }

  /** What loops bears its session's discriminator and is no Final. */
  predicate MayLoop(l: Loop) {
    l.pkt.myDisc == l.discr && !HasBit(Bits(l.pkt), BIT_FINAL)
  }

  // ---- What a handler of session k may do to the transmit side ----

  /** New packets and slots are the session's own, and nothing is taken away. */
  predicate Extends(k: u32, tx: Tx, to: Tx) {
    && to.veth == tx.veth && to.cap == tx.cap && to.peak == tx.peak
    && tx.flight <= to.flight && (forall i :: |tx.flight| <= i < |to.flight| ==> Mine(to.flight[i], k))
    && tx.log <= to.log && (forall i :: |tx.log| <= i < |to.log| ==> Mine(to.log[i], k))
    && tx.periodics <= to.periodics && (forall i :: |tx.periodics| <= i < |to.periodics| ==> to.periodics[i].discr == k)
    && tx.finals <= to.finals && (forall i :: |tx.finals| <= i < |to.finals| ==> to.finals[i].discr == k)
    && tx.refused <= to.refused
  }

  lemma ExtendsTransitive(k: u32, a: Tx, b: Tx, c: Tx)
    requires Extends(k, a, b) && Extends(k, b, c)
    ensures Extends(k, a, c)
  {
  }

  /** Other sessions do not notice. */
  lemma OthersSettled(k: u32, s: Sess, tx: Tx, to: Tx)
    requires Extends(k, tx, to) && s.d.local.discr != k && Settled(s, tx)
    ensures Settled(s, to)
  {
    var j := s.d.local.discr;
    forall i | |tx.flight| <= i < |to.flight|
      ensures !Mine(to.flight[i], j)
    {
    }
    assert forall i :: 0 <= i < |tx.flight| ==> to.flight[i] == tx.flight[i];
    assert forall i :: 0 <= i < |tx.log| ==> to.log[i] == tx.log[i];
    if HasSlot(tx.periodics, j) {
      var i :| 0 <= i < |tx.periodics| && tx.periodics[i].discr == j;
      assert to.periodics[i].discr == j;
    }
  }

  // ---- Primitives ----

  lemma Room(tx: Tx)
    requires Accounts(tx) && HasCapacity(tx)
    ensures |tx.flight| + 1 <= tx.peak + tx.refused
  {
    var diff := tx.sent - tx.released;
    assert diff == |tx.flight| - tx.refused <= tx.peak;
    if diff >= 0 {
      assert diff % TWO_32 == diff;
    }
  }

  lemma FinalQueued(tx: Tx, slot: Slot)
    requires Accounts(tx) && slot.flags == BIT_FINAL
    ensures var to := EnqueueFinal(tx, slot); Accounts(to) && Extends(slot.discr, tx, to)
  {
  }

  lemma PeriodicQueued(tx: Tx, slot: Slot)
    requires Accounts(tx)
    ensures var to := EnqueuePeriodic(tx, slot);
            Accounts(to) && Extends(slot.discr, tx, to) && HasSlot(to.periodics, slot.discr)
  {
    HasSlotAppend(tx.periodics, slot, slot.discr);
  }

  lemma SpinnerAccounts(tx: Tx, l: Loop)
    requires Accounts(tx) && HasCapacity(tx) && MayLoop(l)
    ensures Accounts(SendSpinner(tx, l)) && Extends(l.discr, tx, SendSpinner(tx, l))
  {
    Room(tx);
  }

  lemma FinalAccounts(tx: Tx, l: Loop)
    requires Accounts(tx)
    ensures Accounts(SendFinal(tx, l)) && Extends(l.discr, tx, SendFinal(tx, l))
  {
  }

  lemma RearmAccounts(tx: Tx, k: u32)
    requires Accounts(tx)
    ensures Accounts(SendRearm(tx)) && Extends(k, tx, SendRearm(tx))
  {
  }

  /** A packet announces the state of its session. */
  lemma LoopSays(s: Sess, flags: bv8)
    requires Ready(s) && flags < 64
    ensures StateField(LoopWith(s, flags).pkt) == s.d.local.st.state
  {
    MakeThenRead(s.d.local.discr, Current(s.b).timing, s.d.local.st, s.d.remote.discr, flags);
  }

  lemma FlagsFit(d: DSess, b: BSess)
    requires !b.bstate.OnHold?
    ensures InjectFlags(d, b) < 64
  {
  }

  lemma SpinnerMayLoop(s: Sess)
    requires Ready(s)
    ensures MayLoop(Spinner(s))
  {
    var flags := InjectFlags(s.d, s.b);
    FlagsFit(s.d, s.b);
    MakeThenRead(s.d.local.discr, Current(s.b).timing, s.d.local.st, s.d.remote.discr, flags);
  }

  /** There is always some detection time. */
  lemma DetectPositive(s: Sess)
    requires Ready(s)
    ensures DetectTime(s.b.eff.timing.minRx, s.d.remote.timing.minTx, s.d.remote.timing.mult) != 0
  {
    var m := Max(s.b.eff.timing.minRx, s.d.remote.timing.minTx);
    assert m >= 1 && m * s.d.remote.timing.mult >= 1;
  }

  // ---- The update ----

  lemma BumpMid(cx: Cx)
    requires Alive(cx.s) && Ready(cx.s) && Mid(cx.s, cx.tx) && HasCapacity(cx.tx)
    ensures var s := Bump(cx.tx.veth, cx.s);
            Alive(s) && Ready(s) && Mid(s, SendSpinner(cx.tx, Spinner(s)))
            && Synced(s, SendSpinner(cx.tx, Spinner(s)))
  {
    var s := Bump(cx.tx.veth, cx.s);
    var l := Spinner(s);
    FlagsFit(s.d, s.b);
    LoopSays(s, InjectFlags(s.d, s.b));
    var flight := SendSpinner(cx.tx, l).flight;
    assert flight[|flight| - 1] == l;
    assert forall i :: 0 <= i < |cx.tx.flight| ==> flight[i] == cx.tx.flight[i];
  }

  lemma BumpSilent(cx: Cx)
    requires Alive(cx.s) && Ready(cx.s) && Mid(cx.s, cx.tx)
    ensures var s := Bump(cx.tx.veth, cx.s);
            Alive(s) && Ready(s) && Mid(s, cx.tx)
            && NoneLive(cx.tx.flight, s.d.local.discr, s.b.genId)
            && (!ShouldInject(s.d, s.b) ==> Synced(s, cx.tx))
  {
  }

  /** Neither the remembered period nor the kernel's timer nor an orphaned one matters to a session
      past hold. */
  function Retimed(s: Sess, period: u32, timer: bool, orphans: nat): Sess {
    s.(b := s.b.(period := period, orphans := orphans), k := s.k.(timer := timer))
  }

  lemma RetimedAlive(s: Sess, period: u32, timer: bool, orphans: nat)
    requires Alive(s) && Ready(s)
    ensures Alive(Retimed(s, period, timer, orphans)) && Ready(Retimed(s, period, timer, orphans))
  {
  }

  lemma RetimedSynced(s: Sess, tx: Tx, period: u32, timer: bool, orphans: nat)
    requires Ready(s)
    ensures var t := Retimed(s, period, timer, orphans);
            Ready(t) && (Synced(t, tx) <==> Synced(s, tx))
  {
    var t := Retimed(s, period, timer, orphans);
    assert Project(tx.veth, t.d, t.b) == Project(tx.veth, s.d, s.b);
    assert Spinner(t) == Spinner(s);
  }

  lemma RetimedSettled(s: Sess, tx: Tx, to: Tx, period: u32, timer: bool, orphans: nat)
    requires Ready(s) && Settled(s, tx)
    requires to.veth == tx.veth && to.flight == tx.flight && to.log == tx.log && to.periodics == tx.periodics
    ensures Settled(Retimed(s, period, timer, orphans), to)
  {
    RetimedSynced(s, tx, period, timer, orphans);
  }

  lemma RetimeSettled(cx: Cx)
    requires Alive(cx.s) && Ready(cx.s) && Settled(cx.s, cx.tx) && Accounts(cx.tx)
    ensures var to := Retime(cx);
            Alive(to.s) && Settled(to.s, to.tx) && Accounts(to.tx) && Extends(cx.s.d.local.discr, cx.tx, to.tx)
  {
    RearmAccounts(cx.tx, cx.s.d.local.discr);
    var to := Retime(cx);
    assert to.s == Retimed(cx.s, to.s.b.period, to.s.k.timer, to.s.b.orphans);
    RetimedAlive(cx.s, to.s.b.period, to.s.k.timer, to.s.b.orphans);
    RetimedSettled(cx.s, cx.tx, to.tx, to.s.b.period, to.s.k.timer, to.s.b.orphans);
  }

  lemma RefreshSettles(cx: Cx)
    requires Alive(cx.s) && Ready(cx.s) && Mid(cx.s, cx.tx) && Accounts(cx.tx) && !Defers(cx)
    ensures var to := Refreshed(cx);
            Alive(to.s) && Settled(to.s, to.tx) && Accounts(to.tx) && Extends(cx.s.d.local.discr, cx.tx, to.tx)
  {
    var s := Bump(cx.tx.veth, cx.s);
    BumpSilent(cx);
    if ShouldInject(s.d, s.b) {
      BumpMid(cx);
      var tx := SendSpinner(cx.tx, Spinner(s));
      SpinnerMayLoop(s);
      SpinnerAccounts(cx.tx, Spinner(s));
      RetimeSettled(Cx(s, tx));
      ExtendsTransitive(cx.s.d.local.discr, cx.tx, tx, Retime(Cx(s, tx)).tx);
    } else {
      RetimeSettled(Cx(s, cx.tx));
    }
  }

  /** Whatever a handler did to the session, an update leaves it in order with the kernel. */
  lemma UpdateSettles(cx: Cx)
    requires Alive(cx.s) && Ready(cx.s) && Mid(cx.s, cx.tx) && Accounts(cx.tx)
    ensures var to := Update(cx);
            Alive(to.s) && Ready(to.s) && Settled(to.s, to.tx) && Accounts(to.tx)
            && Extends(cx.s.d.local.discr, cx.tx, to.tx)
  {
    UpdateKeeps(cx);
    if Defers(cx) {
      PeriodicQueued(cx.tx, Slot(cx.s.d.local.discr, InjectFlags(cx.s.d, cx.s.b)));
    } else {
      RefreshSettles(cx);
    }
  }

  // ---- Handlers ----

  /** The invariant of one session in its context. */
  predicate Good(cx: Cx) {
    Alive(cx.s) && Settled(cx.s, cx.tx) && Accounts(cx.tx)
  }

  /** A handler keeps the invariant, the session's identity, and out of the others' way. */
  ghost predicate Keeps(cx: Cx, to: Cx) {
    && Good(to)
    && to.s.d.local.discr == cx.s.d.local.discr && to.s.born == cx.s.born && to.s.stale == cx.s.stale
    && cx.s.accepted <= to.s.accepted && (cx.s.heardUp ==> to.s.heardUp)
    && Extends(cx.s.d.local.discr, cx.tx, to.tx)
    && (to.s.b.bstate.OnHold? ==> cx.s.b.bstate.OnHold? && to.tx == cx.tx)
  }

  lemma KeepsTransitive(a: Cx, b: Cx, c: Cx)
    requires Keeps(a, b) && Keeps(b, c)
    ensures Keeps(a, c)
  {
    ExtendsTransitive(a.s.d.local.discr, a.tx, b.tx, c.tx);
  }

  /** The same session as far as identity and history go. */
  predicate Same(s: Sess, t: Sess) {
    && t.d.local.discr == s.d.local.discr && t.born == s.born && t.stale == s.stale && t.b.genId == s.b.genId
    && s.accepted <= t.accepted && (s.heardUp ==> t.heardUp)
  }

  lemma MidSame(s: Sess, t: Sess, tx: Tx)
    requires Mid(s, tx) && Same(s, t)
    ensures Mid(t, tx)
  {
  }

  /** A handler that changes the session to `s` and ends in an update. */
  lemma ChangeThenUpdate(cx: Cx, s: Sess)
    requires Good(cx) && Alive(s) && Ready(s) && Same(cx.s, s)
    ensures Keeps(cx, Update(cx.(s := s)))
  {
    MidSame(cx.s, s, cx.tx);
    UpdateSettles(cx.(s := s));
    UpdateKeeps(cx.(s := s));
  }

  lemma HandleUpdateAlive(s: Sess)
    requires Alive(s) && Ready(s)
    ensures var t := WithPair(s, HandleUpdate(s.d, s.b));
            Alive(t) && Ready(t) && Same(s, t)
  {
    HandleUpdateReady(s);
  }

  lemma SettleAlive(s: Sess, shwait: bool)
    requires Alive(s) && Ready(s) && GoodTiming(s.b.dfr.timing) && (shwait ==> s.b.shwait)
    ensures var b := s.b.(shwait := shwait);
            var t := WithPair(s, Settle(s.d, b));
            Alive(t) && Ready(t) && Same(s, t)
  {
    var b := s.b.(eff := s.b.dfr, bstate := Stable, shwait := shwait);
    if s.b.qd {
      HandleUpdateAlive(s.(b := b.(qd := false)));
    }
  }

  lemma GotNonFinalKeeps(cx: Cx)
    requires Good(cx) && Ready(cx.s) && GoodTiming(cx.s.b.dfr.timing)
    ensures Keeps(cx, GotNonFinal(cx))
  {
    SettleAlive(cx.s, cx.s.b.shwait);
    assert cx.s.b.(shwait := cx.s.b.shwait) == cx.s.b;
    ChangeThenUpdate(cx, WithPair(cx.s, Settle(cx.s.d, cx.s.b)));
  }

  lemma ShwaitExpiredKeeps(cx: Cx)
    requires Good(cx) && Ready(cx.s) && GoodTiming(cx.s.b.dfr.timing)
    ensures Keeps(cx, ShwaitExpired(cx))
  {
    SettleAlive(cx.s, false);
    ChangeThenUpdate(cx, WithPair(cx.s, Settle(cx.s.d, cx.s.b.(shwait := false))));
  }

  lemma GotFinalKeeps(cx: Cx)
    requires Good(cx) && Ready(cx.s) && cx.s.b.bstate.AwaitFinal?
    ensures Keeps(cx, GotFinal(cx))
  {
    ChangeThenUpdate(cx, cx.s.(b := cx.s.b.(bstate := AwaitNonFinal)));
  }

  lemma HoldExpiredKeeps(cx: Cx)
    requires Good(cx) && cx.s.b.bstate.OnHold?
    ensures Keeps(cx, HoldExpired(cx))
  {
    ChangeThenUpdate(cx, Released(cx.s));
  }

  lemma UserUpdateKeeps(cx: Cx, to: DSess)
    requires Good(cx) && UserMayChange(cx.s.d, to)
    ensures Keeps(cx, UserUpdate(cx, to))
  {
    var s := cx.s.(d := to);
    assert Same(cx.s, s);
    if s.b.bstate.OnHold? {
      assert Alive(s);
      MidSame(cx.s, s, cx.tx);
    } else {
      assert Alive(s) && Ready(s);
      HandleUpdateAlive(s);
      ChangeThenUpdate(cx, WithPair(s, HandleUpdate(s.d, s.b)));
    }
  }

  /** Rearming and counting leave a settled session settled. */
  lemma CountSettled(cx: Cx, remote: State)
    requires Good(cx) && Ready(cx.s)
    ensures Keeps(cx, Cx(Count(InjectRearm(cx).s, remote), InjectRearm(cx).tx))
  {
    var cx1 := InjectRearm(cx);
    RearmAccounts(cx.tx, cx.s.d.local.discr);
    assert cx1.s == Retimed(cx.s, cx.s.b.period, cx1.s.k.timer, cx1.s.b.orphans);
    RetimedAlive(cx.s, cx.s.b.period, cx1.s.k.timer, cx1.s.b.orphans);
    RetimedSettled(cx.s, cx.tx, cx1.tx, cx.s.b.period, cx1.s.k.timer, cx1.s.b.orphans);
    var s := Count(cx1.s, remote);
    assert Alive(s);
    MidSame(cx1.s, s, cx1.tx);
    if Synced(cx1.s, cx1.tx) {
      assert Spinner(s) == Spinner(cx1.s);
      assert Synced(s, cx1.tx);
    }
  }

  lemma ReceivedAlive(s: Sess, remote: EndData)
    requires Alive(s) && Ready(s) && remote.timing.mult != 0 && !IsAdminDown(s.d)
    ensures var t := Count(s.(d := Received(s.d, remote)), remote.st.state);
            Alive(t) && Ready(t) && Same(s, t)
  {
  }

  lemma AbsorbOk(cx: Cx, remote: EndData)
    requires Good(cx) && Ready(cx.s) && remote.timing.mult != 0 && !IsAdminDown(cx.s.d)
    ensures Keeps(cx, Absorb(cx, remote))
  {
    var cx1 := InjectRearm(cx);
    CountSettled(cx, remote.st.state);
    var cx2 := Cx(Count(cx1.s, remote.st.state), cx1.tx);
    var s1 := Count(cx1.s.(d := Received(cx.s.d, remote)), remote.st.state);
    if s1.d != cx.s.d {
      assert Alive(cx1.s) by { RetimedAlive(cx.s, cx.s.b.period, cx1.s.k.timer, cx1.s.b.orphans); }
      ReceivedAlive(cx1.s, remote);
      ChangeThenUpdate(cx2, s1);
      assert cx2.(s := s1) == cx1.(s := s1);
      KeepsTransitive(cx, cx2, Update(cx1.(s := s1)));
    } else {
      assert cx2 == cx1.(s := s1);
    }
  }

  lemma AnswerPollKeeps(cx: Cx)
    requires Good(cx) && Ready(cx.s)
    ensures Keeps(cx, AnswerPoll(cx)) && AnswerPoll(cx).s == cx.s
  {
    if HasCapacity(cx.tx) {
      InjectFinalKeeps(cx, BIT_FINAL);
    } else {
      FinalQueued(cx.tx, Slot(cx.s.d.local.discr, BIT_FINAL));
    }
  }

  lemma InjectFinalKeeps(cx: Cx, flags: bv8)
    requires Good(cx) && Ready(cx.s) && flags < 64
    ensures Keeps(cx, InjectFinal(cx, flags))
  {
    LoopSays(cx.s, flags);
    FinalAccounts(cx.tx, LoopWith(cx.s, flags));
  }

  lemma HandlePacketKeeps(cx: Cx, p: Pkt, ttl: u8)
    requires Good(cx)
    ensures Keeps(cx, HandlePacket(cx, p, ttl))
  {
    if Accepts(cx.s, p, ttl) {
      var r := ParsePacket(p, cx.s.d.remote).value;
      AbsorbKeeps(cx, r.remote);
      AbsorbOk(cx, r.remote);
      var cx1 := Absorb(cx, r.remote);
      AnswerPollKeeps(cx1);
      var cx2 := if r.poll then AnswerPoll(cx1) else cx1;
      KeepsTransitive(cx, cx1, cx2);
      if cx2.s.b.bstate.AwaitFinal? && r.final {
        GotFinalKeeps(cx2);
        KeepsTransitive(cx, cx2, GotFinal(cx2));
      } else if cx2.s.b.bstate.AwaitNonFinal? && !r.final {
        GotNonFinalKeeps(cx2);
        KeepsTransitive(cx, cx2, GotNonFinal(cx2));
      }
    }
  }

  lemma TimeoutClosesKeeps(cx: Cx)
    requires Good(cx) && Ready(cx.s)
    ensures Keeps(cx, TimeoutCloses(cx)) && Ready(TimeoutCloses(cx).s)
  {
    TimeoutClosesReady(cx);
    if cx.s.b.bstate.ShuttingDown? {
      ShwaitExpiredKeeps(cx);
    } else if !cx.s.b.bstate.Stable? {
      GotNonFinalKeeps(cx);
    }
  }

  lemma HandleTimeoutKeeps(cx: Cx)
    requires Good(cx) && Ready(cx.s)
    ensures Keeps(cx, HandleTimeout(cx))
  {
    TimeoutClosesKeeps(cx);
    var cx1 := TimeoutCloses(cx);
    if IsInitOrUp(cx1.s.d.local.st.state) {
      var s := cx1.s.(d := Lapsed(cx1.s.d));
      ChangeThenUpdate(cx1, s);
      KeepsTransitive(cx, cx1, Update(cx1.(s := s)));
    }
  }
}
