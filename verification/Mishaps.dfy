/** Runs that go wrong, step by step: each is a run of the source's own handlers from the empty
    dataplane. */
module Mishaps {
  import opened Basics
  import opened Packet
  import opened Sessions
  import opened Machine
  import opened Nodes
  import opened Invariants
  import opened Runs
  import opened Conduct

  // ---- One step at a time ----

  /** A node with the session at hand. */
  ghost predicate Has(n: Node, k: u32) {
    Reached(n) && k in n.sess
  }

  function Changed(s: Sess, to: DSess): Sess
    requires !s.b.bstate.OnHold?
  {
    WithPair(s, HandleUpdate(to, s.b))
  }

  lemma UserEffect(cx: Cx, to: DSess)
    requires Ready(cx.s) && UserMayChange(cx.s.d, to)
    ensures Untouched(Changed(cx.s, to), UserUpdate(cx, to).s)
  {
    var s := cx.s.(d := to);
    HandleUpdateReady(s);
    UpdateKeeps(Cx(WithPair(s, HandleUpdate(to, s.b)), cx.tx));
  }

  lemma UserStep(n: Node, k: u32, to: DSess) returns (m: Node)
    requires Has(n, k) && !n.sess[k].b.bstate.OnHold? && UserMayChange(n.sess[k].d, to)
    ensures Has(m, k) && m.env == n.env && m.expired == n.expired && |m.sess| == |n.sess|
    ensures Untouched(Changed(n.sess[k], to), m.sess[k])
  {
    var e := User(k, to);
    Advances(n, e);
    m := Step(n, e);
    UserEffect(Cxt(n, k), to);
    assert m.sess.Keys == n.sess.Keys;
    assert |m.sess| == |m.sess.Keys| && |n.sess| == |n.sess.Keys|;
  }

  /** A poll that has nothing queued is closed. */
  function Closed(s: Sess): Sess {
    s.(b := s.b.(eff := s.b.dfr, bstate := Stable))
  }

  lemma TimeoutEffect(cx: Cx)
    requires Ready(cx.s) && cx.s.b.bstate.AwaitFinal? && !cx.s.b.qd && IsAdminDown(cx.s.d)
    ensures Untouched(Closed(cx.s), HandleTimeout(cx).s)
  {
    SettleReady(cx.s);
    UpdateKeeps(cx.(s := WithPair(cx.s, Settle(cx.s.d, cx.s.b))));
  }

  lemma TimeoutStep(n: Node, k: u32) returns (m: Node)
    requires Has(n, k) && k in n.expired
    requires n.sess[k].b.bstate.AwaitFinal? && !n.sess[k].b.qd && IsAdminDown(n.sess[k].d)
    ensures Has(m, k) && Untouched(Closed(n.sess[k]), m.sess[k])
  {
    var e := TimedOut(k);
    Advances(n, e);
    m := Step(n, e);
    TimeoutEffect(Cxt(n, k));
  }

  // ---- A shutdown timer gets lost ----

  function Switched(d: DSess, shutdown: bool): DSess {
    d.(local := d.local.(flags := d.local.flags.(shutdown := shutdown)))
  }

  function Retuned(d: DSess, minTx: u32): DSess {
    d.(local := d.local.(timing := d.local.timing.(minTx := minTx)))
  }

  /** The user's data are the ones at hand, with shutdown on or off, and a shutdown timer is pending. */
  predicate Pends(s: Sess, data: BData, shutdown: bool) {
    WellFormed(s.d) && UserData(s.d) == data && data.shutdown == shutdown && s.b.shwait && !s.b.qd
  }

  predicate Strayed(s: Sess, orphans: nat) {
    s.b.bstate.AwaitFinal? && Pends(s, s.b.dfr, true) && s.b.orphans == orphans && IsAdminDown(s.d)
  }

  predicate Idle(s: Sess, shutdown: bool, orphans: nat) {
    s.b.bstate.Stable? && Pends(s, s.b.eff, shutdown) && s.b.orphans == orphans && !s.d.local.st.state.Up?
  }

  predicate Ending(s: Sess, orphans: nat) {
    s.b.bstate.ShuttingDown? && Pends(s, s.b.dfr, true) && s.b.orphans == orphans && IsAdminDown(s.d)
  }

  lemma Strays(s: Sess, minTx: u32, t: Sess)
    requires Ending(s, 0) && minTx != 0 && minTx != s.d.local.timing.minTx
    requires Untouched(Changed(s, Retuned(s.d, minTx)), t)
    ensures Strayed(t, 0)
  {
  }

  lemma Idles(s: Sess, t: Sess)
    requires Strayed(s, 0) && Untouched(Closed(s), t)
    ensures Idle(t, true, 0)
  {
  }

  lemma Reopens(s: Sess, t: Sess)
    requires Idle(s, true, 0) && Untouched(Changed(s, Switched(s.d, false)), t)
    ensures Idle(t, false, 0)
  {
  }

  lemma Restarts(s: Sess, t: Sess)
    requires Idle(s, false, 0) && Untouched(Changed(s, Switched(s.d, true)), t)
    ensures Ending(t, 1)
  {
  }

  lemma Relents(s: Sess, t: Sess)
    requires Ending(s, 1) && Untouched(Changed(s, Switched(s.d, false)), t)
    ensures !t.b.shwait && t.b.orphans == 1
  {
  }

  /** From every session that is shutting down with an expiry waiting: new timing, the expiry, shutdown
      off and on again leave a timer the pointer does not lead to. */
  lemma TimerLost(n: Node, k: u32, minTx: u32) returns (m: Node)
    requires Has(n, k) && k in n.expired && Ending(n.sess[k], 0)
    requires minTx != 0 && minTx != n.sess[k].d.local.timing.minTx
    ensures Has(m, k) && Ending(m.sess[k], 1)
  {
    var m1 := UserStep(n, k, Retuned(n.sess[k].d, minTx));
    Strays(n.sess[k], minTx, m1.sess[k]);
    var m2 := TimeoutStep(m1, k);
    Idles(m1.sess[k], m2.sess[k]);
    var m3 := UserStep(m2, k, Switched(m2.sess[k].d, false));
    Reopens(m2.sess[k], m3.sess[k]);
    m := UserStep(m3, k, Switched(m3.sess[k].d, true));
    Restarts(m3.sess[k], m.sess[k]);
  }

  /** Shutdown off once more, and the lost timer finds no pointer to follow. */
  lemma LostTimerStops(n: Node, k: u32, minTx: u32) returns (m: Node)
    requires Has(n, k) && k in n.expired && Ending(n.sess[k], 0)
    requires minTx != 0 && minTx != n.sess[k].d.local.timing.minTx
    ensures Has(m, k) && Enabled(m, OrphanEnd(k, false)) && !Safe(m, OrphanEnd(k, false))
  {
    var m1 := TimerLost(n, k, minTx);
    m := UserStep(m1, k, Switched(m1.sess[k].d, false));
    Relents(m1.sess[k], m.sess[k]);
  }

  /** Or the session is deleted, and the lost timer finds no session. */
  lemma DeletedTimerStops(n: Node, k: u32, minTx: u32) returns (m: Node)
    requires Has(n, k) && k in n.expired && Ending(n.sess[k], 0)
    requires minTx != 0 && minTx != n.sess[k].d.local.timing.minTx
    ensures Reached(m) && Enabled(m, DanglingEnd) && !Safe(m, DanglingEnd)
  {
    var m1 := TimerLost(n, k, minTx);
    Advances(m1, Del(k));
    m := Step(m1, Del(k));
  }

  // ---- The first packet ----

  const ROOM: u32 := 16

  /** The peer's first packet, with or without a Poll. */
  function Hello(k: u32, poll: bool): Pkt {
    MakePacket(1, Timing(1, 1, 1), EndState(Down, DIAG_NOTHING), k, FlagBits(poll, false, false))
  }

  lemma HelloParses(k: u32, poll: bool, remote: EndData)
    ensures var r := ParsePacket(Hello(k, poll), remote);
            r.Ok? && r.value.poll == poll && !r.value.final
            && r.value.remote.timing == Timing(1, 1, 1) && r.value.remote.st.state.Down?
  {
    MakeThenRead(1, Timing(1, 1, 1), EndState(Down, DIAG_NOTHING), k, FlagBits(poll, false, false));
    FlagBitsRead(poll, false, false);
  }

  /** Few packets have been sent, all that came out again have been released, and no Final yet. */
  predicate Calm(tx: Tx, sent: nat) {
    tx.cap == ROOM && tx.tries == 0 && tx.refused == 0 && 0 <= tx.sent - tx.released <= sent
  }

  /** With room, an update that turns the detection timer on starts it. */
  lemma UpdateStarts(cx: Cx, sent: nat)
    requires Ready(cx.s) && Calm(cx.tx, sent) && sent < ROOM
    ensures Calm(Update(cx).tx, sent + 1)
    ensures Update(cx).tx.egress == cx.tx.egress && Update(cx).tx.veth == cx.tx.veth
    ensures var conf := Update(cx).s.k.conf; conf.rearm == (!IsDown(cx.s.d) && !IsAdminDown(cx.s.d))
    ensures cx.s.b.period == 0 && Update(cx).s.k.conf.rearm ==> Update(cx).s.k.timer
    ensures !Update(cx).s.k.conf.rearm ==> Update(cx).s.b.period == 0
  {
    assert HasCapacity(cx.tx);
    DetectPositive(cx.s);
  }

  /** Past hold, settled, nothing pending, with the user's data of `d` in force. */
  predicate Settles(s: Sess, d: DSess) {
    && Ready(s) && s.b.bstate.Stable? && !s.b.shwait && s.b.orphans == 0 && !s.b.qd
    && UserData(s.d) == UserData(d) == s.b.eff && s.d.local.discr == d.local.discr
  }

  lemma HoldEffect(cx: Cx, d: DSess)
    requires Fresh(d) && Calm(cx.tx, 0) && cx.s == NewSess(d, cx.s.born, cx.s.stale)
    ensures var to := HoldExpired(cx);
            && Settles(to.s, d) && IsDown(to.s.d) && to.s.b.period == 0 && Calm(to.tx, 1)
            && to.tx.egress == cx.tx.egress && to.tx.veth == cx.tx.veth
  {
    var cx1 := cx.(s := Released(cx.s));
    UpdateKeeps(cx1);
    UpdateStarts(cx1, 0);
  }

  lemma AbsorbEffect(cx: Cx, d: DSess, remote: EndData)
    requires Settles(cx.s, d) && IsDown(cx.s.d) && cx.s.b.period == 0 && Calm(cx.tx, 1)
    requires remote.st.state.Down? && remote.timing.mult != 0
    ensures var to := Absorb(cx, remote);
            && Settles(to.s, d) && to.s.d.local.st.state.Init? && to.s.k.timer && Calm(to.tx, 2)
            && to.tx.egress == cx.tx.egress && to.tx.veth == cx.tx.veth
  {
    AbsorbKeeps(cx, remote);
    var cx1 := InjectRearm(cx);
    UpdateStarts(cx1.(s := Absorbed(cx1.s, remote)), 1);
  }

  /** Sendmsg fails for the n-th Final. */
  predicate Fails(egress: nat -> Egress, n: nat, veth: u32) {
    !Taken(egress(n), veth)
  }

  lemma PacketEffect(cx: Cx, d: DSess, poll: bool)
    requires Settles(cx.s, d) && IsDown(cx.s.d) && cx.s.b.period == 0 && Calm(cx.tx, 1)
    ensures var to := HandlePacket(cx, Hello(d.local.discr, poll), 255);
            && Settles(to.s, d) && to.s.d.local.st.state.Init? && to.s.k.timer
            && to.tx.refused == if poll && Fails(cx.tx.egress, 0, cx.tx.veth) then 1 else 0
  {
    var p := Hello(d.local.discr, poll);
    HelloParses(d.local.discr, poll, cx.s.d.remote);
    var r := ParsePacket(p, cx.s.d.remote).value;
    AbsorbEffect(cx, d, r.remote);
    assert HasCapacity(Absorb(cx, r.remote).tx);
  }

  lemma Added(d: DSess, veth: u32, egress: nat -> Egress) returns (n: Node)
    requires Fresh(d)
    ensures Has(n, d.local.discr) && n.env == ROOM && n.sess.Keys == {d.local.discr} && n.expired == multiset{}
    ensures n.sess[d.local.discr] == NewSess(d, 0, false) && Calm(n.tx, 0) && n.tx.egress == egress && n.tx.veth == veth
  {
    var n0 := Empty(ROOM, veth, egress);
    EmptyReached(ROOM, veth, egress);
    Advances(n0, Add(d));
    n := Step(n0, Add(d));
  }

  lemma HoldOver(d: DSess, veth: u32, egress: nat -> Egress) returns (n: Node)
    requires Fresh(d)
    ensures var k := d.local.discr;
            && Has(n, k) && n.env == ROOM && n.sess.Keys == {k} && n.expired == multiset{}
            && Settles(n.sess[k], d) && IsDown(n.sess[k].d) && n.sess[k].b.period == 0
            && Calm(n.tx, 1) && n.tx.egress == egress && n.tx.veth == veth
  {
    var n1 := Added(d, veth, egress);
    var k := d.local.discr;
    Advances(n1, HoldEnd(k));
    n := Step(n1, HoldEnd(k));
    HoldEffect(Cxt(n1, k), d);
  }

  /** For every new session, its hold time's end and one packet bring it to Init with the detection
      timer running, and a Final that sendmsg fails to send if the packet polled and the kernel had no
      way for the answer. */
  lemma FirstPacket(d: DSess, veth: u32, egress: nat -> Egress, poll: bool) returns (n: Node)
    requires Fresh(d)
    ensures var k := d.local.discr;
            && Has(n, k) && n.env == ROOM && n.sess.Keys == {k} && n.expired == multiset{}
            && Settles(n.sess[k], d) && n.sess[k].d.local.st.state.Init? && n.sess[k].k.timer
            && n.tx.refused == if poll && Fails(egress, 0, veth) then 1 else 0
  {
    var n1 := HoldOver(d, veth, egress);
    var k := d.local.discr;
    var e := Receive(k, Hello(k, poll), 255);
    Advances(n1, e);
    n := Step(n1, e);
    PacketEffect(Cxt(n1, k), d, poll);
  }

  /** The counters do lose track: every new session has such a run. */
  lemma RefusedFinal(d: DSess, veth: u32, egress: nat -> Egress) returns (n: Node)
    requires Fresh(d) && Fails(egress, 0, veth)
    ensures Reached(n) && n.tx.refused == 1 && n.tx.sent - n.tx.released == |n.tx.flight| - 1
  {
    n := FirstPacket(d, veth, egress, true);
    ReachedInv(n);
  }

  lemma Expires(d: DSess, veth: u32, egress: nat -> Egress) returns (n: Node)
    requires Fresh(d)
    ensures var k := d.local.discr;
            Has(n, k) && n.env == ROOM && n.sess.Keys == {k} && k in n.expired && Settles(n.sess[k], d)
  {
    var n1 := FirstPacket(d, veth, egress, false);
    var k := d.local.discr;
    Advances(n1, TimerFires(k));
    n := Step(n1, TimerFires(k));
  }

  // ---- The whole of it ----

  lemma Ends(s: Sess, d: DSess, t: Sess)
    requires Settles(s, d) && !d.local.flags.shutdown && Untouched(Changed(s, Switched(s.d, true)), t)
    ensures Ending(t, 0)
  {
  }

  /** For every session that can be added there is a run that ends with its shutdown timer about to
      follow a pointer that is not set. */
  lemma UntidyRunStops(d: DSess, veth: u32, egress: nat -> Egress) returns (m: Node)
    requires Fresh(d) && !d.local.flags.shutdown
    ensures Reached(m) && Enabled(m, OrphanEnd(d.local.discr, false)) && !Safe(m, OrphanEnd(d.local.discr, false))
  {
    var k := d.local.discr;
    var n := Expires(d, veth, egress);
    var n1 := UserStep(n, k, Switched(n.sess[k].d, true));
    Ends(n.sess[k], d, n1.sess[k]);
    var minTx: u32 := if n1.sess[k].d.local.timing.minTx == 1 then 2 else 1;
    m := LostTimerStops(n1, k, minTx);
  }

  // ---- An enabled session stays down ----

  /** Settled and AdminDown, with the user's data in force. */
  predicate Resting(s: Sess, shutdown: bool) {
    && s.b.bstate.Stable? && s.b.eff == UserData(s.d) && s.b.eff.shutdown == shutdown
    && IsAdminDown(s.d) && !s.b.qd && WellFormed(s.d)
  }

  lemma RestEffect(cx: Cx)
    requires Ready(cx.s) && Waiting(cx.s.b) && cx.s.b.qd && cx.s.b.dfr == UserData(cx.s.d)
    ensures var t := TimeoutCloses(cx).s;
            t.d == cx.s.d && t.b.bstate == Stable && t.b.eff == UserData(cx.s.d) && !t.b.qd
  {
    SettleReady(cx.s);
    UpdateKeeps(cx.(s := WithPair(cx.s, Settle(cx.s.d, cx.s.b))));
  }

  /** The change itself. */
  lemma Noted(n: Node, k: u32, to: DSess) returns (m: Node)
    requires Has(n, k) && UserMayChange(n.sess[k].d, to) && !to.local.flags.shutdown
    requires IsAdminDown(n.sess[k].d) && Waiting(n.sess[k].b) && n.sess[k].b.dfr.shutdown
    ensures Has(m, k) && m.expired == n.expired && m.sess[k].d == to
    ensures Waiting(m.sess[k].b) && m.sess[k].b.qd && m.sess[k].b.dfr == UserData(to)
  {
    UserMeans(n, k, to);
    Advances(n, User(k, to));
    m := Step(n, User(k, to));
  }

  /** From every reachable AdminDown session that polls with shutdown in its data: whatever change takes
      shutdown away is put into the polled data at once and noted, and when the poll closes there is
      nothing left to enable. The session is settled, enabled and AdminDown. */
  lemma EnableLost(n: Node, k: u32, to: DSess) returns (m: Node)
    requires Has(n, k) && k in n.expired && UserMayChange(n.sess[k].d, to) && !to.local.flags.shutdown
    requires IsAdminDown(n.sess[k].d) && Waiting(n.sess[k].b) && n.sess[k].b.dfr.shutdown
    ensures Has(m, k) && m.sess[k].d == to && Resting(m.sess[k], false)
  {
    var m1 := Noted(n, k, to);
    ReachedAlive(m1, k);
    Advances(m1, TimedOut(k));
    m := Step(m1, TimedOut(k));
    RestEffect(Cxt(m1, k));
  }

  /** For every session that can be added there is such a run: shut down, the wait waited out, new timing,
      shutdown off. */
  lemma EnabledStaysDown(d: DSess, veth: u32, egress: nat -> Egress) returns (m: Node)
    requires Fresh(d) && !d.local.flags.shutdown
    ensures Has(m, d.local.discr) && Resting(m.sess[d.local.discr], false)
  {
    var k := d.local.discr;
    var n := Expires(d, veth, egress);
    var n1 := UserStep(n, k, Switched(n.sess[k].d, true));
    Ends(n.sess[k], d, n1.sess[k]);
    ShutdownEndMeans(n1, k);
    Advances(n1, ShutdownEnd(k));
    var n2 := Step(n1, ShutdownEnd(k));
    var s := n2.sess[k];
    var to := Retuned(s.d, if s.d.local.timing.minTx == 1 then 2 else 1);
    UserMeans(n2, k, to);
    var n3 := UserStep(n2, k, to);
    m := EnableLost(n3, k, Switched(n3.sess[k].d, false));
  }

  // ---- An expiry outlives its session ----

  /** Packets of a session that is gone are retired one by one. */
  lemma {:induction false} Clears(n: Node, k: u32) returns (m: Node)
    requires Reached(n) && k !in n.sess
    ensures Reached(m) && m.sess == n.sess && m.env == n.env && m.expired == n.expired && m.tx.cap == n.tx.cap
    ensures forall i :: 0 <= i < |m.tx.flight| ==> !Mine(m.tx.flight[i], k)
    decreases |n.tx.flight|
  {
    if i :| 0 <= i < |n.tx.flight| && Mine(n.tx.flight[i], k) {
      Advances(n, Spin(i));
      m := Clears(Step(n, Spin(i)), k);
    } else {
      m := n;
    }
  }

  /** From every state with an expiry of a session waiting: the session is deleted, its packets are
      retired, the discriminator is given to a new session, and the expiry meets it on hold. */
  lemma ExpiryOutlives(n: Node, k: u32, d: DSess) returns (m: Node)
    requires Has(n, k) && k in n.expired && Fresh(d) && d.local.discr == k
    requires Affordable(Wanted(n.env, |n.sess|))
    ensures Reached(m) && Enabled(m, TimedOut(k)) && !Safe(m, TimedOut(k)) && m.sess[k].stale
  {
    Advances(n, Del(k));
    var n1 := Step(n, Del(k));
    var n2 := Clears(n1, k);
    assert n2.sess == n.sess - {k};
    assert n.sess.Keys == n2.sess.Keys + {k};
    assert |n2.sess| + 1 == |n.sess| by { assert |n2.sess.Keys| + 1 == |n.sess.Keys|; }
    Advances(n2, Add(d));
    m := Step(n2, Add(d));
  }

  /** So for every session that can be added there is a run that ends so. */
  lemma ReuseStops(d: DSess, veth: u32, egress: nat -> Egress) returns (m: Node)
    requires Fresh(d)
    ensures Reached(m) && Enabled(m, TimedOut(d.local.discr)) && !Safe(m, TimedOut(d.local.discr))
  {
    var n := Expires(d, veth, egress);
    m := ExpiryOutlives(n, d.local.discr, d);
  }
}
