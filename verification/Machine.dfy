/** The handlers of one session together with the transmit side they share with the others: the
    deferred-injection queue, the socket accounting and the packets looping in the kernel. Every
    handler is a function on a context `Cx`; module Dataplane holds the imperative form. */
module Machine {
  import opened Basics
  import opened Packet
  import opened Sessions

  /** A deferred injection: the session and the flags stamped when it was queued. */
  datatype Slot = Slot(discr: u32, flags: bv8)

  /** A packet handed to the transmit socket: whose it is, the generation it is marked with, and
      its content. */
  datatype Loop = Loop(discr: u32, gen: nat, pkt: Pkt)

  /** The outcome of the kernel's route lookup. */
  datatype Route = NoLookup | Found(ifindex: u32) | Blackhole | Unreachable | Prohibited | NoForwarding
                 | NeedsEncap | NoNeighbour | TooBig | NoSource | NotForwarded

  /** What the kernel's helpers say of a packet: its route, whether its headers could be rewritten,
      whether it could be handed to the interface. */
  datatype Egress = Egress(route: Route, rewritten: bool, handed: bool)

  /** It leaves the host. */
  predicate Leaves(e: Egress, veth: u32) {
    e.route.Found? && e.route.ifindex != veth && e.rewritten && e.handed
  }

  /** The shared transmit state.
      - `sent` and `released` are the two halves of the pinned-packet count;
      - `egress(n)` is what the kernel's helpers say of the n-th Final, `tries` counts them, and
        `refused` counts those shot during sendmsg;
      - `peak` is the largest capacity there has been, `dropped` counts slots unlinked by session
        deletion, and `log` holds every packet handed to the wire: three history variables. */
  datatype Tx = Tx(veth: u32, cap: u32, finals: seq<Slot>, periodics: seq<Slot>, armed: bool,
                   enq: nat, deq: nat, dropped: nat,
                   sent: nat, released: nat, egress: nat -> Egress, tries: nat, refused: nat, peak: u32,
                   flight: seq<Loop>, log: seq<Loop>)

  /** One session and the shared transmit state. */
  datatype Cx = Cx(s: Sess, tx: Tx)

  // ---- Transmit primitives ----

  /** `bbdd_bpf_tx_pinned`: a 64-bit difference cut to 32 bits. */
  function Pinned(tx: Tx): u32 {
    (tx.sent - tx.released) % TWO_32
  }

  predicate HasCapacity(tx: Tx) {
    Pinned(tx) < tx.cap
  }

  predicate HasSlot(q: seq<Slot>, discr: u32) {
    exists i :: 0 <= i < |q| && q[i].discr == discr
  }

  lemma HasSlotCons(slot: Slot, q: seq<Slot>, discr: u32)
    ensures HasSlot([slot] + q, discr) <==> slot.discr == discr || HasSlot(q, discr)
  {
    assert ([slot] + q)[0] == slot;
    assert forall i :: 0 <= i < |q| ==> ([slot] + q)[i + 1] == q[i];
  }

  lemma HasSlotAppend(q: seq<Slot>, slot: Slot, discr: u32)
    ensures HasSlot(q + [slot], discr) <==> slot.discr == discr || HasSlot(q, discr)
  {
    assert (q + [slot])[|q|] == slot;
    assert forall i :: 0 <= i < |q| ==> (q + [slot])[i] == q[i];
  }

  function SendSpinner(tx: Tx, l: Loop): Tx {
    tx.(sent := tx.sent + 1, flight := tx.flight + [l], log := tx.log + [l])
  }

  /** Sendmsg does not fail: the Final left the host, or is swallowed for want of a neighbour. */
  predicate Taken(e: Egress, veth: u32) {
    e.route.NoNeighbour? || Leaves(e, veth)
  }

  /** A Final leaves the socket while sendmsg runs: it is redirected, or swallowed, or shot. When it
      is shot sendmsg fails, so only the release is counted. */
  function SendFinal(tx: Tx, l: Loop): Tx {
    if Taken(tx.egress(tx.tries), tx.veth) then
      tx.(sent := tx.sent + 1, released := tx.released + 1, tries := tx.tries + 1, log := tx.log + [l])
    else
      tx.(released := tx.released + 1, tries := tx.tries + 1, refused := tx.refused + 1)
  }

  /** A rearm packet is stolen at the other interface's egress while sendmsg runs. */
  function SendRearm(tx: Tx): Tx {
    tx.(sent := tx.sent + 1, released := tx.released + 1)
  }

  function EnqueuePeriodic(tx: Tx, slot: Slot): Tx {
    if HasSlot(tx.periodics, slot.discr) then tx.(armed := true)
    else tx.(periodics := tx.periodics + [slot], enq := tx.enq + 1, armed := true)
  }

  function EnqueueFinal(tx: Tx, slot: Slot): Tx {
    if HasSlot(tx.finals, slot.discr) then tx.(armed := true)
    else tx.(finals := tx.finals + [slot], enq := tx.enq + 1, armed := true)
  }

  // ---- Session primitives ----

  /** The facts every handler needs and keeps. */
  predicate Ready(s: Sess) {
    && WellFormed(s.d)
    && s.d.remote.timing.mult != 0
    && !s.b.bstate.OnHold?
    && GoodTiming(s.b.eff.timing)
    && (!s.b.bstate.Stable? || s.b.shwait ==> GoodTiming(s.b.dfr.timing))
  }

  function LoopWith(s: Sess, flags: bv8): Loop
    requires Ready(s)
  {
    Loop(s.d.local.discr, s.b.genId, PacketWith(s.d, s.b, flags))
  }

  function Spinner(s: Sess): Loop
    requires Ready(s)
  {
    LoopWith(s, InjectFlags(s.d, s.b))
  }

  /** The kernel restarts the detection timer when the configuration asks for it. */
  function KernelRearm(k: Kern): Kern {
    k.(timer := k.timer || k.conf.rearm)
  }

  function InjectRearm(cx: Cx): Cx {
    Cx(cx.s.(k := KernelRearm(cx.s.k)), SendRearm(cx.tx))
  }

  predicate NeedsRearm(s: Sess) {
    s.k.conf.rearm && s.b.period != s.k.conf.detect
  }

  /** The last part of an update: restart the timer when its period changed. */
  function Retime(cx: Cx): Cx {
    if NeedsRearm(cx.s) then
      var cx1 := InjectRearm(cx);
      cx1.(s := cx1.s.(b := cx1.s.b.(period := cx1.s.k.conf.detect)))
    else
      cx.(s := cx.s.(b := cx.s.b.(period := 0)))
  }

  /** The next generation, with the kernel's copy brought in line. */
  function Bump(veth: u32, s: Sess): Sess
    requires Ready(s)
  {
    var b := s.b.(genId := s.b.genId + 1);
    s.(b := b, k := s.k.(conf := Project(veth, s.d, b)))
  }

  predicate Defers(cx: Cx) {
    ShouldInject(cx.s.d, cx.s.b) && !HasCapacity(cx.tx)
  }

  /** The update itself: the next generation, its packet, and the timer. */
  function Refreshed(cx: Cx): Cx
    requires Ready(cx.s)
  {
    var s := Bump(cx.tx.veth, cx.s);
    Retime(Cx(s, if ShouldInject(s.d, s.b) then SendSpinner(cx.tx, Spinner(s)) else cx.tx))
  }

  /** `__bbdd_bpf_session_update`: retire the old packet by bumping the generation and send a new
      one, or, when the socket has no room for it, queue the whole update. */
  function Update(cx: Cx): Cx
    requires Ready(cx.s)
  {
    if Defers(cx) then
      cx.(tx := EnqueuePeriodic(cx.tx, Slot(cx.s.d.local.discr, InjectFlags(cx.s.d, cx.s.b))))
    else Refreshed(cx)
  }

  function InjectFinal(cx: Cx, flags: bv8): Cx
    requires Ready(cx.s)
  {
    cx.(tx := SendFinal(cx.tx, LoopWith(cx.s, flags)))
  }

  /** The answer to a Poll. */
  function AnswerPoll(cx: Cx): Cx
    requires Ready(cx.s)
  {
    if HasCapacity(cx.tx) then InjectFinal(cx, BIT_FINAL)
    else cx.(tx := EnqueueFinal(cx.tx, Slot(cx.s.d.local.discr, BIT_FINAL)))
  }

  function WithPair(s: Sess, p: Pair): Sess {
    s.(d := p.d, b := p.b)
  }

  lemma HandleUpdateReady(s: Sess)
    requires Ready(s)
    ensures Ready(WithPair(s, HandleUpdate(s.d, s.b)))
    ensures var p := HandleUpdate(s.d, s.b);
            p.d.local.discr == s.d.local.discr && p.b.genId == s.b.genId && p.b.hold == s.b.hold
  {
  }

  lemma SettleReady(s: Sess)
    requires Ready(s) && GoodTiming(s.b.dfr.timing)
    ensures Ready(WithPair(s, Settle(s.d, s.b)))
    ensures var p := Settle(s.d, s.b);
            p.d.local.discr == s.d.local.discr && p.b.genId == s.b.genId && p.b.hold == s.b.hold
  {
    var b := s.b.(eff := s.b.dfr, bstate := Stable, qd := false);
    HandleUpdateReady(s.(b := b));
  }

  // ---- Handlers ----

  function GotFinal(cx: Cx): Cx
    requires Ready(cx.s) && GoodTiming(cx.s.b.dfr.timing)
  {
    Update(cx.(s := cx.s.(b := cx.s.b.(bstate := AwaitNonFinal))))
  }

  function GotNonFinal(cx: Cx): Cx
    requires Ready(cx.s) && GoodTiming(cx.s.b.dfr.timing)
  {
    SettleReady(cx.s);
    Update(cx.(s := WithPair(cx.s, Settle(cx.s.d, cx.s.b))))
  }

  /** The shutdown wait is over. What the pointer leads to is cancelled, and the pointer cleared,
      before the poll is settled. */
  function ShwaitExpired(cx: Cx): Cx
    requires Ready(cx.s) && GoodTiming(cx.s.b.dfr.timing)
  {
    GotNonFinal(cx.(s := cx.s.(b := cx.s.b.(shwait := false))))
  }

  function Released(s: Sess): Sess {
    s.(b := s.b.(eff := UserData(s.d), bstate := Stable, hold := false), d := s.d.(holdTimeUs := 0))
  }

  function HoldExpired(cx: Cx): Cx
    requires WellFormed(cx.s.d) && cx.s.d.remote.timing.mult != 0 && !cx.s.b.shwait
  {
    Update(cx.(s := Released(cx.s)))
  }

  /** The user's new record `d` replaces the old one. On hold nothing else happens. */
  function UserUpdate(cx: Cx, d: DSess): Cx
    requires WellFormed(d) && d.remote.timing.mult != 0
    requires !cx.s.b.bstate.OnHold? ==> Ready(cx.s)
  {
    var s := cx.s.(d := d);
    if s.b.bstate.OnHold? then cx.(s := s)
    else
      HandleUpdateReady(s);
      Update(cx.(s := WithPair(s, HandleUpdate(d, s.b))))
  }

  /** A packet reaches the parser. */
  predicate Hears(s: Sess, ttl: u8) {
    && !s.b.bstate.OnHold? && !s.b.bstate.ShuttingDown?
    && !IsAdminDown(s.d)
    && s.d.ttl <= ttl
  }

  predicate Accepts(s: Sess, p: Pkt, ttl: u8) {
    Hears(s, ttl) && ParsePacket(p, s.d.remote).Ok?
  }

  /** History: one more packet was accepted. */
  function Count(s: Sess, remote: State): Sess {
    s.(accepted := s.accepted + 1, heardUp := s.heardUp || IsInitOrUp(remote))
  }

  /** The first half of an accepted packet: rearm, move the state machine, publish a change. */
  function Absorb(cx: Cx, remote: EndData): Cx
    requires Ready(cx.s) && remote.timing.mult != 0
  {
    var cx1 := InjectRearm(cx);
    var s1 := Count(cx1.s.(d := Received(cx.s.d, remote)), remote.st.state);
    if s1.d != cx.s.d then Update(cx1.(s := s1)) else cx1.(s := s1)
  }

  /** The session is what it was, but for its generation, its timer period and the kernel's side. */
  predicate Untouched(s: Sess, t: Sess) {
    && t.d == s.d && t.b.bstate == s.b.bstate && t.b.eff == s.b.eff && t.b.dfr == s.b.dfr
    && t.b.qd == s.b.qd && t.b.shwait == s.b.shwait && t.b.orphans == s.b.orphans && t.b.hold == s.b.hold
    && t.accepted == s.accepted && t.heardUp == s.heardUp && t.born == s.born && t.stale == s.stale
  }

  lemma RetimeKeeps(cx: Cx)
    ensures Untouched(cx.s, Retime(cx).s)
  {
  }

  lemma UpdateKeeps(cx: Cx)
    requires Ready(cx.s)
    ensures Ready(Update(cx).s) && Untouched(cx.s, Update(cx).s)
  {
    if !Defers(cx) {
      var s := Bump(cx.tx.veth, cx.s);
      RetimeKeeps(Cx(s, if ShouldInject(s.d, s.b) then SendSpinner(cx.tx, Spinner(s)) else cx.tx));
    }
  }

  /** The session after an accepted packet, before the update. */
  function Absorbed(s: Sess, remote: EndData): Sess {
    Count(s.(d := Received(s.d, remote)), remote.st.state)
  }

  lemma AbsorbKeeps(cx: Cx, remote: EndData)
    requires Ready(cx.s) && remote.timing.mult != 0
    ensures Ready(Absorb(cx, remote).s) && Untouched(Absorbed(cx.s, remote), Absorb(cx, remote).s)
  {
    var cx1 := InjectRearm(cx);
    UpdateKeeps(cx1.(s := Absorbed(cx1.s, remote)));
  }

  function HandlePacket(cx: Cx, p: Pkt, ttl: u8): Cx
    requires !cx.s.b.bstate.OnHold? ==> Ready(cx.s)
  {
    if !Accepts(cx.s, p, ttl) then cx
    else
      var r := ParsePacket(p, cx.s.d.remote).value;
      AbsorbKeeps(cx, r.remote);
      HandleBits(Absorb(cx, r.remote), r.poll, r.final)
  }

  /** What the Poll and Final bits of an accepted packet call for. */
  function HandleBits(cx: Cx, poll: bool, final: bool): Cx
    requires Ready(cx.s)
  {
    var cx1 := if poll then AnswerPoll(cx) else cx;
    if cx1.s.b.bstate.AwaitFinal? && final then GotFinal(cx1)
    else if cx1.s.b.bstate.AwaitNonFinal? && !final then GotNonFinal(cx1)
    else cx1
  }

  /** The detection time ran out. The first half closes whatever was being waited for. */
  function TimeoutCloses(cx: Cx): Cx
    requires Ready(cx.s)
  {
    match cx.s.b.bstate
    case Stable => cx
    case ShuttingDown => ShwaitExpired(cx)
    case AwaitFinal | AwaitNonFinal => GotNonFinal(cx)
  }

  lemma TimeoutClosesReady(cx: Cx)
    requires Ready(cx.s)
    ensures Ready(TimeoutCloses(cx).s)
  {
    if !cx.s.b.bstate.Stable? {
      var s := if cx.s.b.bstate.ShuttingDown? then cx.s.(b := cx.s.b.(shwait := false)) else cx.s;
      SettleReady(s);
      UpdateKeeps(cx.(s := WithPair(s, Settle(s.d, s.b))));
    }
  }

  function HandleTimeout(cx: Cx): Cx
    requires Ready(cx.s)
  {
    TimeoutClosesReady(cx);
    var cx1 := TimeoutCloses(cx);
    if IsInitOrUp(cx1.s.d.local.st.state) then Update(cx1.(s := cx1.s.(d := Lapsed(cx1.s.d)))) else cx1
  }
}
