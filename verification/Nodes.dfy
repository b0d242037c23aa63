/** A whole dataplane: any number of sessions over one transmit socket, and every event that can
    reach it. A run is a sequence of enabled events from the empty dataplane. */
module Nodes {
  import opened Basics
  import opened Packet
  import opened Sessions
  import opened Machine

  /** `expired` holds the expiries that wait in the ring buffer, each naming a discriminator;
      `dangling` counts the orphaned shutdown timers of deleted sessions. */
  datatype Node = Node(env: u32, sess: map<u32, Sess>, tx: Tx, expired: multiset<u32>, dangling: nat)

  /** - `Add`, `Del`, `User`: requests of the user, already validated;
      - `HoldEnd`, `ShutdownEnd`: userspace timers of a session;
      - `OrphanEnd`: a shutdown timer the session's pointer does not lead to; `behind` says whether
        the timer it does lead to is the next in the timer list;
      - `DanglingEnd`: a shutdown timer whose session is gone;
      - `Receive`: a packet reaches the session's slow path, from whomever and however late;
      - `Expect`: the kernel saw exactly the packet it expected;
      - `TimerFires`: the kernel's detection timer puts an expiry into the ring buffer;
      - `TimedOut`, `Unheard`: userspace takes one out, and finds a session to it or not;
      - `Spin`: a looping packet passes the kernel program once more;
      - `Writable`: the transmit socket polls writable. */
  datatype Event =
    | Add(d: DSess)
    | Del(k: u32)
    | User(k: u32, to: DSess)
    | HoldEnd(k: u32)
    | ShutdownEnd(k: u32)
    | OrphanEnd(k: u32, behind: bool)
    | DanglingEnd
    | Receive(k: u32, p: Pkt, ttl: u8)
    | Expect(k: u32)
    | TimerFires(k: u32)
    | TimedOut(k: u32)
    | Unheard(k: u32)
    | Spin(i: nat)
    | Writable

  // ---- Capacity: bbdd_bpf_tx_resize ----

  const CAP_MULT: nat := 2
  const SKB_TRUE_SIZE: nat := 2048
  const SNDBUF_MAX: nat := 0x7FFF_FFFF / 2

  /** The capacity wanted for `n` sessions: fixed by the environment, or two packets a session. */
  function Wanted(env: u32, n: nat): u32 {
    if env != 0 then env else (n * CAP_MULT) % TWO_32
  }

  predicate Affordable(cap: u32) {
    cap * SKB_TRUE_SIZE <= SNDBUF_MAX
  }

  function Resize(tx: Tx, cap: u32): Tx {
    tx.(cap := cap, peak := if cap > tx.peak then cap else tx.peak)
  }

  function TryResize(tx: Tx, cap: u32): Tx {
    if cap != tx.cap && Affordable(cap) then Resize(tx, cap) else tx
  }

  // ---- Steps ----

  function EmptyTx(veth: u32, egress: nat -> Egress): Tx {
    Tx(veth, 0, [], [], false, 0, 0, 0, 0, 0, egress, 0, 0, 0, [], [])
  }

  /** `bbdd_bpf_create` gives up when the environment's capacity is not affordable. */
  function Empty(env: u32, veth: u32, egress: nat -> Egress): Node {
    Node(env, map[], TryResize(EmptyTx(veth, egress), Wanted(env, 0)), multiset{}, 0)
  }

  function Cxt(n: Node, k: u32): Cx
    requires k in n.sess
  {
    Cx(n.sess[k], n.tx)
  }

  function Put(n: Node, k: u32, cx: Cx): Node {
    n.(sess := n.sess[k := cx.s], tx := cx.tx)
  }

  const NO_DATA := BData(Timing(0, 0, 0), false)

  function NewSess(d: DSess, born: nat, stale: bool): Sess
    requires WellFormed(d)
  {
    var b := BSess(0, OnHold, NO_DATA, NO_DATA, false, false, 0, true, 0);
    Sess(d, b, Kern(ShellConfig(d, b), false), 0, false, born, stale)
  }

  /** A new session's record: both ends down, nothing learnt yet. */
  predicate Fresh(d: DSess) {
    && WellFormed(d)
    && d.local.st == EndState(Down, DIAG_DOWN)
    && d.remote.st == EndState(Down, DIAG_NOTHING)
    && d.remote.timing.mult != 0
  }

  /** What a validated request may do to an existing session's record: it leaves the state of both
      ends, what was learnt of the remote's timing and flags, and the local discriminator alone. */
  predicate UserMayChange(d: DSess, to: DSess) {
    && WellFormed(to)
    && to.local.discr == d.local.discr
    && to.local.st == d.local.st
    && to.remote.st == d.remote.st
    && to.remote.timing == d.remote.timing
    && to.remote.flags == d.remote.flags
  }

  function Without(q: seq<Slot>, k: u32): (r: seq<Slot>)
    ensures |r| <= |q|
  {
    if q == [] then []
    else if q[0].discr == k then Without(q[1..], k)
    else [q[0]] + Without(q[1..], k)
  }

  lemma {:induction false} WithoutHas(q: seq<Slot>, k: u32, j: u32)
    ensures HasSlot(Without(q, k), j) <==> j != k && HasSlot(q, j)
  {
    if q != [] {
      assert q == [q[0]] + q[1..];
      HasSlotCons(q[0], q[1..], j);
      HasSlotCons(q[0], Without(q[1..], k), j);
      WithoutHas(q[1..], k, j);
    }
  }

  function Unlink(tx: Tx, k: u32): Tx {
    var finals, periodics := Without(tx.finals, k), Without(tx.periodics, k);
    tx.(finals := finals, periodics := periodics,
        dropped := tx.dropped + (|tx.finals| - |finals|) + (|tx.periodics| - |periodics|))
  }

  /** The timer the pointer leads to is cancelled. Orphaned timers and expiries stay where they are. */
  function Remove(n: Node, k: u32): Node
    requires k in n.sess
  {
    var sess := n.sess - {k};
    Node(n.env, sess, TryResize(Unlink(n.tx, k), Wanted(n.env, |sess|)), n.expired, n.dangling + n.sess[k].b.orphans)
  }

  /** `bbdd_xmit_veth_tx` on a packet that is not a Final: it is shot when its session is gone or
      has moved to another generation, and otherwise goes round again. */
  predicate Retired(n: Node, l: Loop) {
    l.discr !in n.sess || n.sess[l.discr].k.conf.gen != l.gen
  }

  function Spun(n: Node, i: nat): Node
    requires i < |n.tx.flight|
  {
    if Retired(n, n.tx.flight[i]) then
      n.(tx := n.tx.(flight := n.tx.flight[..i] + n.tx.flight[i + 1..], released := n.tx.released + 1))
    else n
  }

  /** Finals go first, then periodic updates. */
  function Head(tx: Tx): Slot
    requires tx.finals != [] || tx.periodics != []
  {
    if tx.finals != [] then tx.finals[0] else tx.periodics[0]
  }

  predicate Pending(tx: Tx) {
    tx.finals != [] || tx.periodics != []
  }

  function Dequeue(tx: Tx): Tx
    requires Pending(tx)
  {
    if tx.finals != [] then tx.(finals := tx.finals[1..], deq := tx.deq + 1)
    else tx.(periodics := tx.periodics[1..], deq := tx.deq + 1)
  }

  /** One round of `bbdd_bpf_tx_drain`. The source asserts that the slot's session exists. */
  function DrainOne(n: Node): Node
    requires Pending(n.tx) && Head(n.tx).discr in n.sess && Ready(n.sess[Head(n.tx).discr])
  {
    var slot := Head(n.tx);
    var cx := Cx(n.sess[slot.discr], Dequeue(n.tx));
    Put(n, slot.discr, if n.tx.finals != [] then InjectFinal(cx, slot.flags) else Update(cx))
  }

  /** Every queued slot belongs to a live session past its hold time. */
  predicate QueueOk(n: Node) {
    && (forall i :: 0 <= i < |n.tx.finals| ==> Drainable(n, n.tx.finals[i].discr))
    && (forall i :: 0 <= i < |n.tx.periodics| ==> Drainable(n, n.tx.periodics[i].discr))
  }

  predicate Drainable(n: Node, k: u32) {
    k in n.sess && Ready(n.sess[k])
  }

  function Backlog(tx: Tx): nat {
    |tx.finals| + |tx.periodics|
  }

  /** With room in the socket, one round takes exactly the head off the queue: the update it
      triggers does not queue anything. */
  lemma DrainOneShrinks(n: Node)
    requires QueueOk(n) && Pending(n.tx) && HasCapacity(n.tx)
    ensures Head(n.tx).discr in n.sess && Ready(n.sess[Head(n.tx).discr])
    ensures QueueOk(DrainOne(n))
    ensures var tx := DrainOne(n).tx;
            tx.finals == Dequeue(n.tx).finals && tx.periodics == Dequeue(n.tx).periodics
            && tx.deq == n.tx.deq + 1 && tx.enq == n.tx.enq && tx.armed == n.tx.armed
  {
    var slot := Head(n.tx);
    assert Drainable(n, slot.discr);
    var cx := Cx(n.sess[slot.discr], Dequeue(n.tx));
    assert HasCapacity(cx.tx);
    UpdateKeeps(cx);
    var m := DrainOne(n);
    forall k | Drainable(n, k)
      ensures Drainable(m, k)
    {
    }
  }

  /** `bbdd_bpf_tx_drain`: rounds while something is queued and there is room. */
  function Drain(n: Node): Node
    requires QueueOk(n)
    decreases Backlog(n.tx)
  {
    if !Pending(n.tx) then n.(tx := n.tx.(armed := false))
    else if !HasCapacity(n.tx) then n
    else
      DrainOneShrinks(n);
      Drain(DrainOne(n))
  }
}
