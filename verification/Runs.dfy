/** Runs of a dataplane, and what holds in every one of them. */
module Runs {
  import opened Basics
  import opened Packet
  import opened Sessions
  import opened Machine
  import opened Nodes
  import opened Invariants

  predicate InOrder(n: Node, k: u32)
    requires k in n.sess
  {
    && n.sess[k].d.local.discr == k && Alive(n.sess[k]) && Settled(n.sess[k], n.tx)
    && (n.sess[k].b.bstate.OnHold? ==> (k in n.expired <==> n.sess[k].stale))
  }

  predicate Inv(n: Node) {
    && (forall k :: k in n.sess ==> InOrder(n, k))
    && Accounts(n.tx)
    && QueueOk(n)
  }

  /** A discriminator is not given to a new session while packets of an old one still loop. */
  predicate Enabled(n: Node, e: Event) {
    match e
    case Add(d) =>
      && Fresh(d) && d.local.discr !in n.sess
      && (var cap := Wanted(n.env, |n.sess| + 1); cap == n.tx.cap || Affordable(cap))
      && (forall i :: 0 <= i < |n.tx.flight| ==> !Mine(n.tx.flight[i], d.local.discr))
    case Del(k) => k in n.sess
    case User(k, to) => k in n.sess && UserMayChange(n.sess[k].d, to)
    case HoldEnd(k) => k in n.sess && n.sess[k].b.hold
    case ShutdownEnd(k) => k in n.sess && n.sess[k].b.shwait
    case OrphanEnd(k, behind) => k in n.sess && n.sess[k].b.orphans > 0 && (behind ==> n.sess[k].b.shwait)
    case DanglingEnd => n.dangling > 0
    case Receive(k, _, _) => k in n.sess
    case Expect(k) => k in n.sess
    case TimerFires(k) => k in n.sess && n.sess[k].k.timer
    case TimedOut(k) => k in n.sess && k in n.expired
    case Unheard(k) => k !in n.sess && k in n.expired
    case Spin(i) => i < |n.tx.flight|
    case Writable => n.tx.armed
  }

  /** A pointer that `bbdd_bpf_shwait_stop` follows is set. */
  predicate CanStop(b: BSess) {
    b.bstate.ShuttingDown? ==> b.shwait
  }

  /** The source does not stop on this event: it neither handles a session on hold that cannot be,
      nor meets a zero multiplier, mismatched families or a slot without a session, nor follows a
      pointer that is not set or whose target is gone. An orphaned timer cancels whatever timer the
      pointer leads to, which the pass over the timer list survives unless it comes to it next. */
  predicate Safe(n: Node, e: Event)
    requires Enabled(n, e)
  {
    match e
    case User(k, to) =>
      to.remote.timing.mult != 0 && (!n.sess[k].b.bstate.OnHold? ==> Ready(n.sess[k]) && CanStop(n.sess[k].b))
    case HoldEnd(k) => WellFormed(n.sess[k].d) && n.sess[k].d.remote.timing.mult != 0 && !n.sess[k].b.shwait
    case ShutdownEnd(k) => Ready(n.sess[k]) && GoodTiming(n.sess[k].b.dfr.timing)
    case OrphanEnd(k, behind) =>
      n.sess[k].b.shwait && !behind && Ready(n.sess[k]) && GoodTiming(n.sess[k].b.dfr.timing)
    case DanglingEnd => false
    case Receive(k, _, _) => !n.sess[k].b.bstate.OnHold? ==> Ready(n.sess[k])
    case TimedOut(k) => Ready(n.sess[k]) && CanStop(n.sess[k].b)
    case Writable => QueueOk(n)
    case _ => true
  }

  /** The events at which it does stop. */
  predicate Stops(n: Node, e: Event)
    requires Enabled(n, e)
  {
    match e
    case OrphanEnd(k, behind) => !n.sess[k].b.shwait || behind
    case DanglingEnd => true
    case TimedOut(k) => n.sess[k].b.bstate.OnHold?
    case _ => false
  }

  /** The events that run a handler of their session. */
  predicate Handles(e: Event) {
    e.User? || e.HoldEnd? || e.ShutdownEnd? || e.OrphanEnd? || e.Receive? || e.TimedOut?
  }

  /** What the handler starts from: an orphaned timer that fires is gone from the list. */
  function Entry(n: Node, e: Event): Cx
    requires Enabled(n, e) && Handles(e)
  {
    var s := n.sess[e.k];
    Cx(if e.OrphanEnd? then s.(b := s.b.(orphans := s.b.orphans - 1)) else s, n.tx)
  }

  /** What the handler makes of it. */
  function Handled(n: Node, e: Event): Cx
    requires Enabled(n, e) && Safe(n, e) && Handles(e)
  {
    var cx := Entry(n, e);
    match e
    case User(_, to) => UserUpdate(cx, to)
    case HoldEnd(_) => HoldExpired(cx)
    case ShutdownEnd(_) | OrphanEnd(_, _) => ShwaitExpired(cx)
    case Receive(_, p, ttl) => HandlePacket(cx, p, ttl)
    case TimedOut(_) => HandleTimeout(cx)
  }

  /** An expiry is taken out of the ring buffer. */
  function Heard(n: Node, k: u32): Node {
    n.(expired := n.expired - multiset{k})
  }

  function Step(n: Node, e: Event): Node
    requires Enabled(n, e) && Safe(n, e)
  {
    if Handles(e) then Put(if e.TimedOut? then Heard(n, e.k) else n, e.k, Handled(n, e))
    else
      match e
      case Add(d) => Grown(n, d)
      case Del(k) => Remove(n, k)
      case Expect(k) => n.(sess := n.sess[k := n.sess[k].(k := KernelRearm(n.sess[k].k))])
      case TimerFires(k) => Fired(n, k)
      case Unheard(k) => Heard(n, k)
      case Spin(i) => Spun(n, i)
      case Writable => Drain(n)
  }

  function Grown(n: Node, d: DSess): Node
    requires WellFormed(d)
  {
    var s := NewSess(d, |n.tx.log|, d.local.discr in n.expired);
    n.(sess := n.sess[d.local.discr := s], tx := TryResize(n.tx, Wanted(n.env, |n.sess| + 1)))
  }

  /** The detection timer goes off: an expiry is put into the ring buffer. */
  function Fired(n: Node, k: u32): Node
    requires k in n.sess
  {
    var s := n.sess[k];
    n.(sess := n.sess[k := s.(k := s.k.(timer := false))], expired := n.expired + multiset{k})
  }

  // ---- Events of one session ----

  lemma PutOthers(n: Node, k: u32, from: Cx, cx: Cx, j: u32)
    requires Inv(n) && k in n.sess && j in n.sess && from.tx == n.tx && from.s.d.local.discr == k
    requires from.s.b.bstate == n.sess[k].b.bstate && from.s.stale == n.sess[k].stale
    requires Keeps(from, cx)
    ensures InOrder(Put(n, k, cx), j)
  {
    assert InOrder(n, j);
    if j != k {
      OthersSettled(k, n.sess[j], n.tx, cx.tx);
    }
  }

  /** Every slot of `to` is one of `q` or of session k. */
  lemma PutQueue(n: Node, m: Node, k: u32, q: seq<Slot>, to: seq<Slot>)
    requires k in n.sess && k in m.sess && m.sess == n.sess[k := m.sess[k]]
    requires forall i :: 0 <= i < |q| ==> Drainable(n, q[i].discr)
    requires q <= to && (forall i :: |q| <= i < |to| ==> to[i].discr == k)
    requires Ready(m.sess[k]) || (to == q && !Ready(n.sess[k]))
    ensures forall i :: 0 <= i < |to| ==> Drainable(m, to[i].discr)
  {
    forall i | 0 <= i < |to|
      ensures Drainable(m, to[i].discr)
    {
      if i < |q| {
        assert Drainable(n, q[i].discr);
      }
    }
  }

  lemma PutInv(n: Node, k: u32, from: Cx, cx: Cx)
    requires Inv(n) && k in n.sess && from.tx == n.tx && from.s.d.local.discr == k
    requires from.s.b.bstate == n.sess[k].b.bstate && from.s.stale == n.sess[k].stale
    requires Keeps(from, cx)
    ensures Inv(Put(n, k, cx))
  {
    var m := Put(n, k, cx);
    forall j | j in m.sess
      ensures InOrder(m, j)
    {
      PutOthers(n, k, from, cx, j);
    }
    PutQueue(n, m, k, n.tx.finals, m.tx.finals);
    PutQueue(n, m, k, n.tx.periodics, m.tx.periodics);
  }

  /** A change of the kernel's timer, or of an orphaned one, alone. */
  lemma TimerGood(n: Node, k: u32, timer: bool, orphans: nat)
    requires Accounts(n.tx) && k in n.sess && InOrder(n, k) && Ready(n.sess[k])
    ensures var cx := Cx(Retimed(n.sess[k], n.sess[k].b.period, timer, orphans), n.tx);
            Good(cx) && Keeps(Cxt(n, k), cx)
  {
    var s := n.sess[k];
    RetimedAlive(s, s.b.period, timer, orphans);
    RetimedSettled(s, n.tx, n.tx, s.b.period, timer, orphans);
  }

  lemma TimerInv(n: Node, k: u32, timer: bool)
    requires Inv(n) && k in n.sess && Ready(n.sess[k])
    ensures Inv(n.(sess := n.sess[k := n.sess[k].(k := n.sess[k].k.(timer := timer))]))
  {
    assert InOrder(n, k);
    var s := n.sess[k];
    TimerGood(n, k, timer, s.b.orphans);
    var cx := Cx(Retimed(s, s.b.period, timer, s.b.orphans), n.tx);
    assert cx.s == s.(k := s.k.(timer := timer));
    assert Put(n, k, cx) == n.(sess := n.sess[k := cx.s]);
    PutInv(n, k, Cxt(n, k), cx);
  }

  /** What a handler starts from, of the session alone. */
  lemma EntryAlive(n: Node, e: Event)
    requires Enabled(n, e) && Handles(e) && !Stops(n, e) && Alive(n.sess[e.k])
    ensures var s, t := n.sess[e.k], Entry(n, e).s;
            && Safe(n, e) && Alive(t) && t.d == s.d && t.stale == s.stale
            && t.accepted == s.accepted && t.heardUp == s.heardUp
            && t.b == (if e.OrphanEnd? then s.b.(orphans := s.b.orphans - 1) else s.b)
  {
    if e.OrphanEnd? {
      var s := n.sess[e.k];
      RetimedAlive(s, s.b.period, s.k.timer, s.b.orphans - 1);
      assert Retimed(s, s.b.period, s.k.timer, s.b.orphans - 1) == Entry(n, e).s;
    }
  }

  lemma OrphanEntry(n: Node, k: u32)
    requires Accounts(n.tx) && k in n.sess && InOrder(n, k) && n.sess[k].b.orphans > 0
    ensures Ready(n.sess[k]) && Good(Cx(n.sess[k].(b := n.sess[k].b.(orphans := n.sess[k].b.orphans - 1)), n.tx))
  {
    var s := n.sess[k];
    TimerGood(n, k, s.k.timer, s.b.orphans - 1);
    assert Retimed(s, s.b.period, s.k.timer, s.b.orphans - 1) == s.(b := s.b.(orphans := s.b.orphans - 1));
  }

  lemma EntryGood(n: Node, e: Event)
    requires Enabled(n, e) && Handles(e) && !Stops(n, e) && InOrder(n, e.k) && Accounts(n.tx)
    ensures Safe(n, e) && Good(Entry(n, e))
  {
    EntryAlive(n, e);
    if e.OrphanEnd? {
      OrphanEntry(n, e.k);
    }
  }

  lemma HandledKeeps(n: Node, e: Event)
    requires Enabled(n, e) && Handles(e) && !Stops(n, e) && InOrder(n, e.k) && Accounts(n.tx)
    ensures Safe(n, e) && Keeps(Entry(n, e), Handled(n, e))
  {
    EntryAlive(n, e);
    EntryGood(n, e);
    var cx := Entry(n, e);
    match e
    case User(_, to) => UserUpdateKeeps(cx, to);
    case HoldEnd(_) => HoldExpiredKeeps(cx);
    case ShutdownEnd(_) | OrphanEnd(_, _) => ShwaitExpiredKeeps(cx);
    case Receive(_, p, ttl) => HandlePacketKeeps(cx, p, ttl);
    case TimedOut(_) => HandleTimeoutKeeps(cx);
  }

  /** Expiries matter only to a session on hold. */
  lemma ExpiredInv(n: Node, expired: multiset<u32>)
    requires Inv(n)
    requires forall k :: k in n.sess && n.sess[k].b.bstate.OnHold? ==> (k in expired <==> k in n.expired)
    ensures Inv(n.(expired := expired))
  {
    var m := n.(expired := expired);
    forall k | k in m.sess
      ensures InOrder(m, k)
    {
      assert InOrder(n, k);
    }
    assert forall k :: Drainable(n, k) ==> Drainable(m, k);
  }

  lemma HeardInv(n: Node, k: u32)
    requires Inv(n) && (k in n.sess ==> !n.sess[k].b.bstate.OnHold?)
    ensures Inv(Heard(n, k))
  {
    ExpiredInv(n, Heard(n, k).expired);
  }

  lemma HandledInv(n: Node, e: Event)
    requires Inv(n) && Enabled(n, e) && Handles(e) && !Stops(n, e)
    ensures Safe(n, e) && Inv(Step(n, e))
  {
    assert InOrder(n, e.k);
    EntryAlive(n, e);
    HandledKeeps(n, e);
    PutInv(n, e.k, Entry(n, e), Handled(n, e));
    if e.TimedOut? {
      HeardInv(Put(n, e.k, Handled(n, e)), e.k);
      assert Heard(Put(n, e.k, Handled(n, e)), e.k) == Step(n, e);
    }
  }

  lemma ExpectInv(n: Node, k: u32)
    requires Inv(n) && k in n.sess
    ensures Inv(Step(n, Expect(k)))
  {
    assert InOrder(n, k);
    var s := n.sess[k];
    if s.b.bstate.OnHold? {
      assert KernelRearm(s.k) == s.k;
      assert n.sess[k := s] == n.sess;
    } else {
      TimerInv(n, k, KernelRearm(s.k).timer);
    }
  }

  lemma TimerFiresInv(n: Node, k: u32)
    requires Inv(n) && k in n.sess && n.sess[k].k.timer
    ensures Inv(Fired(n, k))
  {
    assert InOrder(n, k);
    TimerInv(n, k, false);
    var s := n.sess[k];
    var m := n.(sess := n.sess[k := s.(k := s.k.(timer := false))]);
    ExpiredInv(m, m.expired + multiset{k});
    assert m.(expired := m.expired + multiset{k}) == Fired(n, k);
  }

  // ---- Sessions come and go ----

  lemma ResizeKeeps(tx: Tx, cap: u32, s: Sess)
    requires Settled(s, tx)
    ensures Settled(s, TryResize(tx, cap))
  {
  }

  lemma NewcomerInOrder(n: Node, d: DSess)
    requires Inv(n) && Enabled(n, Add(d))
    ensures InOrder(Grown(n, d), d.local.discr)
  {
    var s := NewSess(d, |n.tx.log|, d.local.discr in n.expired);
    assert Alive(s) && Settled(s, n.tx);
    ResizeKeeps(n.tx, Wanted(n.env, |n.sess| + 1), s);
  }

  lemma ResizeAccounts(tx: Tx, cap: u32)
    requires Accounts(tx)
    ensures Accounts(TryResize(tx, cap))
  {
  }

  lemma AddOthers(n: Node, d: DSess, j: u32)
    requires Enabled(n, Add(d)) && j in n.sess && InOrder(n, j)
    ensures InOrder(Grown(n, d), j)
  {
    ResizeKeeps(n.tx, Wanted(n.env, |n.sess| + 1), n.sess[j]);
  }

  lemma AddQueueOk(n: Node, d: DSess)
    requires QueueOk(n) && WellFormed(d) && d.local.discr !in n.sess
    ensures QueueOk(Grown(n, d))
  {
    assert forall j :: Drainable(n, j) ==> Drainable(Grown(n, d), j);
  }

  lemma AddInv(n: Node, d: DSess)
    requires Inv(n) && Enabled(n, Add(d))
    ensures Inv(Grown(n, d))
  {
    var m := Grown(n, d);
    ResizeAccounts(n.tx, Wanted(n.env, |n.sess| + 1));
    AddQueueOk(n, d);
    forall j | j in m.sess
      ensures InOrder(m, j)
    {
      if j == d.local.discr {
        NewcomerInOrder(n, d);
      } else {
        assert InOrder(n, j);
        AddOthers(n, d, j);
      }
    }
  }

  lemma {:induction false} WithoutIn(q: seq<Slot>, k: u32, x: Slot)
    requires x in Without(q, k)
    ensures x in q && x.discr != k
  {
    if q[0].discr != k && x == q[0] {
    } else {
      WithoutIn(q[1..], k, x);
    }
  }

  lemma {:induction false} WithoutDistinct(q: seq<Slot>, k: u32)
    requires Distinct(q)
    ensures Distinct(Without(q, k))
  {
    if q != [] {
      assert Distinct(q[1..]);
      WithoutDistinct(q[1..], k);
      var r := Without(q[1..], k);
      forall i | 0 <= i < |r|
        ensures r[i].discr != q[0].discr
      {
        WithoutIn(q[1..], k, r[i]);
        var j :| 0 <= j < |q[1..]| && q[1..][j] == r[i];
        assert q[j + 1] == r[i];
      }
    }
  }

  lemma UnlinkAccounts(tx: Tx, k: u32)
    requires Accounts(tx)
    ensures Accounts(Unlink(tx, k))
  {
    WithoutDistinct(tx.finals, k);
    WithoutDistinct(tx.periodics, k);
    var to := Unlink(tx, k);
    forall i | 0 <= i < |to.finals|
      ensures to.finals[i].flags == BIT_FINAL
    {
      WithoutIn(tx.finals, k, to.finals[i]);
    }
  }

  lemma UnlinkSettled(tx: Tx, k: u32, s: Sess)
    requires Settled(s, tx) && s.d.local.discr != k
    ensures Settled(s, Unlink(tx, k))
  {
    WithoutHas(tx.periodics, k, s.d.local.discr);
  }

  lemma DelQueue(n: Node, k: u32, slot: Slot)
    requires QueueOk(n) && k in n.sess
    requires slot in Without(n.tx.finals, k) || slot in Without(n.tx.periodics, k)
    ensures Drainable(Remove(n, k), slot.discr)
  {
    var q := if slot in Without(n.tx.finals, k) then n.tx.finals else n.tx.periodics;
    WithoutIn(q, k, slot);
    var i :| 0 <= i < |q| && q[i] == slot;
    assert Drainable(n, q[i].discr);
  }

  lemma DelOthers(n: Node, k: u32, j: u32)
    requires k in n.sess && j in n.sess && j != k && InOrder(n, j)
    ensures InOrder(Remove(n, k), j)
  {
    UnlinkSettled(n.tx, k, n.sess[j]);
    ResizeKeeps(Unlink(n.tx, k), Wanted(n.env, |n.sess - {k}|), n.sess[j]);
  }

  lemma DelQueueOk(n: Node, k: u32)
    requires QueueOk(n) && k in n.sess
    ensures QueueOk(Remove(n, k))
  {
    var m := Remove(n, k);
    forall i | 0 <= i < |m.tx.finals|
      ensures Drainable(m, m.tx.finals[i].discr)
    {
      DelQueue(n, k, m.tx.finals[i]);
    }
    forall i | 0 <= i < |m.tx.periodics|
      ensures Drainable(m, m.tx.periodics[i].discr)
    {
      DelQueue(n, k, m.tx.periodics[i]);
    }
  }

  lemma DelAccounts(n: Node, k: u32)
    requires Accounts(n.tx) && k in n.sess
    ensures Accounts(Remove(n, k).tx)
  {
    UnlinkAccounts(n.tx, k);
  }

  lemma DelInv(n: Node, k: u32)
    requires Inv(n) && k in n.sess
    ensures Inv(Remove(n, k))
  {
    var m := Remove(n, k);
    DelAccounts(n, k);
    DelQueueOk(n, k);
    assert m.sess == n.sess - {k};
    forall j | j in m.sess
      ensures InOrder(m, j)
    {
      assert InOrder(n, j);
      DelOthers(n, k, j);
    }
  }

  // ---- The looping packets ----

  function Drop(flight: seq<Loop>, i: nat): seq<Loop>
    requires i < |flight|
  {
    flight[..i] + flight[i + 1..]
  }

  lemma DropOthers(flight: seq<Loop>, i: nat, l: Loop)
    requires i < |flight| && l in flight && l != flight[i]
    ensures l in Drop(flight, i)
  {
    var j :| 0 <= j < |flight| && flight[j] == l;
    assert Drop(flight, i)[if j < i then j else j - 1] == l;
  }

  lemma DropAt(flight: seq<Loop>, i: nat)
    requires i < |flight|
    ensures forall j :: 0 <= j < |flight| - 1 ==> Drop(flight, i)[j] == flight[if j < i then j else j + 1]
  {
  }

  lemma DropLive(flight: seq<Loop>, i: nat, k: u32, gen: nat)
    requires i < |flight|
    ensures OneLive(flight, k, gen) ==> OneLive(Drop(flight, i), k, gen)
    ensures NoneLive(flight, k, gen) ==> NoneLive(Drop(flight, i), k, gen)
  {
    DropAt(flight, i);
  }

  lemma DropSynced(s: Sess, tx: Tx, i: nat)
    requires Ready(s) && Synced(s, tx) && i < |tx.flight|
    requires tx.flight[i].discr != s.d.local.discr || tx.flight[i].gen != s.b.genId
    ensures Synced(s, tx.(flight := Drop(tx.flight, i), released := tx.released + 1))
  {
    if ShouldInject(s.d, s.b) {
      DropOthers(tx.flight, i, Spinner(s));
    }
  }

  lemma SpinSettled(n: Node, i: nat, k: u32)
    requires Inv(n) && i < |n.tx.flight| && Retired(n, n.tx.flight[i]) && k in n.sess
    ensures Settled(n.sess[k], Spun(n, i).tx)
  {
    assert InOrder(n, k);
    var s := n.sess[k];
    var tx := Spun(n, i).tx;
    assert tx == n.tx.(flight := Drop(n.tx.flight, i), released := n.tx.released + 1);
    DropLive(n.tx.flight, i, k, s.b.genId);
    if !s.b.bstate.OnHold? && Synced(s, n.tx) {
      DropSynced(s, n.tx, i);
    }
  }

  lemma SpinInv(n: Node, i: nat)
    requires Inv(n) && i < |n.tx.flight|
    ensures Inv(Spun(n, i))
  {
    var m := Spun(n, i);
    if Retired(n, n.tx.flight[i]) {
      forall k | k in m.sess
        ensures InOrder(m, k)
      {
        assert InOrder(n, k);
        SpinSettled(n, i, k);
      }
      assert forall k :: Drainable(n, k) ==> Drainable(m, k);
    }
  }

  // ---- Draining ----

  lemma DequeueAccounts(tx: Tx)
    requires Accounts(tx) && Pending(tx)
    ensures Accounts(Dequeue(tx))
  {
  }

  /** Taking the head off does not disturb the others, nor anyone when it was a Final. */
  lemma DequeueSettled(tx: Tx, s: Sess)
    requires Pending(tx) && Settled(s, tx)
    requires tx.finals != [] || s.d.local.discr != Head(tx).discr
    ensures Settled(s, Dequeue(tx))
  {
    if tx.finals == [] {
      assert tx.periodics == [tx.periodics[0]] + tx.periodics[1..];
      HasSlotCons(tx.periodics[0], tx.periodics[1..], s.d.local.discr);
    }
  }

  lemma DrainOthers(n: Node, j: u32, to: Tx)
    requires Pending(n.tx) && j in n.sess && j != Head(n.tx).discr && InOrder(n, j)
    requires Extends(Head(n.tx).discr, Dequeue(n.tx), to)
    ensures Settled(n.sess[j], to)
  {
    DequeueSettled(n.tx, n.sess[j]);
    OthersSettled(Head(n.tx).discr, n.sess[j], Dequeue(n.tx), to);
  }

  /** What becomes of the session at the head. */
  lemma DrainHead(n: Node, k: u32, to: Cx)
    requires Pending(n.tx) && HasCapacity(n.tx) && Accounts(n.tx) && k == Head(n.tx).discr
    requires k in n.sess && Ready(n.sess[k]) && InOrder(n, k)
    requires var cx := Cx(n.sess[k], Dequeue(n.tx));
             to == if n.tx.finals != [] then InjectFinal(cx, Head(n.tx).flags) else Update(cx)
    ensures Good(to) && Extends(k, Dequeue(n.tx), to.tx) && Untouched(n.sess[k], to.s)
  {
    var cx := Cx(n.sess[k], Dequeue(n.tx));
    DequeueAccounts(n.tx);
    if n.tx.finals != [] {
      DequeueSettled(n.tx, cx.s);
      InjectFinalKeeps(cx, Head(n.tx).flags);
    } else {
      UpdateSettles(cx);
      UpdateKeeps(cx);
    }
  }

  lemma DrainOneInv(n: Node)
    requires Inv(n) && Pending(n.tx) && HasCapacity(n.tx)
    ensures Head(n.tx).discr in n.sess && Ready(n.sess[Head(n.tx).discr])
    ensures Inv(DrainOne(n))
  {
    DrainOneShrinks(n);
    var k := Head(n.tx).discr;
    assert InOrder(n, k);
    var m := DrainOne(n);
    DrainHead(n, k, Cx(m.sess[k], m.tx));
    forall j | j in m.sess
      ensures InOrder(m, j)
    {
      if j != k {
        assert InOrder(n, j);
        DrainOthers(n, j, m.tx);
      }
    }
  }

  lemma {:induction false} DrainInv(n: Node)
    requires Inv(n)
    ensures Inv(Drain(n))
    decreases Backlog(n.tx)
  {
    if !Pending(n.tx) {
      var m := n.(tx := n.tx.(armed := false));
      forall k | k in m.sess
        ensures InOrder(m, k)
      {
        assert InOrder(n, k);
      }
    } else if HasCapacity(n.tx) {
      DrainOneInv(n);
      DrainOneShrinks(n);
      DrainInv(DrainOne(n));
    }
  }

  // ---- Runs ----

  lemma UnhandledInv(n: Node, e: Event)
    requires Inv(n) && Enabled(n, e) && !Handles(e) && !e.DanglingEnd?
    ensures Safe(n, e) && Inv(Step(n, e))
  {
    match e
    case Add(d) => AddInv(n, d);
    case Del(k) => DelInv(n, k);
    case Spin(i) => SpinInv(n, i);
    case Writable => DrainInv(n);
    case Expect(k) => ExpectInv(n, k);
    case TimerFires(k) => TimerFiresInv(n, k);
    case Unheard(k) => HeardInv(n, k);
  }

  /** Every event keeps the invariant, but for those at which the source stops; there are no others. */
  lemma StepInv(n: Node, e: Event)
    requires Inv(n) && Enabled(n, e)
    ensures Safe(n, e) <==> !Stops(n, e)
    ensures Safe(n, e) ==> Inv(Step(n, e))
  {
    if Stops(n, e) {
    } else if Handles(e) {
      HandledInv(n, e);
    } else {
      UnhandledInv(n, e);
    }
  }

  lemma EmptyInv(env: u32, veth: u32, egress: nat -> Egress)
    ensures Inv(Empty(env, veth, egress))
  {
  }

  /** States `ns` follow one another by the events `es`, starting from an empty dataplane. */
  ghost predicate IsRun(ns: seq<Node>, es: seq<Event>) {
    && |ns| == |es| + 1
    && (exists env, veth, egress :: ns[0] == Empty(env, veth, egress))
    && forall i :: 0 <= i < |es| ==> Follows(ns, es, i)
  }

  ghost predicate Follows(ns: seq<Node>, es: seq<Event>, i: nat)
    requires |ns| == |es| + 1 && i < |es|
  {
    Goes(ns[i], es[i], ns[i + 1])
  }

  ghost predicate Goes(n: Node, e: Event, m: Node) {
    Enabled(n, e) && Safe(n, e) && m == Step(n, e)
  }

  lemma RunStepInv(ns: seq<Node>, es: seq<Event>, i: nat)
    requires IsRun(ns, es) && i < |es| && Inv(ns[i])
    ensures Inv(ns[i + 1])
  {
    assert Follows(ns, es, i);
    StepInv(ns[i], es[i]);
  }

  /** The invariant holds in every state of every run. */
  lemma {:induction false} RunInv(ns: seq<Node>, es: seq<Event>, i: nat)
    requires IsRun(ns, es) && i < |ns|
    ensures Inv(ns[i])
  {
    if i == 0 {
      var env, veth, egress :| ns[0] == Empty(env, veth, egress);
      EmptyInv(env, veth, egress);
    } else {
      RunInv(ns, es, i - 1);
      RunStepInv(ns, es, i - 1);
    }
  }

  /** A state some run ends in. */
  ghost predicate Reached(n: Node) {
    exists ns, es :: IsRun(ns, es) && ns[|es|] == n
  }

  lemma ReachedInv(n: Node)
    requires Reached(n)
    ensures Inv(n)
  {
    var ns, es :| IsRun(ns, es) && ns[|es|] == n;
    RunInv(ns, es, |es|);
  }

  lemma EmptyReached(env: u32, veth: u32, egress: nat -> Egress)
    ensures Reached(Empty(env, veth, egress))
  {
    assert IsRun([Empty(env, veth, egress)], []);
  }

  lemma RunGrows(ns: seq<Node>, es: seq<Event>, e: Event, m: Node)
    requires IsRun(ns, es) && Goes(ns[|es|], e, m)
    ensures IsRun(ns + [m], es + [e])
  {
    var ns1, es1 := ns + [m], es + [e];
    assert ns1[0] == ns[0];
    forall i | 0 <= i < |es1|
      ensures Follows(ns1, es1, i)
    {
      if i < |es| {
        assert Follows(ns, es, i);
        assert ns1[i] == ns[i] && ns1[i + 1] == ns[i + 1] && es1[i] == es[i];
      }
    }
  }

  lemma StepReached(n: Node, e: Event)
    requires Reached(n) && Enabled(n, e) && Safe(n, e)
    ensures Reached(Step(n, e))
  {
    var ns, es :| IsRun(ns, es) && ns[|es|] == n;
    var m := Step(n, e);
    RunGrows(ns, es, e, m);
    assert (ns + [m])[|es + [e]|] == m;
  }

  lemma Advances(n: Node, e: Event)
    requires Reached(n) && Enabled(n, e) && !Stops(n, e)
    ensures Safe(n, e) && Reached(Step(n, e))
  {
    ReachedInv(n);
    StepInv(n, e);
    StepReached(n, e);
  }

  lemma ReachedAlive(n: Node, k: u32)
    requires Reached(n) && k in n.sess
    ensures n.sess[k].d.local.discr == k && Alive(n.sess[k])
  {
    ReachedInv(n);
    assert InOrder(n, k);
  }

  /** When a run stops the daemon: whatever event comes next, the source's aborts, its assertions and
      the pointers it must not follow are reached exactly at an orphaned shutdown timer with no
      pointer to follow or with the timer it leads to next in the list, at the orphaned timer of a
      deleted session, and at an expiry that meets a session on hold; and the last is exactly a
      session that was added while an expiry of its discriminator was waiting. */
  lemma AbortsExactly(ns: seq<Node>, es: seq<Event>, e: Event)
    requires IsRun(ns, es) && Enabled(ns[|es|], e)
    ensures Safe(ns[|es|], e) <==> !Stops(ns[|es|], e)
    ensures e.TimedOut? && Stops(ns[|es|], e) ==> ns[|es|].sess[e.k].stale
  {
    RunInv(ns, es, |es|);
    StepInv(ns[|es|], e);
    if e.TimedOut? {
      assert InOrder(ns[|es|], e.k);
    }
  }

  /** An expiry waits for a session on hold exactly when one did as the session was added. */
  lemma HauntedExactly(ns: seq<Node>, es: seq<Event>, k: u32)
    requires IsRun(ns, es) && k in ns[|es|].sess && ns[|es|].sess[k].b.bstate.OnHold?
    ensures Enabled(ns[|es|], TimedOut(k)) <==> ns[|es|].sess[k].stale
  {
    RunInv(ns, es, |es|);
    assert InOrder(ns[|es|], k);
  }
}
