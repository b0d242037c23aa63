/** The imperative form of the dataplane: sessions and the shared transmit state as objects that the
    handlers update in place, each proved to do what its function in module Machine or Nodes says. */
module Dataplane {
  import opened Basics
  import opened Packet
  import opened Intervals
  import opened Sessions
  import opened Machine
  import opened Nodes

  /** A session's record in the daemon and in the dataplane, and its entry in the kernel's maps. */
  class Session {
    var d: DSess
    var genId: nat
    var bstate: BState
    var eff: BData
    var dfr: BData
    var qd: bool
    var shwait: bool
    var orphans: nat
    var hold: bool
    var period: u32
    var kern: Kern
    var accepted: nat
    var heardUp: bool
    var born: nat
    var stale: bool

    function B(): BSess
      reads this
    {
      BSess(genId, bstate, eff, dfr, qd, shwait, orphans, hold, period)
    }

    function View(): Sess
      reads this
    {
      Sess(d, B(), kern, accepted, heardUp, born, stale)
    }

    /** `bbdd_bpf_handle_session_update`: first decide what the change calls for, then do it. */
    method HandleUpdate()
      requires bstate != OnHold
      modifies this
      ensures View() == WithPair(old(View()), Sessions.HandleUpdate(old(d), old(B())))
    {
      var udata, needShwait, stopShwait, needPoll, applyNow := Decide();
      assert !(stopShwait && needShwait) && !(needPoll && needShwait);
      Apply(udata, needShwait, stopShwait, needPoll, applyNow);
    }

    /** What the user's data call for, next to the data being polled or in force. */
    method Decide() returns (udata: BData, needShwait: bool, stopShwait: bool, needPoll: bool, applyNow: bool)
      ensures udata == UserData(d)
      ensures needShwait <==> udata.shutdown && !Current(B()).shutdown
      ensures stopShwait <==> !udata.shutdown && Current(B()).shutdown
      ensures needPoll <==> !needShwait && TimingDiffers(udata, Current(B()))
      ensures applyNow <==> !needShwait && !MustHold(d, Current(B()))
    {
      needShwait, stopShwait, needPoll, applyNow := false, false, false, true;
      udata := UserData(d);
      var bdata := if bstate == Stable then eff else dfr;

      if udata.shutdown && !bdata.shutdown {
        needShwait, applyNow := true, false;
        return;
      }
      stopShwait := !udata.shutdown && bdata.shutdown;
      if udata.timing.minTx != bdata.timing.minTx || udata.timing.minRx != bdata.timing.minRx {
        needPoll := true;
      }
      if d.local.st.state == Up && udata.timing.minTx > bdata.timing.minTx {
        applyNow := false;
      }
      if d.local.st.state == Up && udata.timing.minRx < bdata.timing.minRx {
        applyNow := false;
      }
    }

    /** The second half, for each state the session may be in. */
    method Apply(udata: BData, needShwait: bool, stopShwait: bool, needPoll: bool, applyNow: bool)
      requires bstate != OnHold && !(stopShwait && needShwait) && !(needPoll && needShwait)
      modifies this`eff, this`dfr, this`qd, this`shwait, this`orphans, this`bstate, this`d
      ensures eff == if applyNow && old(bstate) == Stable then udata else old(eff)
      ensures dfr == if (applyNow && old(bstate) != Stable)
                        || ((needPoll || needShwait) && old(bstate) != AwaitFinal && old(bstate) != AwaitNonFinal)
                     then udata else old(dfr)
      ensures qd == (old(qd) || ((old(bstate) == AwaitFinal || old(bstate) == AwaitNonFinal)
                                 && (needPoll || needShwait || stopShwait)))
      ensures old(bstate) == AwaitFinal || old(bstate) == AwaitNonFinal ==>
                bstate == old(bstate) && shwait == old(shwait) && orphans == old(orphans) && d == old(d)
      ensures old(bstate) == Stable || old(bstate) == ShuttingDown ==>
                && bstate == (if needPoll then AwaitFinal else if needShwait then ShuttingDown
                              else if stopShwait && old(bstate) == ShuttingDown then AwaitFinal else old(bstate))
                && shwait == (needShwait || (old(shwait) && !(stopShwait && old(bstate) == ShuttingDown)))
                && orphans == old(orphans) + (if needShwait && old(shwait) then 1 else 0)
                && d == (if needShwait then ShutDown(old(d)) else if stopShwait then Reopened(old(d)) else old(d))
    {
      if applyNow {
        if bstate == Stable {
          eff := udata;
        } else {
          dfr := udata;
        }
      }
      if bstate == AwaitFinal || bstate == AwaitNonFinal {
        if needPoll || needShwait || stopShwait {
          qd := true;
        }
        return;
      }
      if stopShwait {
        StopShwait();
      }
      if needPoll {
        dfr := udata;
        bstate := AwaitFinal;
      } else if needShwait {
        StartShwait();
        dfr := udata;
        bstate := ShuttingDown;
        d := d.(local := d.local.(st := EndState(AdminDown, DIAG_ADMIN_DOWN)));
        d := d.(remote := d.remote.(st := EndState(Down, DIAG_DOWN)));
      }
    }

    /** The session is enabled: a shutdown wait is over, and the session is Down. */
    method StopShwait()
      modifies this`shwait, this`bstate, this`d
      ensures d == Reopened(old(d))
      ensures shwait == (old(shwait) && old(bstate) != ShuttingDown)
      ensures bstate == if old(bstate) == ShuttingDown then AwaitFinal else old(bstate)
    {
      if bstate == ShuttingDown {
        shwait := false;
        bstate := AwaitFinal;
      }
      d := d.(local := d.local.(st := EndState(Down, DIAG_DOWN)));
    }

    /** `bbdd_bpf_shwait_start`: a new timer, and the pointer led to it. A timer it led to before stays
        in the list. */
    method StartShwait()
      modifies this`shwait, this`orphans
      ensures shwait && orphans == old(orphans) + if old(shwait) then 1 else 0
    {
      if shwait {
        orphans := orphans + 1;
      }
      shwait := true;
    }

    /** The closing of a poll, up to the last update. */
    method Settle()
      requires Ready(View()) && GoodTiming(dfr.timing)
      modifies this
      ensures View() == WithPair(old(View()), Sessions.Settle(old(d), old(B())))
    {
      eff := dfr;
      bstate := Stable;
      if qd {
        qd := false;
        HandleUpdate();
      }
    }

    /** The detection time ran out. */
    method Lapse()
      modifies this`d
      ensures View() == old(View()).(d := Lapsed(old(d)))
    {
      d := d.(local := d.local.(st := EndState(Down, DIAG_TIME_EXPIRED)));
      d := d.(remote := d.remote.(st := EndState(Down, DIAG_TIME_EXPIRED)));
      d := d.(remote := d.remote.(discr := d.userRemoteDiscr));
    }

    method Build(flags: bv8) returns (packet: Loop)
      requires Ready(View())
      ensures packet == LoopWith(View(), flags)
    {
      var bdata := if bstate == Stable then eff else dfr;
      var bfd := MakePacket(d.local.discr, bdata.timing, d.local.st, d.remote.discr, flags);
      packet := Loop(d.local.discr, genId, bfd);
    }

    /** Move to the next generation and write the kernel's configuration. */
    method Publish(veth: u32)
      requires Ready(View())
      modifies this`genId, this`kern
      ensures View() == Bump(veth, old(View()))
    {
      var down := d.local.st.state == Down;
      var admdown := d.local.st.state == AdminDown;
      genId := genId + 1;
      var range := SendRange(down, eff.timing.minTx, d.remote.timing.minRx, eff.timing.mult);
      var detect := DetectTime(eff.timing.minRx, d.remote.timing.minTx, d.remote.timing.mult);
      var fwd := if d.ifindex != 0 then d.ifindex else veth;
      kern := kern.(conf := MakeConfig(d, B(), fwd, d.vrfTable, d.vrfTable != 0, d.ifindex != 0,
                                       d.src.family == Unspec, range, detect, !(down || admdown)));
    }

    /** The state machine's part of `bbdd_bpf_handle_packet`. */
    method Advance()
      modifies this`d
      ensures d == old(d).(local := old(d).local.(st := NextLocal(old(d).local.st, old(d).remote.st.state)))
    {
      var st := d.local.st;
      if d.remote.st.state == AdminDown {
        if st.state != Down {
          st := EndState(Down, DIAG_DOWN);
        }
      } else {
        match st.state
        case AdminDown =>
        case Down =>
          if d.remote.st.state == Down {
            st := EndState(Init, DIAG_NOTHING);
          } else if d.remote.st.state == Init {
            st := EndState(Up, DIAG_NOTHING);
          }
        case Init =>
          if d.remote.st.state == Init || d.remote.st.state == Up {
            st := EndState(Up, DIAG_NOTHING);
          }
        case Up =>
          if d.remote.st.state == Down {
            st := EndState(Down, DIAG_DOWN);
          }
      }
      d := d.(local := d.local.(st := st));
    }

    /** Take over what an accepted packet says and move on. */
    method Learn(remote: EndData)
      modifies this
      ensures View() == Count(old(View()).(d := Received(old(d), remote)), remote.st.state)
    {
      d := d.(remote := remote);
      accepted := accepted + 1;
      heardUp := heardUp || IsInitOrUp(remote.st.state);
      Advance();
    }
  }

  /** What the directory of sessions does not hold: the expiries in the ring buffer and the shutdown
      timers of deleted sessions. */
  class Outside {
    var expired: multiset<u32>
    var dangling: nat
  }

  class Dataplane {
    const env: u32
    const veth: u32
    const egress: nat -> Egress
    const outside: Outside
    var sdir: map<u32, Session>
    var cap: u32
    var finals: seq<Slot>
    var periodics: seq<Slot>
    var armed: bool
    var enq: nat
    var deq: nat
    var dropped: nat
    var sent: nat
    var released: nat
    var tries: nat
    var refused: nat
    var peak: u32
    var flight: seq<Loop>
    var log: seq<Loop>

    /** `bbdd_bpf_create`, with a capacity for no session yet. */
    constructor (env: u32, veth: u32, egress: nat -> Egress)
      ensures Valid() && fresh(outside) && View() == Empty(env, veth, egress)
    {
      this.env, this.veth, this.egress := env, veth, egress;
      outside := new Outside;
      sdir, finals, periodics, armed := map[], [], [], false;
      enq, deq, dropped, sent, released, tries, refused := 0, 0, 0, 0, 0, 0, 0;
      flight, log := [], [];
      cap := if env != 0 && Affordable(env) then env else 0;
      peak := if env != 0 && Affordable(env) then env else 0;
      new;
      outside.expired, outside.dangling := multiset{}, 0;
    }

    function TxView(): Tx
      reads this
    {
      Tx(veth, cap, finals, periodics, armed, enq, deq, dropped, sent, released, egress, tries, refused,
         peak, flight, log)
    }

    /** A session in its context. */
    function In(s: Session): Cx
      reads this, s
    {
      Cx(s.View(), TxView())
    }

    /** Sessions are found under their own discriminator. */
    ghost predicate Valid()
      reads this, sdir.Values
    {
      forall k :: k in sdir ==> sdir[k].d.local.discr == k
    }

    ghost function View(): Node
      reads this, sdir.Values, outside
    {
      Node(env, map k | k in sdir :: sdir[k].View(), TxView(), outside.expired, outside.dangling)
    }

    /** `bbdd_bpf_session_inject_pkt` towards the transmit interface, with what the kernel program
        does to the packet before sendmsg returns. */
    method Inject(s: Session, flags: bv8, final: bool)
      requires Ready(s.View())
      modifies this
      ensures sdir == old(sdir)
      ensures TxView() == if final then SendFinal(old(TxView()), LoopWith(s.View(), flags))
                          else SendSpinner(old(TxView()), LoopWith(s.View(), flags))
    {
      var packet := s.Build(flags);
      if final {
        SendOnce(packet);
      } else {
        flight := flight + [packet];
        log := log + [packet];
        sent := sent + 1;
      }
    }

    method SendOnce(packet: Loop)
      modifies this`sent, this`released, this`refused, this`tries, this`log
      ensures TxView() == SendFinal(old(TxView()), packet)
    {
      released := released + 1;
      if Taken(egress(tries), veth) {
        sent := sent + 1;
        log := log + [packet];
      } else {
        refused := refused + 1;
      }
      tries := tries + 1;
    }

    /** A rearm packet: `bbdd_xmit_veth_rx_xmit` restarts the timer and steals it. */
    method InjectRearm(s: Session)
      modifies this`sent, this`released, s`kern
      ensures In(s) == Machine.InjectRearm(old(In(s)))
    {
      if s.kern.conf.rearm {
        s.kern := s.kern.(timer := true);
      }
      released := released + 1;
      sent := sent + 1;
    }

    /** `bbdd_tx_enqueue` and the arming of POLLOUT, for either class. */
    method Defer(slot: Slot, final: bool)
      modifies this`finals, this`periodics, this`enq, this`armed
      ensures TxView() == if final then EnqueueFinal(old(TxView()), slot) else EnqueuePeriodic(old(TxView()), slot)
    {
      if final && !HasSlot(finals, slot.discr) {
        finals := finals + [slot];
        enq := enq + 1;
      }
      if !final && !HasSlot(periodics, slot.discr) {
        periodics := periodics + [slot];
        enq := enq + 1;
      }
      armed := true;
    }

    method Retime(s: Session)
      modifies this`sent, this`released, s`kern, s`period
      ensures In(s) == Machine.Retime(old(In(s)))
    {
      if s.kern.conf.rearm && s.period != s.kern.conf.detect {
        InjectRearm(s);
        s.period := s.kern.conf.detect;
      } else {
        s.period := 0;
      }
    }

    /** `__bbdd_bpf_session_update`. */
    method Update(s: Session)
      requires Ready(s.View())
      modifies this, s
      ensures sdir == old(sdir)
      ensures In(s) == Machine.Update(old(In(s)))
    {
      var shouldInject := true;
      if s.d.local.st.state == AdminDown && s.bstate == Stable {
        shouldInject := false;
      }
      if s.d.remote.discr == 0 && s.d.local.flags.passive {
        shouldInject := false;
      }
      if shouldInject && !HasCapacity(TxView()) {
        Defer(Slot(s.d.local.discr, InjectFlags(s.d, s.B())), false);
        return;
      }

      Refresh(s, shouldInject);
    }

    method Refresh(s: Session, shouldInject: bool)
      requires Ready(s.View()) && shouldInject == ShouldInject(s.d, s.B())
      modifies this, s
      ensures sdir == old(sdir)
      ensures In(s) == Refreshed(old(In(s)))
    {
      s.Publish(veth);
      if shouldInject {
        Spin(s);
      }
      Retime(s);
    }

    /** The packet that is to loop from now on. */
    method Spin(s: Session)
      requires Ready(s.View())
      modifies this
      ensures sdir == old(sdir)
      ensures TxView() == SendSpinner(old(TxView()), Spinner(s.View()))
    {
      Inject(s, InjectFlags(s.d, s.B()), false);
    }

    method GotFinal(s: Session)
      requires Ready(s.View()) && GoodTiming(s.dfr.timing)
      modifies this, s
      ensures sdir == old(sdir)
      ensures In(s) == Machine.GotFinal(old(In(s)))
    {
      s.bstate := AwaitNonFinal;
      Update(s);
    }

    method GotNonFinal(s: Session)
      requires Ready(s.View()) && GoodTiming(s.dfr.timing)
      modifies this, s
      ensures sdir == old(sdir)
      ensures In(s) == Machine.GotNonFinal(old(In(s)))
    {
      SettleReady(s.View());
      s.Settle();
      Update(s);
    }

    method ShwaitExpired(s: Session)
      requires Ready(s.View()) && GoodTiming(s.dfr.timing)
      modifies this, s
      ensures sdir == old(sdir)
      ensures In(s) == Machine.ShwaitExpired(old(In(s)))
    {
      s.shwait := false;
      GotNonFinal(s);
    }

    /** The callback of a shutdown timer the pointer does not lead to: the list loses it, and it
        cancels the timer the pointer does lead to. */
    method OrphanExpired(s: Session)
      requires s.orphans > 0 && s.shwait && Ready(s.View()) && GoodTiming(s.dfr.timing)
      modifies this, s
      ensures sdir == old(sdir)
      ensures var cx := old(In(s));
              In(s) == Machine.ShwaitExpired(cx.(s := cx.s.(b := cx.s.b.(orphans := cx.s.b.orphans - 1))))
    {
      s.orphans := s.orphans - 1;
      ShwaitExpired(s);
    }

    method HoldExpired(s: Session)
      requires WellFormed(s.d) && s.d.remote.timing.mult != 0 && !s.shwait
      modifies this, s
      ensures sdir == old(sdir)
      ensures In(s) == Machine.HoldExpired(old(In(s)))
    {
      s.eff := UserData(s.d);
      s.bstate := Stable;
      s.d := s.d.(holdTimeUs := 0);
      s.hold := false;
      Update(s);
    }

    /** `bbdd_bpf_session_update`, after the daemon has put the user's values into the record. */
    method UserUpdate(s: Session, to: DSess)
      requires WellFormed(to) && to.remote.timing.mult != 0
      requires s.bstate != OnHold ==> Ready(s.View())
      modifies this, s
      ensures sdir == old(sdir)
      ensures In(s) == Machine.UserUpdate(old(In(s)), to)
    {
      s.d := to;
      if s.bstate == OnHold {
        return;
      }
      HandleUpdateReady(s.View());
      s.HandleUpdate();
      Update(s);
    }

    method AnswerPoll(s: Session)
      requires Ready(s.View())
      modifies this
      ensures sdir == old(sdir)
      ensures In(s) == Machine.AnswerPoll(old(In(s)))
    {
      if !HasCapacity(TxView()) {
        Defer(Slot(s.d.local.discr, BIT_FINAL), true);
      } else {
        Inject(s, BIT_FINAL, true);
      }
    }

    /** The part of `bbdd_bpf_handle_packet` between the parser and the poll bits. */
    method Absorb(s: Session, remote: EndData)
      requires Ready(s.View()) && remote.timing.mult != 0
      modifies this, s
      ensures sdir == old(sdir)
      ensures In(s) == Machine.Absorb(old(In(s)), remote)
    {
      var before := s.d;
      InjectRearm(s);
      s.Learn(remote);
      if s.d.local != before.local || s.d.remote != before.remote {
        Update(s);
      }
    }

    method HandlePacket(s: Session, p: Pkt, ttl: u8)
      requires s.bstate != OnHold ==> Ready(s.View())
      modifies this, s
      ensures sdir == old(sdir)
      ensures In(s) == Machine.HandlePacket(old(In(s)), p, ttl)
    {
      if s.bstate == OnHold || s.bstate == ShuttingDown {
        return;
      }
      if s.d.local.st.state == AdminDown || s.d.ttl > ttl {
        return;
      }
      var parsed := ParsePacket(p, s.d.remote);
      if parsed.Err? {
        return;
      }
      AbsorbKeeps(In(s), parsed.value.remote);
      Absorb(s, parsed.value.remote);
      HandleBits(s, parsed.value.poll, parsed.value.final);
    }

    /** What the Poll and Final bits of an accepted packet call for. */
    method HandleBits(s: Session, poll: bool, final: bool)
      requires Ready(s.View())
      modifies this, s
      ensures sdir == old(sdir)
      ensures In(s) == Machine.HandleBits(old(In(s)), poll, final)
    {
      if poll {
        AnswerPoll(s);
      }
      if s.bstate == AwaitFinal {
        if final {
          GotFinal(s);
        }
      } else if s.bstate == AwaitNonFinal {
        if !final {
          GotNonFinal(s);
        }
      }
    }

    /** Whatever was being waited for is closed. */
    method TimeoutCloses(s: Session)
      requires Ready(s.View())
      modifies this, s
      ensures sdir == old(sdir)
      ensures In(s) == Machine.TimeoutCloses(old(In(s)))
    {
      if s.bstate == ShuttingDown {
        ShwaitExpired(s);
      } else if s.bstate != Stable {
        GotNonFinal(s);
      }
    }

    method HandleTimeout(s: Session)
      requires Ready(s.View())
      modifies this, s
      ensures sdir == old(sdir)
      ensures In(s) == Machine.HandleTimeout(old(In(s)))
    {
      TimeoutClosesReady(In(s));
      TimeoutCloses(s);
      if s.d.local.st.state == Init || s.d.local.st.state == Up {
        s.Lapse();
        Update(s);
      }
    }

    /** Handling one session shows in the view of the whole as an update of its entry. */
    twostate lemma OnlyThis(s: Session)
      requires old(Valid()) && sdir == old(sdir) && s in sdir.Values && unchanged(outside)
      requires s.d.local.discr == old(s.d.local.discr)
      requires forall k :: k in sdir && sdir[k] != s ==> unchanged(sdir[k])
      ensures Valid() && View() == Put(old(View()), s.d.local.discr, In(s))
    {
      var k :| k in sdir && sdir[k] == s;
      assert k == s.d.local.discr;
      forall j | j in sdir && j != k
        ensures sdir[j] != s && sdir[j].View() == old(sdir[j].View())
      {
        assert old(sdir[j].d.local.discr) == j;
      }
      assert View().sess == old(View()).sess[k := s.View()];
    }

    /** Take the head off the queue. */
    method Take() returns (final: bool, slot: Slot)
      requires Pending(TxView())
      modifies this`finals, this`periodics, this`deq
      ensures TxView() == Dequeue(old(TxView()))
      ensures slot == Head(old(TxView())) && final == (old(finals) != [])
    {
      final := finals != [];
      slot := if final then finals[0] else periodics[0];
      if final {
        finals := finals[1..];
      } else {
        periodics := periodics[1..];
      }
      deq := deq + 1;
    }

    /** One round of the drain. */
    method DrainOne()
      requires Valid() && QueueOk(View()) && Pending(TxView()) && HasCapacity(TxView())
      modifies this, sdir.Values
      ensures sdir == old(sdir) && Valid()
      ensures var n := old(View());
              && Head(n.tx).discr in n.sess && Ready(n.sess[Head(n.tx).discr])
              && View() == Nodes.DrainOne(n)
    {
      ghost var n := View();
      DrainOneShrinks(n);
      var final, slot := Take();
      assert Drainable(n, slot.discr);
      var s := sdir[slot.discr];
      ghost var cx := In(s);
      assert cx == Cx(n.sess[slot.discr], Dequeue(n.tx));
      UpdateKeeps(cx);
      if final {
        Inject(s, slot.flags, true);
      } else {
        Update(s);
      }
      OnlyThis(s);
    }

    /** A round brings the drain one slot closer to its end. */
    method DrainRound(ghost goal: Node)
      requires Valid() && QueueOk(View()) && Pending(TxView()) && HasCapacity(TxView())
      requires Nodes.Drain(View()) == goal
      modifies this, sdir.Values
      ensures sdir == old(sdir) && Valid() && QueueOk(View())
      ensures Nodes.Drain(View()) == goal
      ensures |finals| + |periodics| < old(|finals| + |periodics|)
    {
      DrainOneShrinks(View());
      DrainOne();
    }

    /** The end of the drain: stop polling for room when nothing is queued. */
    method Disarm(ghost goal: Node)
      requires Valid() && QueueOk(View()) && Nodes.Drain(View()) == goal
      requires Pending(TxView()) ==> !HasCapacity(TxView())
      modifies this`armed
      ensures Valid() && View() == goal
    {
      ghost var n := View();
      if finals == [] && periodics == [] {
        armed := false;
        assert View().sess == n.sess;
      }
    }

    /** `bbdd_bpf_tx_drain`. */
    method Drain()
      requires Valid() && QueueOk(View())
      modifies this, sdir.Values
      ensures sdir == old(sdir) && Valid()
      ensures View() == Nodes.Drain(old(View()))
    {
      ghost var goal := Nodes.Drain(View());
      while (finals != [] || periodics != []) && HasCapacity(TxView())
        invariant sdir == old(sdir) && Valid() && QueueOk(View())
        invariant Nodes.Drain(View()) == goal
        decreases |finals| + |periodics|
      {
        DrainRound(goal);
      }
      Disarm(goal);
    }
  }
}
