/** What a session does, said by its fields alone: which packets it listens to, where each takes it, what
    a timeout and what a user's change make of it (sections 6.5, 6.8.3, 6.8.4, 6.8.6 and 6.8.16 of
    RFC 5880). */
module Conduct {
  import opened Basics
  import opened Packet
  import opened Sessions
  import opened Machine
  import opened Nodes
  import opened Invariants
  import opened Runs
  import opened Changes

  // ---- Packets ----

  /** A session listens to exactly these packets. */
  lemma ListensExactly(s: Sess, p: Pkt, ttl: u8)
    ensures Accepts(s, p, ttl) <==>
            && s.b.bstate != OnHold && s.b.bstate != ShuttingDown && s.d.local.st.state != AdminDown && ttl >= s.d.ttl
            && p.requiredEchoRx == 0 && p.mult != 0 && p.myDisc != 0
            && !HasBit(Bits(p), BIT_AUTH) && !HasBit(Bits(p), BIT_DEMAND) && !HasBit(Bits(p), BIT_MULTI)
            && (p.yourDisc == 0 ==> StateField(p) == Down || StateField(p) == AdminDown)
  {
    EitherBit(Bits(p), BIT_AUTH, BIT_DEMAND);
  }

  lemma EitherBit(bits: bv8, a: bv8, b: bv8)
    ensures HasBit(bits, a | b) <==> HasBit(bits, a) || HasBit(bits, b)
  {
  }

  /** What it does not listen to changes nothing. */
  lemma Ignores(cx: Cx, p: Pkt, ttl: u8)
    requires (cx.s.b.bstate != OnHold ==> Ready(cx.s)) && !Accepts(cx.s, p, ttl)
    ensures HandlePacket(cx, p, ttl) == cx
  {
  }

  /** Section 6.8.6 of RFC 5880: the state an end in state `l` goes to when told `r`, and the diagnostic. */
  predicate Follows686(l: EndState, r: State, t: EndState) {
    && (t.state == Up <==>
          (l.state == Down && r == Init) || ((l.state == Init || l.state == Up) && (r == Init || r == Up)))
    && (t.state == Init <==> (l.state == Down || l.state == Init) && r == Down)
    && (t.state == Down <==> r == AdminDown || (l.state == Up && r == Down) || (l.state == Down && r == Up))
    && t.diag == (if t.state == l.state then l.diag else if t.state == Down then 3 else 0)
  }

  /** What a packet says of its sender. */
  predicate SaidBy(p: Pkt, before: EndData, after: EndData) {
    && after.discr == p.myDisc && after.timing == Timing(p.mult, p.desiredTx, p.requiredRx)
    && after.st.state == StateField(p) && after.st.diag == DiagField(p)
    && after.flags == before.flags.(cpi := HasBit(Bits(p), BIT_CPI))
  }

  lemma AbsorbMeans(cx: Cx, p: Pkt, ttl: u8)
    requires Ready(cx.s) && Accepts(cx.s, p, ttl)
    ensures var r := ParsePacket(p, cx.s.d.remote).value;
            var to := Absorb(cx, r.remote).s;
            && Ready(to) && r.poll == HasBit(Bits(p), BIT_POLL) && r.final == HasBit(Bits(p), BIT_FINAL)
            && Follows686(cx.s.d.local.st, StateField(p), to.d.local.st) && SaidBy(p, cx.s.d.remote, to.d.remote)
            && UserData(to.d) == UserData(cx.s.d)
            && to.b.bstate == cx.s.b.bstate && to.b.eff == cx.s.b.eff && to.b.dfr == cx.s.b.dfr && to.b.qd == cx.s.b.qd
  {
    AbsorbKeeps(cx, ParsePacket(p, cx.s.d.remote).value.remote);
  }

  /** A queued change is taken up by this packet. */
  predicate TakesUp(s: Sess, p: Pkt) {
    s.b.bstate == AwaitNonFinal && !HasBit(Bits(p), BIT_FINAL) && s.b.qd
  }

  lemma BitsMean(cx: Cx, poll: bool, final: bool)
    requires Ready(cx.s)
    ensures var s, t := cx.s, HandleBits(cx, poll, final).s;
            var closes := s.b.bstate == AwaitNonFinal && !final;
            && (!(closes && s.b.qd) ==>
                  && t.d == s.d && t.b.qd == s.b.qd
                  && t.b.bstate == (if s.b.bstate == AwaitFinal && final then AwaitNonFinal
                                    else if closes then Stable else s.b.bstate)
                  && t.b.eff == if closes then s.b.dfr else s.b.eff)
            && (closes ==> !t.b.qd)
  {
    var cx1 := if poll then AnswerPoll(cx) else cx;
    if cx1.s.b.bstate.AwaitFinal? && final {
      UpdateKeeps(cx1.(s := cx1.s.(b := cx1.s.b.(bstate := AwaitNonFinal))));
    } else if cx1.s.b.bstate.AwaitNonFinal? && !final {
      SettleReady(cx1.s);
      UpdateKeeps(cx1.(s := WithPair(cx1.s, Settle(cx1.s.d, cx1.s.b))));
    }
  }

  /** In every run, for every packet a session accepts and that takes up no queued change: both ends'
      states, by the state before and what the packet says. */
  lemma PacketMoves(n: Node, k: u32, p: Pkt, ttl: u8)
    requires Reached(n) && k in n.sess && Accepts(n.sess[k], p, ttl) && !TakesUp(n.sess[k], p)
    ensures var e := Receive(k, p, ttl);
            && Safe(n, e) && k in Step(n, e).sess
            && Follows686(n.sess[k].d.local.st, StateField(p), Step(n, e).sess[k].d.local.st)
            && SaidBy(p, n.sess[k].d.remote, Step(n, e).sess[k].d.remote)
  {
    ReachedAlive(n, k);
    var cx := Cxt(n, k);
    AbsorbMeans(cx, p, ttl);
    var r := ParsePacket(p, cx.s.d.remote).value;
    BitsMean(Absorb(cx, r.remote), r.poll, r.final);
  }

  /** In every run, the poll sequence of section 6.5 of RFC 5880: a Final ends the polling, the first
      packet without one closes it and puts the polled data in force. Nothing else does. */
  lemma PacketPolls(n: Node, k: u32, p: Pkt, ttl: u8)
    requires Reached(n) && k in n.sess && Accepts(n.sess[k], p, ttl)
    ensures var e := Receive(k, p, ttl);
            && Safe(n, e) && k in Step(n, e).sess
            && var b, to := n.sess[k].b, Step(n, e).sess[k].b;
               var final := HasBit(Bits(p), BIT_FINAL);
               && (b.bstate == Stable ==> to.bstate == Stable && to.eff == b.eff)
               && (b.bstate == AwaitFinal ==>
                     to.bstate == (if final then AwaitNonFinal else AwaitFinal) && to.eff == b.eff)
               && (b.bstate == AwaitNonFinal && final ==> to.bstate == AwaitNonFinal && to.eff == b.eff)
               && (b.bstate == AwaitNonFinal && !final ==> !to.qd && (!b.qd ==> to.bstate == Stable && to.eff == b.dfr))
  {
    ReachedAlive(n, k);
    var cx := Cxt(n, k);
    AbsorbMeans(cx, p, ttl);
    var r := ParsePacket(p, cx.s.d.remote).value;
    BitsMean(Absorb(cx, r.remote), r.poll, r.final);
  }

  /** What the closing of a wait makes of a session's ends when it takes up a queued change of shutdown:
      `polled` are the data that were being polled. */
  predicate Switches(polled: BData, user: BData, before: DSess, after: DSess) {
    && (user.shutdown && !polled.shutdown ==>
          after.local.st == EndState(AdminDown, 7) && after.remote.st == EndState(Down, 3))
    && (!user.shutdown && polled.shutdown ==>
          after.local.st == EndState(Down, 3) && after.remote == before.remote)
    && (user.shutdown == polled.shutdown ==> after == before)
  }

  lemma ClosingMeans(cx: Cx)
    requires Ready(cx.s) && GoodTiming(cx.s.b.dfr.timing)
    ensures var s, t := cx.s, GotNonFinal(cx).s;
            if s.b.qd then Switches(s.b.dfr, UserData(s.d), s.d, t.d) else t.d == s.d
  {
    SettleReady(cx.s);
    UpdateKeeps(cx.(s := WithPair(cx.s, Settle(cx.s.d, cx.s.b))));
  }

  /** And those packets that do take up a queued change: the packet is heard first, then the change. */
  lemma PacketTakesUp(n: Node, k: u32, p: Pkt, ttl: u8)
    requires Reached(n) && k in n.sess && Accepts(n.sess[k], p, ttl) && TakesUp(n.sess[k], p)
    ensures var e := Receive(k, p, ttl);
            && Safe(n, e) && k in Step(n, e).sess
            && var s, t := n.sess[k], Step(n, e).sess[k];
               var on, off := s.d.local.flags.shutdown, s.b.dfr.shutdown;
               && (on && !off ==> t.d.local.st == EndState(AdminDown, 7) && t.d.remote.st == EndState(Down, 3))
               && (!on && off ==> t.d.local.st == EndState(Down, 3) && SaidBy(p, s.d.remote, t.d.remote))
               && (on == off ==> Follows686(s.d.local.st, StateField(p), t.d.local.st)
                                 && SaidBy(p, s.d.remote, t.d.remote))
  {
    ReachedAlive(n, k);
    var cx := Cxt(n, k);
    AbsorbMeans(cx, p, ttl);
    var r := ParsePacket(p, cx.s.d.remote).value;
    var cx1 := Absorb(cx, r.remote);
    var cx2 := if r.poll then AnswerPoll(cx1) else cx1;
    ClosingMeans(cx2);
  }

  // ---- Polls of the other end ----

  /** A Final went out or was tried, or one waits in the queue. */
  predicate Answers(k: u32, tx: Tx, to: Tx) {
    to.tries == tx.tries + 1 || HasSlot(to.finals, k)
  }

  lemma UpdateTries(cx: Cx)
    requires Ready(cx.s)
    ensures Update(cx).tx.tries == cx.tx.tries && Update(cx).tx.finals == cx.tx.finals
  {
  }

  lemma AbsorbTries(cx: Cx, remote: EndData)
    requires Ready(cx.s) && remote.timing.mult != 0
    ensures Absorb(cx, remote).tx.tries == cx.tx.tries && Absorb(cx, remote).tx.finals == cx.tx.finals
  {
    var cx1 := InjectRearm(cx);
    UpdateTries(cx1.(s := Absorbed(cx1.s, remote)));
  }

  lemma AnswerPollMeans(cx: Cx)
    requires Ready(cx.s)
    ensures AnswerPoll(cx).s == cx.s && Answers(cx.s.d.local.discr, cx.tx, AnswerPoll(cx).tx)
    ensures HasSlot(cx.tx.finals, cx.s.d.local.discr) ==> HasSlot(AnswerPoll(cx).tx.finals, cx.s.d.local.discr)
  {
    HasSlotAppend(cx.tx.finals, Slot(cx.s.d.local.discr, BIT_FINAL), cx.s.d.local.discr);
  }

  lemma BitsTries(cx: Cx, poll: bool, final: bool)
    requires Ready(cx.s)
    ensures var to := HandleBits(cx, poll, final).tx;
            if poll then Answers(cx.s.d.local.discr, cx.tx, to)
            else to.tries == cx.tx.tries && to.finals == cx.tx.finals
  {
    AnswerPollMeans(cx);
    var cx1 := if poll then AnswerPoll(cx) else cx;
    if cx1.s.b.bstate.AwaitFinal? && final {
      UpdateTries(cx1.(s := cx1.s.(b := cx1.s.b.(bstate := AwaitNonFinal))));
    } else if cx1.s.b.bstate.AwaitNonFinal? && !final {
      SettleReady(cx1.s);
      UpdateTries(cx1.(s := WithPair(cx1.s, Settle(cx1.s.d, cx1.s.b))));
    }
  }

  /** In every run, an accepted packet with a Poll is answered, at once or as soon as there is room, and
      one without is not. */
  lemma PollIsAnswered(n: Node, k: u32, p: Pkt, ttl: u8)
    requires Reached(n) && k in n.sess && Accepts(n.sess[k], p, ttl)
    ensures var e := Receive(k, p, ttl);
            && Safe(n, e)
            && var tx, to := n.tx, Step(n, e).tx;
               if HasBit(Bits(p), BIT_POLL) then Answers(k, tx, to) else to.tries == tx.tries && to.finals == tx.finals
  {
    ReachedAlive(n, k);
    var cx := Cxt(n, k);
    AbsorbMeans(cx, p, ttl);
    var r := ParsePacket(p, cx.s.d.remote).value;
    AbsorbKeeps(cx, r.remote);
    AbsorbTries(cx, r.remote);
    BitsTries(Absorb(cx, r.remote), r.poll, r.final);
  }

  /** An answer says where its session is and bears the Final bit alone. */
  lemma AnswerSays(cx: Cx)
    requires Ready(cx.s) && HasCapacity(cx.tx) && Taken(cx.tx.egress(cx.tx.tries), cx.tx.veth)
    ensures var log := AnswerPoll(cx).tx.log;
            && log == cx.tx.log + [log[|log| - 1]]
            && var l := log[|log| - 1];
               l.discr == l.pkt.myDisc == cx.s.d.local.discr && l.pkt.yourDisc == cx.s.d.remote.discr
               && StateField(l.pkt) == cx.s.d.local.st.state && DiagField(l.pkt) == cx.s.d.local.st.diag
               && Bits(l.pkt) == 16
  {
    var s := cx.s;
    MakeThenRead(s.d.local.discr, Current(s.b).timing, s.d.local.st, s.d.remote.discr, BIT_FINAL);
  }

  /** A drain sends, or tries to send, every Final it takes off the queue. */
  lemma {:induction false} DrainAnswers(n: Node)
    requires QueueOk(n)
    ensures Drain(n).tx.tries == n.tx.tries + |n.tx.finals| - |Drain(n).tx.finals|
    decreases Backlog(n.tx)
  {
    if Pending(n.tx) && HasCapacity(n.tx) {
      DrainOneShrinks(n);
      if n.tx.finals == [] {
        UpdateTries(Cx(n.sess[Head(n.tx).discr], Dequeue(n.tx)));
      }
      DrainAnswers(DrainOne(n));
    }
  }

  // ---- Timeouts ----

  lemma TimeoutMeans(cx: Cx)
    requires Ready(cx.s) && (cx.s.b.qd ==> cx.s.b.bstate == AwaitFinal || cx.s.b.bstate == AwaitNonFinal)
    ensures var s, t := cx.s, HandleTimeout(cx).s;
            var runs := s.b.qd && s.d.local.flags.shutdown != s.b.dfr.shutdown;
            && !IsInitOrUp(t.d.local.st.state)
            && (IsInitOrUp(s.d.local.st.state) && !runs ==>
                  && t.d.local.st == EndState(Down, 1) && t.d.remote.st == EndState(Down, 1)
                  && t.d.remote.discr == t.d.userRemoteDiscr == s.d.userRemoteDiscr)
            && (!IsInitOrUp(s.d.local.st.state) && !runs ==> t.d == s.d)
            && (runs && s.d.local.flags.shutdown ==> t.d.local.st == EndState(AdminDown, 7))
            && (runs && !s.d.local.flags.shutdown ==> t.d.local.st == EndState(Down, 3))
  {
    TimeoutClosesReady(cx);
    var cx1 := TimeoutCloses(cx);
    if cx.s.b.bstate.ShuttingDown? {
      ClosingMeans(cx.(s := cx.s.(b := cx.s.b.(shwait := false))));
    } else if !cx.s.b.bstate.Stable? {
      ClosingMeans(cx);
    }
    if IsInitOrUp(cx1.s.d.local.st.state) {
      UpdateKeeps(cx1.(s := cx1.s.(d := Lapsed(cx1.s.d))));
    }
  }

  /** In every run, an expiry leaves a session neither Init nor Up. One that was is Down with diagnostic
      1, and has forgotten its remote but for what the user said; unless a change of shutdown was queued,
      which is taken up first and decides. */
  lemma TimedOutMeans(n: Node, k: u32)
    requires Reached(n) && Enabled(n, TimedOut(k)) && !Stops(n, TimedOut(k))
    ensures var e := TimedOut(k);
            && Safe(n, e) && k in Step(n, e).sess
            && var s, t := n.sess[k], Step(n, e).sess[k];
               var runs := s.b.qd && s.d.local.flags.shutdown != s.b.dfr.shutdown;
               && !IsInitOrUp(t.d.local.st.state)
               && (IsInitOrUp(s.d.local.st.state) && !runs ==>
                     && t.d.local.st == EndState(Down, 1) && t.d.remote.st == EndState(Down, 1)
                     && t.d.remote.discr == t.d.userRemoteDiscr == s.d.userRemoteDiscr)
               && (!IsInitOrUp(s.d.local.st.state) && !runs ==> t.d == s.d)
               && (runs && s.d.local.flags.shutdown ==> t.d.local.st == EndState(AdminDown, 7))
               && (runs && !s.d.local.flags.shutdown ==> t.d.local.st == EndState(Down, 3))
  {
    ReachedAlive(n, k);
    TimeoutMeans(Cxt(n, k));
  }

  // ---- The user's changes ----

  predicate Waiting(b: BSess) {
    b.bstate == AwaitFinal || b.bstate == AwaitNonFinal
  }

  /** The data a change is held against: those in force, or those being polled. */
  function Reference(b: BSess): BData {
    if b.bstate == Stable then b.eff else b.dfr
  }

  function Asked(to: DSess): BData {
    BData(to.local.timing, to.local.flags.shutdown)
  }

  predicate Tunes(to: DSess, b: BSess) {
    Asked(to).timing.minTx != Reference(b).timing.minTx || Asked(to).timing.minRx != Reference(b).timing.minRx
  }

  /** An Up session would send more slowly or give up on the peer sooner. */
  predicate Relaxes(to: DSess, b: BSess) {
    to.local.st.state == Up && (Asked(to).timing.minTx > Reference(b).timing.minTx
                                || Asked(to).timing.minRx < Reference(b).timing.minRx)
  }

  /** The change turns shutdown on. */
  predicate GoesOff(to: DSess, b: BSess) {
    to.local.flags.shutdown && !Reference(b).shutdown
  }

  /** The change turns shutdown off. */
  predicate ComesBack(to: DSess, b: BSess) {
    !to.local.flags.shutdown && Reference(b).shutdown
  }

  /** Section 6.8.16 of RFC 5880, one way: the session is AdminDown at once and its peer taken for Down,
      and it goes on sending until the shutdown timer; a session that waits for a poll only makes a note. */
  predicate ShutOff(s: Sess, to: DSess, t: Sess) {
    if Waiting(s.b) then t.d == to && t.b.qd && t.b.bstate == s.b.bstate && t.b.eff == s.b.eff && t.b.dfr == s.b.dfr
    else
      && t.b.bstate == ShuttingDown && t.b.dfr == Asked(to) && t.b.eff == s.b.eff && t.b.shwait
      && t.d.local.st == EndState(AdminDown, 7) && t.d.remote.st == EndState(Down, 3)
      && t.d.local.(st := to.local.st) == to.local && t.d.remote.(st := to.remote.st) == to.remote
  }

  /** Any other change: a settled session polls for new intervals, and for being enabled from a shutdown
      wait; it is Down when it is enabled; and an Up session does not relax before the poll. One that
      waits for a poll makes a note, and sends its Polls with the new data unless they relax. */
  predicate Adopts(s: Sess, to: DSess, t: Sess) {
    var back := ComesBack(to, s.b);
    if Waiting(s.b) then
      && t.d == to && t.b.bstate == s.b.bstate && t.b.eff == s.b.eff
      && t.b.dfr == (if Relaxes(to, s.b) then s.b.dfr else Asked(to))
      && t.b.qd == (s.b.qd || Tunes(to, s.b) || back)
    else
      && t.d == (if back then to.(local := to.local.(st := EndState(Down, 3))) else to) && t.b.qd == s.b.qd
      && t.b.bstate == (if Tunes(to, s.b) || (back && s.b.bstate == ShuttingDown) then AwaitFinal else s.b.bstate)
      && (s.b.bstate == Stable ==> t.b.eff == if Relaxes(to, s.b) then s.b.eff else Asked(to))
      && (s.b.bstate == ShuttingDown ==> t.b.eff == s.b.eff)
      && (t.b.bstate != Stable ==> t.b.dfr == Asked(to))
      && t.b.shwait == (s.b.shwait && !(back && s.b.bstate == ShuttingDown))
  }

  lemma HandleUpdateMeans(s: Sess, to: DSess)
    requires Alive(s) && Ready(s) && UserMayChange(s.d, to)
    ensures var t := WithPair(s, HandleUpdate(to, s.b));
            if GoesOff(to, s.b) then ShutOff(s, to, t) else Adopts(s, to, t)
  {
  }

  lemma UserMeansCx(cx: Cx, to: DSess)
    requires Alive(cx.s) && Ready(cx.s) && UserMayChange(cx.s.d, to)
    ensures var t := UserUpdate(cx, to).s;
            if GoesOff(to, cx.s.b) then ShutOff(cx.s, to, t) else Adopts(cx.s, to, t)
  {
    var s := cx.s.(d := to);
    HandleUpdateMeans(cx.s, to);
    HandleUpdateReady(s);
    UpdateKeeps(Cx(WithPair(s, HandleUpdate(to, s.b)), cx.tx));
  }

  /** In every run, what a user's change makes of a session; on hold it is only written down. */
  lemma UserMeans(n: Node, k: u32, to: DSess)
    requires Reached(n) && Enabled(n, User(k, to))
    ensures var e := User(k, to);
            && Safe(n, e) && k in Step(n, e).sess
            && var s, t := n.sess[k], Step(n, e).sess[k];
               if s.b.bstate == OnHold then t == s.(d := to)
               else if GoesOff(to, s.b) then ShutOff(s, to, t) else Adopts(s, to, t)
  {
    ReachedAlive(n, k);
    Advances(n, User(k, to));
    if n.sess[k].b.bstate != OnHold {
      UserMeansCx(Cxt(n, k), to);
    }
  }

  /** In every run, a change that takes shutdown away takes an AdminDown session to Down, with diagnostic
      3, exactly when the session was shutting down, or settled with shutdown in force. */
  lemma EnabledExactly(n: Node, k: u32, to: DSess)
    requires Reached(n) && Enabled(n, User(k, to))
    requires var s := n.sess[k]; s.d.local.st.state == AdminDown && !to.local.flags.shutdown
    ensures var e := User(k, to);
            && Safe(n, e) && k in Step(n, e).sess
            && var s, st := n.sess[k], Step(n, e).sess[k].d.local.st;
               && (st == EndState(Down, 3) <==>
                     s.b.bstate == ShuttingDown || (s.b.bstate == Stable && s.b.eff.shutdown))
               && (st != EndState(Down, 3) ==> st.state == AdminDown)
  {
    ReachedAlive(n, k);
    UserMeans(n, k, to);
  }

  /** So, where no change was lost, one that turns shutdown off enables a session exactly when it is
      settled or shutting down. */
  lemma EnabledWhenTidy(n: Node, k: u32, to: DSess)
    requires Reached(n) && Enabled(n, User(k, to)) && Faithful(n.sess[k])
    requires var d := n.sess[k].d; d.local.st.state == AdminDown && d.local.flags.shutdown && !to.local.flags.shutdown
    ensures var e := User(k, to);
            && Safe(n, e) && k in Step(n, e).sess
            && (Step(n, e).sess[k].d.local.st == EndState(Down, 3)
                <==> n.sess[k].b.bstate == Stable || n.sess[k].b.bstate == ShuttingDown)
  {
    EnabledExactly(n, k, to);
  }

  // ---- The session's own timers ----

  /** In every run, the end of the hold time puts the user's data in force. */
  lemma HoldEndMeans(n: Node, k: u32)
    requires Reached(n) && Enabled(n, HoldEnd(k))
    ensures var e := HoldEnd(k);
            && Safe(n, e) && k in Step(n, e).sess
            && var s, t := n.sess[k], Step(n, e).sess[k];
               t.b.bstate == Stable && t.b.eff == Asked(s.d) && !t.b.hold && t.d == s.d.(holdTimeUs := 0)
  {
    ReachedAlive(n, k);
    Advances(n, HoldEnd(k));
    UpdateKeeps(Cx(Released(n.sess[k]), n.tx));
  }

  /** In every run, the end of a shutdown wait leaves the session settled, with shutdown in force, and
      AdminDown. */
  lemma ShutdownEndMeans(n: Node, k: u32)
    requires Reached(n) && Enabled(n, ShutdownEnd(k)) && n.sess[k].b.bstate == ShuttingDown
    ensures var e := ShutdownEnd(k);
            && Safe(n, e) && k in Step(n, e).sess
            && var s, t := n.sess[k], Step(n, e).sess[k];
               && t.d == s.d && t.d.local.st.state == AdminDown && !t.b.shwait && !t.b.qd
               && t.b.bstate == Stable && t.b.eff == s.b.dfr && t.b.eff.shutdown
  {
    ReachedAlive(n, k);
    Advances(n, ShutdownEnd(k));
    var s := n.sess[k].(b := n.sess[k].b.(shwait := false));
    SettleReady(s);
    UpdateKeeps(Cx(WithPair(s, Settle(s.d, s.b)), n.tx));
  }
}
