/** The handshake does come to its end: two Down ends, each delivered the other's current packet in turn,
    are Up (section 6.2 of RFC 5880). */
module ComingUp {
  import opened Basics
  import opened Packet
  import opened Sessions
  import opened Machine
  import opened Nodes
  import opened Invariants
  import opened Runs
  import opened Conduct
  import opened Published
  import opened Links
  import opened Handshake
  import opened Mishaps

  /** A settled session past hold that can be heard of, and room for so many more packets. */
  predicate Able(s: Sess, tx: Tx, room: nat) {
    && Ready(s) && s.b.bstate == Stable && s.d.local.st.state != AdminDown && s.k.conf.gen == s.b.genId
    && 0 <= tx.sent - tx.released && tx.sent - tx.released + room < tx.cap
  }

  /** The session's current packet. */
  function Says(s: Sess): Pkt
    requires Ready(s)
  {
    Spinner(s).pkt
  }

  /** A settled session's packet is accepted by any settled one, if it names it or is Down. */
  lemma IsHeard(from: Sess, to: Sess)
    requires Ready(from) && from.b.bstate == Stable && from.k.conf.gen == from.b.genId
    requires Ready(to) && to.b.bstate == Stable && to.d.local.st.state != AdminDown
    requires from.d.remote.discr != 0 || from.d.local.st.state == Down
    ensures Accepts(to, Says(from), 255) && StateField(Says(from)) == from.d.local.st.state
    ensures !HasBit(Bits(Says(from)), BIT_POLL) && Says(from).myDisc == from.d.local.discr
  {
    SpinnerCarries(from);
    ListensExactly(to, Says(from), 255);
    OtherBits(from);
  }

  lemma OtherBits(s: Sess)
    requires Ready(s) && s.b.bstate == Stable
    ensures var bits := Bits(Says(s));
            !HasBit(bits, BIT_AUTH) && !HasBit(bits, BIT_DEMAND) && !HasBit(bits, BIT_MULTI)
  {
    var flags := InjectFlags(s.d, s.b);
    assert flags == FlagBits(false, false, s.d.local.flags.cpi);
    FlagBitsRead(false, false, s.d.local.flags.cpi);
    EitherBit(flags, BIT_AUTH, BIT_DEMAND);
    MakeThenRead(s.d.local.discr, Current(s.b).timing, s.d.local.st, s.d.remote.discr, flags);
  }

  /** The generation comes to the session and the kernel at once. */
  lemma BumpAble(cx: Cx, room: nat)
    requires Able(cx.s, cx.tx, room + 1)
    ensures var s := Bump(cx.tx.veth, cx.s);
            Able(s, cx.tx, room + 1) && Able(s, SendSpinner(cx.tx, Spinner(s)), room)
  {
  }

  lemma RetimeAble(cx: Cx, room: nat)
    requires Able(cx.s, cx.tx, room)
    ensures var to := Retime(cx);
            Able(to.s, to.tx, room) && Spinner(to.s) == Spinner(cx.s) && to.tx.log == cx.tx.log
  {
  }

  /** With room, an update of a session that speaks puts its new packet on the wire. */
  lemma UpdateSpeaks(cx: Cx, room: nat)
    requires Able(cx.s, cx.tx, room + 1)
    ensures var to := Update(cx);
            && Able(to.s, to.tx, room) && Untouched(cx.s, to.s)
            && (Speaks(cx.s.d, cx.s.b) ==> to.tx.log == cx.tx.log + [Spinner(to.s)])
  {
    assert HasCapacity(cx.tx);
    UpdateKeeps(cx);
    BumpAble(cx, room);
    var s := Bump(cx.tx.veth, cx.s);
    RetimeAble(Cx(s, if ShouldInject(s.d, s.b) then SendSpinner(cx.tx, Spinner(s)) else cx.tx), room);
  }

  /** Delivery of a packet that moves the session. */
  lemma Delivered(cx: Cx, p: Pkt, room: nat)
    requires Able(cx.s, cx.tx, room + 1) && Accepts(cx.s, p, 255) && !HasBit(Bits(p), BIT_POLL)
    requires StateField(p) == Down || StateField(p) == Init || StateField(p) == Up
    ensures var to := HandlePacket(cx, p, 255);
            && Follows686(cx.s.d.local.st, StateField(p), to.s.d.local.st)
            && (to.s.d.local.st.state != cx.s.d.local.st.state ==>
                  && Able(to.s, to.tx, room) && to.s.d.remote.discr == p.myDisc && to.s.born == cx.s.born
                  && to.tx.log == cx.tx.log + [Spinner(to.s)] && to.s.d.local.discr == cx.s.d.local.discr)
  {
    AbsorbMeans(cx, p, 255);
    var r := ParsePacket(p, cx.s.d.remote).value;
    var cx1 := InjectRearm(cx);
    var s1 := Absorbed(cx1.s, r.remote);
    if s1.d.local.st.state != cx.s.d.local.st.state {
      assert Able(s1, cx1.tx, room + 1);
      UpdateSpeaks(cx1.(s := s1), room);
    }
  }

  // ---- At one end ----

  predicate AbleAt(n: Node, k: u32, state: State, room: nat) {
    k in n.sess && Able(n.sess[k], n.tx, room) && n.sess[k].d.local.st.state == state
  }

  /** It has sent what it has to say, and who it says it to. */
  predicate HasSpoken(n: Node, k: u32) {
    && k in n.sess && Ready(n.sess[k]) && HasSent(n, k, Says(n.sess[k]))
    && (n.sess[k].d.remote.discr != 0 || n.sess[k].d.local.st.state == Down)
  }

  lemma BornBefore(n: Node, k: u32)
    requires Reached(n) && k in n.sess
    ensures n.sess[k].born <= |n.tx.log| && n.sess[k].d.local.discr == k
  {
    ReachedInv(n);
    assert InOrder(n, k);
  }

  lemma SentLast(n: Node, k: u32, log: seq<Loop>)
    requires k in n.sess && Ready(n.sess[k]) && n.sess[k].d.local.discr == k && n.sess[k].born <= |log|
    requires n.tx.log == log + [Spinner(n.sess[k])]
    ensures HasSent(n, k, Says(n.sess[k]))
  {
    assert n.tx.log[|log|] == Spinner(n.sess[k]) && Mine(n.tx.log[|log|], k);
  }

  /** What is told takes an end from one state to the next. */
  ghost predicate Leads686(from: State, told: State, to: State) {
    forall l: EndState, t: EndState :: l.state == from && Follows686(l, told, t) ==> t.state == to
  }

  /** One delivery. */
  lemma Hears(n: Node, k: u32, other: Node, j: u32, from: State, told: State, to: State, room: nat) returns (m: Node)
    requires Reached(n) && AbleAt(n, k, from, room + 1) && AbleAt(other, j, told, 0) && HasSpoken(other, j)
    requires Leads686(from, told, to) && from != to && told != AdminDown
    ensures var e := Receive(k, Says(other.sess[j]), 255);
            MayHappen(n, k, other, j, e) && m == Step(n, e)
    ensures Reached(m) && AbleAt(m, k, to, room) && HasSpoken(m, k)
  {
    var p := Says(other.sess[j]);
    var e := Receive(k, p, 255);
    IsHeard(other.sess[j], n.sess[k]);
    Advances(n, e);
    m := Step(n, e);
    Delivered(Cxt(n, k), p, room);
    BornBefore(n, k);
    SentLast(m, k, n.tx.log);
  }

  // ---- Both ends ----

  /** Some history comes to this link. */
  ghost predicate Arrives(l: Link, ka: u32, kb: u32) {
    exists ls, ms :: IsHistory(ls, ms, ka, kb) && ls[|ms|] == l
  }

  lemma HistoryGrows(ls: seq<Link>, ms: seq<Move>, ka: u32, kb: u32, m: Move, to: Link)
    returns (ls': seq<Link>, ms': seq<Move>)
    requires IsHistory(ls, ms, ka, kb) && Moves(ls[|ms|], ka, kb, m, to)
    ensures IsHistory(ls', ms', ka, kb) && ls'[|ms'|] == to
  {
    ls', ms' := ls + [to], ms + [m];
    assert ls'[0] == ls[0];
    forall i | 0 <= i < |ms'|
      ensures MovesAt(ls', ms', ka, kb, i)
    {
      if i < |ms| {
        assert MovesAt(ls, ms, ka, kb, i);
        assert ls'[i] == ls[i] && ls'[i + 1] == ls[i + 1] && ms'[i] == ms[i];
      }
    }
  }

  lemma Starts(l: Link, ka: u32, kb: u32)
    requires Begins(l, ka, kb)
    ensures Arrives(l, ka, kb)
  {
    var ls, ms: seq<Move> := [l], [];
    assert IsHistory(ls, ms, ka, kb) && ls[|ms|] == l;
  }

  lemma ArrivesOn(l: Link, ka: u32, kb: u32, m: Move, to: Link)
    requires Arrives(l, ka, kb) && Moves(l, ka, kb, m, to)
    ensures Arrives(to, ka, kb)
  {
    var ls, ms :| IsHistory(ls, ms, ka, kb) && ls[|ms|] == l;
    var ls', ms' := HistoryGrows(ls, ms, ka, kb, m, to);
  }

  lemma ArrivesReached(l: Link, ka: u32, kb: u32)
    requires Arrives(l, ka, kb)
    ensures Reached(l.a) && Reached(l.b)
  {
    var ls, ms :| IsHistory(ls, ms, ka, kb) && ls[|ms|] == l;
    HistoryReached(ls, ms, ka, kb, |ms|);
  }

  /** The one move is the delivery of the other end's current packet. */
  ghost predicate TellsB(l: Link, ka: u32, kb: u32, to: Link) {
    ka in l.a.sess && Ready(l.a.sess[ka]) && Moves(l, ka, kb, AtB(Receive(kb, Says(l.a.sess[ka]), 255)), to)
  }

  ghost predicate TellsA(l: Link, ka: u32, kb: u32, to: Link) {
    kb in l.b.sess && Ready(l.b.sess[kb]) && Moves(l, ka, kb, AtA(Receive(ka, Says(l.b.sess[kb]), 255)), to)
  }

  lemma TellB(l: Link, ka: u32, kb: u32, from: State, told: State, to: State, room: nat) returns (l': Link)
    requires Arrives(l, ka, kb) && Leads686(from, told, to) && from != to && told != AdminDown
    requires AbleAt(l.b, kb, from, room + 1) && AbleAt(l.a, ka, told, 0) && HasSpoken(l.a, ka)
    ensures Arrives(l', ka, kb) && TellsB(l, ka, kb, l')
    ensures l'.a == l.a && AbleAt(l'.b, kb, to, room) && HasSpoken(l'.b, kb)
  {
    ArrivesReached(l, ka, kb);
    var b := Hears(l.b, kb, l.a, ka, from, told, to, room);
    l' := Link(l.a, b);
    ArrivesOn(l, ka, kb, AtB(Receive(kb, Says(l.a.sess[ka]), 255)), l');
  }

  lemma TellA(l: Link, ka: u32, kb: u32, from: State, told: State, to: State, room: nat) returns (l': Link)
    requires Arrives(l, ka, kb) && Leads686(from, told, to) && from != to && told != AdminDown
    requires AbleAt(l.a, ka, from, room + 1) && AbleAt(l.b, kb, told, 0) && HasSpoken(l.b, kb)
    ensures Arrives(l', ka, kb) && TellsA(l, ka, kb, l')
    ensures l'.b == l.b && AbleAt(l'.a, ka, to, room) && HasSpoken(l'.a, ka)
  {
    ArrivesReached(l, ka, kb);
    var a := Hears(l.a, ka, l.b, kb, from, told, to, room);
    l' := Link(a, l.b);
    ArrivesOn(l, ka, kb, AtA(Receive(ka, Says(l.b.sess[kb]), 255)), l');
  }

  /** The ladder of section 6.2 of RFC 5880. */
  lemma Ladder()
    ensures Leads686(Down, Down, Init) && Leads686(Down, Init, Up) && Leads686(Init, Up, Up)
  {
  }

  ghost predicate BothUp(l: Link, ka: u32, kb: u32) {
    && ka in l.a.sess && l.a.sess[ka].d.local.st.state == Up
    && kb in l.b.sess && l.b.sess[kb].d.local.st.state == Up
  }

  /** Any history that has come to two Down ends, settled and with room, of which one has sent its current
      packet, goes on to both being Up by three deliveries of current packets in turn. */
  lemma Rise(l: Link, ka: u32, kb: u32) returns (l1: Link, l2: Link, l3: Link)
    requires Arrives(l, ka, kb)
    requires AbleAt(l.a, ka, Down, 1) && AbleAt(l.b, kb, Down, 2) && HasSpoken(l.a, ka)
    ensures TellsB(l, ka, kb, l1) && TellsA(l1, ka, kb, l2) && TellsB(l2, ka, kb, l3)
    ensures Arrives(l3, ka, kb) && BothUp(l3, ka, kb)
  {
    Ladder();
    l1 := TellB(l, ka, kb, Down, Down, Init, 1);
    l2 := TellA(l1, ka, kb, Down, Init, Up, 0);
    l3 := TellB(l2, ka, kb, Init, Up, Up, 0);
  }

  // ---- From nothing ----

  /** The end of the hold time of a session just added. */
  lemma StartsUp(n: Node, k: u32, d: DSess) returns (m: Node)
    requires Fresh(d) && Reached(n) && k in n.sess && n.sess[k] == NewSess(d, n.sess[k].born, n.sess[k].stale)
    requires 0 <= n.tx.sent - n.tx.released && n.tx.sent - n.tx.released + 3 < n.tx.cap
    ensures Enabled(n, HoldEnd(k)) && Safe(n, HoldEnd(k)) && m == Step(n, HoldEnd(k))
    ensures Reached(m) && AbleAt(m, k, Down, 2)
    ensures !(d.local.flags.passive && d.remote.discr == 0) ==> HasSpoken(m, k)
  {
    Advances(n, HoldEnd(k));
    m := Step(n, HoldEnd(k));
    BornBefore(n, k);
    var s := Released(n.sess[k]);
    assert Able(s, n.tx, 3);
    UpdateSpeaks(Cx(s, n.tx), 2);
    if Speaks(s.d, s.b) {
      SentLast(m, k, n.tx.log);
    }
  }

  /** For every two sessions that can be added, the one not waiting to be spoken to first, there is a
      history from their being added to both being Up. */
  lemma ComeUp(da: DSess, db: DSess, veth: u32, egress: nat -> Egress) returns (l: Link)
    requires Fresh(da) && Fresh(db) && !(da.local.flags.passive && da.remote.discr == 0)
    ensures Arrives(l, da.local.discr, db.local.discr) && BothUp(l, da.local.discr, db.local.discr)
  {
    var ka, kb := da.local.discr, db.local.discr;
    var na := Added(da, veth, egress);
    var nb := Added(db, veth, egress);
    var l0 := Link(na, nb);
    Starts(l0, ka, kb);
    var ma := StartsUp(na, ka, da);
    ArrivesOn(l0, ka, kb, AtA(HoldEnd(ka)), Link(ma, nb));
    var mb := StartsUp(nb, kb, db);
    ArrivesOn(Link(ma, nb), ka, kb, AtB(HoldEnd(kb)), Link(ma, mb));
    var l1, l2;
    l1, l2, l := Rise(Link(ma, mb), ka, kb);
  }
}
