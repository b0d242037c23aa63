/** The kernel programs as they stand: what each does to the two session maps, the counters, the
    detection timers and the ring buffer. */
module Kernel {
  import opened Basics
  import opened Packet
  import opened Intervals
  import opened Sessions
  import opened Machine
  import opened FastPath

  /** What becomes of a packet. */
  datatype Action = Pass | Shot | Stolen | Redirect

  /** Why a counter of a session goes up. */
  datatype Cause = WrongGeneration | Unrouted(route: Route) | NoNeighbourFinal | Loopback | NoRewrite | NoRedirect
                 | TimerFailure | IsAdminDown | LowTtl | Timeout

  /** `bbdd_prog_session_data`. Each diagnostic counter is a multiplicity. */
  datatype Data = Data(initd: bool, timer: bool, txPackets: nat, txBytes: nat, rxPackets: nat, rxBytes: nat,
                       diag: multiset<Cause>)

  datatype Notice = NoticeNoNeighbour | NoticeDiscr0(p: Pkt, ttl: u8) | NoticeUnexpected(p: Pkt, ttl: u8)
                  | NoticeTimeout(discr: u32)

  /** A packet at egress: its BFD payload if it has one, its mark and its length. */
  datatype Skb = Skb(bfd: Option<Pkt>, mark: nat, len: nat)

  type Confs = map<u32, Config>
  type Datas = map<u32, Data>

  predicate IsFinal(p: Pkt) {
    HasBit(Bits(p), BIT_FINAL)
  }

  /** The maps know the session. */
  predicate Known(conf: Confs, data: Datas, discr: u32) {
    discr in conf && discr in data
  }

  /** The packet belongs to the session as it now is. */
  predicate UpToDate(conf: Confs, data: Datas, skb: Skb) {
    skb.bfd.Some? && Known(conf, data, skb.bfd.value.myDisc) && skb.mark == conf[skb.bfd.value.myDisc].gen
  }

  function Blamed(d: Data, cause: Cause): Data {
    d.(diag := d.diag + multiset{cause})
  }

  // ---- Sending ----

  /** The verdict on a packet of the present generation. */
  function Fate(p: Pkt, e: Egress, veth: u32): Action {
    if !IsFinal(p) then Pass
    else if e.route.NoNeighbour? then Stolen
    else if Leaves(e, veth) then Redirect
    else Shot
  }

  /** The one reason a packet does not leave. */
  function Blame(e: Egress, veth: u32, final: bool): Cause {
    if e.route.NoNeighbour? && final then NoNeighbourFinal
    else if !e.route.Found? then Unrouted(e.route)
    else if e.route.ifindex == veth then Loopback
    else if !e.rewritten then NoRewrite
    else NoRedirect
  }

  /** A packet is counted as sent exactly when it leaves, and otherwise blamed once. */
  function Emitted(d: Data, e: Egress, veth: u32, final: bool, len: nat): Data {
    if Leaves(e, veth) then d.(txPackets := d.txPackets + 1, txBytes := d.txBytes + len)
    else Blamed(d, Blame(e, veth, final))
  }

  function AfterTx(conf: Confs, data: Datas, skb: Skb, e: Egress, veth: u32): Datas {
    if skb.bfd.None? || !Known(conf, data, skb.bfd.value.myDisc) then data
    else
      var k := skb.bfd.value.myDisc;
      data[k := if UpToDate(conf, data, skb) then Emitted(data[k], e, veth, IsFinal(skb.bfd.value), skb.len)
                else Blamed(data[k], WrongGeneration)]
  }

  // ---- Receiving ----

  /** The detection timer starts exactly when the configuration asks for it and the helpers work. */
  function Rearmed(d: Data, rearm: bool, inits: bool, starts: bool): Data {
    if !rearm then d
    else if !d.initd && !inits then Blamed(d, TimerFailure)
    else if !starts then Blamed(d.(initd := true), TimerFailure)
    else d.(initd := true, timer := true)
  }

  /** What the receive program tells userspace of a packet. */
  function Told(conf: Confs, data: Datas, p: Pkt, ttl: u8): seq<Notice> {
    if VersionField(p) != 1 || p.length != PACKET_SIZE then []
    else if p.yourDisc == 0 then [NoticeDiscr0(p, ttl)]
    else if !Known(conf, data, p.yourDisc) then []
    else if KernelReceive(conf[p.yourDisc], p, ttl) == Slow then [NoticeUnexpected(p, ttl)]
    else []
  }

  /** The packet is kept in the kernel. */
  predicate Kept(conf: Confs, data: Datas, p: Pkt, ttl: u8) {
    p.yourDisc != 0 && Known(conf, data, p.yourDisc) && KernelReceive(conf[p.yourDisc], p, ttl) == Fast
  }

  /** A packet that is valid but not wanted. */
  predicate Unwanted(conf: Confs, data: Datas, p: Pkt, ttl: u8) {
    && VersionField(p) == 1 && p.length == PACKET_SIZE && p.yourDisc != 0 && Known(conf, data, p.yourDisc)
    && (conf[p.yourDisc].adminDown || conf[p.yourDisc].ttl > ttl)
  }

  function AfterRecv(conf: Confs, data: Datas, p: Pkt, ttl: u8, len: nat, inits: bool, starts: bool): Datas {
    var k := p.yourDisc;
    if Kept(conf, data, p, ttl) then
      var d := Rearmed(data[k], conf[k].rearm, inits, starts);
      data[k := d.(rxPackets := d.rxPackets + 1, rxBytes := d.rxBytes + len)]
    else if Unwanted(conf, data, p, ttl) then
      data[k := Blamed(data[k], if conf[k].adminDown then IsAdminDown else LowTtl)]
    else data
  }

  /** Userspace is told of exactly the valid packets that name no session, and of exactly the valid ones that
      name a known session which is not AdminDown and takes their TTL, and are not the one it expects. */
  lemma ToldExactly(conf: Confs, data: Datas, p: Pkt, ttl: u8)
    ensures var valid := VersionField(p) == 1 && p.length == 24;
            && (Told(conf, data, p, ttl) == [NoticeDiscr0(p, ttl)] <==> valid && p.yourDisc == 0)
            && (Told(conf, data, p, ttl) == [NoticeUnexpected(p, ttl)] <==>
                  valid && p.yourDisc != 0 && p.yourDisc in conf && p.yourDisc in data
                  && !conf[p.yourDisc].adminDown && conf[p.yourDisc].ttl <= ttl && p != conf[p.yourDisc].rxExpect)
            && (Told(conf, data, p, ttl) == [] || Told(conf, data, p, ttl) == [NoticeDiscr0(p, ttl)]
                || Told(conf, data, p, ttl) == [NoticeUnexpected(p, ttl)])
  {
    assert [NoticeDiscr0(p, ttl)][0] != [NoticeUnexpected(p, ttl)][0];
  }

  /** And a packet is kept to the kernel exactly when it is the one a known session expects and hears. */
  lemma KeptExactly(conf: Confs, data: Datas, p: Pkt, ttl: u8)
    ensures Kept(conf, data, p, ttl) <==>
            && VersionField(p) == 1 && p.length == 24 && p.yourDisc != 0 && p.yourDisc in conf && p.yourDisc in data
            && !conf[p.yourDisc].adminDown && conf[p.yourDisc].ttl <= ttl && p == conf[p.yourDisc].rxExpect
  {
  }

  /** Sending touches only the packet's session and no timer; the packet is counted exactly when it is of
      the present generation and leaves, and every other one is blamed once. */
  lemma TxEffects(conf: Confs, data: Datas, skb: Skb, e: Egress, veth: u32, k: u32)
    requires k in data
    ensures var to := AfterTx(conf, data, skb, e, veth);
            var own := skb.bfd.Some? && skb.bfd.value.myDisc == k && k in conf;
            var leaves := own && UpToDate(conf, data, skb) && Leaves(e, veth);
            && to.Keys == data.Keys && to[k].timer == data[k].timer && to[k].rxPackets == data[k].rxPackets
            && to[k].txPackets == data[k].txPackets + (if leaves then 1 else 0)
            && to[k].txBytes == data[k].txBytes + (if leaves then skb.len else 0)
            && |to[k].diag| == |data[k].diag| + (if own && !leaves then 1 else 0)
  {
  }

  /** The verdict at egress: shot unless of the present generation; then round again, unless it is a Final,
      which is stolen for want of a neighbour, redirected when it leaves, and otherwise shot. */
  lemma FateExactly(p: Pkt, e: Egress, veth: u32)
    ensures var leaves := e.route.Found? && e.route.ifindex != veth && e.rewritten && e.handed;
            && (Fate(p, e, veth) == Pass <==> !HasBit(Bits(p), BIT_FINAL))
            && (HasBit(Bits(p), BIT_FINAL) ==>
                  && (Fate(p, e, veth) == Stolen <==> e.route == NoNeighbour)
                  && (Fate(p, e, veth) == Redirect <==> leaves)
                  && (Fate(p, e, veth) == Shot <==> e.route != NoNeighbour && !leaves))
  {
  }

  /** Receiving touches only the session the packet is for; it is counted, and its timer runs afterwards,
      exactly as the packet is kept, the configuration asks for it and the helpers work. */
  lemma RecvEffects(conf: Confs, data: Datas, p: Pkt, ttl: u8, len: nat, inits: bool, starts: bool, k: u32)
    requires k in data
    ensures var to := AfterRecv(conf, data, p, ttl, len, inits, starts);
            var kept := k == p.yourDisc && Kept(conf, data, p, ttl);
            && to.Keys == data.Keys && to[k].txPackets == data[k].txPackets
            && to[k].rxPackets == data[k].rxPackets + (if kept then 1 else 0)
            && to[k].rxBytes == data[k].rxBytes + (if kept then len else 0)
            && (to[k].timer <==> data[k].timer || (kept && conf[k].rearm && (data[k].initd || inits) && starts))
  {
  }

  class Program {
    var conf: Confs
    var data: Datas
    var released: nat
    var ring: seq<Notice>
    const veth: u32

    constructor (veth: u32)
      ensures conf == map[] && data == map[] && released == 0 && ring == [] && this.veth == veth
    {
      conf, data, released, ring := map[], map[], 0, [];
      this.veth := veth;
    }

    method Bump(discr: u32, cause: Cause)
      requires discr in data
      modifies this`data
      ensures data == old(data)[discr := Blamed(old(data)[discr], cause)]
    {
      data := data[discr := data[discr].(diag := data[discr].diag + multiset{cause})];
    }

    /** The lookup has succeeded: rewrite the headers and hand the packet over. */
    method Hand(discr: u32, final: bool, len: nat, e: Egress) returns (rc: Action, done: bool)
      requires discr in data && e.route.Found?
      modifies this`data, this`released
      ensures data == old(data)[discr := Emitted(old(data)[discr], e, veth, final, len)]
      ensures rc == if final && Leaves(e, veth) then Redirect else Shot
      ensures done ==> final
      ensures released == old(released) + if done then 1 else 0
    {
      rc, done := Shot, false;
      if e.route.ifindex == veth {
        Bump(discr, Loopback);
        return;
      }
      if !e.rewritten {
        Bump(discr, NoRewrite);
        return;
      }
      if final {
        rc := if e.handed then Redirect else Shot;
        if rc == Shot {
          Bump(discr, NoRedirect);
          released := released + 1;
          return rc, true;
        }
      } else if !e.handed {
        Bump(discr, NoRedirect);
        return;
      }
      data := data[discr := data[discr].(txPackets := data[discr].txPackets + 1, txBytes := data[discr].txBytes + len)];
    }

    /** The part of the transmit program between the lookup and the label `out`. */
    method Emit(discr: u32, final: bool, len: nat, e: Egress) returns (rc: Action, done: bool)
      requires discr in data
      modifies this`data, this`released, this`ring
      ensures data == old(data)[discr := Emitted(old(data)[discr], e, veth, final, len)]
      ensures ring == old(ring) + if e.route.NoNeighbour? then [NoticeNoNeighbour] else []
      ensures final ==> rc == if e.route.NoNeighbour? then Stolen else if Leaves(e, veth) then Redirect else Shot
      ensures done ==> final
      ensures released == old(released) + if done then 1 else 0
    {
      rc, done := Shot, false;
      if e.route.Found? {
        rc, done := Hand(discr, final, len, e);
        return;
      }
      if e.route.NoNeighbour? {
        ring := ring + [NoticeNoNeighbour];
        if final {
          Bump(discr, NoNeighbourFinal);
          released := released + 1;
          return Stolen, true;
        }
      }
      Bump(discr, Unrouted(e.route));
    }

    /** `bbdd_xmit_veth_tx`. A packet either goes round again, when it is of its session's present
        generation and no Final, or is released, exactly once and by whatever way it goes; only what
        is not BFD is dropped uncounted. The next round of a packet is due after the random delay. */
    method XmitTx(skb: Skb, e: Egress, random: u32, now: nat) returns (v: Action, due: Option<nat>)
      modifies this`data, this`released, this`ring
      ensures v == if UpToDate(conf, old(data), skb) then Fate(skb.bfd.value, e, veth) else Shot
      ensures released == old(released) + if skb.bfd.Some? && v != Pass then 1 else 0
      ensures due == if v == Pass then Some(now + SendDelay(conf[skb.bfd.value.myDisc].range, random) * 1000) else None
      ensures data == AfterTx(conf, old(data), skb, e, veth)
      ensures ring == old(ring) + if UpToDate(conf, old(data), skb) && e.route.NoNeighbour?
                                  then [NoticeNoNeighbour] else []
    {
      due := None;
      if skb.bfd.None? {
        return Shot, None;
      }
      var p := skb.bfd.value;
      var final := IsFinal(p);
      var discr := p.myDisc;
      if discr !in conf || discr !in data {
        released := released + 1;
        return Shot, None;
      }
      var config := conf[discr];
      if skb.mark != config.gen {
        Bump(discr, WrongGeneration);
        released := released + 1;
        return Shot, None;
      }
      var done;
      v, done := Emit(discr, final, skb.len, e);
      if done {
        return;
      }
      if final {
        released := released + 1;
        return;
      }
      return Pass, Some(now + SendDelay(config.range, random) * 1000);
    }

    /** `bbdd_recv_rearm_timer`: `inits` and `starts` say whether the helpers succeed. */
    method RearmTimer(discr: u32, inits: bool, starts: bool)
      requires Known(conf, data, discr)
      modifies this`data
      ensures data == old(data)[discr := Rearmed(old(data)[discr], conf[discr].rearm, inits, starts)]
    {
      if !conf[discr].rearm {
        return;
      }
      if !data[discr].initd {
        if !inits {
          Bump(discr, TimerFailure);
          return;
        }
        data := data[discr := data[discr].(initd := true)];
      }
      if !starts {
        Bump(discr, TimerFailure);
        return;
      }
      data := data[discr := data[discr].(timer := true)];
    }

    /** `bbdd_xmit_veth_rx_xmit`: a packet sent only to start the timer is released, come what may, and
        concerns no other session. */
    method XmitRearm(skb: Skb, inits: bool, starts: bool) returns (v: Action)
      modifies this`data, this`released
      ensures released == old(released) + if skb.bfd.Some? then 1 else 0
      ensures v == if skb.bfd.Some? && Known(conf, old(data), skb.bfd.value.myDisc) then Stolen else Shot
      ensures data == if v == Stolen
                      then var k := skb.bfd.value.myDisc;
                           old(data)[k := Rearmed(old(data)[k], conf[k].rearm, inits, starts)]
                      else old(data)
    {
      if skb.bfd.None? {
        return Shot;
      }
      var discr := skb.bfd.value.myDisc;
      released := released + 1;
      if discr !in conf || discr !in data {
        return Shot;
      }
      RearmTimer(discr, inits, starts);
      return Stolen;
    }

    /** `bbdd_recv`. Whatever it is, a BFD packet goes no further than this; userspace is told exactly of
        those without a discriminator and of those a session did not expect; and exactly the expected
        ones count as received and restart the timer of their session. */
    method Recv(bfd: Option<Pkt>, ttl: u8, len: nat, inits: bool, starts: bool) returns (v: Action)
      modifies this`data, this`ring
      ensures v == if bfd.Some? then Shot else Pass
      ensures ring == old(ring) + if bfd.Some? then Told(conf, old(data), bfd.value, ttl) else []
      ensures data == if bfd.Some? then AfterRecv(conf, old(data), bfd.value, ttl, len, inits, starts) else old(data)
    {
      if bfd.None? {
        return Pass;
      }
      var p := bfd.value;
      v := Shot;
      if VersionField(p) != 1 {
        return;
      }
      if p.length != PACKET_SIZE {
        return;
      }
      if p.yourDisc == 0 {
        ring := ring + [NoticeDiscr0(p, ttl)];
        return;
      }
      var discr := p.yourDisc;
      if discr !in data || discr !in conf {
        return;
      }
      var config := conf[discr];
      if config.adminDown {
        Bump(discr, IsAdminDown);
        return;
      }
      if config.ttl > ttl {
        Bump(discr, LowTtl);
        return;
      }
      if p != config.rxExpect {
        ring := ring + [NoticeUnexpected(p, ttl)];
        return;
      }
      RearmTimer(discr, inits, starts);
      data := data[discr := data[discr].(rxPackets := data[discr].rxPackets + 1, rxBytes := data[discr].rxBytes + len)];
    }

    /** `bfd_session_expired`: the timer has run out and userspace will hear of it. */
    method Expired(discr: u32)
      requires discr in data && data[discr].timer
      modifies this`data, this`ring
      ensures data == old(data)[discr := Blamed(old(data)[discr], Timeout).(timer := false)]
      ensures ring == old(ring) + [NoticeTimeout(discr)]
    {
      data := data[discr := data[discr].(timer := false)];
      Bump(discr, Timeout);
      ring := ring + [NoticeTimeout(discr)];
    }
  }
}
