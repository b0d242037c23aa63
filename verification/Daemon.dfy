/** The daemon's tables: its session directory, the dataplane's, the kernel's two maps and the source
    ports, through every add, set and delete, also those that fail half-way. */
module Daemon {
  import opened Basics
  import opened Packet
  import opened Intervals
  import opened Sessions
  import opened Ports
  import opened Requests

  datatype Error = NoPort | Duplicate | NoSession | NoMemory | BpfFailure | Refused(why: Invalid)

  /** Which of the foreign calls of an add fail. */
  datatype Faults = Faults(entry: bool, hold: bool, resize: bool, conf: bool, data: bool)

  const NO_FAULTS := Faults(false, false, false, false, false)

  predicate LowestFree(port: Port, taken: set<Port>) {
    port !in taken && forall p: Port :: p < port ==> p in taken
  }

  /** A new session's record before the request is applied to it. */
  function NewRecord(discr: u32, port: Port): DSess {
    var timing := Timing(1, SLOW_INTERVAL_US, SLOW_INTERVAL_US);
    var flags := Flags(false, false, false, false);
    DSess(SockAddr(Unspec, [], port), SockAddr(Unspec, [], 0), "", 0, 255, 0, 0, 0, 0,
          EndData(flags, discr, timing, EndState(Down, DIAG_DOWN)),
          EndData(flags, 0, timing, EndState(Down, DIAG_NOTHING)))
  }

  /** What a session has that the request does not speak of: a TTL of 255, intervals of a second with a
      multiplier of one at both ends, both ends Down, and nothing else. */
  lemma NewRecordIs(discr: u32, port: Port)
    ensures var d := NewRecord(discr, port);
            && d.ttl == 255 && d.local.discr == discr && d.src.port == port && d.holdTimeUs == 0
            && d.local.timing == d.remote.timing == Timing(1, 1_000_000, 1_000_000)
            && d.local.st == EndState(Down, 3) && d.remote.st == EndState(Down, 0)
            && d.local.flags == d.remote.flags == Flags(false, false, false, false)
            && d.src.family == d.dst.family == Unspec && d.ifindex == d.vrfIfindex == d.vrfTable == 0
            && d.remote.discr == d.userRemoteDiscr == 0 && d.name == ""
  {
  }

  /** The directory entry of a live session, whose port is its own. */
  predicate EntryOk(sdir: map<u32, DSess>, owner: map<Port, u32>, k: u32)
    requires k in sdir
  {
    var d := sdir[k];
    && d.local.discr == k && WellFormed(d) && d.remote.timing.mult != 0
    && PORT_LO <= d.src.port <= PORT_HI && d.src.port in owner && owner[d.src.port] == k
  }

  predicate OwnerOk(sdir: map<u32, DSess>, owner: map<Port, u32>, p: Port)
    requires p in owner
  {
    owner[p] in sdir && sdir[owner[p]].src.port == p
  }

  /** Sessions and ports correspond one to one. */
  ghost predicate Agree(sdir: map<u32, DSess>, owner: map<Port, u32>) {
    && (forall k :: k in sdir ==> EntryOk(sdir, owner, k))
    && (forall p: Port :: p in owner ==> OwnerOk(sdir, owner, p))
  }

  /** So no two sessions share a port, and a port is taken just when some session has it. */
  lemma AgreeMeans(sdir: map<u32, DSess>, owner: map<Port, u32>)
    requires Agree(sdir, owner)
    ensures forall j, k :: j in sdir && k in sdir && sdir[j].src.port == sdir[k].src.port ==> j == k
    ensures forall p: Port :: p in owner <==> exists k :: k in sdir && sdir[k].src.port == p
  {
    forall j, k | j in sdir && k in sdir && sdir[j].src.port == sdir[k].src.port
      ensures j == k
    {
      assert EntryOk(sdir, owner, j) && EntryOk(sdir, owner, k);
    }
    forall p: Port
      ensures p in owner <==> exists k :: k in sdir && sdir[k].src.port == p
    {
      if p in owner {
        assert OwnerOk(sdir, owner, p);
      }
      if k :| k in sdir && sdir[k].src.port == p {
        assert EntryOk(sdir, owner, k);
      }
    }
  }

  lemma AgreeAdd(sdir: map<u32, DSess>, owner: map<Port, u32>, k: u32, d: DSess, port: Port)
    requires Agree(sdir, owner) && k !in sdir && port !in owner
    requires d.local.discr == k && WellFormed(d) && d.remote.timing.mult != 0 && d.src.port == port
    ensures Agree(sdir[k := d], owner[port := k])
  {
    var to, ow := sdir[k := d], owner[port := k];
    forall j | j in to
      ensures EntryOk(to, ow, j)
    {
      assert j != k ==> EntryOk(sdir, owner, j);
    }
    forall p: Port | p in ow
      ensures OwnerOk(to, ow, p)
    {
      assert p != port ==> OwnerOk(sdir, owner, p);
    }
  }

  lemma AgreeDel(sdir: map<u32, DSess>, owner: map<Port, u32>, k: u32, port: Port)
    requires Agree(sdir, owner) && k in sdir && port == sdir[k].src.port
    ensures Agree(sdir - {k}, owner - {port})
  {
    var to, ow := sdir - {k}, owner - {port};
    assert EntryOk(sdir, owner, k);
    forall j | j in to
      ensures EntryOk(to, ow, j)
    {
      assert EntryOk(sdir, owner, j);
    }
    forall p: Port | p in ow
      ensures OwnerOk(to, ow, p)
    {
      assert OwnerOk(sdir, owner, p);
    }
  }

  lemma AgreeSet(sdir: map<u32, DSess>, owner: map<Port, u32>, k: u32, d: DSess)
    requires Agree(sdir, owner) && k in sdir
    requires d.local.discr == k && WellFormed(d) && d.remote.timing.mult != 0 && d.src.port == sdir[k].src.port
    ensures Agree(sdir[k := d], owner)
  {
    var to := sdir[k := d];
    assert EntryOk(sdir, owner, k);
    forall j | j in to
      ensures EntryOk(to, owner, j)
    {
      assert EntryOk(sdir, owner, j);
    }
    forall p: Port | p in owner
      ensures OwnerOk(to, owner, p)
    {
      assert OwnerOk(sdir, owner, p);
    }
  }

  /** What a good request leaves of a record it may not change. */
  lemma OverwrittenKeeps(d: DSess, c: Change)
    requires Parses(c.src) && Parses(c.dst) && !ChangesDiscr(d, c) && d.local.discr != 0
    ensures var e := Overwritten(d, c);
            e.local.discr == d.local.discr && e.remote.timing == d.remote.timing && e.src.port == d.src.port
  {
  }

  lemma AgreeOverwritten(sdir: map<u32, DSess>, owner: map<Port, u32>, k: u32, c: Change, vrfOk: VrfOracle)
    requires Agree(sdir, owner) && k in sdir && Admissible(sdir[k], c, vrfOk)
    ensures Agree(sdir[k := Overwritten(sdir[k], c)], owner)
  {
    assert EntryOk(sdir, owner, k);
    OverwrittenKeeps(sdir[k], c);
    AgreeSet(sdir, owner, k, Overwritten(sdir[k], c));
  }

  /** What a good request makes of a new record. */
  lemma NewRecordOk(discr: u32, port: Port, c: Change, vrfOk: VrfOracle)
    requires Admissible(NewRecord(discr, port), c, vrfOk) && c.discr == Some(discr)
    ensures var e := Overwritten(NewRecord(discr, port), c);
            e.local.discr == discr != 0 && WellFormed(e) && e.remote.timing.mult != 0 && e.src.port == port
  {
  }

  /** The random source will give a number that ends the search. */
  predicate EndsSearch(randoms: seq<u32>, keys: set<u32>) {
    exists i :: 0 <= i < |randoms| && (randoms[i] == 0 || randoms[i] !in keys)
  }

  class Daemon {
    var sdir: map<u32, DSess>
    var bdir: set<u32>
    var conf: set<u32>
    var data: set<u32>
    const ports: Allocator
    ghost var owner: map<Port, u32>

    /** All four tables have the same sessions, all of them well-formed, and the occupied ports are
        exactly theirs, no two alike. */
    ghost predicate Valid()
      reads this, ports, ports.occ
    {
      && ports.Valid()
      && sdir.Keys == bdir == conf == data
      && ports.taken == owner.Keys
      && Agree(sdir, owner)
    }

    constructor ()
      ensures Valid() && sdir == map[] && fresh(ports) && fresh(ports.occ)
    {
      sdir, bdir, conf, data, owner := map[], {}, {}, {}, map[];
      ports := new Allocator();
    }

    /** `bbdd_d_session_add`. It succeeds exactly when there is a port, no foreign call fails and the
        request is good; a failed one leaves every table and the ports as they were. */
    method Add(discr: u32, c: Change, vrfOk: VrfOracle, faults: Faults) returns (r: Result<Port, Error>)
      requires Valid() && discr !in sdir && c.discr == Some(discr) && !c.dst.UnsetAddr?
      modifies this, ports, ports.occ
      ensures Valid()
      ensures r.Err? ==> sdir == old(sdir) && ports.taken == old(ports.taken)
      ensures r.Ok? ==> LowestFree(r.value, old(ports.taken)) && ports.taken == old(ports.taken) + {r.value}
                        && Admissible(NewRecord(discr, r.value), c, vrfOk)
                        && sdir == old(sdir)[discr := Overwritten(NewRecord(discr, r.value), c)]
      ensures r == Err(NoPort) ==> forall p: Port :: p in ports.taken
      ensures r.Err? && r != Err(NoPort) && faults == NO_FAULTS ==>
                exists p: Port :: LowestFree(p, old(ports.taken)) && !Admissible(NewRecord(discr, p), c, vrfOk)
      ensures r.Ok? ==> faults == NO_FAULTS && discr != 0
    {
      var got := ports.Get();
      if got.None? {
        return Err(NoPort);
      }
      var port := got.value;
      r := AddAt(discr, port, c, vrfOk, faults);
      if r.Err? {
        ports.Put(port);
      }
    }

    /** With the port in hand. */
    method AddAt(discr: u32, port: Port, c: Change, vrfOk: VrfOracle, faults: Faults) returns (r: Result<Port, Error>)
      requires discr !in sdir && c.discr == Some(discr) && !c.dst.UnsetAddr?
      requires sdir.Keys == bdir == conf == data && Agree(sdir, owner) && port !in owner
      modifies this
      ensures sdir.Keys == bdir == conf == data && Agree(sdir, owner)
      ensures r.Ok? <==> faults == NO_FAULTS && Admissible(NewRecord(discr, port), c, vrfOk)
      ensures r.Ok? ==> r.value == port && owner == old(owner)[port := discr] && discr != 0
                        && sdir == old(sdir)[discr := Overwritten(NewRecord(discr, port), c)]
      ensures r.Err? ==> r != Err(NoPort) && sdir == old(sdir) && owner == old(owner)
    {
      if faults.entry {
        return Err(NoMemory);
      }
      var entered := Enter(discr, NewRecord(discr, port), c, vrfOk);
      if entered.Err? {
        return Err(Refused(entered.error));
      }
      var ok := BpfAdd(discr, faults);
      if !ok {
        Forget(discr, old(sdir));
        return Err(BpfFailure);
      }
      NewRecordOk(discr, port, c, vrfOk);
      AgreeAdd(old(sdir), owner, discr, sdir[discr], port);
      owner := owner[port := discr];
      return Ok(port);
    }

    /** Put the new record into the directory and the request into the record. */
    method Enter(discr: u32, d: DSess, c: Change, vrfOk: VrfOracle) returns (r: Result<bool, Invalid>)
      requires discr !in sdir && !c.dst.UnsetAddr?
      modifies this`sdir
      ensures r.Ok? <==> Admissible(d, c, vrfOk)
      ensures sdir == if r.Ok? then old(sdir)[discr := Overwritten(d, c)] else old(sdir)
    {
      var rec := new Record(d);
      sdir := sdir[discr := d];
      r := rec.Apply(c, vrfOk);
      if r.Err? {
        Forget(discr, old(sdir));
        return;
      }
      sdir := sdir[discr := rec.d];
    }

    /** The way back from an add that failed. */
    method Forget(discr: u32, ghost was: map<u32, DSess>)
      requires discr !in was && discr in sdir && sdir == was[discr := sdir[discr]]
      modifies this`sdir
      ensures sdir == was
    {
      sdir := sdir - {discr};
    }

    /** `bbdd_bpf_session_add`: the hold timer, the socket, the two kernel maps, the directory. */
    method BpfAdd(discr: u32, faults: Faults) returns (ok: bool)
      requires discr !in conf && discr !in data && discr !in bdir
      modifies this`bdir, this`conf, this`data
      ensures ok <==> !(faults.hold || faults.resize || faults.conf || faults.data)
      ensures if ok then bdir == old(bdir) + {discr} && conf == old(conf) + {discr} && data == old(data) + {discr}
              else bdir == old(bdir) && conf == old(conf) && data == old(data)
    {
      if faults.hold || faults.resize || faults.conf {
        return false;
      }
      conf := conf + {discr};
      if faults.data {
        conf := conf - {discr};
        return false;
      }
      data := data + {discr};
      bdir := bdir + {discr};
      return true;
    }

    /** One session of a set request. */
    method Set(discr: u32, c: Change, vrfOk: VrfOracle) returns (r: Result<bool, Error>)
      requires Valid() && !c.dst.UnsetAddr?
      modifies this`sdir
      ensures Valid()
      ensures r.Ok? <==> discr in old(sdir) && Admissible(old(sdir)[discr], c, vrfOk)
      ensures r.Ok? ==> sdir == old(sdir)[discr := Overwritten(old(sdir)[discr], c)]
      ensures r.Err? ==> sdir == old(sdir)
    {
      if discr !in sdir {
        return Err(NoSession);
      }
      var applied := Reapply(discr, c, vrfOk);
      if applied.Err? {
        return Err(Refused(applied.error));
      }
      AgreeOverwritten(old(sdir), owner, discr, c, vrfOk);
      return Ok(applied.value);
    }

    /** The request goes into the record of an existing session. */
    method Reapply(discr: u32, c: Change, vrfOk: VrfOracle) returns (r: Result<bool, Invalid>)
      requires discr in sdir && !c.dst.UnsetAddr?
      modifies this`sdir
      ensures r.Ok? <==> Admissible(old(sdir)[discr], c, vrfOk)
      ensures sdir == if r.Ok? then old(sdir)[discr := Overwritten(old(sdir)[discr], c)] else old(sdir)
    {
      var rec := new Record(sdir[discr]);
      r := rec.Apply(c, vrfOk);
      sdir := sdir[discr := rec.d];
    }

    /** `bbdd_d_handle_session_del_one`. */
    method Del(discr: u32) returns (r: Result<Port, Error>)
      requires Valid()
      modifies this, ports, ports.occ
      ensures Valid()
      ensures r.Ok? <==> discr in old(sdir)
      ensures r.Ok? ==> r.value == old(sdir)[discr].src.port && sdir == old(sdir) - {discr}
                        && ports.taken == old(ports.taken) - {r.value}
      ensures r.Err? ==> sdir == old(sdir) && ports.taken == old(ports.taken)
    {
      if discr !in sdir {
        return Err(NoSession);
      }
      assert EntryOk(sdir, owner, discr);
      bdir := bdir - {discr};
      conf := conf - {discr};
      data := data - {discr};
      var port: Port := sdir[discr].src.port;
      ports.Put(port);
      AgreeDel(sdir, owner, discr, port);
      owner := owner - {port};
      sdir := sdir - {discr};
      return Ok(port);
    }

    /** `bbdd_sess_get_unique_discr`, over the numbers the random source will give. It takes the first
        that is not in use; but zero also ends the search. */
    method UniqueDiscr(randoms: seq<u32>) returns (r: Option<u32>)
      ensures r.Some? ==> r.value in randoms && (r.value == 0 || r.value !in sdir)
      ensures r.None? ==> forall i :: 0 <= i < |randoms| ==> randoms[i] != 0 && randoms[i] in sdir
    {
      for i := 0 to |randoms|
        invariant forall j :: 0 <= j < i ==> randoms[j] != 0 && randoms[j] in sdir
      {
        if !(randoms[i] != 0 && randoms[i] in sdir) {
          return Some(randoms[i]);
        }
      }
      return None;
    }

    /** The discriminator of a new session: the user's, which must be free, or a drawn one. */
    method PickDiscr(c: Change, randoms: seq<u32>) returns (discr: Option<u32>)
      requires Valid() && (c.discr.None? ==> EndsSearch(randoms, sdir.Keys))
      ensures discr.Some? ==> discr.value !in sdir
      ensures c.discr.Some? ==> discr == if c.discr.value in sdir then None else c.discr
    {
      if c.discr.Some? {
        return if c.discr.value in sdir then None else c.discr;
      }
      discr := UniqueDiscr(randoms);
      ZeroUnused();
    }

    /** `bbdd_d_handle_session_add`. A drawn zero is not noticed here, but the request is then refused
        and nothing is left of it. */
    method HandleAdd(c: Change, randoms: seq<u32>, vrfOk: VrfOracle, faults: Faults)
      returns (r: Result<Port, Error>, discr: Option<u32>)
      requires Valid() && !c.dst.UnsetAddr? && (c.discr.None? ==> EndsSearch(randoms, sdir.Keys))
      modifies this, ports, ports.occ
      ensures Valid()
      ensures r.Err? ==> sdir == old(sdir) && ports.taken == old(ports.taken)
      ensures r.Ok? ==> discr.Some? && discr.value != 0 && discr.value !in old(sdir)
                        && sdir.Keys == old(sdir.Keys) + {discr.value}
                        && ports.taken == old(ports.taken) + {r.value}
      ensures r.Ok? && c.discr.Some? ==> discr == c.discr
      ensures c.discr.Some? && c.discr.value in old(sdir) ==> r == Err(Duplicate)
    {
      discr := PickDiscr(c, randoms);
      if discr.None? {
        return Err(Duplicate), discr;
      }
      r := Add(discr.value, c.(discr := discr), vrfOk, faults);
    }

    lemma ZeroUnused()
      requires Valid()
      ensures 0 !in sdir
    {
    }
  }
}
