/** The source-port allocator: a bitmap over the ports 49152 to 65535. */
module Ports {
  import opened Basics

  const BITS: nat := 64
  const PORT_LO: nat := 49152
  const PORT_HI: nat := 65535
  const CAPACITY: nat := PORT_HI - PORT_LO + 1
  const WORDS: nat := CAPACITY / BITS

  /** A machine word by its bits, lowest first. */
  type Word = w: seq<bool> | |w| == BITS witness seq(BITS, i => false)

  type Port = p: int | PORT_LO <= p <= PORT_HI witness PORT_LO

  function WordOf(p: Port): nat { (p - PORT_LO) / BITS }
  function BitOf(p: Port): nat { (p - PORT_LO) % BITS }

  function PortAt(i: nat, f: nat): (p: Port)
    requires i < WORDS && f < BITS
    ensures WordOf(p) == i && BitOf(p) == f
  {
    PORT_LO + i * BITS + f
  }

  lemma PortSplits(p: Port)
    ensures WordOf(p) < WORDS && BitOf(p) < BITS && PortAt(WordOf(p), BitOf(p)) == p
  {
  }

  /** `ffsl` of the complement: the lowest clear bit, or none. */
  method LowestClear(w: Word) returns (f: Option<nat>)
    ensures f.Some? ==> f.value < BITS && !w[f.value] && forall j :: 0 <= j < f.value ==> w[j]
    ensures f.None? ==> forall j :: 0 <= j < BITS ==> w[j]
  {
    for j := 0 to BITS
      invariant forall k :: 0 <= k < j ==> w[k]
    {
      if !w[j] {
        return Some(j);
      }
    }
    return None;
  }

  class Allocator {
    const occ: array<Word>
    ghost var taken: set<Port>

    /** The bitmap and the set of taken ports say the same. */
    ghost predicate Valid()
      reads this, occ
    {
      occ.Length == WORDS && forall p: Port :: p in taken <==> BitAt(p)
    }

    predicate BitAt(p: Port)
      requires occ.Length == WORDS
      reads occ
    {
      PortSplits(p);
      occ[WordOf(p)][BitOf(p)]
    }

    constructor ()
      ensures Valid() && taken == {} && fresh(occ)
    {
      occ := new Word[WORDS](i => seq(BITS, j => false));
      taken := {};
    }

    /** The lowest free port, or failure when there is none. */
    method Get() returns (r: Option<Port>)
      requires Valid()
      modifies this, occ
      ensures Valid()
      ensures r.Some? ==> r.value !in old(taken) && taken == old(taken) + {r.value}
      ensures r.Some? ==> forall p: Port :: p < r.value ==> p in old(taken)
      ensures r.None? ==> taken == old(taken) && forall p: Port :: p in taken
    {
      for i := 0 to WORDS
        invariant unchanged(this) && occ[..] == old(occ[..])
        invariant forall p: Port :: WordOf(p) < i ==> BitAt(p)
      {
        var f := LowestClear(occ[i]);
        if f.Some? {
          LowerTaken(i, f.value);
          SetBit(PortAt(i, f.value), true);
          return Some(PortAt(i, f.value));
        }
        forall p: Port | WordOf(p) == i
          ensures BitAt(p)
        {
          PortSplits(p);
        }
      }
      forall p: Port
        ensures BitAt(p)
      {
        PortSplits(p);
      }
      return None;
    }

    /** Everything below the lowest clear bit of the first word that has one is taken. */
    lemma LowerTaken(i: nat, f: nat)
      requires occ.Length == WORDS && i < WORDS && f < BITS && !occ[i][f]
      requires forall p: Port :: WordOf(p) < i ==> BitAt(p)
      requires forall j :: 0 <= j < f ==> occ[i][j]
      ensures !BitAt(PortAt(i, f)) && forall p: Port :: p < PortAt(i, f) ==> BitAt(p)
    {
      forall p: Port | p < PortAt(i, f)
        ensures BitAt(p)
      {
        PortSplits(p);
        if WordOf(p) >= i {
          assert WordOf(p) == i && BitOf(p) < f;
        }
      }
    }

    method SetBit(port: Port, bit: bool)
      requires Valid()
      modifies this, occ
      ensures Valid() && taken == if bit then old(taken) + {port} else old(taken) - {port}
    {
      PortSplits(port);
      var i, f := WordOf(port), BitOf(port);
      occ[i] := occ[i][f := bit];
      taken := if bit then taken + {port} else taken - {port};
      forall p: Port
        ensures BitAt(p) == if p == port then bit else old(BitAt(p))
      {
        PortSplits(p);
      }
    }

    /** The source asserts that the port is not below the range. */
    method Put(port: Port)
      requires Valid()
      modifies this, occ
      ensures Valid() && taken == old(taken) - {port}
    {
      SetBit(port, false);
    }
  }
}
