/** The deferred-injection queue: two intrusive doubly linked lists whose head's `prev` is the tail. */
module TxQueue {
  import opened Basics

  /** Each session owns one slot for Finals and one for updates. */
  class TxSlot {
    var discr: u32
    var txIfindex: u32
    var flags: bv8
    var linked: bool
    var isFinal: bool
    var prev: TxSlot?
    var next: TxSlot?

    constructor ()
      ensures !linked
    {
      discr, txIfindex, flags, linked, isFinal := 0, 0, 0, false, false;
      prev, next := null, null;
    }

    method Stamp(isFinal: bool, discr: u32, txIfindex: u32, flags: bv8)
      modifies this`isFinal, this`discr, this`txIfindex, this`flags, this`linked
      ensures linked && this.isFinal == isFinal
      ensures this.discr == discr && this.txIfindex == txIfindex && this.flags == flags
    {
      this.discr := discr;
      this.txIfindex := txIfindex;
      this.flags := flags;
      this.isFinal := isFinal;
      linked := true;
    }
  }

  /** The neighbours of a list's member: nothing follows the last, and the last precedes the first. */
  function After(q: seq<TxSlot>, i: nat): TxSlot?
    requires i < |q|
  {
    if i + 1 < |q| then q[i + 1] else null
  }

  function Before(q: seq<TxSlot>, i: nat): TxSlot
    requires i < |q|
  {
    if i > 0 then q[i - 1] else q[|q| - 1]
  }

  /** Member i points to its neighbours. */
  ghost predicate LinkedAt(q: seq<TxSlot>, i: nat)
    requires i < |q|
    reads q[i]
  {
    q[i].next == After(q, i) && q[i].prev == Before(q, i)
  }

  /** The list a head pointer stands for. */
  class List {
    var head: TxSlot?
    ghost var items: seq<TxSlot>
    ghost var nodes: set<TxSlot>

    ghost predicate Valid()
      reads this, nodes
    {
      && (forall i :: 0 <= i < |items| ==> items[i] in nodes)
      && (forall i, j :: 0 <= i < j < |items| ==> items[i] != items[j])
      && head == (if items == [] then null else items[0])
      && (forall i :: 0 <= i < |items| ==> LinkedAt(items, i))
    }

    constructor ()
      ensures Valid() && items == [] && nodes == {}
    {
      head, items, nodes := null, [], {};
    }

    method Append(slot: TxSlot)
      requires Valid() && slot !in nodes
      modifies this, slot`prev, slot`next, nodes`prev, nodes`next
      ensures Valid() && items == old(items) + [slot] && nodes == old(nodes) + {slot}
    {
      ghost var was := items;
      if head != null {
        assert LinkedAt(was, 0);
        var tail := head.prev;
        slot.prev := tail;
        tail.next := slot;
        head.prev := slot;
        slot.next := null;
      } else {
        head := slot;
        slot.prev := slot;
        slot.next := null;
      }
      items := items + [slot];
      nodes := nodes + {slot};
      forall j | 0 <= j < |items|
        ensures LinkedAt(items, j)
      {
        assert j < |was| ==> items[j] == was[j] && old(LinkedAt(was, j));
      }
    }

    /** Where the slot is. */
    ghost function Position(slot: TxSlot): (i: nat)
      requires slot in items
      reads this
      ensures i < |items| && items[i] == slot
    {
      var i :| 0 <= i < |items| && items[i] == slot;
      i
    }

    /** `DL_DELETE`, by where the slot is. */
    method Delete(slot: TxSlot)
      requires Valid() && slot in items
      modifies this, nodes`prev, nodes`next
      ensures Valid() && items == Omit(old(items), old(Position(slot))) && nodes == old(nodes) - {slot}
    {
      ghost var i := Position(slot);
      assert LinkedAt(items, i);
      if slot.prev == slot {
        head := null;
        items := [];
        nodes := nodes - {slot};
      } else if slot == head {
        DeleteFirst(slot);
      } else {
        DeleteLater(slot, i);
      }
    }

    method DeleteFirst(slot: TxSlot)
      requires Valid() && |items| > 1 && slot == items[0]
      modifies this, nodes`prev
      ensures Valid() && items == Omit(old(items), 0) && nodes == old(nodes) - {slot}
    {
      ghost var was := items;
      assert LinkedAt(was, 0);
      slot.next.prev := slot.prev;
      head := slot.next;
      items := items[1..];
      nodes := nodes - {slot};
      forall j | 0 <= j < |items|
        ensures LinkedAt(items, j)
      {
        assert items[j] == was[j + 1] && old(LinkedAt(was, j + 1));
      }
    }

    method DeleteLater(slot: TxSlot, ghost i: nat)
      requires Valid() && 0 < i < |items| && slot == items[i]
      modifies this, nodes`prev, nodes`next
      ensures Valid() && items == Omit(old(items), i) && nodes == old(nodes) - {slot}
    {
      ghost var was := items;
      assert LinkedAt(was, i);
      slot.prev.next := slot.next;
      if slot.next != null {
        slot.next.prev := slot.prev;
      } else {
        head.prev := slot.prev;
      }
      items := Omit(was, i);
      nodes := nodes - {slot};
      OmitAt(was, i);
      forall j | 0 <= j < |items|
        ensures LinkedAt(items, j)
      {
        var k := if j < i then j else j + 1;
        assert items[j] == was[k] && old(LinkedAt(was, k));
      }
    }
  }

  function Omit<T>(q: seq<T>, i: nat): seq<T>
    requires i < |q|
  {
    q[..i] + q[i + 1..]
  }

  lemma OmitAt<T>(q: seq<T>, i: nat)
    requires i < |q|
    ensures |Omit(q, i)| == |q| - 1
    ensures forall j :: 0 <= j < |q| - 1 ==> Omit(q, i)[j] == q[if j < i then j else j + 1]
  {
  }

  /** `struct bbdd_tx`: Finals and updates, each with its length. */
  class Tx {
    const finals: List
    const periodics: List
    var nfinals: nat
    var nperiodics: nat

    ghost function Finals(): seq<TxSlot>
      reads finals
    {
      finals.items
    }

    ghost function Periodics(): seq<TxSlot>
      reads periodics
    {
      periodics.items
    }

    ghost predicate Valid()
      reads this, finals, periodics, finals.nodes, periodics.nodes
    {
      && finals != periodics && finals.Valid() && periodics.Valid()
      && finals.nodes !! periodics.nodes
      && nfinals == |Finals()| && nperiodics == |Periodics()|
      && (forall s :: s in finals.nodes ==> s.linked && s.isFinal)
      && (forall s :: s in periodics.nodes ==> s.linked && !s.isFinal)
    }

    /** A slot marked as linked is in this queue. (That a member is marked is part of Valid.) */
    ghost predicate Tracks(slot: TxSlot)
      reads finals, periodics, slot
    {
      slot.linked ==> slot in (if slot.isFinal then Finals() else Periodics())
    }

    constructor ()
      ensures Valid() && Finals() == [] && Periodics() == []
    {
      finals := new List();
      periodics := new List();
      nfinals, nperiodics := 0, 0;
    }

    /** Coalescing: a linked slot stays as and where it is. The members of the lists change in
        nothing but their links. */
    method Enqueue(slot: TxSlot, isFinal: bool, discr: u32, txIfindex: u32, flags: bv8) returns (added: bool)
      requires Valid() && Tracks(slot)
      modifies this, finals, periodics, slot
      modifies finals.nodes`prev, finals.nodes`next, periodics.nodes`prev, periodics.nodes`next
      ensures Valid() && Tracks(slot)
      ensures added == !old(slot.linked) && slot.linked
      ensures Finals() == old(Finals()) + (if added && isFinal then [slot] else [])
      ensures Periodics() == old(Periodics()) + (if added && !isFinal then [slot] else [])
      ensures if added then slot.discr == discr && slot.txIfindex == txIfindex && slot.flags == flags
              else unchanged(slot)
    {
      if slot.linked {
        return false;
      }
      assert slot !in finals.nodes && slot !in periodics.nodes;
      slot.Stamp(isFinal, discr, txIfindex, flags);
      assert Valid();
      if isFinal {
        LinkFinal(slot);
      } else {
        LinkPeriodic(slot);
      }
      return true;
    }

    method LinkFinal(slot: TxSlot)
      requires Valid() && slot !in finals.nodes && slot !in periodics.nodes && slot.linked && slot.isFinal
      modifies this`nfinals, finals, slot`prev, slot`next, finals.nodes`prev, finals.nodes`next
      ensures Valid() && Finals() == old(Finals()) + [slot]
    {
      finals.Append(slot);
      nfinals := nfinals + 1;
    }

    method LinkPeriodic(slot: TxSlot)
      requires Valid() && slot !in finals.nodes && slot !in periodics.nodes && slot.linked && !slot.isFinal
      modifies this`nperiodics, periodics, slot`prev, slot`next, periodics.nodes`prev, periodics.nodes`next
      ensures Valid() && Periodics() == old(Periodics()) + [slot]
    {
      periodics.Append(slot);
      nperiodics := nperiodics + 1;
    }

    /** The oldest Final, or the oldest update when there is no Final. */
    method Peek() returns (slot: TxSlot?)
      requires Valid()
      ensures slot == if Finals() != [] then Finals()[0] else if Periodics() != [] then Periodics()[0] else null
    {
      if finals.head != null {
        return finals.head;
      }
      return periodics.head;
    }

    /** A list's members without the slot, in the same order. */
    ghost function Dropped(list: List, slot: TxSlot): seq<TxSlot>
      reads list
    {
      if slot in list.items then Omit(list.items, list.Position(slot)) else list.items
    }

    /** Safe on a slot that is not linked. */
    method Unlink(slot: TxSlot)
      requires Valid() && Tracks(slot)
      modifies this, finals, periodics, slot`linked
      modifies finals.nodes`prev, finals.nodes`next, periodics.nodes`prev, periodics.nodes`next
      ensures Valid() && !slot.linked
      ensures Finals() == old(Dropped(finals, slot)) && Periodics() == old(Dropped(periodics, slot))
    {
      if !slot.linked {
        return;
      }
      if slot.isFinal {
        finals.Delete(slot);
        nfinals := nfinals - 1;
      } else {
        periodics.Delete(slot);
        nperiodics := nperiodics - 1;
      }
      slot.linked := false;
    }

    method IsPending() returns (r: bool)
      requires Valid()
      ensures r <==> Finals() + Periodics() != []
    {
      r := finals.head != null || periodics.head != null;
    }
  }
}
