/** The linked queue is the pair of sequences the dataplane model works with. */
module TxRefinement {
  import opened Basics
  import opened Machine
  import opened Nodes
  import opened TxQueue

  /** What a list of slots says. */
  ghost function Says(q: seq<TxSlot>): (r: seq<Slot>)
    reads q
    ensures |r| == |q| && forall i :: 0 <= i < |q| ==> r[i] == Slot(q[i].discr, q[i].flags)
  {
    seq(|q|, i requires 0 <= i < |q| reads q => Slot(q[i].discr, q[i].flags))
  }

  /** Each session owns one slot of the class. */
  ghost predicate Owned(q: seq<TxSlot>, slot: TxSlot)
    reads q, slot
  {
    forall i :: 0 <= i < |q| && q[i].discr == slot.discr ==> q[i] == slot
  }

  /** The `linked` mark answers the model's question whether the session is queued. */
  lemma LinkedIsQueued(q: seq<TxSlot>, slot: TxSlot)
    requires Owned(q, slot)
    ensures slot in q <==> HasSlot(Says(q), slot.discr)
  {
    if slot in q {
      var i :| 0 <= i < |q| && q[i] == slot;
      assert Says(q)[i].discr == slot.discr;
    }
  }

  lemma AppendIsEnqueue(q: seq<TxSlot>, slot: TxSlot)
    ensures Says(q + [slot]) == Says(q) + [Slot(slot.discr, slot.flags)]
  {
  }

  lemma {:induction false} WithoutAbsent(q: seq<Slot>, k: u32)
    requires !HasSlot(q, k)
    ensures Without(q, k) == q
  {
    if q != [] {
      assert q == [q[0]] + q[1..];
      HasSlotCons(q[0], q[1..], k);
      WithoutAbsent(q[1..], k);
    }
  }

  lemma {:induction false} WithoutOne(q: seq<Slot>, i: nat, k: u32)
    requires i < |q| && forall j :: 0 <= j < |q| ==> (q[j].discr == k <==> j == i)
    ensures Without(q, k) == Omit(q, i)
  {
    if i == 0 {
      assert !HasSlot(q[1..], k);
      WithoutAbsent(q[1..], k);
      assert Omit(q, 0) == q[1..];
    } else {
      WithoutOne(q[1..], i - 1, k);
      assert Omit(q, i) == [q[0]] + Omit(q[1..], i - 1);
    }
  }

  /** Unlinking a slot is removing its session from the class. */
  lemma DeleteIsUnlink(q: seq<TxSlot>, i: nat)
    requires i < |q| && Owned(q, q[i]) && forall j, k :: 0 <= j < k < |q| ==> q[j] != q[k]
    ensures Says(Omit(q, i)) == Without(Says(q), q[i].discr)
  {
    WithoutOne(Says(q), i, q[i].discr);
    OmitAt(q, i);
    assert Says(Omit(q, i)) == Omit(Says(q), i);
  }

  /** Peeking shows the slot the drain of the model takes. */
  lemma PeekIsHead(finals: seq<TxSlot>, periodics: seq<TxSlot>, tx: Machine.Tx)
    requires tx.finals == Says(finals) && tx.periodics == Says(periodics) && Pending(tx)
    ensures var slot := if finals != [] then finals[0] else periodics[0];
            Head(tx) == Slot(slot.discr, slot.flags)
  {
    assert finals != [] ==> Says(finals)[0] == tx.finals[0];
    assert finals == [] ==> tx.finals == [] && Says(periodics)[0] == tx.periodics[0];
  }
}
