/** The ordered timer list behind one timerfd: set, cancel, and the expiry pass. */
module Timers {
  import opened Basics

  /** A timer and its absolute deadline; the id stands for the identity of the allocation. */
  datatype Timer = Timer(id: nat, deadline: nat)

  /** What a callback does: cancel its own timer, set new ones with these deadlines, fail. */
  datatype Act = Act(cancels: bool, sets: seq<nat>, fails: bool)

  predicate Sorted(q: seq<Timer>) {
    forall i, j :: 0 <= i < j < |q| ==> q[i].deadline <= q[j].deadline
  }

  predicate Distinct(q: seq<Timer>) {
    forall i, j :: 0 <= i < j < |q| ==> q[i].id != q[j].id
  }

  /** The deadline the timerfd should be armed for. */
  function ArmedFor(q: seq<Timer>): Option<nat> {
    if q == [] then None else Some(q[0].deadline)
  }

  /** In-order insertion goes before the first timer that is not earlier. */
  function Insert(q: seq<Timer>, t: Timer): seq<Timer> {
    if q == [] || q[0].deadline >= t.deadline then [t] + q else [q[0]] + Insert(q[1..], t)
  }

  function InsertAll(q: seq<Timer>, ts: seq<Timer>): seq<Timer>
    decreases |ts|
  {
    if ts == [] then q else InsertAll(Insert(q, ts[0]), ts[1..])
  }

  /** New timers in the order they are set. */
  function Spawn(deadlines: seq<nat>, id: nat): (r: seq<Timer>)
    ensures |r| == |deadlines| && forall i :: 0 <= i < |r| ==> r[i] == Timer(id + i, deadlines[i])
  {
    seq(|deadlines|, i requires 0 <= i < |deadlines| => Timer(id + i, deadlines[i]))
  }

  /** All deadlines set by the callbacks of `q`, in the order they run. */
  function SetsOf(q: seq<Timer>, acts: nat -> Act): seq<nat> {
    if q == [] then [] else SetsOf(q[..|q| - 1], acts) + acts(q[|q| - 1].id).sets
  }

  function CountDue(q: seq<Timer>, now: nat): (n: nat)
    ensures n <= |q|
    ensures forall i :: 0 <= i < n ==> q[i].deadline <= now
    ensures n < |q| ==> q[n].deadline > now
  {
    if q == [] || q[0].deadline > now then 0 else 1 + CountDue(q[1..], now)
  }

  function Due(q: seq<Timer>, now: nat): seq<Timer> { q[..CountDue(q, now)] }
  function Later(q: seq<Timer>, now: nat): seq<Timer> { q[CountDue(q, now)..] }

  // ---- Insertion ----

  lemma {:induction false} InsertIs(q: seq<Timer>, t: Timer, i: nat)
    requires i <= |q|
    requires forall j :: 0 <= j < i ==> q[j].deadline < t.deadline
    requires i < |q| ==> q[i].deadline >= t.deadline
    ensures Insert(q, t) == q[..i] + [t] + q[i..]
  {
    if i > 0 {
      InsertIs(q[1..], t, i - 1);
      assert q[..i] == [q[0]] + q[1..][..i - 1];
      assert q[i..] == q[1..][i - 1..];
    }
  }

  /** Where the new timer goes. */
  function Place(q: seq<Timer>, t: Timer): (i: nat)
    ensures i <= |q| && (forall j :: 0 <= j < i ==> q[j].deadline < t.deadline)
    ensures i < |q| ==> q[i].deadline >= t.deadline
  {
    if q == [] || q[0].deadline >= t.deadline then 0 else 1 + Place(q[1..], t)
  }

  lemma InsertAt(q: seq<Timer>, t: Timer)
    ensures |Insert(q, t)| == |q| + 1
    ensures var i := Place(q, t);
            forall j :: 0 <= j <= |q| ==> Insert(q, t)[j] == if j < i then q[j] else if j == i then t else q[j - 1]
  {
    InsertIs(q, t, Place(q, t));
  }

  lemma InsertSorted(q: seq<Timer>, t: Timer)
    requires Sorted(q)
    ensures Sorted(Insert(q, t))
  {
    InsertAt(q, t);
    assert forall j :: Place(q, t) <= j < |q| ==> q[j].deadline >= t.deadline;
  }

  lemma InsertDistinct(q: seq<Timer>, t: Timer)
    requires Distinct(q) && forall i :: 0 <= i < |q| ==> q[i].id != t.id
    ensures Distinct(Insert(q, t))
  {
    var p := Place(q, t);
    var r := q[..p] + [t] + q[p..];
    InsertIs(q, t, p);
    forall i, j | 0 <= i < j < |r|
      ensures r[i].id != r[j].id
    {
      assert i != p ==> r[i] == q[if i < p then i else i - 1];
      assert j != p ==> r[j] == q[if j < p then j else j - 1];
    }
  }

  lemma {:induction false} InsertAdds(q: seq<Timer>, t: Timer)
    ensures multiset(Insert(q, t)) == multiset(q) + multiset{t}
  {
    if q == [] || q[0].deadline >= t.deadline {
    } else {
      InsertAdds(q[1..], t);
      assert q == [q[0]] + q[1..];
    }
  }

  /** Insertion does not look past earlier timers. */
  lemma {:induction false} InsertBehind(a: seq<Timer>, b: seq<Timer>, t: Timer)
    requires forall i :: 0 <= i < |a| ==> a[i].deadline < t.deadline
    ensures Insert(a + b, t) == a + Insert(b, t)
  {
    if a == [] {
      assert a + b == b;
    } else {
      assert (a + b)[1..] == a[1..] + b;
      InsertBehind(a[1..], b, t);
      assert [a[0]] + (a[1..] + Insert(b, t)) == a + Insert(b, t);
    }
  }

  lemma {:induction false} InsertAllBehind(a: seq<Timer>, b: seq<Timer>, ts: seq<Timer>, now: nat)
    requires forall i :: 0 <= i < |a| ==> a[i].deadline <= now
    requires forall i :: 0 <= i < |ts| ==> ts[i].deadline > now
    ensures InsertAll(a + b, ts) == a + InsertAll(b, ts)
    decreases |ts|
  {
    if ts != [] {
      InsertBehind(a, b, ts[0]);
      InsertAllBehind(a, Insert(b, ts[0]), ts[1..], now);
    }
  }

  lemma {:induction false} InsertAllAppends(q: seq<Timer>, ts: seq<Timer>, us: seq<Timer>)
    ensures InsertAll(q, ts + us) == InsertAll(InsertAll(q, ts), us)
    decreases |ts|
  {
    if ts == [] {
      assert ts + us == us;
    } else {
      assert (ts + us)[1..] == ts[1..] + us;
      InsertAllAppends(Insert(q, ts[0]), ts[1..], us);
    }
  }

  /** Inserting timers loses none and keeps the order. */
  lemma {:induction false} InsertAllKeeps(q: seq<Timer>, ts: seq<Timer>)
    ensures multiset(InsertAll(q, ts)) == multiset(q) + multiset(ts)
    ensures Sorted(q) ==> Sorted(InsertAll(q, ts))
    decreases |ts|
  {
    if ts != [] {
      InsertAdds(q, ts[0]);
      if Sorted(q) {
        InsertSorted(q, ts[0]);
      }
      InsertAllKeeps(Insert(q, ts[0]), ts[1..]);
      assert ts == [ts[0]] + ts[1..];
    }
  }

  // ---- Removal ----

  function Without(q: seq<Timer>, t: Timer): (r: seq<Timer>)
  {
    if q == [] then [] else if q[0] == t then q[1..] else [q[0]] + Without(q[1..], t)
  }

  lemma {:induction false} WithoutIs(a: seq<Timer>, t: Timer, b: seq<Timer>)
    requires t !in a
    ensures Without(a + [t] + b, t) == a + b
  {
    if a == [] {
      assert a + [t] + b == [t] + b;
      assert a + b == b;
    } else {
      assert (a + [t] + b)[1..] == a[1..] + [t] + b;
      WithoutIs(a[1..], t, b);
      assert a + b == [a[0]] + (a[1..] + b);
    }
  }

  /** Where a timer is in the list. */
  function IndexOf(q: seq<Timer>, t: Timer): (i: nat)
    requires t in q
    ensures i < |q| && q[i] == t && t !in q[..i]
  {
    if q[0] == t then 0
    else
      var i := 1 + IndexOf(q[1..], t);
      assert q[..i] == [q[0]] + q[1..][..i - 1];
      i
  }

  lemma OmitKeeps(q: seq<Timer>, p: nat)
    requires p < |q| && Sorted(q) && Distinct(q)
    ensures var r := q[..p] + q[p + 1..];
            Sorted(r) && Distinct(r) && q[p] !in r && forall i :: 0 <= i < |r| ==> r[i] in q
  {
    var r := q[..p] + q[p + 1..];
    forall i | 0 <= i < |r|
      ensures r[i] == q[if i < p then i else i + 1]
    {
    }
  }

  // ---- The expiry pass ----

  predicate AllDue(q: seq<Timer>, now: nat) { forall i :: 0 <= i < |q| ==> q[i].deadline <= now }
  predicate AllAfter(q: seq<Timer>, now: nat) { forall i :: 0 <= i < |q| ==> q[i].deadline > now }

  /** Callbacks set timers with positive delay, and one that fails has changed nothing. */
  predicate Behaved(q: seq<Timer>, now: nat, acts: nat -> Act) {
    forall i :: 0 <= i < |q| ==>
      var act := acts(q[i].id);
      (forall j :: 0 <= j < |act.sets| ==> act.sets[j] > now) && (act.fails ==> !act.cancels && act.sets == [])
  }

  /** The timers whose callbacks run: up to and including the first that fails. */
  function Ran(q: seq<Timer>, acts: nat -> Act): (r: seq<Timer>)
    ensures |r| <= |q| && r == q[..|r|]
    ensures |r| < |q| ==> r != [] && acts(q[|r| - 1].id).fails
    ensures forall i :: 0 <= i < |r| - 1 ==> !acts(r[i].id).fails
  {
    if q == [] then []
    else if acts(q[0].id).fails then q[..1]
    else
      assert q == [q[0]] + q[1..];
      [q[0]] + Ran(q[1..], acts)
  }

  lemma RanIs(q: seq<Timer>, acts: nat -> Act, n: nat)
    requires n <= |q| && (forall i :: 0 <= i < n - 1 ==> !acts(q[i].id).fails)
    requires n == |q| || (n > 0 && acts(q[n - 1].id).fails)
    ensures Ran(q, acts) == q[..n]
  {
    var m := |Ran(q, acts)|;
    assert Ran(q, acts) == q[..m];
  }

  /** The later timers, and among them those set by the callbacks of `ran`. */
  function Future(later: seq<Timer>, ran: seq<Timer>, acts: nat -> Act, id: nat): seq<Timer> {
    InsertAll(later, Spawn(SetsOf(ran, acts), id))
  }

  lemma {:induction false} InsertAllAfter(q: seq<Timer>, ts: seq<Timer>, now: nat)
    requires AllAfter(q, now) && AllAfter(ts, now)
    ensures AllAfter(InsertAll(q, ts), now)
    decreases |ts|
  {
    if ts != [] {
      InsertIs(q, ts[0], Place(q, ts[0]));
      InsertAllAfter(Insert(q, ts[0]), ts[1..], now);
    }
  }

  lemma {:induction false} SetsAfter(ran: seq<Timer>, now: nat, acts: nat -> Act)
    requires Behaved(ran, now, acts)
    ensures forall i :: 0 <= i < |SetsOf(ran, acts)| ==> SetsOf(ran, acts)[i] > now
  {
    if ran != [] {
      SetsAfter(ran[..|ran| - 1], now, acts);
    }
  }

  lemma FutureAfter(later: seq<Timer>, now: nat, ran: seq<Timer>, acts: nat -> Act, id: nat)
    requires AllAfter(later, now) && Behaved(ran, now, acts)
    ensures AllAfter(Future(later, ran, acts, id), now)
  {
    SetsAfter(ran, now, acts);
    InsertAllAfter(later, Spawn(SetsOf(ran, acts), id), now);
  }

  /** One more callback. */
  lemma FutureGrows(later: seq<Timer>, ran: seq<Timer>, t: Timer, acts: nat -> Act, id: nat)
    ensures Future(later, ran + [t], acts, id)
         == InsertAll(Future(later, ran, acts, id), Spawn(acts(t.id).sets, id + |SetsOf(ran, acts)|))
    ensures |SetsOf(ran + [t], acts)| == |SetsOf(ran, acts)| + |acts(t.id).sets|
  {
    assert (ran + [t])[..|ran|] == ran;
    var a, b := SetsOf(ran, acts), acts(t.id).sets;
    assert Spawn(a + b, id) == Spawn(a, id) + Spawn(b, id + |a|);
    InsertAllAppends(later, Spawn(a, id), Spawn(b, id + |a|));
  }

  lemma IndexIs(kept: seq<Timer>, t: Timer, tail: seq<Timer>)
    requires Distinct(kept + [t] + tail)
    ensures t !in kept && t in kept + [t] + tail && IndexOf(kept + [t] + tail, t) == |kept|
  {
    var q := kept + [t] + tail;
    assert q[|kept|] == t;
    assert forall i :: 0 <= i < |kept| ==> q[i] == kept[i];
    assert t in q;
  }

  /** The list after a callback. */
  function Called(list: seq<Timer>, t: Timer, act: Act, id: nat): seq<Timer> {
    InsertAll(if act.cancels then Without(list, t) else list, Spawn(act.sets, id))
  }

  lemma FrontDue(kept: seq<Timer>, t: Timer, rest: seq<Timer>, now: nat)
    requires AllDue(kept + [t] + rest, now)
    ensures AllDue(kept + rest, now)
  {
    forall i | 0 <= i < |kept + rest|
      ensures (kept + rest)[i].deadline <= now
    {
      assert (kept + rest)[i] == (kept + [t] + rest)[if i < |kept| then i else i + 1];
    }
  }

  lemma CancelEffect(kept: seq<Timer>, t: Timer, rest: seq<Timer>, future: seq<Timer>)
    requires t !in kept
    ensures Without(kept + [t] + rest + future, t) == kept + rest + future
  {
    assert kept + [t] + rest + future == kept + [t] + (rest + future);
    WithoutIs(kept, t, rest + future);
    assert kept + (rest + future) == kept + rest + future;
  }

  /** What a callback makes of a list in which its timer comes after `kept` and before `rest`. */
  lemma CallEffect(kept: seq<Timer>, t: Timer, rest: seq<Timer>, future: seq<Timer>, act: Act, id: nat, now: nat)
    requires t !in kept && AllDue(kept + [t] + rest, now) && forall j :: 0 <= j < |act.sets| ==> act.sets[j] > now
    ensures var list := kept + [t] + rest + future;
            Called(list, t, act, id)
            == (if act.cancels then kept else kept + [t]) + rest + InsertAll(future, Spawn(act.sets, id))
  {
    if act.cancels {
      CancelEffect(kept, t, rest, future);
      FrontDue(kept, t, rest, now);
      InsertAllBehind(kept + rest, future, Spawn(act.sets, id), now);
    } else {
      InsertAllBehind(kept + [t] + rest, future, Spawn(act.sets, id), now);
    }
  }

  /** The list when the walk stands before due timer i: those before it that did not cancel
      themselves, the due ones still to run, and the later ones with what was set meanwhile. */
  function WalkList(due: seq<Timer>, later: seq<Timer>, acts: nat -> Act, id: nat, i: nat, kept: seq<Timer>): seq<Timer>
    requires i <= |due|
  {
    kept + due[i..] + Future(later, due[..i], acts, id)
  }

  /** The next timer the walk will look at: the next due one, or one that ends it. */
  predicate StandsAt(cur: Option<Timer>, due: seq<Timer>, i: nat, now: nat) {
    if i < |due| then cur == Some(due[i]) else cur.None? || cur.value.deadline > now
  }

  /** The `next` pointer of a timer. */
  function NextOf(q: seq<Timer>, t: Timer): Option<Timer>
    requires t in q
  {
    var at := IndexOf(q, t);
    if at + 1 < |q| then Some(q[at + 1]) else None
  }

  /** The pointer read before the callback runs leads to the next due timer. */
  lemma NextStands(due: seq<Timer>, later: seq<Timer>, now: nat, acts: nat -> Act, id: nat, i: nat, kept: seq<Timer>)
    requires AllAfter(later, now) && i < |due| && Behaved(due[..i], now, acts)
    requires Distinct(WalkList(due, later, acts, id, i, kept))
    ensures var t, list := due[i], WalkList(due, later, acts, id, i, kept);
            t !in kept && t in list && StandsAt(NextOf(list, t), due, i + 1, now)
  {
    var tail := due[i + 1..] + Future(later, due[..i], acts, id);
    WalkSplits(due, later, acts, id, i, kept);
    assert WalkList(due, later, acts, id, i, kept) == kept + [due[i]] + tail;
    IndexIs(kept, due[i], tail);
    FutureAfter(later, now, due[..i], acts, id);
  }

  lemma WalkStarts(due: seq<Timer>, later: seq<Timer>, now: nat, acts: nat -> Act, id: nat)
    requires AllAfter(later, now)
    ensures WalkList(due, later, acts, id, 0, []) == due + later && SetsOf(due[..0], acts) == []
    ensures var q := due + later; StandsAt(if q == [] then None else Some(q[0]), due, 0, now)
  {
    assert Future(later, [], acts, id) == later;
  }

  /** The callbacks of the first n timers succeed. */
  predicate Succeed(q: seq<Timer>, n: nat, acts: nat -> Act)
    requires n <= |q|
  {
    forall j :: 0 <= j < n ==> !acts(q[j].id).fails
  }

  /** How many of the first n callbacks cancel their timers before one does not. */
  function Leading(due: seq<Timer>, n: nat, acts: nat -> Act): (m: nat)
    requires n <= |due|
    ensures m <= n
  {
    if n == 0 then 0
    else
      var m := Leading(due, n - 1, acts);
      if m == n - 1 && acts(due[m].id).cancels then n else m
  }

  /** What the timerfd is armed for while due timers remain: each leading cancellation arms it for the
      next due timer, and nothing else does. */
  function ArmedIn(due: seq<Timer>, m: nat): Option<nat>
    requires m < |due|
  {
    if m == 0 then None else Some(due[m].deadline)
  }

  /** The first n callbacks have run, and only the last of them may have failed. */
  predicate SoFar(due: seq<Timer>, n: nat, failed: Option<Timer>, acts: nat -> Act, kept: seq<Timer>) {
    && n <= |due|
    && if failed.None? then Succeed(due, n, acts)
       else && n > 0 && Succeed(due, n - 1, acts) && failed.value == due[n - 1] && acts(failed.value.id).fails
            && kept != [] && kept[|kept| - 1] == failed.value
  }

  /** What the timerfd has to do with the callbacks that have run. */
  predicate FdFits(due: seq<Timer>, n: nat, failed: bool, acts: nat -> Act, kept: seq<Timer>, fd: Option<nat>)
    requires n <= |due|
  {
    var m := Leading(due, n, acts);
    && (kept == [] <==> m == n)
    && (failed ==> m < n)
    && (n < |due| || failed ==> m < |due| && fd == ArmedIn(due, m))
  }

  lemma FdFitsOn(due: seq<Timer>, n: nat, acts: nat -> Act, kept: seq<Timer>, fd: Option<nat>, keep: seq<Timer>,
                 fd': Option<nat>)
    requires n < |due| && FdFits(due, n, false, acts, kept, fd)
    requires var act := acts(due[n].id);
             && keep == (if act.cancels then kept else kept + [due[n]])
             && (act.fails ==> !act.cancels && fd' == fd)
             && (n + 1 < |due| ==> fd' == if act.cancels && kept == [] then Some(due[n + 1].deadline) else fd)
    ensures FdFits(due, n + 1, acts(due[n].id).fails, acts, keep, fd')
  {
  }

  lemma WalkSplits(due: seq<Timer>, later: seq<Timer>, acts: nat -> Act, id: nat, i: nat, kept: seq<Timer>)
    requires i < |due|
    ensures WalkList(due, later, acts, id, i, kept)
         == kept + [due[i]] + due[i + 1..] + Future(later, due[..i], acts, id)
  {
    assert due[i..] == [due[i]] + due[i + 1..];
  }

  lemma KeepDue(kept: seq<Timer>, t: Timer, now: nat)
    requires AllDue(kept, now) && t.deadline <= now
    ensures AllDue(kept + [t], now)
  {
  }

  lemma RestDue(due: seq<Timer>, now: nat, i: nat, kept: seq<Timer>)
    requires AllDue(due, now) && AllDue(kept, now) && i < |due|
    ensures AllDue(kept + [due[i]] + due[i + 1..], now)
  {
  }

  lemma FutureOn(due: seq<Timer>, later: seq<Timer>, acts: nat -> Act, id: nat, i: nat)
    requires i < |due|
    ensures var n := |SetsOf(due[..i], acts)|;
            && InsertAll(Future(later, due[..i], acts, id), Spawn(acts(due[i].id).sets, id + n))
               == Future(later, due[..i + 1], acts, id)
            && |SetsOf(due[..i + 1], acts)| == n + |acts(due[i].id).sets|
  {
    assert due[..i + 1] == due[..i] + [due[i]];
    FutureGrows(later, due[..i], due[i], acts, id);
  }

  lemma WalkOn(due: seq<Timer>, later: seq<Timer>, now: nat, acts: nat -> Act, id: nat, i: nat, kept: seq<Timer>)
    requires AllDue(due, now) && AllDue(kept, now) && i < |due| && Behaved(due, now, acts) && due[i] !in kept
    ensures var t := due[i];
            var keep := if acts(t.id).cancels then kept else kept + [t];
            && Called(WalkList(due, later, acts, id, i, kept), t, acts(t.id), id + |SetsOf(due[..i], acts)|)
               == WalkList(due, later, acts, id, i + 1, keep)
            && |SetsOf(due[..i + 1], acts)| == |SetsOf(due[..i], acts)| + |acts(t.id).sets|
  {
    var t, act := due[i], acts(due[i].id);
    var n, future, rest := |SetsOf(due[..i], acts)|, Future(later, due[..i], acts, id), due[i + 1..];
    FutureOn(due, later, acts, id, i);
    var list := WalkList(due, later, acts, id, i, kept);
    assert list == kept + [t] + rest + future by { WalkSplits(due, later, acts, id, i, kept); }
    assert Called(list, t, act, id + n)
        == (if act.cancels then kept else kept + [t]) + rest + InsertAll(future, Spawn(act.sets, id + n)) by {
      RestDue(due, now, i, kept);
      CallEffect(kept, t, rest, future, act, id + n, now);
    }
  }

  /** Both, for the list the callback finds. */
  lemma StepPlan(list: seq<Timer>, due: seq<Timer>, later: seq<Timer>, now: nat, acts: nat -> Act, id: nat, i: nat,
                 kept: seq<Timer>, keep: seq<Timer>)
    requires AllDue(due, now) && AllAfter(later, now) && AllDue(kept, now) && i < |due| && Behaved(due, now, acts)
    requires Distinct(list) && list == WalkList(due, later, acts, id, i, kept)
    requires keep == if acts(due[i].id).cancels then kept else kept + [due[i]]
    ensures var t := due[i];
            && t in list && StandsAt(NextOf(list, t), due, i + 1, now) && AllDue(keep, now)
            && Called(list, t, acts(t.id), id + |SetsOf(due[..i], acts)|) == WalkList(due, later, acts, id, i + 1, keep)
            && |SetsOf(due[..i + 1], acts)| == |SetsOf(due[..i], acts)| + |acts(t.id).sets|
  {
    NextStands(due, later, now, acts, id, i, kept);
    WalkOn(due, later, now, acts, id, i, kept);
    KeepDue(kept, due[i], now);
  }

  /** What the list is headed by when the timer's own cancellation is through. */
  lemma StepBase(list: seq<Timer>, due: seq<Timer>, later: seq<Timer>, now: nat, acts: nat -> Act, id: nat, i: nat,
                 kept: seq<Timer>)
    requires AllDue(due, now) && AllDue(kept, now) && i < |due|
    requires Distinct(list) && list == WalkList(due, later, acts, id, i, kept)
    ensures var t := due[i];
            var base := if acts(t.id).cancels then Without(list, t) else list;
            && t in list && (t == list[0] <==> kept == [])
            && (i + 1 < |due| ==> base != [] && base[0].deadline <= now)
            && (i + 1 < |due| && kept == [] && acts(t.id).cancels ==> base[0] == due[i + 1])
  {
    var t := due[i];
    var tail := due[i + 1..] + Future(later, due[..i], acts, id);
    WalkSplits(due, later, acts, id, i, kept);
    assert list == kept + [t] + tail;
    IndexIs(kept, t, tail);
    WithoutIs(kept, t, tail);
    if kept != [] {
      assert list[0] == kept[0];
    }
  }

  /** What is left when the walk is over: what ran and did not cancel itself, and the rest. */
  lemma RestIs(list: seq<Timer>, due: seq<Timer>, later: seq<Timer>, now: nat, acts: nat -> Act, id: nat, n: nat,
               kept: seq<Timer>, rest: seq<Timer>)
    requires n <= |due| && Distinct(list) && Sorted(list) && list == WalkList(due, later, acts, id, n, kept)
    requires AllAfter(later, now) && Behaved(due[..n], now, acts)
    requires rest == due[n..] + Future(later, due[..n], acts, id)
    ensures list == kept + rest && Distinct(kept) && Sorted(rest) && Distinct(rest)
    ensures forall i :: 0 <= i < |rest| ==> rest[i] in list
    ensures n == |due| ==> AllAfter(rest, now)
  {
    assert list == kept + rest;
    SplitKeeps(kept, rest);
    FutureAfter(later, now, due[..n], acts, id);
  }

  class Timers {
    var list: seq<Timer>
    var fd: Option<nat>
    var nextId: nat

    ghost predicate Ordered()
      reads this
    {
      Sorted(list) && Distinct(list) && forall i :: 0 <= i < |list| ==> list[i].id < nextId
    }

    /** The timerfd is armed for the earliest timer, or disarmed when there is none. */
    ghost predicate InSync()
      reads this
    {
      fd == ArmedFor(list)
    }

    constructor ()
      ensures Ordered() && InSync() && list == [] && nextId == 0
    {
      list, fd, nextId := [], None, 0;
    }

    method Rearm()
      modifies this`fd
      ensures InSync()
    {
      fd := if list == [] then None else Some(list[0].deadline);
    }

    method Set(deadline: nat) returns (t: Timer)
      requires Ordered()
      modifies this
      ensures Ordered() && t == Timer(old(nextId), deadline) && nextId == old(nextId) + 1
      ensures list == Insert(old(list), t)
      ensures fd == if list[0] == t then Some(deadline) else old(fd)
      ensures old(InSync()) ==> InSync()
    {
      t := Timer(nextId, deadline);
      nextId := nextId + 1;
      var i := 0;
      while i < |list| && list[i].deadline < t.deadline
        invariant 0 <= i <= |list|
        invariant forall j :: 0 <= j < i ==> list[j].deadline < t.deadline
      {
        i := i + 1;
      }
      InsertIs(list, t, i);
      InsertSorted(list, t);
      InsertDistinct(list, t);
      list := list[..i] + [t] + list[i..];
      if list[0] == t {
        Rearm();
      }
    }

    method Cancel(t: Timer)
      requires Ordered() && t in list
      modifies this`list, this`fd
      ensures Ordered() && list == Without(old(list), t) && t !in list
      ensures fd == if t == old(list[0]) then ArmedFor(list) else old(fd)
      ensures old(InSync()) ==> InSync()
    {
      var i := IndexOf(list, t);
      var wasEarliest := list[0] == t;
      assert list == list[..i] + [t] + list[i + 1..];
      WithoutIs(list[..i], t, list[i + 1..]);
      OmitKeeps(list, i);
      list := list[..i] + list[i + 1..];
      if wasEarliest {
        Rearm();
      }
    }

    /** The callback of a due timer. */
    method Call(t: Timer, act: Act)
      requires Ordered() && t in list
      modifies this
      ensures Ordered() && nextId == old(nextId) + |act.sets|
      ensures list == Called(old(list), t, act, old(nextId))
      ensures var base := if act.cancels then Without(old(list), t) else old(list);
              base != [] && (forall j :: 0 <= j < |act.sets| ==> act.sets[j] > base[0].deadline) ==>
                fd == if act.cancels && t == old(list[0]) then ArmedFor(base) else old(fd)
      ensures !act.cancels && act.sets == [] ==> fd == old(fd)
    {
      if act.cancels {
        Cancel(t);
      }
      ghost var base, id, ts, armed := list, nextId, Spawn(act.sets, nextId), fd;
      for i := 0 to |act.sets|
        invariant Ordered() && nextId == id + i
        invariant list == InsertAll(base, ts[..i])
        invariant base != [] && (forall j :: 0 <= j < |act.sets| ==> act.sets[j] > base[0].deadline) ==>
                    list != [] && list[0] == base[0] && fd == armed
        invariant i == 0 ==> fd == armed
      {
        var u := Set(act.sets[i]);
        assert ts[..i + 1] == ts[..i] + [u];
        InsertAllAppends(base, ts[..i], [u]);
        assert [u][1..] == [];
        assert InsertAll(InsertAll(base, ts[..i]), [u]) == Insert(InsertAll(base, ts[..i]), u);
      }
      assert ts[..|act.sets|] == ts;
    }

    ghost predicate Walking(due: seq<Timer>, later: seq<Timer>, now: nat, acts: nat -> Act, id: nat, i: nat,
                            kept: seq<Timer>)
      reads this
    {
      && Ordered() && AllDue(kept, now)
      && i <= |due| && list == WalkList(due, later, acts, id, i, kept)
      && nextId == id + |SetsOf(due[..i], acts)|
    }

    /** One callback of the first loop. */
    method Step(t: Timer, now: nat, acts: nat -> Act, ghost due: seq<Timer>, ghost later: seq<Timer>, ghost id: nat,
                ghost i: nat, ghost kept: seq<Timer>)
      returns (next: Option<Timer>, ghost keep: seq<Timer>)
      requires AllDue(due, now) && AllAfter(later, now) && Behaved(due, now, acts)
      requires Walking(due, later, now, acts, id, i, kept) && i < |due| && t == due[i]
      modifies this
      ensures Walking(due, later, now, acts, id, i + 1, keep) && StandsAt(next, due, i + 1, now)
      ensures keep == if acts(t.id).cancels then kept else kept + [t]
      ensures acts(t.id).fails ==> !acts(t.id).cancels && fd == old(fd)
      ensures i + 1 < |due| ==> fd == if acts(t.id).cancels && kept == [] then Some(due[i + 1].deadline) else old(fd)
    {
      keep := if acts(t.id).cancels then kept else kept + [t];
      StepPlan(list, due, later, now, acts, id, i, kept, keep);
      StepBase(list, due, later, now, acts, id, i, kept);
      next := NextOf(list, t);
      Call(t, acts(t.id));
    }

    /** Between two rounds of the first loop. */
    ghost predicate Rolling(due: seq<Timer>, later: seq<Timer>, now: nat, acts: nat -> Act, id: nat, n: nat,
                            failed: Option<Timer>, kept: seq<Timer>)
      reads this
    {
      && Walking(due, later, now, acts, id, n, kept)
      && SoFar(due, n, failed, acts, kept)
      && FdFits(due, n, failed.Some?, acts, kept, fd)
    }

    /** One round, and whether the callback failed. */
    method Round(t: Timer, now: nat, acts: nat -> Act, ghost due: seq<Timer>, ghost later: seq<Timer>, ghost id: nat,
                 ghost n: nat, ghost kept: seq<Timer>)
      returns (next: Option<Timer>, failed: Option<Timer>, ghost keep: seq<Timer>)
      requires AllDue(due, now) && AllAfter(later, now) && Behaved(due, now, acts)
      requires Rolling(due, later, now, acts, id, n, None, kept) && n < |due| && t == due[n]
      modifies this
      ensures Rolling(due, later, now, acts, id, n + 1, failed, keep)
      ensures failed.None? ==> StandsAt(next, due, n + 1, now)
    {
      ghost var armed := fd;
      next, keep := Step(t, now, acts, due, later, id, n, kept);
      failed := if acts(t.id).fails then Some(t) else None;
      FdFitsOn(due, n, acts, kept, armed, keep, fd);
    }

    /** The first loop: run the callbacks. */
    method Walk(now: nat, acts: nat -> Act, ghost due: seq<Timer>, ghost later: seq<Timer>)
      returns (n: nat, failed: Option<Timer>, ghost kept: seq<Timer>)
      requires Ordered() && list == due + later && AllDue(due, now) && AllAfter(later, now) && Behaved(due, now, acts)
      requires fd.None?
      modifies this
      ensures Rolling(due, later, now, acts, old(nextId), n, failed, kept)
      ensures failed.None? ==> n == |due|
    {
      ghost var id := nextId;
      n, failed, kept := 0, None, [];
      WalkStarts(due, later, now, acts, id);
      var cur := if list == [] then None else Some(list[0]);
      while failed.None? && cur.Some? && cur.value.deadline <= now
        invariant Rolling(due, later, now, acts, id, n, failed, kept)
        invariant failed.None? ==> StandsAt(cur, due, n, now)
        decreases |due| - n
      {
        cur, failed, kept := Round(cur.value, now, acts, due, later, id, n, kept);
        n := n + 1;
      }
    }

    /** The second loop: free what ran, up to the one that failed. */
    method Free(now: nat, failed: Option<Timer>, ghost kept: seq<Timer>, ghost rest: seq<Timer>)
      requires list == kept + rest && AllDue(kept, now) && Distinct(kept)
      requires if failed.None? then AllAfter(rest, now) else kept != [] && kept[|kept| - 1] == failed.value
      modifies this`list
      ensures list == rest
    {
      ghost var i := 0;
      while list != [] && list[0].deadline <= now
        invariant i <= |kept| && list == kept[i..] + rest
        invariant failed.Some? ==> i < |kept|
        decreases |list|
      {
        var due := list[0];
        list := list[1..];
        i := i + 1;
        if failed == Some(due) {
          assert due == kept[i - 1];
          break;
        }
      }
      assert i == |kept|;
    }

    /** Both loops, over a list split into what is due and what is not. */
    method Pass(now: nat, acts: nat -> Act, ghost due: seq<Timer>, ghost later: seq<Timer>) returns (n: nat, ok: bool)
      requires Ordered() && list == due + later && AllDue(due, now) && AllAfter(later, now) && Behaved(due, now, acts)
      requires fd.None?
      modifies this
      ensures n <= |due|
      ensures if ok then n == |due| && Succeed(due, n, acts)
              else n > 0 && Succeed(due, n - 1, acts) && acts(due[n - 1].id).fails
      ensures Ordered() && list == due[n..] + Future(later, due[..n], acts, old(nextId))
      ensures !ok ==> Leading(due, n, acts) < n && fd == ArmedIn(due, Leading(due, n, acts))
    {
      ghost var id := nextId;
      var failed;
      ghost var kept;
      n, failed, kept := Walk(now, acts, due, later);
      ghost var rest := due[n..] + Future(later, due[..n], acts, id);
      RestIs(list, due, later, now, acts, id, n, kept, rest);
      Free(now, failed, kept, rest);
      ok := failed.None?;
    }

    /** The timerfd has fired: run what is due, free it, arm for what is left. When a callback fails
        the pass stops behind it and, unlike after a full pass, arms nothing. The timerfd is then as the
        callbacks left it: armed for the due timer behind those that lead the pass by cancelling
        themselves, or, when the first did not, not at all. */
    method Expire(now: nat, acts: nat -> Act) returns (ran: seq<Timer>, ok: bool)
      requires Ordered() && Behaved(Due(list, now), now, acts)
      modifies this
      ensures ran == Ran(Due(old(list), now), acts) && ok == Succeed(Due(old(list), now), |Due(old(list), now)|, acts)
      ensures Ordered()
      ensures list == Due(old(list), now)[|ran|..] + Future(Later(old(list), now), ran, acts, old(nextId))
      ensures ok ==> InSync()
      ensures !ok ==> Leading(Due(old(list), now), |ran|, acts) < |ran|
      ensures !ok ==> fd == ArmedIn(Due(old(list), now), Leading(Due(old(list), now), |ran|, acts))
    {
      var all := list;
      ghost var due, later := Due(list, now), Later(list, now);
      Split(list, now);
      fd := None;
      var n;
      n, ok := Pass(now, acts, due, later);
      RanIs(due, acts, n);
      ran := all[..n];
      assert ran == due[..n];
      if ok {
        Rearm();
      }
    }
  }

  /** So after a failure the timerfd is right exactly when nothing is left, or when some timer is that is
      due at the very moment it was last armed for; and it is not armed at all exactly when the first
      callback did not cancel its timer. */
  lemma FailureArms(due: seq<Timer>, m: nat, list: seq<Timer>)
    requires m < |due|
    ensures ArmedIn(due, m) == ArmedFor(list)
       <==> if m == 0 then list == [] else list != [] && list[0].deadline == due[m].deadline
    ensures ArmedIn(due, m) == None <==> m == 0
  {
  }

  /** The callback of timer 0 fails. */
  function FirstFails(): nat -> Act {
    id => Act(false, [], id == 0)
  }

  lemma StrandPlan(first: Timer, second: Timer, now: nat)
    requires first.id == 0 && first.deadline <= now < second.deadline
    ensures var q := [first, second];
            && Due(q, now) == [first] && Later(q, now) == [second] && Insert([first], second) == q
            && Behaved([first], now, FirstFails()) && Ran([first], FirstFails()) == [first]
            && Future([second], [first], FirstFails(), 2) == [second]
            && Leading([first], 1, FirstFails()) == 0
  {
    var q := [first, second];
    assert q[1..] == [second] && CountDue([second], now) == 0;
    assert Insert([], second) == [second] && [first][1..] == [];
    assert [first][..0] == [] && SetsOf([first], FirstFails()) == [];
  }

  /** For any two timers of which one is due: when its callback fails the other is left in the list with
      the timerfd disarmed. */
  method Strand(due: nat, later: nat, now: nat) returns (timers: Timers, ok: bool)
    requires due <= now < later
    ensures fresh(timers) && timers.Ordered() && !ok
    ensures timers.list == [Timer(1, later)] && timers.fd == None
  {
    timers := new Timers();
    var first := timers.Set(due);
    assert timers.list == [first];
    var second := timers.Set(later);
    StrandPlan(first, second, now);
    var ran;
    ran, ok := timers.Expire(now, FirstFails());
  }

  lemma Split(q: seq<Timer>, now: nat)
    requires Sorted(q)
    ensures q == Due(q, now) + Later(q, now) && AllDue(Due(q, now), now) && AllAfter(Later(q, now), now)
  {
  }

  lemma MembersSplit(a: seq<Timer>, b: seq<Timer>, now: nat, t: Timer)
    requires AllDue(a, now) && AllAfter(b, now)
    ensures t in a <==> t in a + b && t.deadline <= now
  {
    if t in a + b && t !in a {
      assert t in b;
    }
  }

  /** In a sorted list the due prefix is exactly the timers that are due. */
  lemma DueIsExact(q: seq<Timer>, now: nat, t: Timer)
    requires Sorted(q)
    ensures t in Due(q, now) <==> t in q && t.deadline <= now
  {
    Split(q, now);
    MembersSplit(Due(q, now), Later(q, now), now, t);
  }

  lemma SplitKeeps(a: seq<Timer>, b: seq<Timer>)
    ensures Sorted(a + b) ==> Sorted(a) && Sorted(b)
    ensures Distinct(a + b) ==> Distinct(a) && Distinct(b)
    ensures forall i :: 0 <= i < |b| ==> b[i] == (a + b)[|a| + i]
  {
    assert forall i :: 0 <= i < |a| ==> a[i] == (a + b)[i];
    assert forall i :: 0 <= i < |b| ==> b[i] == (a + b)[|a| + i];
  }

  /** In a full pass exactly the due timers run, each once and earliest first. */
  lemma RanIsExact(q: seq<Timer>, now: nat, acts: nat -> Act)
    requires Sorted(q) && Distinct(q) && Succeed(Due(q, now), |Due(q, now)|, acts)
    ensures var ran := Ran(Due(q, now), acts);
            (forall t :: t in ran <==> t in q && t.deadline <= now) && Sorted(ran) && Distinct(ran)
  {
    var due := Due(q, now);
    RanIs(due, acts, |due|);
    assert due[..|due|] == due;
    forall t: Timer
      ensures t in due <==> t in q && t.deadline <= now
    {
      DueIsExact(q, now, t);
    }
    Split(q, now);
    SplitKeeps(due, Later(q, now));
  }

  /** What is left is the later timers and those set meanwhile, in order, and nothing of it is due. */
  lemma LeftIsExact(later: seq<Timer>, now: nat, ran: seq<Timer>, acts: nat -> Act, id: nat)
    requires Sorted(later) && AllAfter(later, now) && Behaved(ran, now, acts)
    ensures var left := Future(later, ran, acts, id);
            && Sorted(left) && AllAfter(left, now)
            && multiset(left) == multiset(later) + multiset(Spawn(SetsOf(ran, acts), id))
  {
    FutureAfter(later, now, ran, acts, id);
    InsertAllKeeps(later, Spawn(SetsOf(ran, acts), id));
  }
}
