/** Two dataplanes with one session each pointed at the other, over a network that may lose,
    duplicate, delay and reorder whatever either has ever sent, and does not forge. */
module Links {
  import opened Basics
  import opened Packet
  import opened Nodes
  import opened Invariants
  import opened Runs

  datatype Link = Link(a: Node, b: Node)

  /** An event at one of the two ends. */
  datatype Move = AtA(e: Event) | AtB(e: Event)

  /** Session k of this dataplane has handed the packet to the wire at some time in its life. */
  predicate HasSent(n: Node, k: u32, p: Pkt)
    requires k in n.sess
  {
    exists i :: n.sess[k].born <= i < |n.tx.log| && Mine(n.tx.log[i], k) && n.tx.log[i].pkt == p
  }

  /** What may happen at an end whose session `k` faces session `j` of the other: everything, but
      the session is not deleted and only hears packets the other has sent. */
  predicate MayHappen(n: Node, k: u32, other: Node, j: u32, e: Event) {
    && k in n.sess && j in other.sess && Enabled(n, e) && Safe(n, e)
    && e != Del(k)
    && (e.Receive? && e.k == k ==> HasSent(other, j, e.p))
  }

  ghost predicate Moves(l: Link, ka: u32, kb: u32, m: Move, to: Link) {
    match m
    case AtA(e) => MayHappen(l.a, ka, l.b, kb, e) && to == Link(Step(l.a, e), l.b)
    case AtB(e) => MayHappen(l.b, kb, l.a, ka, e) && to == Link(l.a, Step(l.b, e))
  }

  /** Two dataplanes in any states their runs may lead to, with both sessions there and nothing
      accepted yet. */
  ghost predicate Begins(l: Link, ka: u32, kb: u32) {
    && Reached(l.a) && Reached(l.b) && ka in l.a.sess && kb in l.b.sess
    && l.a.sess[ka].accepted == 0 && !l.a.sess[ka].heardUp
    && l.b.sess[kb].accepted == 0 && !l.b.sess[kb].heardUp
  }

  /** `ls` are the links a history goes through, `ms` the moves between them. */
  ghost predicate IsHistory(ls: seq<Link>, ms: seq<Move>, ka: u32, kb: u32) {
    && |ls| == |ms| + 1
    && Begins(ls[0], ka, kb)
    && forall i :: 0 <= i < |ms| ==> MovesAt(ls, ms, ka, kb, i)
  }

  ghost predicate MovesAt(ls: seq<Link>, ms: seq<Move>, ka: u32, kb: u32, i: nat)
    requires |ls| == |ms| + 1 && i < |ms|
  {
    Moves(ls[i], ka, kb, ms[i], ls[i + 1])
  }

  /** An end that was told of Init or Up was told by one that had itself accepted something. */
  predicate Mutual(l: Link, ka: u32, kb: u32) {
    && ka in l.a.sess && kb in l.b.sess
    && (l.a.sess[ka].heardUp ==> l.b.sess[kb].accepted > 0)
    && (l.b.sess[kb].heardUp ==> l.a.sess[ka].accepted > 0)
  }
}
