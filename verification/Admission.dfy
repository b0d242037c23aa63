/** What the daemon admits is what the runs of the dataplane start from. */
module Admission {
  import opened Basics
  import opened Sessions
  import opened Nodes
  import opened Ports
  import opened Requests
  import opened Daemon

  /** The record of a session the daemon adds is fresh. */
  lemma AddedIsFresh(discr: u32, port: Port, c: Change, vrfOk: VrfOracle)
    requires c.discr == Some(discr) && Admissible(NewRecord(discr, port), c, vrfOk)
    ensures Fresh(Overwritten(NewRecord(discr, port), c))
  {
    NewRecordOk(discr, port, c, vrfOk);
  }

  /** A request the daemon admits does to a live session only what a user event may do. */
  lemma SetIsAllowed(d: DSess, c: Change, vrfOk: VrfOracle)
    requires d.local.discr != 0 && Admissible(d, c, vrfOk)
    ensures UserMayChange(d, Overwritten(d, c))
  {
    OverwrittenKeeps(d, c);
  }
}
