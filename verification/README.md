# bbdd: a verified model

bbdd is a BFD (RFC 5880) dataplane: a daemon keeps the sessions, a set of kernel programs sends and
receives their packets. This project models its core in Dafny and proves what it keeps over whole
runs.

A session is a user record, a small state machine that carries configuration changes through Poll
sequences and shutdown waits, and a copy of the configuration in the kernel. Packets of a session
loop through a virtual interface pair until the session's generation number moves on. Updates that
find the transmit socket full wait in a queue with two classes. A *run* is any sequence of events of
any number of sessions over one socket; a *history* is two such dataplanes facing each other.

| files | what |
|---|---|
| `Basics` `Packet` `Intervals` `Checksum` | wire format, timing arithmetic, checksum |
| `Sessions` `Machine` | one session and the shared socket, as functions |
| `Nodes` `Invariants` `Runs` | the whole dataplane, its events, the invariant of every run |
| `Conduct` `Published` | what sessions do, and what the kernel and the wire have of them, by their fields |
| `Changes` `Guarantees` `FastPath` `Orphans` `Watch` | what the runs guarantee |
| `Mishaps` | runs that go wrong, step by step |
| `Links` `Handshake` `ComingUp` | two dataplanes and a network |
| `Dataplane` `Kernel` `KernelRuns` `TxQueue` `TxRefinement` | objects updated in place, proved to do what the functions say |
| `Timers` `StreamBuffer` `Framing` | timer list, byte buffer, message framing |
| `Ports` `Requests` `Daemon` `Admission` `Bfddp` | ports, requests, session tables, data plane protocol messages |

## What turned out not to hold

Each of these is stated with the exact condition under which it does hold.

- A timing change during a shutdown wait, with shutdown kept, starts a Poll sequence and leaves the
  shutdown timer running (`Changes.HandleUpdateFaithful`, `Changes.UntidyStraysFrom`). A later shutdown
  then overwrites the pointer to that timer, which goes off in the end to follow a pointer that is not
  set, or after its session is gone (`Orphans.OrphanedExactly`, `Mishaps.UntidyRunStops`,
  `Mishaps.DeletedTimerStops`).
- Shutdown taken away while a poll is open does not enable the session: it is settled, enabled and
  AdminDown when the poll has closed (`Conduct.EnabledExactly`, `Mishaps.EnabledStaysDown`).
- An expiry in the ring buffer names a discriminator only. Given to a new session too early, it meets
  that session on hold, and the daemon aborts (`Runs.HauntedExactly`, `Mishaps.ReuseStops`).
- The receive fast path swallows a packet the state machine needed when the local end is Down and the
  remote repeats Down or Init, as after hold with a preset remote discriminator
  (`FastPath.FastPathExact`, `FastPath.SwallowedAfterHold`).
- The pinned-packet count is off by the Finals refused during sendmsg: they are counted as released
  but not as sent (`Guarantees.PinnedAccounting`, `Mishaps.RefusedFinal`).
- Transmit jitter leaves its bounds for intervals above 57 s (47 s with multiplier one), because a
  percentage is taken in 32 bits (`Intervals.JitterExact`).
- A failing timer callback leaves the timerfd disarmed, with timers still in the list, when the first
  callback of the pass did not cancel its timer (`Timers.Timers.Expire`, `Timers.Strand`). This is
  latent: the two callbacks there are (src/bbdd-bpf.c:1147-1158, 1233-1248) never fail.
- A push refused by the size limit may have compacted the buffer and lost its terminating zero
  (`StreamBuffer.Buffer.Push`, `StreamBuffer.LoseTerminator`).
- A source address of all zeroes does not survive DP_ADD_SESSION, nor does a fraction of a millisecond
  of hold time (`Bfddp.SessionArrives`).

The comment at src/bbdd-bpf.c:151-155 has the polled configuration take effect when the Final arrives.
The code applies it at the first packet after the Final (src/bbdd-bpf.c:1101-1129), and so does the
model.

## Assumptions

- In runs, allocations, map updates, timer helpers and poll registration succeed, and a session is
  added only when the socket buffer can be enlarged for it. `Daemon`, `Kernel` and `Bfddp` model the
  failures of such calls.
- A discriminator is not given to a new session while packets of an earlier one still loop. It may be
  given while an expiry of the earlier one waits in the ring buffer: runs include that.
- A run goes on up to the event at which the source stops.
- Generation numbers and the packet counters are unbounded; on the wire they have 32 and 64 bits.
- What the kernel's helpers say of a Final (route, rewriting, hand-over) is an arbitrary function of the
  number of the attempt. Finals and rearm packets are through the kernel when sendmsg returns.
- Random numbers, clocks, interface names and the existence of a VRF are parameters.
- The list macros (utlist) are not part of the repository: appending goes to the tail, and in-order
  insertion puts a new element before the first that is not smaller.
- In `Timers`, a callback may cancel its own timer and set new ones with a positive delay. An orphaned
  shutdown timer is the one callback that cancels another's; what that does to the pass over the timer
  list is a parameter of its event in the runs.

## Model

| member | source | states |
|---|---|---|
| `Runs.StepInv` | src/bbdd-bpf.c:880-1746 | every event (add, delete, user change, hold and shutdown timers, orphaned or not, packets, kernel timer, expiries, looping packets, writable socket) keeps the whole-dataplane invariant, but for exactly three kinds at which the source stops: an orphaned shutdown timer with no pointer to follow or with its target next in the timer list, one whose session is deleted, and an expiry that meets a session on hold |
| `Runs.RunInv` | src/bbdd-bpf.c:880-1746 | the invariant holds in every state of every run of any number of sessions |
| `Runs.AbortsExactly` | src/bbdd-bpf.c:275-283 | in every run the next event reaches an abort, an assertion or a pointer that must not be followed if and only if it is one of those three |
| `Runs.HauntedExactly` | src/bbdd-bpf.c:1686-1706 | in every run an expiry waits for a session on hold if and only if one of its discriminator was waiting when the session was added |
| `Orphans.OrphanedExactly` | src/bbdd-bpf.c:1194-1210 | in every run an event orphans a shutdown timer if and only if it starts a shutdown wait from Stable with a timer pending, at once or out of the queue when a poll closes; only an orphaned timer that fires makes them fewer |
| `Orphans.HandleUpdateOrphans` | src/bbdd-bpf.c:1296-1431 | the same for the update by itself |
| `Orphans.NeverAborts` | src/bbdd-bpf.c:275-283 | a run that never changes timing during a shutdown wait it keeps, and never adds a session on a waiting expiry, is not stopped by any next event |
| `Mishaps.TimerLost` | src/bbdd-bpf.c:1194-1210 | from every reachable session that is shutting down with an expiry waiting: new timing, the expiry, shutdown off and on orphan a timer |
| `Mishaps.LostTimerStops` | src/bbdd-bpf.c:1131-1158 | shutdown off once more, and the orphaned timer follows a pointer that is not set |
| `Mishaps.DeletedTimerStops` | src/bbdd-bpf.c:2628-2653 | or the session is deleted, and the orphaned timer's session is gone |
| `Mishaps.UntidyRunStops` | src/bbdd-bpf.c:1131-1158 | for every session that can be added there is such a run from the empty dataplane |
| `Mishaps.ExpiryOutlives` | src/bbdd-bpf.c:1686-1706 | from every reachable state with an expiry of a session waiting: delete, retire its packets, add the discriminator again, and the expiry meets the new session on hold |
| `Mishaps.ReuseStops` | src/bbdd-bpf.c:1686-1706 | for every session that can be added there is such a run from the empty dataplane |
| `Mishaps.FirstPacket` | src/bbdd-bpf.c:1433-1609 | for every session that can be added, hold end and one packet lead to Init with the detection timer running |
| `Mishaps.RefusedFinal` | src/bbdd-bpf.c:449-455 | for every session that can be added, a first packet that polls and has no way back leaves the counters one short of the looping packets |
| `Changes.HandleUpdateFaithful` | src/bbdd-bpf.c:1296-1431 | a user update leaves the user's configuration in force, being polled or marked as queued, with the shutdown timer present exactly while shutting down, if and only if it does not change timing during a shutdown wait that it keeps |
| `Changes.UntidyStraysFrom` | src/bbdd-bpf.c:1296-1431 | every session that is shutting down has such an update: it ends up polling with the shutdown timer still running |
| `Changes.StepFaithful` | src/bbdd-bpf.c:1101-1158 | one event of any kind keeps that property if and only if it is not such an update |
| `Changes.NoChangeLost` | src/bbdd-bpf.c:1296-1431 | in every run whose events for a session are tidy, the latest user configuration is in force, being polled or marked as queued |
| `Changes.ClosingSettles` | src/bbdd-bpf.c:1101-1129 | closing a wait leaves no queued mark, and ends in Stable when there was none |
| `Changes.TwoClosings` | src/bbdd-bpf.c:1101-1129 | from every faithful state two closings put the user's present configuration in force |
| `Changes.StepHeld` | src/bbdd-bpf.c:1336-1363 | a step that closes nothing never makes an Up session's effective timing laxer |
| `Changes.TimingHeld` | src/bbdd-bpf.c:1336-1363 | section 6.8.3 of RFC 5880 over any stretch of any run: while Up and with nothing closed, effective min_tx never rises and effective min_rx never falls |
| `Guarantees.KernelInSyncOrQueued` | src/bbdd-bpf.c:711-790 | after every event the kernel's configuration of a session past hold is the projection of the userspace session, or the session waits in the transmit queue |
| `Guarantees.DrainedMeansInSync` | src/bbdd-bpf.c:351-395 | a drain that empties the queue leaves every session past hold in step with the kernel |
| `Guarantees.OneLiveSpinner` | src/bbdd-bpf.c:905-1001 | in every run at most one looping packet carries a session's generation; a session that should send and is not queued has one, with the packet of its present state; on hold, settled AdminDown and passive without remote have none |
| `Guarantees.UpdateIsAtomic` | src/bbdd-bpf.c:905-937 | an update that must wait changes neither session nor looping packets; one that need not advances the generation by exactly one, in session and kernel, and leaves no old packet of it |
| `Guarantees.PinnedAccounting` | src/bbdd-bpf.c:285-301 | in every run sent + refused = released + looping, so the counters tell the looping packets if and only if no Final was refused, and the number looping is bounded by the largest capacity plus the refused |
| `Guarantees.StepRoom` | src/bbdd-bpf.c:2452-2497 | only adding and deleting sessions change the capacity, and the peak follows it upwards |
| `Guarantees.AddedCapacity` | src/bbdd-bpf.c:2452-2497 | the capacity after an add is the environment's or twice the number of sessions |
| `Guarantees.DeletedCapacity` | src/bbdd-bpf.c:2452-2497 | after a delete likewise, unless the socket buffer cannot hold it |
| `Guarantees.PeakIsMax` | src/bbdd-bpf.c:2452-2497 | the peak is the largest capacity there has been in the run |
| `Guarantees.WithinCapacity` | src/bbdd-bpf.c:285-301 | in every run that never reduces the capacity and has refused no Final, the counters tell the looping packets, which never exceed the capacity |
| `Guarantees.WithinFixedCapacity` | src/bbdd-bpf.c:2434-2497 | so for a capacity set by the environment |
| `Guarantees.QueueAccounting` | src/bbdd-bpf.c:402-416 | in every run enqueued = dequeued + pending + deleted, each class holds a session at most once, and a non-empty queue has POLLOUT armed |
| `Guarantees.DrainTakesPrefix` | src/bbdd-bpf.c:351-395 | a drain takes a prefix of the queue, Finals before periodics, and queues nothing |
| `Nodes.DrainOneShrinks` | src/bbdd-bpf.c:351-395 | with room in the socket one round removes exactly the head, because the update it triggers cannot requeue |
| `Nodes.WithoutHas` | src/bbdd-bpf.c:2628-2653 | deleting a session unlinks its slots and nobody else's |
| `Runs.AddInv` | src/bbdd-bpf.c:2953-2996 | adding a session keeps the invariant, for the newcomer and everyone else |
| `Runs.DelInv` | src/bbdd-bpf.c:2628-2653 | deleting a session keeps the invariant of the others, of the queue and of the counters |
| `Runs.SpinInv` | src/bbdd-prog.bpf.c:349-384 | a looping packet's pass through the kernel program keeps the invariant, retired or not |
| `Runs.DrainInv` | src/bbdd-bpf.c:351-395 | a whole drain keeps the invariant |
| `Invariants.UpdateSettles` | src/bbdd-bpf.c:880-1014 | from any state of a session past hold, the update leaves the kernel in sync or the session queued, one live packet at most, and the counters balanced |
| `Invariants.HandlePacketKeeps` | src/bbdd-bpf.c:1433-1609 | a packet of any content and age keeps a session's invariants |
| `Invariants.HandleTimeoutKeeps` | src/bbdd-bpf.c:1686-1746 | a detection timeout, stale or not, keeps them |
| `Invariants.UserUpdateKeeps` | src/bbdd-bpf.c:3010-3043 | a user update keeps them |
| `Invariants.HoldExpiredKeeps` | src/bbdd-bpf.c:1233-1248 | the end of the hold time establishes them for a session past hold |
| `Invariants.ShwaitExpiredKeeps` | src/bbdd-bpf.c:1147-1158 | the shutdown timer's expiry keeps them |
| `Invariants.GotFinalKeeps` | src/bbdd-bpf.c:1091-1099 | the Final of a poll keeps them |
| `Invariants.GotNonFinalKeeps` | src/bbdd-bpf.c:1101-1129 | the first packet after the Final keeps them |
| `Machine.UpdateKeeps` | src/bbdd-bpf.c:880-1014 | the update touches nothing of a session but generation, timer period and kernel copy |
| `Conduct.ListensExactly` | src/bbdd-bpf.c:1457-1500 | a packet is accepted if and only if the session is past hold, not shutting down and not AdminDown, the TTL suffices, and the packet has no echo interval, Authentication, Demand or Multipoint bit, a multiplier, a discriminator, and a Your Discriminator unless it says Down or AdminDown |
| `Conduct.Ignores` | src/bbdd-bpf.c:1457-1500 | any other packet changes nothing |
| `Conduct.PacketMoves` | src/bbdd-bpf.c:1511-1559 | section 6.8.6 of RFC 5880 in every run: Up afterwards iff Down told Init, or Init or Up told Init or Up; Init iff Down or Init told Down; Down iff told AdminDown, Up told Down or Down told Up; the diagnostic of each move; and the remote as the packet says |
| `Conduct.PacketTakesUp` | src/bbdd-bpf.c:1101-1129 | the same for a packet that closes a poll with a change queued: heard first, then the change of shutdown |
| `Conduct.PacketPolls` | src/bbdd-bpf.c:1590-1608 | in every run a Final and then a packet without one close a poll and put the polled data in force; no other accepted packet does anything to it |
| `Conduct.PollIsAnswered` | src/bbdd-bpf.c:1566-1588 | in every run an accepted packet is answered with a Final, sent or queued, if and only if it polls |
| `Conduct.AnswerSays` | src/bbdd-bpf.c:1566-1588 | the answer carries the session's state and the Final bit alone |
| `Conduct.DrainAnswers` | src/bbdd-bpf.c:351-395 | a drain sends every Final it takes off the queue |
| `Conduct.TimedOutMeans` | src/bbdd-bpf.c:1686-1746 | in every run an expiry leaves a session neither Init nor Up; one that was is Down with diagnostic 1, its remote too, and the remote discriminator is the user's, unless a queued change of shutdown is taken up and decides |
| `Conduct.UserMeans` | src/bbdd-bpf.c:1296-1431 | in every run, what a user's change makes of each field of a session in each state: shutdown on, shutdown off, new intervals, relaxed or not, and everything else |
| `Conduct.EnabledExactly` | src/bbdd-bpf.c:1376-1388 | in every run a change that takes shutdown away takes an AdminDown session to Down with diagnostic 3 if and only if it was shutting down, or settled with shutdown in force |
| `Conduct.EnabledWhenTidy` | src/bbdd-bpf.c:1376-1388 | where no change was lost, if and only if it is settled or shutting down |
| `Conduct.HoldEndMeans` | src/bbdd-bpf.c:1233-1248 | in every run the end of hold puts the user's data in force |
| `Conduct.ShutdownEndMeans` | src/bbdd-bpf.c:1147-1158 | in every run the end of a shutdown wait leaves the session settled and AdminDown with shutdown in force |
| `Mishaps.EnableLost` | src/bbdd-bpf.c:1369-1428 | from every reachable AdminDown session that polls with shutdown in its data: a change that takes shutdown away, and the closing of the poll, leave it settled, enabled and AdminDown |
| `Mishaps.EnabledStaysDown` | src/bbdd-bpf.c:1369-1428 | for every session that can be added there is such a run from the empty dataplane |
| `Published.KernelHas` | src/bbdd-bpf.c:880-1014 | in every run, for every session past hold with no update waiting, the kernel's configuration field by field: detection time, every send delay, addresses, ports, table, interface, lookup flags, generation, TTL, AdminDown, timer, expected packet |
| `Published.AddedHas` | src/bbdd-bpf.c:792-824 | a session just added is on hold with the record it was added with; the kernel has its addresses and what it would expect, no lookup parameters, no pace and no timer |
| `Published.TimedOutSlows` | src/bbdd-bpf.c:1727-1745 | in every run a session an expiry takes down is slow and unwatched in the kernel too, or waits for its update |
| `Published.WireHas` | src/bbdd-bpf.c:897-1001 | in every run, for every such session, exactly one looping packet of its generation when it speaks, and what it says field by field, the Poll bit exactly while a Final is awaited; and none when it is AdminDown and settled or passive without a remote |
| `Watch.AlwaysWatched` | src/bbdd-bpf.c:1003-1011 | in every run a session in Init or Up with no update waiting has its detection timer running or its expiry on the way |
| `Watch.UpdateWatched` | src/bbdd-bpf.c:944-1011 | the period bookkeeping of an update never leaves such a session without a timer |
| `FastPath.MatchMeansRepeats` | src/bbdd-bpf.c:672-709 | a valid packet equals the expected one if and only if it parses to exactly what is known of the remote, does not poll, and carries Final just while a Final is waited out |
| `FastPath.FastPathExact` | src/bbdd-prog.bpf.c:734-763 | for every session in step with the kernel, swallowing the expected packet changes nothing the slow path would have changed, if and only if the local end is not Down under a remote in Down or Init |
| `FastPath.PendingMoves` | src/bbdd-bpf.c:1511-1559 | in the other case the slow path would have moved the session to Init or Up |
| `FastPath.FastPathAgrees` | src/bbdd-prog.bpf.c:734-763 | in every run a session in Init or Up that is in step with the kernel loses nothing to the fast path |
| `FastPath.SwallowedAfterHold` | src/bbdd-bpf.c:1233-1248 | a fresh session with a preset remote discriminator: after hold the kernel swallows the packet that should take it to Init |
| `Handshake.UpMeansBothWays` | src/bbdd-bpf.c:1511-1559 | sections 6.2 and 6.8.6 of RFC 5880: two dataplanes over a network that loses, duplicates, delays and reorders; in every history an end is Up only if each has accepted a packet of the other |
| `ComingUp.Rise` | src/bbdd-bpf.c:1511-1559 | section 6.2 of RFC 5880: any history that has come to two Down ends, settled and with room, goes on to both being Up by three deliveries of current packets in turn |
| `ComingUp.ComeUp` | src/bbdd-bpf.c:1511-1559 | for every two sessions that can be added, one of them not passive, there is a history from their being added to both being Up |
| `Handshake.StepHistory` | src/bbdd-bpf.c:1433-1559 | a session's count of accepted packets never falls, and it has heard Init or Up only from a packet it accepts |
| `Handshake.SentHonestly` | src/bbdd-bpf.c:458-567 | a session that ever put Init or Up on the wire had accepted a packet |
| `Kernel.Program.XmitTx` | src/bbdd-prog.bpf.c:349-513 | a packet loops on exactly when it is a non-Final of the present generation; every other BFD packet is released exactly once, whatever the route; verdict, delay, ring and counters of every case |
| `Kernel.TxEffects` | src/bbdd-prog.bpf.c:349-513 | sending touches only the packet's session and no timer; a packet is counted exactly when it leaves, and every other one raises exactly one diagnostic |
| `Kernel.Program.XmitRearm` | src/bbdd-prog.bpf.c:565-599 | a rearm packet is released exactly once, session or not, and starts only its session's timer, helpers permitting |
| `Kernel.Program.Recv` | src/bbdd-prog.bpf.c:677-764 | userspace is told of exactly the packets with discriminator zero and the unexpected ones |
| `Kernel.ToldExactly` | src/bbdd-prog.bpf.c:690-748 | by the packet's fields and the session's configuration: told as unexpected if and only if valid, for a known session that is not AdminDown, with TTL enough, and not the expected packet; told as nameless if and only if valid with Your Discriminator zero |
| `Kernel.KeptExactly` | src/bbdd-prog.bpf.c:690-763 | kept if and only if it is the packet a known session expects and hears |
| `Kernel.FateExactly` | src/bbdd-prog.bpf.c:399-512 | the verdict by Final bit, route, rewriting and hand-over |
| `Kernel.RecvEffects` | src/bbdd-prog.bpf.c:677-764 | exactly the expected packets are counted; a timer runs afterwards exactly if it did or its session's packet was expected, the configuration asks for it and the helpers work; no other session is touched |
| `KernelRuns.Spins` | src/bbdd-prog.bpf.c:380-384 | for every reachable dataplane, the transmit program does to a looping packet, the counters and the ring what the run model's spin does |
| `KernelRuns.SendsFinal` | src/bbdd-prog.bpf.c:430-512 | the transmit program does to a Final what the run model's sending does: released once, refused if and only if it neither leaves the host nor waits for a neighbour |
| `KernelRuns.FinalIsCurrent` | src/bbdd-bpf.c:458-567 | in every run a session's Final is of the generation the kernel has |
| `KernelRuns.SendsRearm` | src/bbdd-prog.bpf.c:565-599 | the rearm program does what the run model's rearm does |
| `KernelRuns.Expects` | src/bbdd-prog.bpf.c:734-763 | the receive program does to an expected packet what the run model's event does |
| `KernelRuns.Receives` | src/bbdd-prog.bpf.c:677-745 | any other packet leaves the kernel's side of the model as it was |
| `KernelRuns.NothingMissed` | src/bbdd-prog.bpf.c:734-748 | in every run every packet a session with no update waiting would accept is the expected one or told to userspace |
| `KernelRuns.Fires` | src/bbdd-prog.bpf.c:521-527 | the timer callback does what the run model's event does: timer off, expiry in the ring |
| `Dataplane.Session.HandleUpdate` | src/bbdd-bpf.c:1296-1431 | in place, the poll and shutdown state machine does what the model's update does |
| `Dataplane.Session.Apply` | src/bbdd-bpf.c:1365-1431 | in place, the effect of each decision in each state: what becomes effective, deferred or queued, and the state that follows |
| `Dataplane.Session.Publish` | src/bbdd-bpf.c:711-790 | in place, the next generation and the projection of the session in the kernel's map |
| `Dataplane.Session.Advance` | src/bbdd-bpf.c:1511-1559 | in place, the local state moves as the model's transition table |
| `Dataplane.Session.Learn` | src/bbdd-bpf.c:1433-1609 | in place, the remote's data become what the packet says |
| `Dataplane.Dataplane.Inject` | src/bbdd-bpf.c:458-567 | in place, one packet to the socket, with its effect on counters and looping packets |
| `Dataplane.Dataplane.Update` | src/bbdd-bpf.c:880-1014 | in place, session and socket end up as the model's update says, deferral included |
| `Dataplane.Dataplane.GotFinal` | src/bbdd-bpf.c:1091-1099 | in place, as the model |
| `Dataplane.Dataplane.GotNonFinal` | src/bbdd-bpf.c:1101-1129 | in place, as the model |
| `Dataplane.Dataplane.ShwaitExpired` | src/bbdd-bpf.c:1147-1158 | in place, the callback of the timer the pointer leads to, as the model |
| `Dataplane.Dataplane.OrphanExpired` | src/bbdd-bpf.c:1147-1158 | in place, the callback of a timer the pointer does not lead to: it cancels the one the pointer leads to, and closes the wait, as the model |
| `Dataplane.Dataplane.HoldExpired` | src/bbdd-bpf.c:1233-1248 | in place, as the model |
| `Dataplane.Dataplane.UserUpdate` | src/bbdd-bpf.c:3010-3043 | in place, as the model; a session on hold only keeps the new record |
| `Dataplane.Dataplane.HandlePacket` | src/bbdd-bpf.c:1433-1609 | in place, every branch of packet reception as the model |
| `Dataplane.Dataplane.HandleTimeout` | src/bbdd-bpf.c:1686-1746 | in place, every branch of the timeout as the model |
| `Dataplane.Dataplane.Drain` | src/bbdd-bpf.c:351-395 | in place, the drain loop over all sessions' objects ends in the model's drained dataplane, and terminates |
| `Packet.ParseThenMake` | src/bbdd-bpf.c:569-635 | every packet the parser accepts is rebuilt byte for byte from what it parsed |
| `Packet.MakeThenParse` | src/bbdd-bpf.c:206-223 | every packet made of valid data parses to exactly these data and flags |
| `Packet.MakeThenRead` | src/bbdd-prog-pkt.h:51-73 | the accessors read back version, diagnostic, state and flags of a made packet |
| `Packet.FirstBytes` | src/bbdd-bpf.c:206-223 | version, diagnostic, state and flags as the numbers of section 4.1 of RFC 5880 |
| `Packet.FlagBitsBuild` | src/bbdd-bpf.c:637-709 | a permitted flag byte is determined by its Poll, Final and C bits |
| `Intervals.DetectTime` | src/bbdd-bpf.c:845-866 | section 6.8.4 of RFC 5880: the detection time is the exact product, saturated at the 32-bit maximum |
| `Intervals.JitterExact` | src/bbdd-bpf.c:954-964 | section 6.8.7 of RFC 5880: every random delay of a session that is not Down lies within 75-100 % (75-90 % for multiplier 1) of the interval if and only if the percentage does not overflow 32 bits |
| `Intervals.JitterFailsAtAMinute` | src/bbdd-bpf.c:954-964 | an interval of a minute gives a shortest delay of two seconds |
| `Intervals.DownIsSlow` | src/bbdd-bpf.c:954-964 | a Down session sends at exactly the slow rate whatever the random number |
| `Checksum.Accumulate` | src/bbdd-bpf.c:225-238 | the loop computes the word sum modulo 2^32, odd byte included |
| `Checksum.Fold` | src/bbdd-bpf.c:240-245 | the folding loop ends in the one 16-bit number congruent to the sum modulo 65535 that is zero only for zero, complemented |
| `Checksum.FoldsOnce` | src/bbdd-bpf.c:240-245 | there is only one such number |
| `Checksum.InetChecksum` | src/bbdd-bpf.c:247-250 | the checksum of any buffer; exact up to 128 kB |
| `Checksum.Udp6Checksum` | src/bbdd-bpf.c:252-273 | pseudo header and datagram give the checksum of their concatenation |
| `Checksum.SumSplits` | src/bbdd-bpf.c:252-273 | the sum of a concatenation is the sum of the sums when the first part is even |
| `Checksum.ChecksumVerifies` | src/bbdd-bpf.c:225-250 | with the computed value in its zeroed aligned field the same computation gives zero, in either byte order |
| `Checksum.ZeroChecksum` | src/bbdd-bpf.c:252-273 | the computed value is zero if and only if the sum is a positive multiple of 65535; the code sends that zero as it is |
| `TxQueue.List.Append` | src/bbdd-tx.c:36-57 | appending to the doubly linked list appends to the sequence it stands for |
| `TxQueue.List.Delete` | src/bbdd-tx.c:66-80 | deleting a node anywhere takes it out of the sequence and nothing else |
| `TxQueue.Tx.Enqueue` | src/bbdd-tx.c:36-57 | a slot is linked at the tail of its class; one that is linked already stays as and where it is; counts are exact |
| `TxQueue.Tx.Peek` | src/bbdd-tx.c:59-64 | the first Final, else the first periodic, else none |
| `TxQueue.Tx.Unlink` | src/bbdd-tx.c:66-80 | takes a slot out of its class if it is linked, with exact counts |
| `TxQueue.Tx.IsPending` | src/bbdd-tx.c:92-95 | true exactly when either class is non-empty |
| `TxRefinement.LinkedIsQueued` | src/bbdd-tx.c:36-57 | a slot is in its list exactly when the model has its session queued |
| `TxRefinement.AppendIsEnqueue` | src/bbdd-tx.c:36-57 | appending a slot is the model's enqueue |
| `TxRefinement.DeleteIsUnlink` | src/bbdd-tx.c:66-80 | unlinking a slot is the model's removal of the session |
| `TxRefinement.PeekIsHead` | src/bbdd-tx.c:59-64 | peeking shows the slot the model's drain takes |
| `Timers.Timers.Set` | src/bbdd-timer.c:72-107 | inserts in deadline order, and arms the timerfd when the new timer is the earliest |
| `Timers.Timers.Cancel` | src/bbdd-timer.c:109-131 | takes exactly that timer out, and rearms when it was the earliest |
| `Timers.Timers.Rearm` | src/bbdd-timer.c:46-60 | the timerfd is armed for the head, or disarmed for an empty list |
| `Timers.Timers.Expire` | src/bbdd-timer.c:133-185 | one expiry pass with callbacks that cancel themselves, set new timers or fail: what ran, what is left, that the timerfd is right after success, and after any failure exactly what it is armed for |
| `Timers.FailureArms` | src/bbdd-timer.c:133-185 | after a failure the timerfd is right if and only if nothing is left, or something due at the deadline it was last armed for; it is disarmed if and only if the first callback kept its timer |
| `Timers.Strand` | src/bbdd-timer.c:133-185 | for any two timers of which one is due, a failing callback leaves the other in the list with the timerfd disarmed |
| `Timers.RanIsExact` | src/bbdd-timer.c:133-185 | a full pass runs exactly the due timers, once each, in deadline order |
| `Timers.LeftIsExact` | src/bbdd-timer.c:133-185 | what is left is the later timers plus those set meanwhile, sorted, none of them due |
| `Timers.DueIsExact` | src/bbdd-timer.c:133-185 | in a sorted list the due prefix is all that is due |
| `StreamBuffer.Buffer.Compact` | src/bbdd-sb.c:33-40 | moving the contents to the front leaves them as they are |
| `StreamBuffer.Buffer.Grown` | src/bbdd-sb.c:52-99 | the doubling loop ends, with the present size if it is enough, else with less than twice what is needed |
| `StreamBuffer.Buffer.GetBuffer` | src/bbdd-sb.c:52-99 | fails exactly when the limit forbids it, keeps the contents, and otherwise provides the room |
| `StreamBuffer.Buffer.Push` | src/bbdd-sb.c:101-115 | appends through any compaction and growth; fails exactly when limit and terminator say so, with the contents unchanged; when a failed push loses the terminating zero |
| `StreamBuffer.LoseTerminator` | src/bbdd-sb.c:52-115 | every string that does not end in a zero loses its terminator to push, pull, refused push |
| `StreamBuffer.Buffer.Pull` | src/bbdd-sb.c:122-127 | drops a prefix |
| `Framing.ParseResumes` | src/bbdd-util.c:628-668 | parsing can stop after any byte and go on later with the same result |
| `Framing.ChunkingIrrelevant` | src/bbdd-util.c:628-668 | any cutting of a stream delivers the messages, and stops at the first error, of the whole stream |
| `Framing.MessagesArrive` | src/bbdd-util.c:628-668 | a stream of well-framed messages is delivered message by message with nothing left over |
| `Framing.FrontOf` | src/bbdd-util.c:628-668 | what the front of any stream comes to: nothing while incomplete, an error for a length below eight, otherwise one message and the callback's verdict |
| `Framing.RestIsIncomplete` | src/bbdd-util.c:628-668 | what stays in the buffer is less than a message: parsing it again does nothing |
| `Framing.Tokenizer.Receive` | src/bbdd-util.c:628-668 | the loop over the stream buffer is one step of the framing function; it overflows exactly at the limit |
| `Ports.Allocator.Get` | src/bbdd-d.c:57-71 | returns the lowest free port of 49152..65535 and takes it, or fails exactly when all are taken |
| `Ports.Allocator.Put` | src/bbdd-d.c:73-83 | frees exactly that port |
| `Ports.LowestClear` | src/bbdd-d.c:57-71 | the lowest clear bit of a word, if there is one |
| `Requests.Record.Apply` | src/bbdd-d.c:1390-1500 | succeeds if and only if the request is admissible, applies all of it then, and otherwise leaves the record untouched; says whether anything changed |
| `Requests.WritesWhatItSays` | src/bbdd-d.c:1297-1369 | field by field: a request's value where it says one, the old one where it does not; source port kept, destination port by hops, table with the VRF |
| `Requests.AdmittedExactly` | src/bbdd-d.c:1390-1500 | the conditions of admission one by one |
| `Requests.Record.Write` | src/bbdd-d.c:1297-1369 | the field-by-field application is the overwriting of the record |
| `Daemon.Daemon.Add` | src/bbdd-d.c:1630-1683 | both directories, both kernel maps and the port bitmap agree after success and after every failure; succeeds exactly when there is a port, nothing foreign fails and the request is good |
| `Daemon.Daemon.BpfAdd` | src/bbdd-bpf.c:2953-2996 | all of hold timer, socket size, kernel maps and directory, or none |
| `Daemon.Daemon.Set` | src/bbdd-d.c:1760-1823 | one session of a set request: applied exactly when admissible, tables still agree |
| `Daemon.Daemon.Del` | src/bbdd-d.c:1825-1845 | removes the session from every table and frees its port, or reports that there is none |
| `Daemon.Daemon.UniqueDiscr` | src/bbdd-sess.c:75-85 | the retry loop ends with an unused number or with zero |
| `Daemon.Daemon.HandleAdd` | src/bbdd-d.c:1685-1712 | a given discriminator is the one used unless taken, else a drawn one; a drawn zero is refused and leaves nothing behind |
| `Daemon.NewRecordIs` | src/bbdd-d.c:1630-1665 | the defaults of a new session |
| `Daemon.AgreeMeans` | src/bbdd-d.c:57-83 | agreement of tables and ports means pairwise distinct ports, each of a live session |
| `Daemon.OverwrittenKeeps` | src/bbdd-d.c:1297-1369 | an admissible request leaves discriminator, source port and what was learnt of the remote's timing |
| `Admission.AddedIsFresh` | src/bbdd-d.c:1630-1683 | the record of an admitted add is one a run may start a session from |
| `Admission.SetIsAllowed` | src/bbdd-d.c:1390-1500 | an admitted request changes a live session only as a user event of a run may |
| `Bfddp.Encode` | src/bbdd-bfdd.c:619-702 | the message is well-framed, in the standard or the VRF length |
| `Bfddp.BuildFlags` | src/bbdd-bfdd.c:642-651 | or-ing the flags one by one gives the flag word |
| `Bfddp.FlagWeights` | src/bfddp_packet.h:133-145 | the flag word as the protocol's numbers |
| `Bfddp.Layout` | src/bfddp_packet.h:157-223 | which byte of the message holds what, in both lengths |
| `Bfddp.FlagWordReads` | src/bbdd-bfdd.c:784-822 | each flag reads back from the word, and Echo and Demand read as absent |
| `Bfddp.RefusedExactly` | src/bbdd-bfdd.c:784-932 | for every message, each error if and only if its condition on the bytes holds: length, Echo, Demand, hold time above 4294967 ms |
| `Bfddp.EncodeThenDecode` | src/bbdd-bfdd.c:619-702 | for every well-formed session, in both lengths and whatever lay in the address padding, decoding gives the session's flags, addresses, discriminator, timings, TTL, multiplier, interface and VRF table, with the hold time in whole milliseconds |
| `Bfddp.SessionArrives` | src/bbdd-bfdd.c:784-897 | applied to any record, the decoded request yields the same session if and only if the hold time is in whole milliseconds and the source is not an explicit all-zero address |
| `Bfddp.ReadPayload` | src/bbdd-bfdd.c:784-897 | the field-by-field reader is the decoding function, errors included |
| `Bfddp.ReadMessage` | src/bbdd-bfdd.c:899-932 | the length selects the form; any other is refused |
| `Bfddp.FillName` | src/bbdd-bfdd.c:576-586 | fails exactly for an interface without a name; otherwise the field starts with the name |
| `Bfddp.AddSession` | src/bbdd-bfdd.c:619-702 | a message is sent if and only if the request is admissible and its interfaces exist, and decodes to what the request says |

## Left out

- Sockets, epoll, signals, netlink, libbpf loading and attaching, veth and qdisc setup: calls into foreign code.
- Route lookup, header rewriting and the incremental checksum of the kernel program: only their outcomes are parameters of `Kernel`.
- Interleaving of the kernel programs with userspace and among processors: each event, each program run and each request is one step.
- JSON-RPC, the command line, monitoring and formatting: long and shallow.
- Resolution of interface and VRF names: an oracle says whether a VRF exists; the names a data plane message carries are written but not read back.
- Choosing a session for a packet with discriminator zero: the run model lets any session receive any packet.
- Selecting sessions for bulk set and delete requests: one session of such a request is modelled.
- Echo, counter and bridge requests, state change messages, and statistics read-out: simple bookkeeping.
- That a handshake must come to its end, and which Poll a Final answers: the code does not guarantee these; that it can is proved.
- Overflow of size_t in buffer sizes and of 64-bit time in timers: sizes and times are unbounded.
- Byte order inside BFD packets: fields are numbers. Data plane messages and checksums are modelled on bytes.
- Framing.ChunkingIrrelevant: assumes no size limit; with one, where a stream overflows depends on how it is cut, and Framing.Tokenizer.Receive gives the exact condition for each chunk.
- Daemon.Daemon.HandleAdd: when it has to draw a discriminator, takes the numbers the random source will give and assumes that one of them ends the search.
