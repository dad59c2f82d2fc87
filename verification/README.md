# Verified model of kcptun-rust's drivers, test generators and lab tools

The project models, in Dafny, the parts of kcptun-rust that drive, test and measure its protocol
engines, and proves what they promise for all inputs, all runs and all interleavings.

| files | what they model |
|---|---|
| `KcpTrace`, `KcpRuns`, `KcpCausality`, `KcpLedger`, `KcpLink`, `KcpTimers`, `KcpTiming`, `KcpReader`, `KcpReading`, `KcpEnding`, `PingPong`, `PingPongExact`, `DeliveryHeap`, `KcpSimulator` | the discrete-event simulator of two KCP endpoints over a lossy link |
| `ClientPool`, `ClientLoops`, `PoolService`, `RoundRobin` | the client's session pool, its scavenger, and round robin over the tunnels |
| `SortKiller`, `PeriodicSeqs` | the adversary that builds a worst case for an unknown sort; sequence ids across the wrap |
| `FecGroups`, `FecFeed` | the transformers of packet feeds for the FEC decoder |
| `LeastSquares`, `ShellQuote`, `Provenance` | the lab driver: slope, quoting for the remote shell, the gate that names every binary |
| `CliDiff`, `LogHeader` | the comparison of two programs' output, and the log header stripper |
| `SnappyVarint` | the padded length varint |
| `Helpers` | optional values, exchange of two elements, division |

Loops that update variables are methods with loops, and objects that change are classes; each is
proved against a function on values, and what the program promises is proved about that function.

**The simulator.** The KCP engine is an arbitrary machine: its answer to the i-th call (return value,
clock reads, packets output, state words) is any value, and so is every draw of the link's random
generator for the i-th packet. A run is any number of turns of the event loop, so every statement
about runs holds in every state between two turns, and the byte counts of ping-pong are also watched
after every single Send. The assumptions about the engine are: its mss is positive, and a reader
finds finitely many messages before PeekSize turns negative. What the language leaves open in
`s.now + uint64(s.flush(e))`, namely whether the clock is read before or after the call, is left
open here too (`lateNow`), and every theorem holds for both.

What a run writes is characterised from the outside as well. `KcpReader` is a reader that knows only the
configuration and the lines of one trace, and accepts the trace only if every line is the one the session
code would make next; `KcpReading` proves that it accepts every trace of every run and reads off it exactly
what the endpoint has planned, sent, received and found. `KcpLink` and `KcpTimers` say in the draws and the
engine's answers alone what becomes of a packet and when a timer fires.

**The pool.** The accept loop and the scavenger share only the channel. Each slot of a purge, each
test of a session, each dial, each channel operation and each inspection and close of a sweep is a
step of its own; sessions die and time passes between any two steps. A test reads the closed bit and
then the clock in one step. Nothing is lost by that: a death or passing time between the two reads
leads to the same states as the test at the time of the second read with the death after it.

**The adversary.** A sort is any finite decision tree over comparisons and swaps.

## Model

| member | source | states |
|---|---|---|
| KcpCausality.EveryInputComes | tools/govectors/kcptrace.go:307-376 | In every run, after every turn of the event loop and whatever the engine and the link do: an `input src=i.j` line names an output that is on the other trace, recorded earlier, and the bytes input are that packet or exactly its first `cut` bytes |
| KcpCausality.OneOrder | tools/govectors/kcptrace.go:335-340 | The two op lists have one global order: line numbers grow along each trace and no number is used twice, so "names an earlier line" is acyclic |
| KcpCausality.EndsAfterCrafted | tools/govectors/kcptrace.go:574-582 | A run that waits for its bytes never ends while a crafted packet is still queued, because `pendingRaw` is exactly the number of crafted packets in the queue |
| KcpLedger.EveryDeliveryAccounted | tools/govectors/kcptrace.go:344-376 | In every run the deliveries in the queue and those taken out are together, as multisets, exactly those ever put in: none is lost in the queue, made twice or made up |
| KcpLedger.SharedNumbers | tools/govectors/kcptrace.go:650-658 | Two deliveries bear the same number exactly when the earlier is crafted and the later is the copy queued right after it: the crafted counter advances before use, the other after |
| KcpLedger.EveryOutputCounted | tools/govectors/kcptrace.go:204-209 | `packets` is the number of packets on both traces, and no more of them were dropped |
| KcpLedger.EveryArrivalIsInput | tools/govectors/kcptrace.go:529-556 | In every run the input lines of an endpoint are its arrivals, one line each, in order, with the bytes, the packet type, the flag and the low 32 bits of the start value and the time at which the packet was taken out |
| KcpLink.LinkExactly | tools/govectors/kcptrace.go:344-376 | What becomes of one output, in the draws alone: nothing if the link is blacked out by then or loses it, otherwise one copy or two, each due after the delay, the drawn jitter and the reordering delay if drawn, cut and marked as drawn |
| KcpLink.EveryRunIsCarried | tools/govectors/kcptrace.go:344-376 | In every run nothing sent is due before its link's delay, nothing sent over a link that is blacked out is due later than its slowest packet sent before, and there are one or two copies of every packet not dropped |
| KcpLink.CraftedAsConfigured | tools/govectors/kcptrace.go:650-658 | In every run the crafted packets are exactly those of the configuration, each for a and then for b, due at 5 + 7k and 3 ms later |
| KcpLedger.TransmitKeepsBalanced | tools/govectors/kcptrace.go:344-376 | Transmitting counts one packet, lost or not, and keeps queue, arrivals and numbers in balance |
| KcpRuns.EventKeeps | tools/govectors/kcptrace.go:678-691 | Whatever every recorded call keeps, and that looks at nothing the application alone changes, every branch of the event switch keeps |
| KcpRuns.AlwaysHolds | tools/govectors/kcptrace.go:584-692 | Such a property, kept also by crafted packets, the advance of the clock and the input of a delivery, holds after any number of turns of every run |
| KcpCausality.CallKeepsSound | tools/govectors/kcptrace.go:307-341 | One recorded call, with any return value, clock reads and outputs, keeps the whole invariant: heap, numbering, causality of both traces and of the queue, crafted count, and that calls only add later packets |
| KcpCausality.TransmitKeepsQueue | tools/govectors/kcptrace.go:344-376 | Lost, doubled, delayed, cut or blacked out, an output only puts pieces of itself in the queue |
| KcpCausality.TakeKeepsSound | tools/govectors/kcptrace.go:679-680 | Popping the next delivery keeps the invariant, and the packet popped comes from a line of the other trace |
| KcpCausality.DeliveryKeepsSound | tools/govectors/kcptrace.go:529-556 | Delivering a popped packet, with its reads and writes, keeps the invariant |
| KcpCausality.EventKeepsSound | tools/govectors/kcptrace.go:678-691 | Every branch of the event switch keeps the invariant |
| KcpCausality.StartIsSound | tools/govectors/kcptrace.go:623-658 | The configuration calls, extra sends and crafted packets establish it |
| KcpTrace.CallAs | tools/govectors/kcptrace.go:307-341 | A call appends exactly one line to its own trace, leaves the other endpoint alone, and does not turn the clock back |
| KcpTrace.TransmitFrom | tools/govectors/kcptrace.go:336-376 | Sending a call's outputs touches nothing but the queue and the packet counters |
| KcpTrace.WriteMessage | tools/govectors/kcptrace.go:495-505 | One message takes exactly one write off the plan, whatever its Sends return |
| KcpTrace.PlanSize | tools/govectors/kcptrace.go:611-619 | Every planned write takes at least one byte and no more than are left |
| KcpCausality.CraftedIgnoresOrder | tools/govectors/kcptrace.go:252-252 | The number of crafted packets in a queue does not depend on the order the heap keeps them in |
| KcpTiming.ClockNeverGoesBack | tools/govectors/kcptrace.go:660-674 | However far a run goes on, `now` does not decrease |
| KcpTiming.NothingIsEarly | tools/govectors/kcptrace.go:678-680 | In every run no delivery is taken out before its due time, and they are taken out in the order of the clock |
| KcpTiming.StillClockIsPunctual | tools/govectors/kcptrace.go:592-597 | With clock_step 0 every delivery happens exactly at `at`, and over the whole run earlier `at` comes first and of equal ones the smaller seq, although seq is not unique |
| KcpTiming.LastBranchIsStallEnd | tools/govectors/kcptrace.go:661-691 | The default branch is reached only when the clock has just advanced, and then it equals the end of a reader stall that has a length |
| KcpTiming.LastBranchReads | tools/govectors/kcptrace.go:685-690 | Exactly when an endpoint is read at its own stall end: nothing else is due once the clock has advanced, and the clock, for b after a's read, stands at that end; the branch reads those endpoints, a before b, one at least, and does nothing else |
| KcpTiming.BothEndAtOnce | tools/govectors/kcptrace.go:686-690 | When both stalls end together, b is read exactly when a's read does not move the clock |
| KcpTiming.MissedForGood | tools/govectors/kcptrace.go:667-674 | Once the clock has reached a stall end, that endpoint is never read for it any more: a read lost to a delivery or timer due at the same time stays lost |
| KcpTimers.AdvanceExactly | tools/govectors/kcptrace.go:661-674 | The clock goes to the earliest of the timers, the queued deliveries and the stall ends still ahead: it passes none of them, stops nowhere else, does not go back, and something is due then |
| KcpTimers.NeverOverdue | tools/govectors/kcptrace.go:661-691 | With clock_step 0 no timer of either endpoint is ever overdue, in any run |
| KcpTimers.FiresWhenArmed | tools/govectors/kcptrace.go:678-684 | So a timer that is due in the next turn is due exactly then |
| KcpTimers.FirstTimersAreDue | tools/govectors/kcptrace.go:623-649 | At the start both timers are due: each is armed for the moment its endpoint is configured |
| KcpTimers.FlushedAgain | tools/govectors/kcptrace.go:521-524 | With Flush, the timer is due again as many milliseconds later as the 32-bit answer says, counted from the clock before or after the call |
| KcpTimers.CheckedAgain | tools/govectors/kcptrace.go:513-521 | With Update and Check, it is due when the 32-bit clock reaches the answer of Check, and after one millisecond if that is not ahead of it |
| KcpTimers.LimitExactly | tools/govectors/kcptrace.go:672-677 | A run is given up exactly when the clock has passed the limit; nothing is delivered later than that |
| KcpTimers.EventMovesByReads | tools/govectors/kcptrace.go:590-597 | Within one event the clock moves by clock_step for every clock read on the lines it adds, and not otherwise |
| KcpTimers.EventStartsWith | tools/govectors/kcptrace.go:661-691 | Ties go to deliveries, then a, then b: the first line of an event is the input of the packet due, without one the timer call of a, without that the one of b |
| KcpReading.EveryTraceIsRead | tools/govectors/kcptrace.go:443-524 | In every run each trace is one the reader accepts, line by line: the opening calls as configured, after an input or a stall PeekSize and Recv in their order with every eighth idle Recv, a message only through an open gate and an open window, in pieces of the mss, then WaitSnd and Flush, and another one if the gate is still open; what it reads off is what the endpoint has. The mss is the one the engine had when the stream mode was set, and before write_from nothing is taken off the plan |
| KcpReader.ReadAddsUp | tools/govectors/kcptrace.go:380-435 | Of a trace that is read: the bytes sent are those of Sends that returned 0, the bytes received those Recv returned, and what was handed to Send, what is in hand and what is planned is all there was to send |
| KcpReader.PlanExactly | tools/govectors/kcptrace.go:611-621 | The planned writes take all bytes, in messages, in sizes drawn up to the largest write, or in one; only the last is shorter and none is empty |
| KcpEnding.EveryTraceAddsUp | tools/govectors/kcptrace.go:380-435 | In every run an endpoint's counts are those of its lines, and what it handed to Send with what it still plans is all it has to send |
| KcpEnding.EndsExactly | tools/govectors/kcptrace.go:574-582 | The next turn ends the run if and only if a's engine is dead where that is waited for, and otherwise if and only if no crafted packet is queued, both sides have handed all their bytes to Send, each has received what the other's successful Sends carried, and nothing waits in the engines |
| KcpEnding.FinishedDelivers | tools/govectors/kcptrace.go:694-699 | A finished run in which every Send of one side returned 0 has brought the other side all its bytes |
| KcpEnding.EventComesToRest | tools/govectors/kcptrace.go:490-509 | After its delivery or its timer an endpoint has no message it may send, unless the last thing it asked was the window and that was full |
| KcpEnding.ReadLooks | tools/govectors/kcptrace.go:443-470 | A reader that is not stalled reads until it finds nothing, once; a stalled one does nothing |
| KcpEnding.DeliveryIsReadOut | tools/govectors/kcptrace.go:529-556 | Every delivery is read out so, unless the reader is stalled at the time the input is over |
| PingPong.NeverMoreThanOneAhead | tools/govectors/kcptrace.go:472-509 | With ping-pong, no extra sends, no reader ahead of its peer and no message sent in part only: b.sent <= a.sent <= b.sent + one message, after every single Send of every run; the totals need not be multiples of the message size |
| PingPong.WholeWhenSentOrSingle | tools/govectors/kcptrace.go:496-505 | No message is sent in part only when every Send so far returned 0, or when messages are not split, or fit in one piece |
| PingPongExact.StaysInStepExactly | tools/govectors/kcptrace.go:472-509 | For every message size, byte totals and splitting: all runs in which no reader gets ahead stay in step, for every engine and link, if and only if a's messages are not split, or one byte long, or a writes at most one byte more than a message, and the same of b unless a never writes a whole message |
| PingPong.SafeStaysInStep | tools/govectors/kcptrace.go:472-509 | In such a configuration b.sent <= a.sent <= b.sent + one message in every run, whatever part of a message a failing Send loses |
| PingPongExact.AGoesTooFar | tools/govectors/kcptrace.go:482-505 | In every configuration where a splits messages and writes at least two bytes more than one, a run that is in order and out of step after one turn: part of the first message goes out, the gate opens, the next one goes too far |
| PingPongExact.BGoesTooFar | tools/govectors/kcptrace.go:482-505 | Likewise for b's answers, after two turns |
| PingPong.GateGivesRoom | tools/govectors/kcptrace.go:474-487 | The gate opens only when the next message has room between the two byte counts |
| PingPong.PiecesProgress | tools/govectors/kcptrace.go:500-504 | The pieces of one message move the sender forward by no more than the message, by all of it if every Send succeeded, and never out of step |
| PingPong.PlanIsMessages | tools/govectors/kcptrace.go:611-620 | The planned writes are messages of the ping-pong size, only the last one shorter |
| DeliveryHeap.Push | tools/govectors/kcptrace.go:295-295 | container/heap Push, append and sift-up loop, against the recursive form |
| DeliveryHeap.Pop | tools/govectors/kcptrace.go:296-301 | container/heap Pop, swap, sift-down loop and cut, against the recursive form; it returns the root |
| DeliveryHeap.PushKeepsHeap | tools/govectors/kcptrace.go:287-295 | Push keeps the heap order of (at, seq) and adds exactly the one delivery |
| DeliveryHeap.PopKeepsHeap | tools/govectors/kcptrace.go:287-301 | Pop keeps the heap order, loses exactly the root, and no delivery is before the root |
| DeliveryHeap.RootComesFirst | tools/govectors/kcptrace.go:287-293 | The root is due first, and of those due with it has the smallest number |
| KcpSimulator.Endpoint.constructor | tools/govectors/kcptrace.go:599-621 | A new endpoint with its writes laid out by the loop over the bytes left |
| KcpSimulator.Simulator.constructor | tools/govectors/kcptrace.go:585-622 | A new simulation: both endpoints, an empty queue, the clock at 0 |
| KcpSimulator.Simulator.Transmit | tools/govectors/kcptrace.go:344-376 | The mutable object changes exactly as the pure model says: blackout and loss, one or two copies, the counters |
| KcpSimulator.Simulator.CallAs | tools/govectors/kcptrace.go:307-341 | Likewise for one call: the clock reads, the outputs in order, the line appended last |
| KcpSimulator.Simulator.Send | tools/govectors/kcptrace.go:380-391 | Likewise for Send; only a 0 return counts the bytes as sent |
| KcpSimulator.Simulator.Recv | tools/govectors/kcptrace.go:420-435 | Likewise for Recv; only a positive return counts bytes as received |
| KcpSimulator.Simulator.Read | tools/govectors/kcptrace.go:450-470 | Likewise for the reader, stalled or not |
| KcpSimulator.Simulator.Drain | tools/govectors/kcptrace.go:454-469 | The PeekSize and Recv loop, with the second Recv for a message larger than the buffer |
| KcpSimulator.Simulator.NothingToRead | tools/govectors/kcptrace.go:456-462 | Every eighth idle read also calls Recv |
| KcpSimulator.Simulator.CanWrite | tools/govectors/kcptrace.go:474-487 | The write gate |
| KcpSimulator.Simulator.Write | tools/govectors/kcptrace.go:490-509 | The writer loop; it ends because every turn takes a write off the plan |
| KcpSimulator.Simulator.SendPieces | tools/govectors/kcptrace.go:500-504 | The loop over pieces of at most mss bytes; it ends because mss is positive |
| KcpSimulator.Simulator.ArmTimer | tools/govectors/kcptrace.go:513-524 | Re-arming with Update and Check, or with Flush |
| KcpSimulator.Simulator.Deliver | tools/govectors/kcptrace.go:529-556 | Input, read, write, and the crafted count |
| KcpSimulator.Simulator.AdvanceClock | tools/govectors/kcptrace.go:661-674 | The next event time over timers, queue and stall ends, and the advance to it |
| KcpSimulator.Simulator.Event | tools/govectors/kcptrace.go:678-691 | The switch: deliveries, then a, then b, then ended stalls |
| KcpSimulator.Simulator.Done | tools/govectors/kcptrace.go:574-582 | The end condition |
| KcpSimulator.Simulator.Configure | tools/govectors/kcptrace.go:624-649 | The setters, extra sends and first timer of one endpoint |
| KcpSimulator.Simulator.PushGarbage | tools/govectors/kcptrace.go:650-658 | The crafted packets, whose counter advances before it is used |
| KcpSimulator.Simulator.RunTrace | tools/govectors/kcptrace.go:584-692 | The whole run of the mutable simulator is the run the theorems are about, finished, timed out or cut off after any number of turns; and so its traces are causal, read by the reader and their inputs its arrivals, its deliveries never early, with clock_step 0 punctual, none lost, everything arrived if it is done, and a safe ping-pong in step |
| ClientPool.NoSessionOrphaned | crates/client/src/main.rs:387-547 | In every interleaving: with autoexpire > 0 every dialled session is in exactly one of the accept loop's hand, the channel, the scavenger's list or sweep, or reaped and closed; without it every open one sits in a slot |
| ClientPool.NeverDeadlocks | crates/client/src/main.rs:436-441 | The channel never holds more than its 128 places, and from every reachable state the two tasks' own steps bring the accept loop back to accepting: a full channel never deadlocks them |
| ClientPool.RunKeepsInv | crates/client/src/main.rs:376-547 | Every step of every interleaving of accept loop, scavenger, session deaths and passing time keeps the invariant |
| ClientPool.StepKeepsInv | crates/client/src/main.rs:402-547 | One step keeps it |
| ClientPool.OnlyStaleSessionsClosed | crates/client/src/main.rs:513-540 | With scavengettl >= 0 a session the scavenger is about to close is refused by the pool's own test then and at every later moment, saturation included |
| ClientPool.EarlyCloseExactly | crates/client/src/main.rs:476-488 | A deadline makes the scavenger earlier than the pool at some moment exactly when the ttl is negative and can be subtracted |
| ClientPool.EveryServeAdvances | crates/client/src/main.rs:443-471 | The "unreachable" branch is unreachable, the slot served is the round-robin one, and the loads differ by at most the cycles begun, or by one when numconn divides 65536 |
| ClientPool.SweepLeavesNoOverdue | crates/client/src/main.rs:522-544 | What a sweep keeps was not overdue when it began |
| ClientPool.DeadlineNotEarlier | crates/client/src/main.rs:476-488 | go_deadline never moves a deadline back exactly for a count that is not negative or cannot be subtracted |
| ClientPool.GoDeadlineExactly | crates/client/src/main.rs:476-488 | The deadline is the given moment plus the count of seconds if the platform has that instant, and the given moment otherwise; only i64::MIN stands for the longest duration back |
| ClientPool.GoDeadline | crates/client/src/main.rs:476-488 | The result is always an instant the platform has |
| ClientPool.ConnU16 | crates/client/src/main.rs:320-328 | Refused exactly for multiples of 65536; otherwise the congruent value in range |
| ClientPool.InspectBalanced | crates/client/src/main.rs:525-542 | Inspecting one session moves it to exactly one of reaped, being closed, kept |
| ClientLoops.AcceptLoop.constructor | crates/client/src/main.rs:395-400 | Empty slots, counter 0 |
| ClientLoops.AcceptLoop.Purge | crates/client/src/main.rs:414-418 | The in-place loop over the slots empties exactly those whose session is closed |
| ClientLoops.AcceptLoop.Serve | crates/client/src/main.rs:402-472 | The loop body on its mutable fields: the connection gets its slot's own session if and only if that is open and not expired, and a newly dialled one otherwise, which goes to the scavenger exactly with expiry on; afterwards no slot holds a dead session and the others are as they were |
| ClientLoops.UninterruptedServe | crates/client/src/main.rs:402-472 | That body is the run of its interleaved steps when nothing happens in between |
| PoolService.TestExactly | crates/client/src/main.rs:421-427 | The refresh test hands out the slot's session if and only if it is open and not past its time, and dials otherwise; it changes nothing else |
| PoolService.HandedOutExactly | crates/client/src/main.rs:421-441 | From a dial to any later test of that session, whatever happens in between: it is handed out if and only if it is open and, with expiry on, no older than autoexpire seconds; where the clock cannot tell that moment it expires at once |
| PoolService.PurgeLetsGo | crates/client/src/main.rs:410-418 | Once a purge is over, and for ever after, no slot holds a session that had died when the purge began |
| PoolService.AlwaysInDialOrder | crates/client/src/main.rs:430-544 | In every reachable state the sessions with the scavenger, in the channel and in the accept loop's hand are in the order in which they were dialled |
| PoolService.SendsBelowBacklog | crates/client/src/main.rs:436-441 | A session is handed over exactly while fewer than 128 are queued, and joins at the end |
| ClientLoops.Scavenger.Receive | crates/client/src/main.rs:513-518 | A received session joins the list under its own deadline moved by the ttl |
| ClientLoops.Scavenger.Tick | crates/client/src/main.rs:522-544 | The rebuild of the list against the sweep as a function |
| ClientLoops.SweptExact | crates/client/src/main.rs:525-543 | A sweep keeps exactly the open sessions that are not overdue, closes exactly the overdue open ones, and reaps the rest |
| ClientLoops.UninterruptedSweep | crates/client/src/main.rs:522-544 | The sweep is the run of its interleaved steps when nothing happens in between |
| ClientLoops.EarlyCloseRun | crates/client/src/main.rs:513-540 | From any start: with a negative ttl that can be subtracted from the deadline, saturated or not, a run in which the scavenger closes a session the pool would still hand out |
| ClientLoops.TtlSafeExactly | crates/client/src/main.rs:513-540 | The scavenger never closes a usable session, in any run, if and only if the ttl is not negative or too large to subtract |
| RoundRobin.LoadInCycles | crates/client/src/main.rs:400-408 | The load of a slot after n connections, in closed form across the u16 wrap |
| RoundRobin.LoadsBalanced | crates/client/src/main.rs:400-471 | Two slots differ by at most ceil(n / 65536), and by at most one when the slots divide 65536 |
| RoundRobin.WithinOneExactly | crates/client/src/main.rs:400-471 | They stay within one for ever if and only if the slots divide 65536 |
| SortKiller.Replay | tools/govectors/autotune.go:263-302 | For every comparison-driven sort, sorting the returned permutation asks the same questions, gets the same answers and ends in the same places as the adaptive run |
| SortKiller.ReplayFrom | tools/govectors/autotune.go:280-295 | The same from any reachable adversary state and any data that extends it |
| SortKiller.CompareKeepsValid | tools/govectors/autotune.go:280-295 | Any comparison, of an element with itself too, keeps the state: nsolid counts the frozen, frozen values are distinct and below gas and never change, at most one more freezes |
| SortKiller.CompareExactly | tools/govectors/autotune.go:280-295 | Of two gas elements the first is frozen exactly if it is the candidate and the second otherwise, also when neither is; the new candidate is the element still gas, the first before the second, or the old one if neither is; nothing else changes |
| SortKiller.CandidateIsLastGas | tools/govectors/autotune.go:280-295 | Over a whole run the candidate is the last gas element asked about |
| SortKiller.CandidateOfRun | tools/govectors/autotune.go:263-295 | and against any sort the first element before there is one |
| SortKiller.AdaptiveRunKeepsValid | tools/govectors/autotune.go:280-295 | So does a whole sort |
| SortKiller.KilledIsPermutation | tools/govectors/autotune.go:296-301 | What is returned is a permutation of 0..n-1 |
| SortKiller.UnfrozenInPositionOrder | tools/govectors/autotune.go:296-301 | The elements the sort never froze get the largest values, in position order |
| SortKiller.FooledUnlessAllButOneFrozen | tools/govectors/autotune.go:263-302 | A sort that leaves two elements unfrozen, or asks fewer than n - 1 questions, fails on some slice |
| SortKiller.Adversary.constructor | tools/govectors/autotune.go:268-278 | All elements gas, nothing solid |
| SortKiller.Adversary.Freeze | tools/govectors/autotune.go:279-279 | The closure on its captured variables |
| SortKiller.Adversary.Less | tools/govectors/autotune.go:280-295 | The comparator: state after it and answer |
| SortKiller.SortIds | tools/govectors/autotune.go:280-295 | A sort of the id array in place, driven by the comparator, is the adaptive run |
| SortKiller.FreezeRemaining | tools/govectors/autotune.go:296-300 | The final loop in position order |
| SortKiller.Kill | tools/govectors/autotune.go:268-302 | The whole function returns the adversary's permutation |
| PeriodicSeqs.PeriodicSeqs | tools/govectors/autotune.go:73-94 | Sample i has seqid (start + i) mod paws and a data bit exactly when (start + i) mod (ds + ps) < ds, without uint32 overflow, and every ds + ps consecutive samples hold exactly ds data bits |
| PeriodicSeqs.NextSample | tools/govectors/autotune.go:88-92 | One turn of the loop, across the paws wrap |
| PeriodicSeqs.StartsAsDrawn | tools/govectors/autotune.go:78-86 | A start near zero is the draw, one anywhere is congruent to it, one near the wrap lies d + 1 below paws |
| PeriodicSeqs.NearWrapCrosses | tools/govectors/autotune.go:84-92 | A stream that starts near the wrap counts up to paws - 1 in d samples and goes on from 0 |
| PeriodicSeqs.DataBitsPerWindow | tools/govectors/autotune.go:69-72 | Any window of ds + ps samples, wherever it starts, holds ds data bits |
| FecGroups.ShardsSurvive | tools/govectors/fec.go:550-579 | dropPerGroup with n <= ps followed by any composition of reorder, moveLate and duplicate leaves at least ds of the ds + ps consecutive sequence ids of every group that has them all, and introduces nothing that is not in the stream |
| FecGroups.GroupsOf | tools/govectors/fec.go:404-422 | One list per group in order of first appearance, holding that group's positions |
| FecGroups.KeysExact | tools/govectors/fec.go:404-422 | The groups listed are exactly those with a packet, each once |
| FecGroups.MembersExact | tools/govectors/fec.go:404-422 | A group's list holds exactly its positions, each once |
| FecGroups.KeysInOrder | tools/govectors/fec.go:404-422 | Groups are listed in the order of their first packets |
| FecGroups.MembersInOrder | tools/govectors/fec.go:404-422 | and a group's positions in stream order |
| FecGroups.Shuffle | tools/govectors/fec.go:434-434 | The candidates are shuffled in place, Fisher and Yates on one draw each |
| FecGroups.ShuffledIsPermutation | tools/govectors/fec.go:434-434 | Shuffling loses and repeats nothing |
| FecGroups.EveryOrder | tools/govectors/fec.go:434-434 | and can bring the candidates into every order, so every choice of them can be the one that goes |
| FecGroups.DropPerGroup | tools/govectors/fec.go:425-446 | Exactly n packets, or all candidates of a smaller group, go from every group, nothing but candidates goes, and the rest stays in stream order |
| FecGroups.ChooseDrops | tools/govectors/fec.go:426-438 | The loop over the groups: what it marks |
| FecGroups.DropsAreCounted | tools/govectors/fec.go:425-438 | As many of a group go as may: n, or all its packets, only those with flag 0xf1 where only data may go |
| FecGroups.OnlyDataGoes | tools/govectors/fec.go:428-431 | When only data may go every packet without the data flag is kept |
| FecGroups.KeptExact | tools/govectors/fec.go:440-446 | What is kept is exactly what was neither dropped nor out of band, in stream order |
| FecGroups.ApplyAllSameTokens | tools/govectors/fec.go:457-521 | No composition of the three transformers loses a token or invents one |
| FecFeed.Reorder | tools/govectors/fec.go:459-466 | The in-place swaps on the array |
| FecFeed.OneSwap | tools/govectors/fec.go:460-464 | One step exchanges the position its first draw says with one up to `window` later, as its second says, and leaves the rest |
| FecFeed.ReorderedIsSteps | tools/govectors/fec.go:459-466 | and that many steps are done one after the other, on two draws each |
| FecFeed.ReorderedIsPermutation | tools/govectors/fec.go:459-466 | They permute the feed |
| FecFeed.MoveLate | tools/govectors/fec.go:470-482 | The delete and insert loop |
| FecFeed.MoveStepIsLate | tools/govectors/fec.go:474-479 | One move takes a packet at least `by` positions later and keeps the order of the others |
| FecFeed.OneMove | tools/govectors/fec.go:470-482 | One move takes the packet its first draw says as much later as its second says, and not beyond the end |
| FecFeed.MovedIsSteps | tools/govectors/fec.go:470-482 | and that many moves are done one after the other, none on a feed that is too short |
| FecFeed.MovedIsPermutation | tools/govectors/fec.go:470-482 | All moves permute the feed |
| FecFeed.Duplicate | tools/govectors/fec.go:486-521 | The loop with its delay queue, against the emission as a function of the decisions, which are those the draws make |
| FecFeed.DecidedByDraws | tools/govectors/fec.go:502-508 | A position is copied exactly if its first draw, reduced to den, is 0; its delay is the second, from 0 to 5, unless the third, reduced to 4, is 0, and then lies in far..2 far - 1 as the fourth says; it uses 1, 3 or 4 draws |
| FecFeed.CopiedAsDrawn | tools/govectors/fec.go:486-521 | So every packet is put out once, its copy exactly if its first draw is 0 and then once, after as many further packets as its other draws say, or all there are |
| FecFeed.CopyIsLate | tools/govectors/fec.go:494-521 | A copy delayed by d comes out when d more packets have followed its original, or all there are |
| FecFeed.DuplicateStep | tools/govectors/fec.go:492-515 | One iteration: the packet, the copies due, and its own copy at once or queued |
| FecFeed.EmitDue | tools/govectors/fec.go:494-501 | The inner scan emits what is due and keeps the rest in order |
| FecFeed.EmissionConserves | tools/govectors/fec.go:486-521 | Every position is emitted once, and its copy once if one was decided: nothing is lost or repeated |
| FecFeed.EmissionKeepsOrder | tools/govectors/fec.go:486-521 | The originals come out in their order |
| FecFeed.EmissionFollows | tools/govectors/fec.go:486-521 | No copy comes before its original |
| FecFeed.DueExactly | tools/govectors/fec.go:494-515 | A copy delayed by d is emitted in iteration i + d exactly, and is still waiting until then |
| LeastSquares.SlopeNoneExactly | tools/lab/lab.py:1836-1852 | None exactly for fewer than two points or when all x are equal |
| LeastSquares.SlopeIsLeastSquares | tools/lab/lab.py:1836-1852 | Otherwise the line with intercept mean_y - slope * mean_x has the least sum of squared residuals of all lines, and is the only one that has |
| LeastSquares.ResidualsDecompose | tools/lab/lab.py:1846-1852 | Any line leaves what that line leaves plus two squares |
| LeastSquares.SlopeOfALine | tools/lab/lab.py:1836-1852 | Points on a line have its gradient |
| ShellQuote.CommandRoundTrip | tools/lab/lab.py:378-383 | A POSIX shell splits the command line of Runner.lab into the helper's path and exactly the original arguments with $HOME expanded |
| ShellQuote.ArgIsOneWord | tools/lab/lab.py:293-311 | Every good argument is one word with its meant value, whatever follows it |
| ShellQuote.JoinedWords | tools/lab/lab.py:381-381 | So are any number of them joined by spaces |
| ShellQuote.ArrivesExactlyWhenGood | tools/lab/lab.py:293-311 | Every argument: it arrives for every home directory if and only if its label has no newline and its $HOME/ tail no dollar, no backquote and no backslash at the end or before a dollar, backquote, double quote, backslash or newline |
| ShellQuote.MeansHome | tools/lab/lab.py:306-307 | What is meant by an argument that starts with $HOME/: the path below the home directory |
| ShellQuote.MeansLabelledHome | tools/lab/lab.py:308-310 | by one with a name, an equals sign and $HOME/: that, behind the name and the equals sign |
| ShellQuote.MeansItself | tools/lab/lab.py:311-311 | and by any other: itself |
| ShellQuote.NameMatches | tools/lab/lab.py:92-92 | A name is one or more of the letters, digits, underscore, dot and hyphen, and perhaps a newline at its end |
| ShellQuote.BadArgIsLost | tools/lab/lab.py:307-311 | Any other argument does not arrive under an empty home directory, nor, without a dollar in its tail, under any, whatever quotes its tail holds |
| ShellQuote.EscapedQuoteIsLost | tools/lab/lab.py:307-307 | So no path with a backslash before a double quote arrives: the program's escape closes the string |
| Provenance.CacheNeverShows | tools/lab/lab.py:1373-1417 | On an unchanged host, while all lookups are dry or all are real, every call in every order gets what an uncached read gives |
| Provenance.FreshExactly | tools/lab/lab.py:1389-1417 | In any session that mixes them: an answer is the uncached one if and only if the first successful lookup of its artefact up to then was of its own kind, dry or real |
| Provenance.LookupIsFresh | tools/lab/lab.py:1389-1417 | One cached lookup equals the uncached read and keeps the cache so |
| Provenance.NeverReadAgain | tools/lab/lab.py:1389-1417 | What was looked up successfully is never read again, whatever the host says by then |
| Provenance.FileIsReadOnce | tools/lab/lab.py:1381-1410 | Nor is a stamp file read twice for two binaries of one family; nothing remembered is forgotten |
| Provenance.DryRunsShow | tools/lab/lab.py:1399-1404 | So a successful lookup of the other kind, dry or real, spoils the next one of that artefact |
| Provenance.GoodStampExactly | tools/lab/lab.py:1281-1370 | A real stamp can be read if and only if the host answers, and has no problem if and only if its file is there with every required field, the right kind, a commit of 7 to 40 hex digits and a summary, and records the digest of the very file that runs |
| Provenance.StampProblemExactly | tools/lab/lab.py:1281-1297 | The stamp file has no problem if and only if it tells all it must |
| Provenance.ProblemIsTrue | tools/lab/lab.py:1281-1370 | What a stamp says is wrong is wrong with what lies on the host: the missing fields, the kind, the commit, the digests |
| Provenance.StampTells | tools/lab/lab.py:1389-1417 | A stamp names the artefact and host asked for and holds what the host's file says |
| Provenance.ArtefactNamed | tools/lab/lab.py:1346-1349 | The digest that counts is the one recorded for the last part of the path |
| Provenance.EndNamed | tools/lab/lab.py:797-801 | The ends of both families are kg- and kr- files |
| Provenance.ToolsNamed | tools/lab/lab.py:1300-1308 | The two instruments are two files, described by one stamp |
| Provenance.DryStampIsGood | tools/lab/lab.py:1399-1404 | A dry run finds nothing wrong |
| Provenance.BuildProvenance.constructor | tools/lab/lab.py:1380-1387 | An empty cache is sound |
| Provenance.BuildProvenance.Stamp | tools/lab/lab.py:1389-1417 | The method on its mutable caches is the lookup |
| Provenance.BuildProvenance.Require | tools/lab/lab.py:1419-1443 | Without the override exactly the stamps with a problem are refused; with it they pass and are warned about once |
| Provenance.StartRun | tools/lab/lab.py:1511-1638 | The run starts if and only if every required artefact can be read and, without the override, is vouched for by its host; otherwise no process at all is started; without the override every process that executes an artefact of ours executes one its host vouches for; what is recorded is every stamp under its own key |
| Provenance.GateExactly | tools/lab/lab.py:1419-1551 | The demands one by one pass if and only if the run may go ahead with each artefact, told from the hosts alone |
| Provenance.EveryProcessIsDemanded | tools/lab/lab.py:1526-1589 | For every process of ours that a run starts its artefact was demanded on the host it is started on, and is recorded under the name of its part |
| Provenance.StartProcesses | tools/lab/lab.py:1566-1589 | Every wanted process is started once, on its own host, in start order |
| Provenance.ProcessesInOrder | tools/lab/lab.py:1566-1589 | That order, and the only one: the target and the server before the client, the samplers after them and before every workload, each on its host, the second sampler only on a WAN run |
| Provenance.DemandAll | tools/lab/lab.py:1529-1551 | The demands one by one are the gate over all of them |
| Provenance.AllPassIsEvery | tools/lab/lab.py:1529-1551 | Passing the demands one by one is passing every member of the list of needs |
| Provenance.AllRecorded | tools/lab/lab.py:1610-1619 | What those demands write beside the numbers is every need under its own key and nothing else |
| Provenance.UnprovenancedNotes | tools/lab/lab.py:1446-1465 | The loop yields notes exactly when some run is suspect |
| Provenance.RunNotesExact | tools/lab/lab.py:1449-1464 | One run yields notes exactly when it recorded nothing or some artefact with a problem |
| Provenance.BannerExactly | tools/lab/lab.py:1468-1483 | A report leads with the warning exactly when one of its runs is suspect |
| Provenance.FailureReachesTheReport | tools/lab/lab.py:1446-1638 | A started run is reported with the warning if and only if some artefact it needed is not vouched for: no failure is lost on the way |
| Provenance.NotesExactly | tools/lab/lab.py:1446-1465 | The notes are exactly those that say something true of one of the runs: that it recorded nothing, or one of its artefacts, its host and what is wrong with it |
| Provenance.EachFailureIsNamed | tools/lab/lab.py:1446-1638 | So every needed artefact that is not vouched for is named, with its host |
| CliDiff.CheckOneExtraLine | crates/interop-tests/src/clidiff.rs:987-1016 | Nothing is reported if and only if our lines are Go's with the extra line inserted at some position, although only the first mismatch is tried; otherwise the report names the wrong count, or the line at the first mismatch and what differs without it |
| CliDiff.FirstMismatchIsEnough | crates/interop-tests/src/clidiff.rs:998-1004 | Removing at the first mismatch decides the existential statement over all positions |
| CliDiff.RunOfEqualLines | crates/interop-tests/src/clidiff.rs:998-1004 | Between the true position and the first mismatch every line is the extra one |
| CliDiff.DiffLines | crates/interop-tests/src/clidiff.rs:1122-1148 | At most five differences and then one last entry; nothing is pushed exactly for equal streams |
| CliDiff.DifferencesExact | crates/interop-tests/src/clidiff.rs:1127-1138 | A position is reported exactly when the streams differ there |
| CliDiff.ReportIsFirstFive | crates/interop-tests/src/clidiff.rs:1122-1148 | What is reported: the first five positions at which the streams differ, or all, in order, each with its line number, Go's line there and ours, and after a fifth one more entry with both lengths |
| CliDiff.ReportEmpty | crates/interop-tests/src/clidiff.rs:1123-1125 | The report is empty exactly for equal streams |
| LogHeader.StripUndoesFormat | crates/interop-tests/src/clidiff.rs:686-694 | Stripping undoes formatting if and only if the given position is a source position, or, without one, the text does not begin with one |
| LogHeader.PositionInTextIsTaken | crates/interop-tests/src/clidiff.rs:690-693 | A text that begins with a position is formatted like a located line, so its beginning is taken for one |
| LogHeader.PositionExample | crates/interop-tests/src/clidiff.rs:716-724 | Such a text exists |
| LogHeader.OnlyAHeaderIsRemoved | crates/interop-tests/src/clidiff.rs:686-713 | A line is left as it is, or loses exactly a well-formed header |
| LogHeader.StripTimestamp | crates/interop-tests/src/clidiff.rs:697-713 | The character loop against the shape |
| LogHeader.TimestampExactly | crates/interop-tests/src/clidiff.rs:697-713 | The shape: digits with two slashes, a space, two colons and a space in their places |
| LogHeader.FileLineExactly | crates/interop-tests/src/clidiff.rs:716-724 | A token is a source position if and only if it can be read as a .go or .rs file name without a space, a colon and digits |
| LogHeader.Normalise | crates/interop-tests/src/clidiff.rs:658-681 | The loop over the lines: cleaned bodies and positions, in order |
| LogHeader.PositionsRecovered | crates/interop-tests/src/clidiff.rs:668-672 | From a formatted log exactly its source positions come back, in order |
| LogHeader.HeadersNeverShow | crates/interop-tests/src/clidiff.rs:658-681 | Two logs with the same texts normalise to the same lines, whatever their stamps and positions |
| LogHeader.RunsNormaliseAlike | crates/interop-tests/src/clidiff.rs:658-681 | Two runs that log the same texts normalise to the same lines whatever their directories, program names, ports, moments and positions, as long as a directory shows up only where it is meant |
| LogHeader.CleanedIsMarked | crates/interop-tests/src/clidiff.rs:673-677 | A text is cleaned to itself with marks in the places of directory, program name and port |
| LogHeader.DirIsHidden | crates/interop-tests/src/clidiff.rs:673-673 | The directory is replaced wherever it was put in |
| LogHeader.NotAUsageLine | crates/interop-tests/src/clidiff.rs:729-737 | A line that goes on after the program name with anything but a space is left alone |
| LogHeader.PinnedPortIsKept | crates/interop-tests/src/clidiff.rs:675-677 | and so is a port the run was told to use |
| SnappyVarint.PadVarint | tools/govectors/snappy.go:218-230 | Refuses exactly bad input; otherwise an n-byte varint of the same value, then the rest of the block unchanged |
| SnappyVarint.WritePadded | tools/govectors/snappy.go:224-228 | The shifting loop writes the n bytes of the value |
| SnappyVarint.PaddedReads | tools/govectors/snappy.go:213-217 | Those bytes read back as the value, whatever follows, for every length up to ten |
| SnappyVarint.PaddedIsUnique | tools/govectors/snappy.go:213-217 | They are the only bytes of that length that do |
| SnappyVarint.ValueFits | tools/govectors/snappy.go:219-222 | A varint read from u bytes has no more than 7 u bits, nor more than 64 |
| SnappyVarint.PadTwice | tools/govectors/snappy.go:218-230 | Padding twice is padding once to the last length |

## Left out

- KCP, FEC, Reed-Solomon, smux, snappy, QPP and the ciphers: the engines are not modelled; the simulator takes any engine, and `ShardsSurvive` counts the shards a decoder is left with.
- The contents of application bytes in the simulator: only their numbers are kept, so the final comparison of sent and received bytes (kcptrace.go:694-699) is there for their numbers only; the SNMP counters and gauges of a trace line are not part of this model, and its state digest is there as the state words the simulator looks at.
- KcpSimulator.Simulator.RunTrace: does not show that a run ends, because an engine that asks for an immediate flush every time keeps the clock where it is; the run is taken for any number of turns.
- KcpSimulator.Simulator.AdvanceClock: the virtual clock does not overflow 64 bits, and stall bounds are not negative.
- KcpSimulator.Endpoint.constructor: the mss before the first setter is 1 here and 0 in the program; nothing is written before it is set.
- DeliveryHeap.Push: the backing array of the slice, its capacity and aliasing are not modelled; the queue is a sequence that the methods reassign.
- PingPong.NeverMoreThanOneAhead: assumes byte counts in order rather than contents, which is the weaker assumption; PingPongExact.StaysInStepExactly ranges over engines of every mss, so it does not say what a fixed mss would make safe, which WholeWhenSentOrSingle does.
- ClientPool.StepKeepsInv: the listener, the dialler and its retries, the tasks that serve clients, logging, and the closing of the channel when the accept loop ends are not modelled; dialling takes no time of its own beyond the steps around it.
- ClientLoops.AcceptLoop.Serve: is the loop body with nothing in between; interleavings are the business of ClientPool.
- SortKiller.SortIds: the sort is a given decision tree; that Go's sort.Slice is one is not shown.
- PeriodicSeqs.PeriodicSeqs: the draws that choose ds, ps and the start are parameters in their ranges.
- FecFeed.Duplicate: a draw is any value in its range; the generator behind it is not modelled, and `den` and `far` are positive, since the program panics on an empty range.
- FecFeed.MoveLate: models the feed as a sequence, so the in-place deletion and insertion in the slice's backing array is not captured.
- FecGroups.ShardsSurvive: that any ds shards of a group suffice is not part of this model.
- LeastSquares.SlopeIsLeastSquares: real arithmetic; floating-point rounding is not modelled.
- ShellQuote.CommandRoundTrip: the lexer knows words, quotes, backslashes and $HOME; a line that uses anything else of the shell has no meaning here.
- Provenance.StartRun: stamp files arrive parsed; the parser, ssh, the remedy texts, socket limits, uptimes and waiting are not modelled, and neither are failures of the processes themselves.
- Provenance.StartProcesses: the documentation of RunPlan.names (lab.py:815-823) calls its list the start order, but it names the server's sampler before the client's, and start_run starts them the other way round (lab.py:1574-1575); the model follows start_run.
- CliDiff.DiffLines: the last entry says that further differences are not shown even when exactly five lines differ; the model follows the code.
- LogHeader.Normalise: takes the text already split into lines, and compares the listening port prefix as it stands.
- LogHeader.RunsNormaliseAlike: says nothing of a text in which a directory shows up by chance, or that runs together with the text around it.
- SnappyVarint.PadVarint: bit operations are written as arithmetic on numbers.
- Tables of test inputs, reports, argument parsers and the other deviation checks of the comparator are not modelled: they would only add easy members.
