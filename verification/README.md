# A verified model of the skynet core

The runtime is a set of actors that exchange messages inside one process, over TCP
sockets, and between processes ("harbors"). This project models the seven parts of it whose
correctness depends on whole runs rather than on single calls, and proves what they promise.

* **Socket server** (`SocketSlot`, `SocketServer`, `SocketInvariants`, `SocketSteps`,
  `SocketOrder`, `SocketTheorems`, `SocketClose`, `SocketTidy`, `SocketSenders`, `SocketCallers`,
  `SocketStates`, `SocketReports`, `SocketContents`, `SocketProgress`, `SocketRaces`, `WriteBuffers`,
  `SocketObject`). Any number of worker threads and one socket
  thread share a TCP slot through a control pipe, a try-lock and the counter `sending`.
  `SocketServer.Next` is one atomic step of one thread; the kernel may take any prefix of a write,
  block or fail. A worker tests `sending` without the lock and reads lists and `sending` again under
  it; a close decides and frees its lists before it waits for the lock. `SocketSenders` adds who
  the callers are, each in one call at a time, and `SocketCallers` shows that this leaves out no
  run. `SocketStates`, `SocketReports`, `SocketContents` and `SocketProgress` tell by the actions of a
  run alone which state a slot is in, what services hear, which packages the wire carries, and what
  can go on. `WriteBuffers` and `SocketObject` hold the linked write buffer lists and the loops that
  write and relink them.
* **Timing wheel** (`TimerWheel` in `Timer.dfy`, `TimerRuns`). The wheel refines a list of timers
  from which every tick removes those that are due, for every start time of the wrapping 32-bit
  counter and every positive `int` delay; whom a run wakes and when is told by its calls alone.
* **Harbor link** (`HarborWire`, `HarborLink`, `HarborQueue`, `HarborSlave`). Codec, receiver
  for arbitrary chunks, doubling ring buffer, routing through wait, handshake and connected
  phases, joined end to end, and the slave as one object that does all of it to its fields.
* **Gate** (`GateFraming`, `DataBuffer`, `Gate`, `PoolShares`, `PoolRuns`). Pooled linked chunks,
  the framing state machine, the dispatch loop, and the share-out of the pool over runs of real
  buffers.
* **Scheduler** (`Scheduler`, `SchedulerInvariant`, `SchedulerTheorems`, `SchedulerTurns`,
  `SchedulerLives`, `SchedulerObjects`, `SchedulerRuns`).
  Per-service queues, the intrusive global list, contexts with reference counts, and any
  number of threads that send, retire and dispatch.
* **Handles** (`HandleTable`, `NameIndex`, `HandleStorage`, `HandleHistory`). The hash-slot
  table and the sorted name index refine a pair of maps over every sequence of calls.
* **Reader/writer lock** (`RwLock`). Every atomic load, store, add and exchange is a step.

`Basics`, `Seqs` and `Counting` hold shared types and lemmas about sequences and counts.

## How the parts are stated

Code that updates an object is a class whose methods are proved against a function or a
ghost view of the old state: `Timer`, `BufferList`, `SocketFields`, `Slave`, `Queue`,
`MessagePool`, `Buffer`, `MessageQueue`, `GlobalQueue`, `Storage`. Code that several threads
run is a machine over atomic steps with an invariant that every step keeps. What callers rely
on is then proved of these functions and machines for every run, in terms of the calls, actions or
events of the run.

## Where the code departs from what it is for

The model follows the evident intent; each departure that changes behaviour has a lemma that
says exactly when the code as written meets the property.

* `AddNode` takes the lock that `Update` holds while it cascades: a timer escapes the hang if
  and only if it is set and due within one block of 256 ticks
  (`TimerWheel.TimerHangsIffItLeavesItsBlock`).
* Harbor buffers pass through strings that end at the first NUL byte: a buffer survives if and
  only if it has no zero byte, and every acceptable frame starts with one
  (`HarborWire.CStringKeepsAllIff`, `HarborWire.FramesAreSentEmptyAsWritten`). The exact copy
  that stands commented out at service-src/service_harbor.cpp:478 is modelled.
* A harbor length that is too long closes the link and leaves what was read of it before the last
  chunk. The next connection of that harbor reads every message if and only if nothing was left
  (`HarborWire.ReconnectionReadsIff`). A length that came in pieces reaches such a slave
  (`HarborSlave.StaleIsReachable`), and every later connection is then closed and delivers nothing
  (`HarborSlave.ConnectAll`).
* The message queue's `Pop` returns the front without removing it, and the dispatch loop reads
  a message as "empty": a turn loses its queue if and only if the queue has a message
  (`SchedulerTheorems.PopAsWrittenLosesIff`), and a reachable turn does
  (`SchedulerTheorems.LossIsReachable`). In no run of the code as written is such a queue listed
  again (`SchedulerTheorems.LostForGood`) or any message delivered
  (`SchedulerTheorems.NothingIsDeliveredAsWritten`).
* The handle table re-slots with the old size and asserts that the old slot is empty: growth
  aborts exactly when anything is registered, and without assertions it loses exactly the
  handles that belong in the upper half (`HandleTable.GrowthAsWrittenAborts`,
  `HandleTable.UncheckedGrowthLosesHandles`).
* Naming returns with the write lock held if and only if the name is taken
  (`HandleStorage.Storage.NameHandle`). No new reader then gets in until some thread unlocks, and
  that unlock ends it (`RwLock.LeftFlagBlocksUntilUnlock`). In the lock as meant no other thread
  can ever be that one (`RwLock.StuckWriterBlocksAll`); as written the next writer is, because its
  second try succeeds (`RwLock.LeftFlagEndsAsWritten`).
* A failed exchange in `rwlock_wlock` stores the value it found: entering while the flag is up
  admits a second writer, and is safe if and only if the flag is down
  (`RwLock.TwoTriesAreSafeIffFree`); any two threads can come to write at once
  (`RwLock.TwoWritersAreReachable`).
* A send for an id that is only reserved is not counted, and the assertion in `DecSendingRef`
  fails once the socket opens (`SocketRaces.SendWhileReservedAborts`); it fails exactly when
  every send in flight was uncounted (`SocketTheorems.AbortsExactlyWhenAllUncounted`), and never
  in a run without such sends (`SocketTheorems.NoAbortWithoutEarlySends`).
* A close tests for unsent data before it has the direct-write lock. One that goes through
  because nothing was left loses nothing if and only if no worker holds the lock with bytes left
  over from the test on (`SocketClose.CloseLosesNothingIff`); two plain closes and two sends reach
  a state that loses a package (`SocketRaces.LossIsReachable`).
* `ForceClose` empties the lists before it takes the lock: the wire is torn if and only if the
  head of the high list was partly written and a worker then writes directly
  (`SocketTheorems.CloseTearsIff`, `SocketRaces.TornIsReachable`).
* `CanDirectWrite` reads the lists before `sending`: passing it keeps the order of all senders'
  packages if and only if no high-priority package was queued in between
  (`SocketOrder.PassKeepsOrderIff`), and one can be overtaken (`SocketRaces.OvertakenIsReachable`,
  `SocketRaces.OvertakenByAnotherSender`). One sender's packages are never overtaken by its own
  (`SocketSenders.SenderKeepsOrder`).
* A graceful close is woken neither by the sends in flight, which it refuses, nor by anything of
  its own: it is stranded if and only if it found no data, the write event off and no request on
  the way, and no worker leaves bytes over (`SocketClose.GracefulCloseIsStrandedIff`). Such a state
  is reachable (`SocketRaces.StrandedCloseIsReachable`), and only a write event, a hang-up, an end
  of file or another close request ends the wait (`SocketClose.WaitEndsOnlyBy`,
  `SocketClose.StrandedUntilTheWaitEnds`).
* A four-byte gate length of 2^31 or more is negative and stalls the connection
  (`GateFraming.NegativeLengthsStall`); a packet with nobody to go to is read again as a header
  (`GateFraming.UnconsumedPacketsAreReframed`).
* The node of a write buffer is never allocated (skynet-src/socket_server.cpp:603) and a timer
  node lives on the stack (skynet-src/timer.cpp:138-142); both are modelled as values that
  outlive the call.

## Model

| member | source | states |
|---|---|---|
| SocketTheorems.WireIsWholePackages | skynet-src/socket_server.cpp:371-599 | in every interleaving the bytes on the fd are whole packages in sequence plus at most one in part, exactly while the wire is not torn, which it can be only inside a close or after it; the part is the lock holder's, the direct-write buffer or the head of the high list |
| SocketTheorems.CloseTearsIff | skynet-src/socket_server.cpp:162-193 | between the decision of a close and its lock the wire is torn iff the head of the high list was partly written and a worker writes bytes |
| SocketTheorems.WireKeepsAcceptanceOrder | skynet-src/socket_server.cpp:1575-1664 | over all senders together: if every send was counted and no direct write overtook a queued package, completed packages of one priority carry increasing acceptance stamps |
| SocketTheorems.OrderWithoutRaces | skynet-src/socket_server.cpp:1334-1337 | so they do in every run without sends on ids that are not open in which no worker finds a high-priority package queued between its two reads under the lock; one sender's own order holds without the second condition |
| SocketSenders.SenderKeepsOrder | skynet-src/socket_server.cpp:1586-1588 | in every run without sends on ids that are not open, the high-priority packages of one thread reach the wire in the order it sent them, whatever other threads do and whatever is overtaken |
| SocketSenders.CrowdStep | skynet-src/socket_server.cpp:1575-1664 | every step of every caller keeps: a thread past its first test has nothing posted, one that holds the lock has nothing queued, and each sender's packages are in order |
| SocketCallers.RunIsCrowdRun | skynet-src/socket_server.cpp:1575-1664 | every run of the machine is one of callers that each make one call after another |
| SocketTidy.TidyStep | skynet-src/socket_server.cpp:371-728 | any choice of packages of one priority stays in order over every step, if a direct write goes ahead of none of them |
| SocketTidy.LowKeepsOrder | skynet-src/socket_server.cpp:1647-1664 | in every run low-priority packages reach the wire in the order of acceptance, whatever is uncounted or overtaken |
| SocketTheorems.NothingIsLost | skynet-src/socket_server.cpp:659-728 | on a live socket with no close decided every accepted package is written, queued, posted or was refused |
| SocketContents.WrittenWasSent | skynet-src/socket_server.cpp:1575-1664 | in every run each package written was handed over for this id by a send request or a direct write, with these bytes and this priority, and is written once and was not turned away |
| SocketContents.SentIsKeptUnlessTurnedAway | skynet-src/socket_server.cpp:659-728 | on a live socket with no close decided everything handed over is in the stream exactly as handed over, except exactly what was handled when the socket was invalid, closing, half closed for writing or not open for data |
| SocketProgress.EveryThreadGoesOn | skynet-src/socket_server.cpp:1445-1559 | in every reachable state the socket thread can take the next request that does not abort, any event of a socket that has one, or finish a decided close once the lock is free, and a lock holder can go on |
| SocketProgress.EveryCallerGoesOn | skynet-src/socket_server.cpp:1566-1716 | an id that was returned can be closed, resumed, tested and sent to while its counter is not full, what was begun can be posted, and a tested worker gets a free lock when nothing is queued |
| SocketProgress.WriteEventSendsEverything | skynet-src/socket_server.cpp:512-599 | in every run a write event to a kernel that takes everything writes all the slot holds, whole and in order, then closes a closing socket and turns the write event off on another |
| SocketProgress.SentThroughThePipeArrives | skynet-src/socket_server.cpp:659-728 | for any bytes there is a run that sends them through the pipe and has them on the wire |
| SocketProgress.WrittenDirectlyArrives | skynet-src/socket_server.cpp:1575-1644 | for any bytes there is a run in which a worker writes them itself |
| SocketTheorems.NothingIsStranded | skynet-src/socket_server.cpp:525-567 | a live socket with queued data and a working write side has its write event on or a 'W' request on its way |
| SocketTheorems.SizeIsUnsentBytes | skynet-src/socket_server.cpp:545 | wb_size is the unsent bytes of both lists, so the drain assertion holds |
| SocketTheorems.AbortsExactlyWhenAllUncounted | skynet-src/socket_server.cpp:971-997 | the tag is the current id, the low part counts the counted sends in flight, and the assertion fails exactly when all in flight were uncounted |
| SocketTheorems.UncountedOnlyBeforeTheSocketOpens | skynet-src/socket_server.cpp:971-988 | a send goes uncounted only while the id is reserved or its opening was refused |
| SocketTheorems.NoAbortWithoutEarlySends | skynet-src/socket_server.cpp:971-997 | a run without such sends never fails the assertion |
| SocketClose.CloseIsReportedOnce | skynet-src/socket_server.cpp:790-822 | kSocketClose is raised at most once for an id and no data for it after |
| SocketReports.EventsAreWhatWasTold | skynet-src/socket_server.cpp:1060-1120 | in every run the data, openings and closes that services hear are, in order, what the actions tell: bytes on a live socket whose read side is open are data and nothing else is; a socket opens when its request leaves it anything but connecting, when its connection is made and when it is resumed; it closes at an end of file or a graceful close with the read side open, and at the end of a decided close that owes the report |
| SocketReports.DecidedCloseIsReported | skynet-src/socket_server.cpp:795-822 | a decided close is reported when it has the lock iff the read side was open at the decision; a connection that could not be made reports an error instead |
| SocketReports.EveryEndIsReported | skynet-src/socket_server.cpp:1504-1557 | in every run a socket that was reported open and is gone was reported closed, and any other that is gone was reported closed or failed |
| SocketReports.ErrorsAreReported | skynet-src/socket_server.cpp:340-369 | in every run an error is reported exactly when an opening or resumption fails, a read breaks, an error event comes, a write error closes the write side, epoll refuses, or a failed connection has ended |
| SocketStates.StatesFollow | skynet-src/socket_server.cpp:1000-1058 | in every run the slot's type is what the action and the type before lead to: only a write error closes the write side, and a flush ends only a closing or read-closed socket |
| SocketStates.CloseIsDecidedIff | skynet-src/socket_server.cpp:795-822 | a close is decided exactly by a shutdown, a close with nothing left to send or the write side gone, an end of file with the write side gone or on an emptied closing socket, a hang-up and a failed connection, and ends exactly with the lock |
| SocketStates.WriteEventFollows | skynet-src/socket_server.cpp:200-206 | in every run the write event is turned on exactly for a connection under way, the first queued package and a 'W' request, and off exactly when a flush leaves nothing or closes the write side or a connection is made with nothing to send |
| SocketClose.HalfCloseReadEndsInvalid | skynet-src/socket_server.cpp:775-822 | HalfCloseRead is left only to Invalid, and a live closing socket is in it |
| SocketClose.SendBufferFinishes | skynet-src/socket_server.cpp:512-599 | a flush without a write error that ends in Invalid has written everything held, in order |
| SocketClose.CloseLosesNothingIff | skynet-src/socket_server.cpp:770-810 | a close that goes through because nothing is left to send loses nothing iff no worker holds the lock with bytes left over between its test and its lock |
| SocketClose.NobodyLooksWhileClosing | skynet-src/socket_server.cpp:1334-1337 | while a closing socket is being closed no worker takes the lock anew |
| SocketClose.ClosingLosesByTheLockHolder | skynet-src/socket_server.cpp:1076-1081 | a closing socket loses nothing if the lock was free at the test, and loses a package if a worker held it with bytes left over |
| SocketClose.GracefulCloseWritesEverything | skynet-src/socket_server.cpp:547-551 | a closing socket turns invalid only with everything written, on a write error, or by a decided close that is a shutdown, a hang-up or finds bytes a worker stored behind its test |
| SocketClose.ReasonsToClose | skynet-src/socket_server.cpp:790-822 | a closing socket is closed by a shutdown, a hang-up, an end of file or another close request, each for its own reason |
| SocketClose.GracefulCloseIsStrandedIff | skynet-src/socket_server.cpp:795-822 | at any time of its wait, write events included, a graceful close is stranded iff it found no data, the write event off and no 'W' request coming, and no worker left bytes over |
| SocketClose.WaitEndsOnlyBy | skynet-src/socket_server.cpp:1504-1557 | a graceful wait ends only by a write event, a hang-up, an end of file or another close request |
| SocketClose.StrandedUntilTheWaitEnds | skynet-src/socket_server.cpp:1504-1557 | a stranded close stays stranded over any steps but those |
| SocketRaces.SendWhileReservedAborts | skynet-src/socket_server.cpp:990-997 | a concrete reachable state in which the assertion fails |
| SocketRaces.TornIsReachable | skynet-src/socket_server.cpp:173-176 | a reachable state whose wire is torn |
| SocketRaces.OvertakenIsReachable | skynet-src/socket_server.cpp:1334-1337 | a reachable state in which every send was counted and the order is broken |
| SocketRaces.OvertakenByAnotherSender | skynet-src/socket_server.cpp:1334-1337 | the same in a run of callers that each make one call at a time, so the overtaken package is another sender's |
| SocketRaces.StrandedCloseIsReachable | skynet-src/socket_server.cpp:814-821 | a reachable stranded close |
| SocketRaces.LossIsReachable | skynet-src/socket_server.cpp:807-810 | a reachable closing socket whose second plain close drops the rest of a package a worker was writing |
| SocketSteps.EveryStateOfARun | skynet-src/socket_server.cpp:1445-1559 | the invariant holds in every state of every run |
| SocketSteps.RequestsFindTheirSlotOpen | skynet-src/socket_server.cpp:1566-1572 | no request other than the opening one meets a reserved slot of its id |
| SocketSteps.SlotStep | skynet-src/socket_server.cpp:371-728 | every step keeps the wire as claimed, the partial package in hand and wb_size exact |
| SocketSteps.AwakeStep | skynet-src/socket_server.cpp:641-704 | every step keeps queued data with the write event on or a 'W' request to come |
| SocketSteps.StepKeepsInv | skynet-src/socket_server.cpp:1445-1559 | every step of every thread keeps the whole invariant |
| SocketSteps.SendSocketKeeps | skynet-src/socket_server.cpp:659-728 | a send request keeps the partial package in hand, wb_size exact and the lists flushable, whether refused or queued |
| SocketOrder.EveryStreamOfARun | skynet-src/socket_server.cpp:1575-1644 | in every state the stream from wire to pipe is in acceptance order per priority, unless a race broke it, and complete on a live socket |
| SocketOrder.PassKeepsOrderIff | skynet-src/socket_server.cpp:1334-1337 | passing the check with every send counted keeps the order iff no high-priority package was queued since the lists were read |
| SocketInvariants.SendBufferKeeps | skynet-src/socket_server.cpp:572-599 | flushing keeps the slot invariant and leaves data with the write event as it was |
| SocketSlot.FlushKeepsPackagesWhole | skynet-src/socket_server.cpp:371-400 | whatever the kernel answers, a flush leaves the wire whole and any partial package at the head |
| SocketSlot.FlushKeepsOrder | skynet-src/socket_server.cpp:371-400 | a flush loses, duplicates and reorders nothing |
| SocketSlot.FlushCountsBytes | skynet-src/socket_server.cpp:387 | the bytes it reports are exactly those no longer unsent |
| WriteBuffers.BufferList.LinkLast | skynet-src/socket_server.cpp:601-620 | the node hangs behind the tail and the list reads as before with its buffer last |
| WriteBuffers.BufferList.LinkFirst | skynet-src/socket_server.cpp:577-590 | the node hangs before the head, in an empty list too |
| WriteBuffers.BufferList.UnlinkFirst | skynet-src/socket_server.cpp:391-398 | the head is unlinked, with a null link, and the rest is in place |
| WriteBuffers.BufferList.Free | skynet-src/socket_server.cpp:119-127 | the walk ends, and the list is empty |
| SocketObject.SocketFields.SendHead | skynet-src/socket_server.cpp:371-400 | one turn over the linked head is one turn of the recursive flush; the other list is untouched |
| SocketObject.SocketFields.SendListTCP | skynet-src/socket_server.cpp:371-400 | the loop computes the recursive flush: list, wire, byte count, failure and unused kernel results, and keeps the nodes that are left |
| SocketObject.SocketFields.RaiseUncomplete | skynet-src/socket_server.cpp:483-497 | the very node at the head of the low list becomes the high list |
| SocketObject.SocketFields.FlushBoth | skynet-src/socket_server.cpp:512-570 | SendBuffer_ over both linked lists, with the raise of a partial low head |
| SocketObject.SocketFields.TakeDirectBuffer | skynet-src/socket_server.cpp:577-590 | the direct-write buffer goes in a new node before the old head |
| SocketObject.SocketFields.SendBuffer | skynet-src/socket_server.cpp:572-599 | the direct-write buffer goes in front before flushing |
| TimerWheel.MaskedCompareIsBlockCompare | skynet-src/timer.cpp:37-47 | the masked comparisons on 32-bit words are equality of the words shifted past the mask |
| TimerWheel.SlotOfWrap | skynet-src/timer.cpp:32-52 | within the horizon wrap-around does not change the slot |
| TimerWheel.OnlyTheCascadedSlotMoves | skynet-src/timer.cpp:63-83 | a tick changes the proper slot of a pending node only if the node is in the list being cascaded |
| TimerWheel.CascadeLandsInEmptySlots | skynet-src/timer.cpp:54-83 | a cascaded node never lands behind a node that was already there |
| TimerWheel.CascadeIsStable | skynet-src/timer.cpp:54-83 | after a cascade every slot holds its pending timers in the order they were set |
| TimerWheel.CurrentSlotIsWhatIsDue | skynet-src/timer.cpp:100-110 | the current near list is exactly the timers due now, in order |
| TimerWheel.OtherSlotsKeepTheRest | skynet-src/timer.cpp:100-110 | clearing it leaves every other slot as the remaining timers require |
| TimerWheel.CascadeClimbs | skynet-src/timer.cpp:72-81 | a zero digit sends the loop on, never past level 3 |
| TimerWheel.Timer.AddNode | skynet-src/timer.cpp:32-52 | the node is appended to the slot of its expiry and every other list is unchanged |
| TimerWheel.Timer.MoveList | skynet-src/timer.cpp:54-61 | the list is emptied and its nodes are appended, in order, where they belong now |
| TimerWheel.Timer.TimerShift | skynet-src/timer.cpp:63-83 | one tick, cascading exactly the one list that the digits of the new time select |
| TimerWheel.Timer.Execute | skynet-src/timer.cpp:100-110 | dispatches and empties the current near list |
| TimerWheel.Timer.Update | skynet-src/timer.cpp:112-124 | one tick of the wheel is one tick of the reference machine, with the same timers fired in the same order |
| TimerWheel.Timer.Timeout | skynet-src/timer.cpp:126-146 | sets the timer in the reference machine, or answers at once for a delay that is not positive; whose timer it is is settled by TimerRuns.BatchIsAwaited |
| TimerWheel.Timer.Updatetime | skynet-src/timer.cpp:165-180 | one tick per elapsed centisecond, none when the clock went back; the time is the old one plus the elapsed ticks modulo 2^32 |
| TimerRuns.RunWheel | skynet-src/timer.cpp:100-146 | any run of settings and ticks on a fresh wheel dispatches, operation by operation, what the reference machine does: the handle and session of exactly those settings whose delay is the number of ticks since, in the order of the settings, and at once of those whose delay is not positive |
| TimerRuns.BatchIsAwaited | skynet-src/timer.cpp:85-146 | by the calls alone: a tick wakes exactly the (handle, session) of those earlier settings whose delay is the number of ticks after them up to this one, in the order they were set |
| TimerRuns.CatchingUpIsAdvancing | skynet-src/timer.cpp:165-180 | catching up by n ticks wakes whom n single ticks wake |
| TimerWheel.PendingIsIssuedAndNotDue | skynet-src/timer.cpp:112-146 | what is pending after a run is what was issued and is not yet due |
| TimerWheel.TimersFireOnTheirTick | skynet-src/timer.cpp:112-146 | a tick dispatches exactly the timers whose delay equals the ticks since they were set, in the order set |
| TimerWheel.TimerHangsIffItLeavesItsBlock | skynet-src/timer.cpp:33-58 | with the lock as written a timer is cascaded, and so hangs, iff it is due in another block of 256 ticks |
| HarborWire.CookieRoundTrip | service-src/service_harbor.cpp:266-292 | the twelve cookie bytes decode to what was encoded |
| HarborWire.DeliveryRoundTrip | service-src/service_harbor.cpp:296-307 | a body is delivered with its source, type, session, payload and 24-bit destination under the receiver's harbor |
| HarborWire.FrameLayout | service-src/service_harbor.cpp:266-335 | the bytes of a frame: a four-byte length, highest byte first, that counts payload and cookie, the payload, source, type above the low 24 destination bits, and the session as a 32-bit word |
| HarborWire.LengthIsHighestFirst | service-src/service_harbor.cpp:444-467 | a receiver takes the four length bytes highest first |
| HarborWire.ChunksAreInvisible | service-src/service_harbor.cpp:402-493 | feeding chunks is feeding their concatenation |
| HarborWire.FeedLength | service-src/service_harbor.cpp:444-467 | lengths up to 0xffffff start a body, longer ones close the link |
| HarborWire.WireRoundTrip | service-src/service_harbor.cpp:317-339 | messages that fit arrive in order and intact, however the bytes are cut |
| HarborWire.WireRoundTripAfterHandshake | service-src/service_harbor.cpp:424-443 | the same behind the peer's number |
| HarborWire.ReconnectionReadsIff | service-src/service_harbor.cpp:446-460 | a connection that follows a close, opened either way, reads every frame iff nothing was left of a length |
| HarborWire.StaleLengthCloses | service-src/service_harbor.cpp:446-460 | the left-over of a length that was too long delivers nothing, and the link closes exactly when the length is complete or the number wrong |
| HarborWire.CStringKeepsAllIff | service-src/service_harbor.cpp:333-334 | a buffer survives the string conversion iff it has no zero byte |
| HarborWire.FramesAreSentEmptyAsWritten | service-src/service_harbor.cpp:325-335 | as written a frame is sent empty iff its length is below 2^24 |
| HarborLink.EveryLink | service-src/service_harbor.cpp:386-443 | in every run a connected link past handshake has no queue and a down link neither socket nor queue |
| HarborLink.HandedMessagesGoOutInOrder | service-src/service_harbor.cpp:508-546 | by the events alone: the messages handed over since the link was last closed that a frame can hold are, in order and once, those on the wire followed by those queued; on a link that is up all of them are on the wire |
| HarborLink.ChunkIsEvents | service-src/service_harbor.cpp:402-493 | what a chunk does to socket and queue is a shake, a close or a change between header and content, so the runs cover it |
| HarborLink.HandedMessagesArrive | service-src/service_harbor.cpp:386-443 | what the peer delivers from the bytes so far, cut anywhere, is the messages handed over, in order, behind the number or ready at once |
| HarborSlave.Slave.DispatchQueue | service-src/service_harbor.cpp:386-400 | everything queued goes out, oldest first, and the queue is gone |
| HarborSlave.Slave.RemoteSendHandle | service-src/service_harbor.cpp:508-546 | refuses on a link that is down, appends to the queue before the link is up, and otherwise appends to what is sent, if a frame can hold the message |
| HarborSlave.Slave.Command | service-src/service_harbor.cpp:602-628 | opens a free slave, actively or ready at once, ignores an open one, and leaves what was read |
| HarborSlave.Slave.ReadNumber | service-src/service_harbor.cpp:424-443 | the right number empties the queue onto the socket, a wrong one closes socket and queue |
| HarborSlave.Slave.ReadHeader | service-src/service_harbor.cpp:444-467 | the header case on any number of bytes; a length that is too long closes socket and queue |
| HarborSlave.Slave.ReadContent | service-src/service_harbor.cpp:470-487 | the content case on any number of bytes |
| HarborSlave.Slave.PushSocketData | service-src/service_harbor.cpp:402-493 | the receive loop forwards the bodies of the byte-wise receiver, ends in its state, and does to socket and queue what that outcome means |
| HarborSlave.StaleIsReachable | service-src/service_harbor.cpp:602-628 | a slave that is opened and sent a length in two pieces ends closed with the first piece still read |
| HarborSlave.ConnectAll | service-src/service_harbor.cpp:402-493 | on such a slave any sequence of connections, opened either way and cut anywhere, delivers nothing and each is closed |
| HarborQueue.Queue.Grow | service-src/service_harbor.cpp:100-111 | unwrapping into twice the size keeps the contents, wherever the head is |
| HarborQueue.Queue.Push | service-src/service_harbor.cpp:97-115 | appends one message |
| HarborQueue.Queue.Pop | service-src/service_harbor.cpp:125-132 | takes the oldest message, none when empty |
| HarborQueue.RunQueue | service-src/service_harbor.cpp:97-142 | any run of the ring pops what an unbounded FIFO pops |
| GateFraming.ChunkingIsInvisible | service-src/service_gate.cpp:184-203 | unless a chunk closes the connection, chunks and their concatenation lead to the same packets and state |
| GateFraming.ClosingChunk | service-src/service_gate.cpp:191-196 | a chunk that closes loses only what follows in it: the packets are those of everything up to it, cut anywhere, then those of the later chunks on an empty buffer |
| GateFraming.PacketsSurviveAnyChunking | service-src/service_gate.cpp:184-203 | every non-empty framed packet is forwarded in order and unchanged for every split |
| GateFraming.ParseByTurns | service-src/service_gate.cpp:186-202 | one turn of the loop is a step of the parse and shrinks what is pending |
| GateFraming.LengthsAreHighestFirst | service-src/databuffer.h:122-139 | two or four length bytes are taken highest first, and that many bytes after them are the packet |
| GateFraming.LengthsFrom16M | service-src/service_gate.cpp:191-196 | a length from 16M to 2^31 closes the connection iff that many bytes have arrived, and waits otherwise |
| GateFraming.NegativeLengthsStall | service-src/service_gate.cpp:186-202 | after a length of 2^31 or more, whatever follows in any chunks is kept, and nothing is forwarded or closed |
| GateFraming.UnconsumedPacketsAreReframed | service-src/service_gate.cpp:159-182 | without a consumer the packet's bytes are parsed as the next frame |
| DataBuffer.MessagePool.NewBlock | service-src/databuffer.h:94-108 | a new block chains all nodes but the first |
| DataBuffer.Buffer.ReturnMessage | service-src/databuffer.h:48-61 | the head chunk moves to the front of the free list |
| DataBuffer.Buffer.Read | service-src/databuffer.h:63-87 | copies exactly the first bytes and returns exactly the chunks used up |
| DataBuffer.Buffer.Push | service-src/databuffer.h:89-120 | the bytes grow by the data, on the first free node or one of a new block |
| DataBuffer.Buffer.ReadHeader | service-src/databuffer.h:122-139 | header and bytes move as the framing specification says |
| DataBuffer.Buffer.Clear | service-src/databuffer.h:143-148 | all chunks go back to the pool and the buffer is empty |
| Gate.DispatchMessage | service-src/service_gate.cpp:184-203 | leftover plus new bytes are parsed as specified and other connections are untouched |
| Gate.DispatchOne | service-src/service_gate.cpp:186-202 | one turn over the linked chunks is one turn of the specification |
| Gate.Forward | service-src/service_gate.cpp:159-182 | the packet leaves the buffer iff there is a broker, an agent or a watchdog, and goes to the first of them in that order |
| Gate.RunConnection | service-src/service_gate.cpp:184-203 | any chunks on a connection lead to the packets and the state of the framing specification, each packet to the first of broker, agent and watchdog |
| Gate.Deliver | service-src/service_gate.cpp:159-203 | with a broker, an agent or a watchdog, whatever frames are sent and however they are cut, each non-empty packet goes once, in order and unchanged, to the first of them |
| PoolShares.PlacesStep | service-src/databuffer.h:37-120 | in the share-out that the buffers follow, pushes, reads and clears move nodes between places and add only those of a new block |
| PoolShares.PoolIsPartitioned | service-src/databuffer.h:37-148 | in every run of the share-out a node allocated once is in exactly one list and any other in none |
| PoolRuns.RunPool | service-src/databuffer.h:37-148 | after any pushes, reads, headers and clears on real buffers that share a pool, every node of every block allocated is on exactly one list, once, and each buffer holds the bytes that its calls leave it |
| SchedulerInvariant.StepKeepsInv | skynet-src/mq.cpp:32-146 | every step of every thread keeps ownership, reference counts and message history exact |
| SchedulerInvariant.EveryRun | skynet-src/service.cpp:346-400 | so does every run |
| SchedulerTheorems.OneOwner | skynet-src/mq.cpp:117-146 | a live queue is listed once, or held by one thread, or idle and empty; a deleted one is nowhere |
| SchedulerTheorems.OneDispatcher | skynet-src/service.cpp:346-400 | two threads never own the same queue |
| SchedulerTheorems.NeverListedTwice | skynet-src/mq.cpp:117-129 | a queue that is listed was not listed and not deleted |
| SchedulerTheorems.MessagesAreKeptInOrder | skynet-src/mq.cpp:44-94 | pushed is delivered, then dropped, then waiting, in order; messages are dropped only after the context is dead |
| SchedulerTheorems.NoMessageIsStranded | skynet-src/include/mq.h:18-20 | a queue with messages is listed or held |
| SchedulerTheorems.ReferencesAreCounted | skynet-src/service.cpp:184-200 | references are the table's and the threads'; a queue about to be marked is unmarked, and a deleted one is unreferenced |
| SchedulerTheorems.ThreadsGoOn | skynet-src/service.cpp:346-400 | in every reachable state a busy thread can take its next step and works on queues that are not deleted |
| Scheduler.ShiftIsDivision | skynet-src/service.cpp:368-369 | a shift by k is division by 2^k, so a worker of weight k takes the 2^k-th part of the waiting messages in one turn |
| SchedulerTurns.TurnPops | skynet-src/service.cpp:361-366 | in every run a thread that enters a turn on a registered queue pops next, and delivers the head of the queue if it has messages then |
| SchedulerTurns.TurnTakes | skynet-src/service.cpp:361-389 | in every run a turn that comes to its end has popped once if the weight is negative, and otherwise the 2^weight-th part of the messages left after the first, at least once |
| SchedulerTurns.OnlyPopsDeliver | skynet-src/service.cpp:346-389 | nothing is delivered but by a pop of the thread that owns the queue |
| SchedulerTurns.PushesGoToTheGrabbed | skynet-src/mq.cpp:83-94 | in every run a message goes behind all others of the queue its sender grabbed, and to no other queue |
| SchedulerTurns.OnlyPushesPush | skynet-src/mq.cpp:83-94 | nothing else puts messages into a queue |
| SchedulerTurns.QueuesAreTakenInOrder | skynet-src/mq.cpp:117-146 | a step appends one queue to the list, takes the first for its own thread, or leaves the list |
| SchedulerTurns.DeliveredIsReachable | skynet-src/service.cpp:346-389 | for any message there is a run that sends and delivers it |
| SchedulerLives.LaunchedIsListed | skynet-src/service.cpp:270-296 | a service that is launched has its queue listed behind all others |
| SchedulerLives.FailedLaunchIsDeleted | skynet-src/service.cpp:297-306 | a service whose launch fails is unregistered, its messages are dropped in order and its queue deleted by its creator |
| SchedulerLives.RetiredIsMarked | skynet-src/mq.cpp:32-40 | retiring a service nobody else refers to marks its queue and has it listed |
| SchedulerLives.WorkerReleasesRetired | skynet-src/mq.cpp:44-60 | a worker that comes to a retired queue drops what is left in it, in order, and deletes it if it is marked, and puts it back otherwise |
| SchedulerLives.RetiredIsForGood | skynet-src/service.cpp:346-400 | a retired service is never registered again and gets no further sender and no further turn; only retiring or a failed launch unregisters, and only an empty queue is deleted |
| SchedulerLives.TurnHandsOn | skynet-src/service.cpp:390-400 | after its turn a worker puts its queue behind all others and goes on with the first of them, or keeps its own if there is none |
| SchedulerTheorems.PopAsWrittenLosesIff | skynet-src/mq.cpp:64-81 | a turn with Pop as written loses its queue iff the queue has a message, and delivers nothing |
| SchedulerTheorems.WaitingTurnIsReachable | skynet-src/service.cpp:346-366 | a reachable state has a worker in its turn on a queue with a message |
| SchedulerTheorems.LossIsReachable | skynet-src/service.cpp:364-366 | such a turn loses the queue |
| SchedulerTheorems.LostStaysLost | skynet-src/mq.cpp:83-94 | no step of the machine as meant lists such a queue or delivers from it |
| SchedulerTheorems.LostForGood | skynet-src/service.cpp:361-389 | no run in which every thread pops as written does |
| SchedulerTheorems.NothingIsDeliveredAsWritten | skynet-src/service.cpp:361-389 | as written no run delivers any message |
| SchedulerObjects.MessageQueue.Push | skynet-src/mq.cpp:83-94 | appends, and lists the queue iff it was not flagged |
| SchedulerObjects.MessageQueue.MarkRelease | skynet-src/mq.cpp:32-40 | marks, and lists the queue iff it was not flagged |
| SchedulerObjects.MessageQueue.Pop | skynet-src/mq.cpp:64-81 | takes the first message and raises the overload threshold, or reports empty and clears the flag |
| SchedulerObjects.RaisedIsLeast | skynet-src/mq.cpp:69-72 | the threshold doubles until it covers the length and no further |
| SchedulerObjects.MessageQueue.Release | skynet-src/mq.cpp:44-60 | a marked queue hands out all its messages in order, an unmarked one is listed again |
| SchedulerObjects.MessageQueue.Turn | skynet-src/service.cpp:361-389 | one undisturbed turn delivers from the front one message if the weight is negative, and otherwise the 2^weight-th part of those behind the first, at least one |
| SchedulerObjects.GlobalQueue.Push | skynet-src/mq.cpp:117-129 | the links append one queue; other queues keep their contents |
| SchedulerObjects.GlobalQueue.Pop | skynet-src/mq.cpp:131-146 | the head is unlinked with a null link; head is null exactly when tail is |
| SchedulerRuns.RunObjects | skynet-src/mq.cpp:32-146 | after any run of the scheduler on real queues and a real list, fields and list are what the machine says and every unlisted queue has a null link, so the null-link assertion holds at every push |
| SchedulerRuns.StepOne | skynet-src/mq.cpp:117-146 | each step of the machine is one method call on the objects, or none |
| HandleTable.HashOfDouble | skynet-src/handle.cpp:42-48 | doubling leaves a handle in its slot or moves it up by the old size |
| HandleTable.HashIgnoresHarbor | skynet-src/handle.cpp:32 | the harbor bits do not change the slot |
| HandleTable.Probe | skynet-src/handle.cpp:19-35 | finds the first free slot in probing order, and misses none but slot 0 |
| HandleTable.NoCollision | skynet-src/handle.cpp:42-48 | under the doubled mask an entry always finds its slot empty |
| HandleTable.Grow | skynet-src/handle.cpp:39-49 | the doubled table shows the same map and has a free slot |
| HandleTable.GrowthAsWrittenAborts | skynet-src/handle.cpp:42-48 | growth as written aborts iff any entry is to be moved |
| HandleTable.UncheckedGrowthLosesHandles | skynet-src/handle.cpp:44-46 | without assertions it keeps a live handle iff its slot is in the lower half |
| HandleStorage.Storage.constructor | skynet-src/handle.cpp:184-198 | the storage starts with no contexts and no names |
| HandleStorage.Storage.Register | skynet-src/handle.cpp:15-51 | binds the context to a fresh non-zero handle, and fails iff every handle is live; the table at most doubles, and only when full but for slot 0 |
| HandleStorage.Storage.Grab | skynet-src/handle.cpp:110-125 | returns exactly the live context of the handle |
| HandleStorage.Storage.Retire | skynet-src/handle.cpp:53-88 | unbinds a live handle with exactly its names, and changes nothing for another |
| HandleStorage.Storage.FindName | skynet-src/handle.cpp:127-149 | returns the bound handle, 0 for an unbound name |
| HandleStorage.Storage.NameHandle | skynet-src/handle.cpp:151-182 | binds an unbound name; a taken name changes nothing; it returns with the write lock held iff the name is taken |
| HandleStorage.Compact | skynet-src/handle.cpp:65-75 | in-place compaction keeps the other handles' entries in order |
| HandleStorage.InsertAt | skynet-src/handle.cpp:173-177 | the shift loop inserts one entry at its place |
| NameIndex.Search | skynet-src/handle.cpp:154-166 | bisection finds the entry, or the place between smaller and larger names |
| NameIndex.LessIsLexicographic | skynet-src/handle.cpp:136-141 | names are ordered as strings are: a proper prefix first, otherwise by the first difference |
| NameIndex.BetweenIsUnbound | skynet-src/handle.cpp:132-145 | a name whose place is between its neighbours is bound nowhere |
| NameIndex.InsertBinds | skynet-src/handle.cpp:168-178 | inserting there keeps the order strict and adds one binding |
| NameIndex.SurvivorsBind | skynet-src/handle.cpp:64-75 | dropping a handle's entries keeps the order strict and unbinds exactly its names |
| HandleHistory.Run | skynet-src/handle.cpp:15-182 | any sequence of calls answers as the two maps do |
| HandleHistory.GrabFindsTheRegistered | skynet-src/handle.cpp:110-125 | in every run grab answers by the latest registration or retirement of the handle |
| HandleHistory.RetireAnswers | skynet-src/handle.cpp:53-88 | in every run retiring answers 1 iff the handle was given out and not retired since |
| HandleHistory.RegisterFailsOnlyWhenAllAreOut | skynet-src/handle.cpp:15-51 | in every run from an empty storage a registration fails only when each of the 2^24 - 1 handles is out |
| HandleHistory.NamesAreFound | skynet-src/handle.cpp:127-182 | in every run a name that was given is found, and cannot be given again, until its handle is retired; then it is not found, and can be given again |
| HandleHistory.UngivenIsNotFound | skynet-src/handle.cpp:127-182 | in every run from an empty storage a name that was never given is not found and can be given |
| HandleHistory.HandlesAreDistinct | skynet-src/handle.cpp:15-88 | a handle is given out twice only with a retirement in between, and never 0 |
| HandleHistory.NamesStayLive | skynet-src/handle.cpp:53-88 | if only live handles are named, names always lead to live handles |
| RwLock.StepKeepsInv | skynet-src/include/rwlock.h:15-40 | every step keeps the counts of readers and writers exact and readers away from a writer |
| RwLock.WriterExcludesAll | skynet-src/include/rwlock.h:15-40 | in every run a writer past its drain loop excludes every other writer and reader, and read counts the threads holding or probing |
| RwLock.WriterStopsNewReaders | skynet-src/include/rwlock.h:15-26 | once a writer owns the flag no further reader gets in |
| RwLock.ReaderGetsIn | skynet-src/include/rwlock.h:15-26 | a reader that meets no writer gets in, however many others read, and leaves the lock as it found it |
| RwLock.ReaderBacksOff | skynet-src/include/rwlock.h:15-26 | a reader that sees the flag at its second look counts itself out and spins |
| RwLock.SpinningReaderWaits | skynet-src/include/rwlock.h:15-26 | a reader that spins stays uncounted while the flag is up |
| RwLock.WriterGetsIn | skynet-src/include/rwlock.h:28-38 | a writer that meets nobody gets in at its first try, and its unlock leaves the lock as it found it |
| RwLock.LeftFlagBlocksUntilUnlock | skynet-src/handle.cpp:159-161 | a flag left up keeps new readers out up to the first unlock by any thread, which takes it down |
| RwLock.StuckWriterBlocksAll | skynet-src/handle.cpp:159-161 | in the lock as meant, an owner that never unlocks keeps everybody out for ever |
| RwLock.LeftFlagEndsAsWritten | skynet-src/include/rwlock.h:28-34 | in the lock as written a thread that spins gets in on its second try and its unlock frees the lock |
| RwLock.SafeWhenUncontended | skynet-src/include/rwlock.h:28-34 | as written the lock is safe in runs without a try against a raised flag |
| RwLock.ContentionAdmitsTwoWriters | skynet-src/include/rwlock.h:28-34 | as written, a thread that spins against an owner becomes a second owner in two tries |
| RwLock.TwoWritersAreReachable | skynet-src/include/rwlock.h:28-34 | from a free lock any two threads can come to write at once |
| RwLock.TwoTriesAreSafeIffFree | skynet-src/include/rwlock.h:28-34 | as written, entering is safe iff the flag is down |

## Left out

Socket server:

- UDP, user objects and raw-pointer buffers; address formatting, statistics, `warn_size`, socket options and pausing reads.
- The read event flag: a read event may come whenever the state allows one.
- One slot is modelled, with ids that grow and are not reused; the wrap of the 16-bit id tag is not.
- A worker takes the lock only on a slot that is connected under its id at that moment. The source reads id and type apart: if the slot is closed, taken for a new id and connected in between, the worker writes a package of the old id to the new connection. Such a write is not a step of the machine, and the theorems on wire, order and loss claim nothing of the new id after it.
- Of a worker's test without the lock only the read of `sending` is a step, since the test under the lock repeats the others; there the type, the lists and the direct-write buffer are read in one step and `sending` in a second. A close reads all four in one.
- The busy wait of `IncSendingRef` at 0xffff is a disabled step; interrupted writes are folded into the kernel's next answer.
- Event batches of epoll, and events left over for a slot that was reserved again.

Timer:

- The slot lists are sequences of nodes, not links; `Update` and `Timeout` are atomic, and messages posted to dead handles are not followed.

Harbor:

- Name-addressed messages, whose destination bits are filled in on one branch only (service-src/service_harbor.cpp:356-381), and the name hash.
- A body shorter than the twelve cookie bytes, which the source reads out of bounds.
- Bytes handed to the socket layer count as sent; a reconnection after a close is a new link.
- HarborLink.HandedMessagesArrive: a message whose frame is 16M or longer is sent by the source and makes the peer close, so all messages are required to fit.

Gate:

- The prefix "%d data " before packets for the watchdog, the hash of connection ids, and the text commands.

Scheduler:

- The table's handles are assumed not to be reused while an old queue of that handle exists; double registration and extra deletes in `NewContext` and `ContextPush` are not followed.
- Sends and kills from inside a callback are steps of other threads; the condition variable that wakes workers and the monitor are not modelled.

Handles:

- `HandleRetireall`, reference counts of contexts (they are part of the scheduler model), and each call is atomic under its lock.
- `handle & (size - 1)` is the remainder by a size that is a power of two.

Elsewhere:

- `service_snlua.c`, module loading, logging, environment, start-up and the text commands of `command.cpp`: plumbing without a deep property. Freeing of buffers is mostly commented out in the source and is not modelled.
