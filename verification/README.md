# Total-order reliable multicast and Chandy-Lamport snapshot: a verified model

The program runs one process per host. A process multicasts data messages over UDP, every receiver
answers with an ack carrying a proposed sequence number, the sender takes the largest of the
proposals of all hosts and announces it, and every process delivers its queue in the order of the
announced numbers. Watchdog threads resend data and acks until they are answered. Beside it runs a
snapshot service that records the state of each process and the packets in transit.

This project models both, proves what holds in every run of the program as it is written, and says
exactly when the order of delivery is the same at all processes.

## What is modelled, and how

| modules | content |
|---|---|
| `Messages`, `NodeSpec` | the messages, and each handler and watchdog as a relation between the state of a process before and after one event and the packets it sends |
| `Machine` | any number of processes (two or more) and a network that may lose, duplicate, delay and reorder packets; runs and reachable states |
| `NodeInvariant`, `Invariant` | the inductive invariant over all handlers and the network, and its proof |
| `Agreement`, `TotalOrder`, `PrefixOrder`, `SingleSender`, `Progress` | what follows for every run |
| `Traffic`, `Clock` | exactly what every step sends, when watchdogs fall silent and the system rests, and what the clocks count |
| `Moves`, `Runs`, `Counterexamples`, `TieBreaks` | concrete runs in which the delivered lists disagree |
| `HeapOps`, `Delivery`, `ReliableMulticastNode` | the process as a class with the program's fields and an in-place binary heap; every method refines its relation of `NodeSpec` |
| `Wire`, `MsgReceiver` | the packet format and the dispatch of a received packet |
| `Recording`, `GlobalSnapshot`, `MarkerText` | the snapshot daemon of one process as a class, proved to record what the rule in its comment asks for |
| `Cut` | the snapshot over all processes, on channels that lose, repeat and reorder packets |
| `ConsistentCut`, `OrderedCut` | exactly when the recorded states and channels are consistent; the first-in-first-out case, in order |
| `MarkerCollection` | every marker is collected, and the collection ends |
| `CutArrivals` | what arrives at one process in such a run, and that its daemon records the channels of the run |
| `Locks`, `SharedData` | the mutexes of all threads: no deadlock, no data race, and handlers that depend on no shared data but those whose mutex they hold |

## Total order: where the code and its documentation differ

README.md:8 and README.md:16 of the repository promise that every process delivers in the same order
and that each delivers in increasing order, for all runs. The code does not ensure it, and the model
follows the code:

- No clock ever moves past a number learnt from elsewhere, so a process can take a message in late:
  after it has delivered a larger one. `Counterexamples.OneSenderTwoOrders` is such a run with two
  hosts, one sender and two packets that arrive in reverse order.
- Ties between proposals are decided for the smaller proposer, while in the queue the larger proposer
  comes later. So a message can be overtaken: its entry stands under this process's own proposal, which
  turns out to be the final number but is credited to a smaller process. `TieBreaks.TieBreaksTwoOrders`
  is such a run with three hosts in which nobody is late and no two messages share number and proposer.
- A process can use one number for a message of its own and for the next one it receives, so two
  messages can get the same final number and proposer. The order in which heap algorithms take out
  equal elements is left open by ISO/IEC 14882, section [alg.heap.operations]:
  `Counterexamples.EqualPairsLeaveOrderOpen` gives two states the code can reach that differ in nothing
  else, one with equal lists and one without.

What does hold, and exactly when ("smaller" is by number, then by proposer, as the queue orders):

- Of two delivered messages the larger comes first if and only if the smaller was late or overtaken
  (`TotalOrder.InvertedExactlyWhenAhead`), so a process delivers in increasing order if and only if
  nothing is (`TotalOrder.IncreasingExactlyWhen`).
- Messages that wait in one queue together leave it in the order of their final numbers, in every run
  (`TotalOrder.HeldTogetherDeliveredInOrder`).
- If nothing is late or overtaken and no number and proposer repeat, of the lists of any two processes
  one is a prefix of the other (`PrefixOrder.PrefixAgreement`). Clocks that keep ahead of the deliveries
  ensure that nothing is late (`PrefixOrder.TotalOrderWhenWellClocked`), and distinct final numbers that
  nothing is overtaken (`PrefixOrder.TotalOrderWhenNumbersDiffer`).
- When everything is delivered, all lists are equal if and only if the same messages got ahead of the
  same ones everywhere and ties came out alike (`PrefixOrder.EqualExactlyWhenAlike`); without ties the
  first half decides (`PrefixOrder.EqualExactlyWhenAheadAlike`), and with a single sender there are none
  (`SingleSender.SingleSenderEqualExactly`).

## The cut: where the program leaves the algorithm's assumption

The snapshot algorithm assumes first-in-first-out channels shared by packets and markers. The program
sends markers over TCP and packets over UDP, so `Cut` lets packets be lost, arrive again, and overtake
each other and the markers. The recorded states of two processes are consistent if and only if no packet
passed the marker before the receiver recorded (`ConsistentCut.ConsistentExactlyWhen`), and a recorded
channel holds exactly what was in transit if and only if none of four things happened meanwhile
(`ConsistentCut.TransitExactlyWhen`). `ConsistentCut.OvertakingBreaksTheCut` is a run in which the first
condition fails.

## Modelling assumptions

- Each handler, each wake-up of a watchdog and each multicast is one step. In the program
  `curr_seq_number` is read and written without a lock, and read twice in `handle_datamsg`.
- Integers do not overflow, except in `Wire`, where the 32-bit fields of a packet are modelled.
- Host ids are distinct, and there are at least two hosts.
- `RECV_CAP` and `WATCHDOG_RESEND_CAP` are not reached.
- The network is a set of packets in flight. Receiving leaves a packet in flight, so that it may be
  received again; losing one is a step of its own. A `reply` goes to the process that sent the packet
  replied to, which the model names by the sender of a data message and the proposer of an ack.
- Where the program calls `exit(1)`, the model sets `exited`, and nothing further happens there.
- `accepted` and `learnt` are history variables: they record what each process proposed for a message,
  and how much it had delivered when it did so and when it learnt the final number. No branch depends
  on them.
- Methods return what they send as a set of packets.
- Taking a snapshot step (copying the local state and turning recording on; or draining the buffer
  and noting a marker) is one step, between which no packet arrives. There is one initiator, and it
  initiates before any marker reaches it. Buffered packets are kept as messages, not as bytes.
- In `Cut`, markers are neither lost nor repeated, as they travel over TCP; recording and sending the
  markers is one step. The initiator has not heard anything that counts before it initiates.

## Model

| member | source | states |
|---|---|---|
| `NodeSpec.MaxProposalIsMax` | reliable_multicast.cpp:524-536 | the running maximum over the proposers is the largest proposal, and of the proposers that made it the smallest is credited |
| `ReliableMulticastNode.GetMaxSequence` | reliable_multicast.cpp:524-536 | the loop over the row in ascending order of the proposers computes that maximum |
| `Invariant.DecisionHasAllProposals` | reliable_multicast.cpp:166-175 | a decision is only taken once every host has proposed, and it is no smaller than any host's proposal: as many distinct proposers as hosts are all the hosts |
| `Invariant.RunInv` | reliable_multicast.cpp:76-357 | the invariant over all processes and all packets in flight holds in every state of every run |
| `NodeInvariant.MulticastKeepsLocal` | reliable_multicast.cpp:269-289 | multicasting keeps every clause about the process |
| `NodeInvariant.DataKeepsLocal` | reliable_multicast.cpp:76-118 | so does receiving data, first or duplicate |
| `NodeInvariant.AckKeepsLocal` | reliable_multicast.cpp:156-216 | so does receiving an ack that fits: early, completing, or late; in particular the process does not exit |
| `NodeInvariant.SeqKeepsLocal` | reliable_multicast.cpp:219-256 | so does receiving a sequence message that fits, first or duplicate |
| `NodeInvariant.QueuedIsBelowFinal` | reliable_multicast.cpp:503-521 | the number under which a message is queued never exceeds its final number |
| `Agreement.NoProcessExits` | reliable_multicast.cpp:190-248 | no run reaches a branch that ends the program: a sequence message finds its message, a late ack its sequence message, a data watchdog its entry |
| `Invariant.DataTimeoutKeepsState` | reliable_multicast.cpp:327-333 | the data watchdog always finds its entry |
| `Agreement.FrontIsUndeliverable` | reliable_multicast.cpp:475-500 | between steps an entry that no other comes before is not deliverable, or shares its key with one that is not |
| `Agreement.ExactlyOnce` | reliable_multicast.cpp:83-102 | in every reachable state a process holds exactly one entry for each message it multicast or acked, queued or delivered, with the data its sender gave it, and no other entry |
| `Agreement.DecidedIsMax` | reliable_multicast.cpp:166-175 | what is decided depends on the proposals alone, not on the order or repetition of the acks: the largest, credited to the smallest host that made it |
| `Agreement.AcksNeverDiffer` | reliable_multicast.cpp:83-90 | in a whole run all acks of one process for one message carry the same number |
| `Agreement.PacketsNameTheirSender` | CL_global_snapshot.cpp:191-213 | every packet a process sends in any run is filed by the snapshot under that process |
| `Agreement.AgreementOnFinals` | reliable_multicast.cpp:166-255 | in a whole run at most one final number and proposer shows for a message, in packets, histories and entries of any process, and it is the maximum of all proposals |
| `TotalOrder.DeliveredOnce` | reliable_multicast.cpp:486-495 | nothing is delivered twice, and nothing delivered is still queued |
| `TotalOrder.HeldTogetherDeliveredInOrder` | reliable_multicast.cpp:475-521 | two messages that were queued together are delivered in the order of their final numbers, in every run |
| `TotalOrder.HeldTogetherAgree` | reliable_multicast.cpp:475-521 | two processes that each held both agree on their order when the final numbers differ |
| `TotalOrder.SameEntry` | reliable_multicast.cpp:486-495 | a message is delivered as the same entry everywhere |
| `TotalOrder.PassedIsAhead` | reliable_multicast.cpp:486-495 | a delivery made while a smaller decided message was not delivered here is due to that message being late or overtaken |
| `TotalOrder.InvertedExactlyWhenAhead` | reliable_multicast.cpp:94-110 | of two delivered messages the larger comes first if and only if the smaller was taken in late or overtaken |
| `TotalOrder.IncreasingExactlyWhen` | README.md:16 | a process delivers in increasing order of number and proposer if and only if nothing it delivered was late or overtaken |
| `PrefixOrder.PrefixAgreement` | README.md:8 | when nothing is late or overtaken and no number and proposer repeat, one delivered list is a prefix of the other |
| `PrefixOrder.TotalOrderWhenWellClocked` | README.md:8 | the same for every run in which each proposal exceeds what its process has delivered, which excludes lateness |
| `PrefixOrder.TotalOrderWhenNumbersDiffer` | README.md:8 | in such a run with distinct final numbers nothing is overtaken either |
| `PrefixOrder.EqualExactlyWhenAlike` | README.md:8 | when everything is delivered, all lists are equal if and only if the same messages got ahead of the same ones at all processes and ties came out alike |
| `PrefixOrder.EqualExactlyWhenAheadAlike` | README.md:8 | the same without the ties, when no number and proposer repeat |
| `SingleSender.SharedFinalIsOwnAndForeign` | reliable_multicast.cpp:94-110 | two messages share final number and proposer only if the proposer multicast exactly one of them |
| `SingleSender.SingleSenderKeysAreUnique` | reliable_multicast.h:92-95 | with one sender no number is proposed twice by a process, and the comparison orders any two final entries strictly |
| `SingleSender.SingleSenderEqualExactly` | reliable_multicast.cpp:94-110 | with one sender there are no ties, so the lists are equal if and only if the same messages got ahead everywhere |
| `Counterexamples.OneSenderTwoOrders` | reliable_multicast.cpp:219-256 | a run of the code with one sender, distinct finals and everything delivered, in which a late message makes two processes deliver in opposite orders |
| `TieBreaks.TieBreaksTwoOrders` | reliable_multicast.cpp:527-533 | a run of the code with nobody late, distinct pairs and everything delivered, in which an overtaken message makes two processes deliver in opposite orders |
| `Counterexamples.EqualPairsLeaveOrderOpen` | reliable_multicast.cpp:279-286 | two reachable states that agree in everything but the order in which the heap gave out two messages with equal number and proposer: in one the lists are equal, in the other not |
| `Progress.CanDrain` | reliable_multicast.cpp:486-495 | the delivery loop has a result from every queue |
| `Progress.MeasureNeverRaised` | reliable_multicast.cpp:121-357 | no step but a multicast adds to the acks and finals still missing |
| `Progress.AckRound` | reliable_multicast.cpp:316-354 | a data watchdog, the receipt of its packet and of the ack make up for a missing ack |
| `Progress.FinalRound` | reliable_multicast.cpp:121-150 | an ack watchdog, the late ack and its answer make up for a missing final |
| `Progress.MeasureZeroExactlyWhenDone` | reliable_multicast.cpp:486-495 | nothing is missing if and only if every queue is empty and every message delivered everywhere |
| `Progress.Progress` | README.md:19 | from every reachable state some finite sequence of resends and receipts delivers every message at every process and empties every queue |
| `Traffic.MulticastIsSent` | reliable_multicast.cpp:269-302 | in every run a multicast records the new message and puts it in flight to every other host, and sends nothing else |
| `Traffic.DataIsAnswered` | reliable_multicast.cpp:83-109 | in every run data is answered by exactly one ack with the number proposed for it, the first time and later |
| `Traffic.AckIsAnswered` | reliable_multicast.cpp:166-213 | in every run an ack causes exactly the announcements due: a new decision to every other host, an old one to the process that repeats its ack, and none before |
| `Traffic.SeqIsSilent` | reliable_multicast.cpp:219-256 | learning a final number sends nothing |
| `Traffic.WatchdogRepeatsUntilAnswered` | reliable_multicast.cpp:334-353 | a watchdog changes nothing, and repeats its packet if and only if its answer has not come |
| `Traffic.WatchdogFallsSilent` | reliable_multicast.cpp:132-138 | once its answer has come, a watchdog sends nothing at any later time of the run |
| `Traffic.DoneIsQuiet` | reliable_multicast.cpp:316-357 | when every message is delivered everywhere, no watchdog sends anything |
| `Traffic.RestIsFinal` | reliable_multicast.cpp:121-357 | when moreover nothing is in flight, only a new multicast ever changes anything |
| `Clock.ClockCounts` | reliable_multicast.cpp:168 | in every run the clock of a process is one more than the messages it multicast, the messages it acked and the acks it collected |
| `Clock.ProposalCounts` | reliable_multicast.cpp:94-110 | the number a process proposes is what it had counted by then, its own new message included |
| `HeapOps.FrontIsSmallest` | reliable_multicast.h:92-95 | the front of a heap is a smallest element for the comparison |
| `HeapOps.PushHeap` | reliable_multicast.cpp:421 | sifts the last element up in place: a heap of the same elements, whose front is the old one or the new element |
| `HeapOps.PopHeap` | reliable_multicast.cpp:492 | moves the front to the end in place and leaves a heap of the others |
| `HeapOps.MakeHeap` | reliable_multicast.cpp:515 | rearranges any elements into a heap in place |
| `Delivery.PopOne` | reliable_multicast.cpp:486-494 | popping one more front entry extends what has been popped in order |
| `Delivery.DrainsIsDeliverablePrefix` | reliable_multicast.cpp:475-500 | with distinct keys the loop appends exactly the longest deliverable prefix of the sorted queue |
| `ReliableMulticastNode.FindAck` | reliable_multicast.cpp:83-84 | finds an ack for the message if and only if there is one |
| `ReliableMulticastNode.FindSeq` | reliable_multicast.cpp:133-134 | finds a sequence message for the message if and only if there is one |
| `ReliableMulticastNode.IsDelivered` | reliable_multicast.cpp:236-242 | whether the message has been delivered |
| `ReliableMulticastNode.ReliableMulticast.constructor` | reliable_multicast.h:123-141 | starts in the initial state of the step machine |
| `ReliableMulticastNode.ReliableMulticast.PushMsgToDeliveryqueue` | reliable_multicast.cpp:418-422 | adds exactly one entry and keeps the heap; the front stays undeliverable if the entry is |
| `ReliableMulticastNode.ReliableMulticast.ChangeQueuedMsgSeqAndStatus` | reliable_multicast.cpp:503-521 | finalises the entry of the message and keeps the heap, or reports -1 and changes nothing |
| `ReliableMulticastNode.ReliableMulticast.DeliverMsgFromDeliveryqueue` | reliable_multicast.cpp:475-500 | appends the deliverable entries that come out in front, in order, and leaves in front one that is not deliverable, whatever shares its key |
| `ReliableMulticastNode.ReliableMulticast.Broadcast` | reliable_multicast.cpp:399-415 | sends to every other host |
| `ReliableMulticastNode.ReliableMulticast.MulticastDatamsg` | reliable_multicast.cpp:259-313 | refines the multicast step |
| `ReliableMulticastNode.ReliableMulticast.HandleDatamsg` | reliable_multicast.cpp:76-118 | refines the step for data: a duplicate is answered from history, a new message is queued and acked |
| `ReliableMulticastNode.ReliableMulticast.Decide` | reliable_multicast.cpp:172-187 | announces the maximum of the row, finalises the message and delivers |
| `ReliableMulticastNode.ReliableMulticast.HandleAckmsg` | reliable_multicast.cpp:156-216 | refines the step for acks, in all its branches |
| `ReliableMulticastNode.ReliableMulticast.HandleSeqmsg` | reliable_multicast.cpp:219-256 | refines the step for sequence messages, in all its branches |
| `ReliableMulticastNode.ReliableMulticast.DatamsgWatchdog` | reliable_multicast.cpp:316-357 | refines the wake-up of a data watchdog |
| `ReliableMulticastNode.ReliableMulticast.AckmsgWatchdog` | reliable_multicast.cpp:121-153 | refines the wake-up of an ack watchdog |
| `Wire.WordRoundTrip` | reliable_multicast.cpp:589-602 | a stored word is read back modulo the word size |
| `Wire.DecodesTruncated` | reliable_multicast.cpp:54-69 | every packet is dispatched by its type word to the deserializer of its kind, whatever its unused bytes hold |
| `Wire.RoundTrip` | reliable_multicast.cpp:604-648 | a message comes back field for field if and only if its fields fit 32 bits |
| `Wire.EncodesIsLayout` | reliable_multicast.h:40-66 | the packets written for a message are exactly the 20 bytes whose first four are 0, 0, 0 and its kind (1, 2 or 3) and whose next ones are its fields, most significant byte first |
| `Wire.DecodesLayout` | reliable_multicast.cpp:51-69 | any 20 bytes are read as the kind their first four name, with the numbers that follow as fields, and refused exactly if these name none |
| `Wire.PackI32` | reliable_multicast.cpp:589-593 | writes the four bytes of the number and nothing else |
| `Wire.UnpackU32` | reliable_multicast.cpp:596-602 | reads the number stored at the offset |
| `Wire.SerializeDataMessage` | reliable_multicast.cpp:604-609 | writes 0, 0, 0, 1 and the three fields, byte by byte, leaving the last four bytes as they were |
| `Wire.SerializeAckMessage` | reliable_multicast.cpp:619-624 | writes 0, 0, 0, 2 and the four fields, byte by byte |
| `Wire.SerializeSeqMessage` | reliable_multicast.cpp:634-640 | writes 0, 0, 0, 3 and the four fields, byte by byte |
| `Wire.Deserialize` | reliable_multicast.cpp:51-69 | computes the decoding of the packet |
| `MsgReceiver.ReceivePacket` | reliable_multicast.cpp:31-73 | handles a packet as the message it decodes to, and ends the program on an unknown type |
| `MsgReceiver.WrittenIsHandled` | reliable_multicast.cpp:51-69 | a packet written by a process is handled as the event it was meant to be |
| `Recording.LazyRecordsTheSame` | CL_global_snapshot.cpp:80-90 | buffering packets and filtering them at marker time records the same packets per source, in the same order, as the rule in the comment |
| `Recording.ReceivedIsMarkers` | CL_global_snapshot.cpp:91-153 | the daemon takes in the first numHosts - 1 markers, in the order of their arrival |
| `Recording.CollectsExactlyTheOthers` | CL_global_snapshot.cpp:146-153 | for every order of arrival the daemon ends with exactly the other hosts, once each, and stops recording |
| `Recording.FiledSources` | CL_global_snapshot.cpp:162-165 | every packet filtered leaves a channel under its source, even if an empty one, and nothing else does |
| `GlobalSnapshot.OneMarkerEach` | CL_global_snapshot.cpp:47-77 | of the markers sent in a broadcast exactly one goes to each other host, with the id of its sender |
| `GlobalSnapshot.CLGlobalSnapshot.BroadcastMarkers` | CL_global_snapshot.cpp:47-77 | sends those markers |
| `GlobalSnapshot.CLGlobalSnapshot.InitiateSnapshot` | CL_global_snapshot.cpp:34-45 | records, turns recording on and sends the markers to the others |
| `GlobalSnapshot.CLGlobalSnapshot.RecordPacket` | reliable_multicast.cpp:42-50 | buffers a packet if recording is on |
| `GlobalSnapshot.CLGlobalSnapshot.AddMsgToInbound` | CL_global_snapshot.cpp:162-171 | files a packet unless the marker of its source has come |
| `GlobalSnapshot.CLGlobalSnapshot.HandleInboundMessage` | CL_global_snapshot.cpp:184-217 | chooses the source by the kind of message |
| `GlobalSnapshot.CLGlobalSnapshot.DrainInbound` | CL_global_snapshot.cpp:119-129 | files all buffered packets in the order of their arrival |
| `GlobalSnapshot.CLGlobalSnapshot.ListenForIncomingConnections` | CL_global_snapshot.cpp:91-160 | the whole loop computes the lazy recording, ends if and only if all markers have come, and has then sent one marker to each other host |
| `GlobalSnapshot.NothingAfterFinish` | CL_global_snapshot.cpp:154-160 | once recording has stopped nothing changes any more |
| `MarkerText.MarkerArrivesWhole` | CL_global_snapshot.cpp:93-101 | an id survives the marker buffer if and only if it has at most two digits |
| `Cut.RunInv` | CL_global_snapshot.cpp:34-160 | the invariant of every channel holds in every state of every run, whatever is lost, repeated or overtaken |
| `ConsistentCut.ConsistentExactlyWhen` | CL_global_snapshot.cpp:80-90 | no recorded state contains a packet that its sender recorded as not yet sent, if and only if no packet passed the marker before the receiver recorded |
| `ConsistentCut.TransitExactlyWhen` | CL_global_snapshot.cpp:80-90 | the recorded channel holds exactly, once each, what was sent and not received across the cut, if and only if meanwhile no packet passed the marker or came again, none still to come was lost and the marker passed none |
| `ConsistentCut.OvertakingBreaksTheCut` | CL_global_snapshot.cpp:62-66 | a run whose cut is not consistent, because a packet passes the marker |
| `OrderedCut.NothingFromTheFuture` | CL_global_snapshot.cpp:80-90 | on a first-in-first-out channel what was recorded as received is a prefix of what was recorded as sent |
| `OrderedCut.ChannelIsWhatWasInTransit` | CL_global_snapshot.cpp:80-90 | there the recorded channel is what was in transit, in order |
| `MarkerCollection.MarkersOnce` | CL_global_snapshot.cpp:47-77 | each process sends one marker to each other, and none is counted twice |
| `MarkerCollection.AllMarkersCollected` | CL_global_snapshot.cpp:117-153 | once no marker is in flight, every process has recorded and holds exactly one marker from each other |
| `MarkerCollection.CollectingLowersOutstanding` | CL_global_snapshot.cpp:117-153 | every receipt of a marker takes one off those outstanding, and nothing adds any |
| `MarkerCollection.CollectionEnds` | CL_global_snapshot.cpp:117-153 | from every reachable state after somebody has initiated, finitely many receipts, first come first served, complete the collection |
| `CutArrivals.FinishedIsAll` | CL_global_snapshot.cpp:117-153 | a process that has counted as many markers as there are others has one from each |
| `CutArrivals.ArrivalsRecordTheChannels` | CL_global_snapshot.cpp:80-90 | in every run, at every process and time, the rule applied to what the process has heard records each channel as the run does |
| `CutArrivals.DaemonRecordsTheChannels` | CL_global_snapshot.cpp:91-160 | the lazy recording of a process that has heard all markers holds the recorded channels of the run |
| `Locks.OpsTouch` | reliable_multicast.cpp:165-215 | the operations of a routine touch exactly the shared data that the routine reads or writes |
| `Locks.RoutineBalanced` | reliable_multicast.cpp:165-215 | every routine takes mutexes along one order, releases what it took, and touches shared data only while it holds their mutex |
| `Locks.AccessIsGuarded` | reliable_multicast.cpp:177-187 | in every state of every run a thread about to touch shared data holds their mutex |
| `Locks.NoDataRace` | reliable_multicast.cpp:177-187 | two threads are never about to touch the same shared data |
| `SharedData.UntouchedIsIgnored` | reliable_multicast.cpp:76-357 | whatever stands in shared data that the routine of an event does not touch, the event sends the same packets and changes the rest in the same way |
| `SharedData.ChangedIsTouched` | reliable_multicast.cpp:76-357 | shared data that an event changes are touched by its routine |
| `SharedData.BufferingIsTouched` | reliable_multicast.cpp:42-50 | a packet is buffered only by a routine that touches flag and buffer |
| `SharedData.MarkerIsTouched` | CL_global_snapshot.cpp:119-141 | emptying the buffer and flipping the flag are done by routines that touch them |
| `SharedData.LocalStateIsTouched` | reliable_multicast.cpp:669-689 | the copy of the local state depends only on data touched while it is made |
| `Locks.CriticalSections` | reliable_multicast.cpp:165-215 | acks are handled, and data watchdogs decide, while ackHistoryMutex is held throughout; packets are buffered under the flag that says so; the delivery loop keeps the queue |
| `Locks.OwnMutex` | reliable_multicast.h:142-146 | every container has a mutex of its own |
| `Locks.NoCircularWait` | reliable_multicast.cpp:165-215 | in every state of every run, following from each thread the one it waits for never leads back to the start |
| `Locks.SomebodyCanStep` | reliable_multicast.cpp:165-215 | any number of threads running these routines never deadlock: some thread can always go on |

## Left out

- Sockets, name lookup and TCP accept and connect (networkagent.cpp): replaced by the set of packets in flight and by the arrivals handed to the snapshot daemon.
- `wait_to_sync` in waittosync.cpp: all hosts are taken to be up, with distinct ids.
- Argument parsing in main.cpp, all printing, debug output and scripts.
- Real time, delays and random drops: any packet may be lost or delayed at any step.
- The outbound channel state of the snapshot: the algorithm needs the inbound channels only, and `handle_message` files outbound packets by a field of the message and not by destination.
- The contents of the copied local state: `get_local_state_snapshot` locks queue and delivered list one after the other, so a delivery between the two shows in both; the model records the moment, not the copies, and takes it as one step.
- Interleaving inside a handler, which the unguarded `curr_seq_number` would allow: a handler is one step.
- Buffer sizes of `recv`, and counters that overflow.
- In `Locks` a routine is the sequence of its locks, unlocks and touches of shared data. `curr_seq_number` and `alreadyAckedMessages` have no mutex in the program and are not among these data; paths that end the program, and the printing of the queue in debug builds, are not among them.
- Crashes, and a second initiator while a snapshot is under way.
- A variant of the protocol in which clocks move past learnt numbers: it is not what the program does.
- serializer.h and playground/: duplicates and experiments.
- `PrefixOrder.PrefixAgreement`: assumes that no number and proposer repeat, since the heap leaves the order of equal keys open; `PrefixOrder.EqualExactlyWhenAlike` covers ties.
- `Progress.Progress`: states that a finishing continuation exists from every reachable state, since a network that loses every packet for ever delivers nothing.
- `OrderedCut.NothingFromTheFuture`: the algorithm's own assumption on one channel; `ConsistentCut` says what remains without it.
