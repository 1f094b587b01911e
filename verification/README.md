# SEMS core: state machines, buffers and clocks

This project models the hard core of SEMS, a SIP media and application server, and proves what its
signalling, event and media code keeps over whole runs. The parts are:

- **Event delivery** (`EventDelivery`): event queues, their pending flag, and the worker thread that drains them.
  Posters, registration and the worker interleave freely; each step is one critical section.
- **Back-to-back relay** (`B2BRelay`): two call legs relaying requests and replies, with CSeq translation. The model
  is one direction of requests with a channel each way; the other direction is its mirror image.
- **Jitter buffer** (`Serial32`, `JitterSpec`, `JitterBuffer`): a fixed packet pool threaded into a doubly linked list
  and a free list, refining a specification on sequences, with 32-bit serial-number timestamps.
- **Time scaling** (`TimeScale`): the WSOLA loop that stretches or shrinks one packet in place.
- **Media scheduling** (`MediaScheduler`): call groups bound to threads, with a request queue per thread. A call is
  two steps, its map update and its post.
- **Multipart bodies** (`Multipart`): the boundary scanner, the splitter and the printer.
- **DTMF sending** (`DtmfSender`): the telephone-event sender of section 2.5.1 of RFC 4733.
- **Application timers** (`AppTimer`): expiry racing against set, reset and remove.
- **Event dispatching** (`EventDispatcher`): hashed tables refining two mutually inverse maps.
- **Offer/answer** (`OfferAnswer`): the state machine of RFC 3264 and section 13.2.1 of RFC 3261.
- **Reliable provisional responses** (`Reliable1xx`): sections 3 and 4 of RFC 3262.
- **Wallclock** (`WallClock`): 48-bit time scaled to 32-bit sample clocks, and the packet interval.
- **Conference mixer** (`Mixer`): mix-minus and the adaptive gain.

`Collections` holds what several modules share. Each of the others has the same shape: a specification on values
comes first, then an invariant that every step keeps, then a theorem over all runs, then a class that updates fields,
arrays or linked objects in place and is proved equal to the specification. Histories (what was posted, sent or
written) are part of the specification state and ghost in the classes.

Where a promise does not hold of the code, the model keeps the code. A lemma gives a run that shows it, and the
condition under which the promise holds is proved:

- The "too late" refusal of the jitter buffer fires only for packets about half the timestamp circle ahead
  (`JitterSpec.RefusedExactly`). Packets that really are late are stored and thrown away later by `get`.
- A stream found early is moved forward by the distance to the newest packet on top of the offset it has, so it
  lands where a first `get` would put it only if that offset was zero (`JitterSpec.EarlyMovesForward`).
- The boundary scanner does not look again at a byte that breaks a match. The round trip holds exactly for parts that
  leave the scanner ready (`Multipart.SplitPrinted`); a part that ends in a lone CR is lost.
- `AmSession::finalize` does not set the finalized flag. A post between the end of a cycle and the unregistering
  finalizes such a queue twice (`EventDelivery.FinalizedTwice`). A queue that sets the flag is finalized once, and any
  other exactly when it is not listed again at the moment it is unregistered (`EventDelivery.FinalizedOnce`,
  `EventDelivery.FinalizedAgain`).
- A relayed final reply that cannot be sent is gone (`B2BRelay.LostReply`), and a relay that failed leaves an entry
  behind through which a reply to another request can be sent for that one (`B2BRelay.StaleEntryMisrelays`). Both
  concern only requests whose final reply was lost (`B2BRelay.RunAccounts`). With `IgnoreNotifyLowerCSeq` on, two
  NOTIFYs can share a CSeq, and a reply goes to the wrong one (`B2BRelay.LowerNotifyMisrelays`).
- The scheduler posts a request after it has released the lock, so the posts of two calls on one session can overtake
  each other. An addition overtaken by a removal leaves the session in a thread no map knows of
  (`MediaScheduler.OverlapMisplaces`). A removal overtaken by an addition to the same thread leaves it registered and in
  no thread (`MediaScheduler.OverlapLoses`). Two removals that change places do no harm. An arrival keeps the
  invariant exactly when it agrees with the posts it overtakes, or its thread has thrown the session out by itself
  (`MediaScheduler.ArrivedExactly`, over runs `MediaScheduler.RunInv`).
- Adding a session to the scheduler keeps the maps consistent exactly when it was not registered
  (`MediaScheduler.AddedConsistent`); added twice, it leaves a group behind that nobody can remove
  (`MediaScheduler.AddedTwiceLeaks`).
- An event posted by dialog id goes to another dialog if the tag is registered again between the two look-ups
  (`EventDispatcher.StaleTagMisroutes`, exact condition in `EventDispatcher.PostedLate`).
- The dialog id runs Call-ID and remote tag together without a boundary, so two different dialogs can share one
  (`EventDispatcher.RunTogether`, exact condition in `EventDispatcher.SharedId`).
- A completed offer/answer exchange is discarded by an ACK or an error reply with a body of its own
  (`OfferAnswer.CompletedDiscarded`); `OfferAnswer.TransactionEnds` gives the exact condition.
- The flag `rseq_confirmed` is not reset for later reliable 1xx, so only the first one gates a 2xx, although the
  error text speaks of the last (`Reliable1xx.LaterPrackNotAwaited`, exact condition in `Reliable1xx.SuccessGate`).
- Sample clocks keep the advertised rate exactly for multiples of 100 (`WallClock.RateKept`).
- A conference channel that writes a position twice hears its own first sample (`Mixer.OverwrittenIsHeard`).

## Model

| member | source | states |
|---|---|---|
| `EventDelivery.NextInv` | core/AmEventQueueProcessor.cpp:103-154 | each step of posters, registration and worker keeps: waiting events imply the pending flag, a pending registered queue is listed or being drained, listed queues imply the wake-up condition, FIFO accounting, reference counts |
| `EventDelivery.RunInv` | core/AmEventQueue.cpp:52-98 | the same in every state of every interleaving, so events are handled exactly once and in posting order, and a queue whose finalize sets the flag is finalized at most once |
| `EventDelivery.RunFromStart` | core/AmEventQueueProcessor.cpp:95-98 | the same for every run from a fresh worker and fresh queues |
| `EventDelivery.QuiescentIsDrained` | core/AmEventQueueProcessor.cpp:112-140 | no lost wakeup: when the worker sleeps and is not signalled, every registered queue is empty, all it was posted has been handled, and the worker holds no reference to it |
| `EventDelivery.PostDoes` | core/AmEventQueue.cpp:52-72 | a post appends its event to the one queue, and other queues, the handled events and the worker are as before |
| `EventDelivery.SetSinkDoes` | core/AmEventQueue.cpp:138-146 | a registered queue is listed if and only if it is pending, with a reference taken and the worker woken; other queues are as before |
| `EventDelivery.WorkerRests` | core/AmEventQueueProcessor.cpp:112-140 | left alone, the worker comes to rest: a bound on the number of its steps, whatever the handlers do |
| `EventDelivery.WorkerCan` | core/AmEventQueueProcessor.cpp:112-140 | it is never stuck: it has a step to make unless it sleeps with nothing to do or has exited |
| `EventDelivery.Delivered` | core/AmEventQueueProcessor.cpp:103-140 | an event posted in any reachable state is handled, once and after all posted before it, by the time the worker rests, if its queue is registered then |
| `EventDelivery.FinalizedTwice` | core/AmSession.cpp:430-447 | a run in which a queue that does not mark itself is finalized twice |
| `EventDelivery.FinalizedOnce` | core/AmEventQueueProcessor.cpp:127-131 | in every run a queue, sessions included, is finalized at most once if it is not listed again whenever the worker unregisters it and not registered again afterwards |
| `EventDelivery.FinalizedAgain` | core/AmEventQueueProcessor.cpp:120-140 | conversely, a session listed again when it is about to be unregistered is finalized twice more by the time the worker has done with it, in every run in which its later cycles refuse |
| `EventDelivery.EventQueue.PostEvent` | core/AmEventQueue.cpp:52-72 | appends the event, sets the flag, and notifies the sink exactly on the flag's rising edge |
| `EventDelivery.EventQueue.SetEventNotificationSink` | core/AmEventQueue.cpp:138-146 | a sink registered on a pending queue is notified at once |
| `EventDelivery.EventQueue.ProcessEvents` | core/AmEventQueue.cpp:74-98 | while others post at every turn, handles everything queued and posted meanwhile, in order, then clears the flag; those posts notify nobody |
| `EventDelivery.Worker.Notify` | core/AmEventQueueProcessor.cpp:103-110 | lists the queue, takes a reference and wakes the worker |
| `EventDelivery.Worker.PickQueue` | core/AmEventQueueProcessor.cpp:120-140 | takes the first listed queue, or goes to sleep exactly when none is listed |
| `EventDelivery.Worker.RunQueue` | core/AmEventQueueProcessor.cpp:127-132 | a queue whose cycle ends is unregistered and finalized unless its flag is set, with or without a finalize that sets it, and the reference is dropped |
| `B2BRelay.NextInv` | core/AmB2BSession.cpp:335-402 | every step of either leg, finalize and transaction termination included, keeps the invariant: stored requests, stored copies, both channels and the reply log agree |
| `B2BRelay.RunInv` | core/AmB2BSession.cpp:175-239 | the invariant holds after any legal run in which no CSeq is accepted twice |
| `B2BRelay.RunAccounts` | core/AmB2BSession.cpp:494-517 | after any run in which no CSeq is accepted twice, request by request: one that waits is in the channel, stored at the peer, or has its final reply on the way back, and relayed replies were sent for the request whose copy they answer; the only exceptions are requests a final reply for which could not be sent |
| `B2BRelay.AscendingIsFresh` | core/AmBasicSipDialog.cpp:297-320 | a run that lets no NOTIFY through at or below the last CSeq accepts no CSeq twice |
| `B2BRelay.SwitchedOff` | core/AmBasicSipDialog.cpp:299-310 | with IgnoreNotifyLowerCSeq off no run lets such a NOTIFY through |
| `B2BRelay.RunOneFinal` | core/AmBasicSipDialog.cpp:552-586 | no request is sent two final replies in any such run |
| `B2BRelay.FinalizeAnswers` | core/AmB2BSession.cpp:132-145 | once the client leg is finalized every waiting request is still in the channel to it or has its final reply in the channel back |
| `B2BRelay.TerminationAnswers` | core/AmBasicSipDialog.cpp:412-427 | once the server leg has terminated its transactions no request waits: each got a final reply or lost it |
| `B2BRelay.RelayDoes` | core/AmB2BSession.cpp:180-239 | a request is answered by the leg itself if and only if it has no hops left, is an INVITE while an INVITE is open, is a BYE for a dialog not connected, or cannot be sent, with 483, 491, 200 or the error code; any other is stored and sent as a copy under the next CSeq, which becomes a transaction of its verb |
| `B2BRelay.DeliverRequestDoes` | core/AmB2BSession.cpp:776-825 | as a step of the machine: the request leaves the channel, and a reply enters the other one if and only if it was answered locally |
| `B2BRelay.RxRequestDoes` | core/AmBasicSipDialog.cpp:325-382 | a request with a fresh CSeq that passes all checks waits with its transaction open and is on its way to the peer; one that cannot be posted is answered with 500; one at or below the last CSeq changes nothing |
| `B2BRelay.RxReplyDoes` | core/AmB2BSession.cpp:470-517 | a reply to a relayed request, other than 100, is passed on under the CSeq of the original; the entry goes with a final reply, but at a 2xx to an INVITE waits for the ACK |
| `B2BRelay.OwnReplyDoes` | core/AmB2BSession.cpp:470-541 | a reply to a request of the leg's own is reported, not passed on, under the CSeq at the peer if and only if it is for the establishing INVITE |
| `B2BRelay.DeliverReplyDoes` | core/AmB2BSession.cpp:241-280 | the reply is sent for the request waiting under its CSeq, and a final one ends that request and its transaction; one that cannot be sent leaves the request waiting, and if final it is lost |
| `B2BRelay.DeliverAckDoes` | core/AmB2BSession.cpp:826-861 | an ACK that is sent drops the entry and the transaction of its INVITE |
| `B2BRelay.ResendDoes` | core/AmB2BSession.cpp:452-467 | a request sent again with credentials goes on standing for the original: the reply to the new copy is passed on as the reply to the old one would have been |
| `B2BRelay.FinalizedDoes` | core/AmB2BSession.cpp:132-142 | a leg that ends answers every stored request with 481 |
| `B2BRelay.TerminatedDoes` | core/AmBasicSipDialog.cpp:412-427 | every open transaction gets its 481, but for those whose reply cannot be sent |
| `B2BRelay.RelayedEndToEnd` | core/AmB2BSession.cpp:335-402 | from every state with empty channels a request that is let through reaches the far side under a CSeq of its own, and the reply to that copy is sent for the request, once |
| `B2BRelay.LostReply` | core/AmB2BSession.cpp:863-905 | a run in which a final reply cannot be sent, so its request is accounted for nowhere |
| `B2BRelay.StaleEntryMisrelays` | core/AmB2BSession.cpp:789-819 | a run in which a relay fails, its error reply is lost, and the 200 to the BYE of the tear-down is sent as the answer to the original request |
| `B2BRelay.LowerNotifyMisrelays` | core/AmBasicSipDialog.cpp:297-320 | a run, with lower NOTIFY CSeqs accepted, in which a reply is sent for the wrong request |
| `B2BRelay.Session.OnRxRequest` | core/AmBasicSipDialog.cpp:325-382 | the CSeq check, the new transaction, forwarding, and storing only what was posted, as the specification says |
| `B2BRelay.Session.SendReply` | core/AmBasicSipDialog.cpp:602-665 | fails without a transaction; a final reply ends the transaction and the stored request |
| `B2BRelay.Session.OnB2BReply` | core/AmB2BSession.cpp:175-239 | sends the reply for the stored request of its CSeq, and tears down when that fails |
| `B2BRelay.Session.OnB2BRequest` | core/AmB2BSession.cpp:180-239 | the step `B2BRelay.RelayDoes` describes: answered with 483, 491, 200 or the error code exactly in its four cases, otherwise sent under a fresh CSeq with the original stored under it |
| `B2BRelay.Session.OnB2BAck` | core/AmB2BSession.cpp:776-861 | finds the stored INVITE the ACK belongs to and drops it when the ACK is sent |
| `B2BRelay.Session.OnRxReply` | core/AmB2BSession.cpp:470-541 | passes a reply on under the original CSeq of its request, or reports it under the CSeq of the establishing INVITE at the peer; a final reply drops the entry |
| `B2BRelay.Session.UpdateUacTransCseq` | core/AmB2BSession.cpp:452-467 | moves the stored original and the establishing INVITE from the old CSeq to the new one |
| `B2BRelay.Session.AnswerRelayed` | core/AmB2BSession.cpp:132-142 | with a peer, answers every stored request with 481 and leaves none; without one keeps them all |
| `B2BRelay.Session.Finalize` | core/AmB2BSession.cpp:132-145 | the finalize step of the machine on both sides of a leg: stored requests answered, open transactions ended, the leg closed |
| `B2BRelay.Session.TermUasTrans` | core/AmBasicSipDialog.cpp:412-427 | replies 481 to every open transaction and ends each, whichever of the replies can be sent |
| `Serial32.SerialOrder` | core/SampleArray.cc:40-44 | within half the circle the serial comparison is the order of distances from a common base |
| `JitterSpec.RefusedExactly` | core/AmJitterBuffer.cpp:98-115 | put refuses a packet exactly when it lies about half the circle ahead of the newest one |
| `JitterSpec.PutConserves` | core/AmJitterBuffer.cpp:116-157 | a refused packet changes nothing; any other joins the stored ones, and only a full pool loses one, the head |
| `JitterSpec.InsertedSorted` | core/AmJitterBuffer.cpp:129-147 | the backward search keeps the list in serial order while old and new timestamps share half the circle |
| `JitterSpec.PutSane` | core/AmJitterBuffer.cpp:93-157 | put keeps the pool bound and the jitter range, and never lowers the jitter estimate |
| `JitterSpec.GetSane` | core/AmJitterBuffer.cpp:164-250 | get leaves a suffix of the list and keeps the jitter estimate |
| `JitterSpec.RunInvariant` | core/AmJitterBuffer.cpp:93-250 | after any puts and gets the list fits the pool, the jitter estimate is within its bounds and never below where it started, and the list is sorted if the run stays within half the circle |
| `JitterSpec.UnsortedOutsideWindow` | core/SampleArray.cc:40-44 | a sorted list and a packet beyond half the circle whose insertion leaves the list unsorted |
| `JitterSpec.PrunedCut` | core/AmJitterBuffer.cpp:219-229 | pruning cuts before the first packet that does not end before the playout point |
| `JitterSpec.DrainSettles` | core/AmPlayoutBuffer.cpp:539-561 | only the first get of a drain may resynchronise the clocks |
| `JitterSpec.DrainDelivers` | core/AmPlayoutBuffer.cpp:539-561 | draining hands out exactly the packets of a prefix of the list that do not end before the playout point, and stops at a head that is not due |
| `JitterSpec.DrainOrdered` | core/AmJitterBuffer.cpp:230-244 | drained packets leave in timestamp order, each starting before ts+ms and not ending before ts on the audio clock |
| `JitterSpec.MappedDue` | core/AmJitterBuffer.cpp:216-241 | the guards on the RTP clock are the guards on the audio clock |
| `JitterSpec.FirstSync` | core/AmJitterBuffer.cpp:174-183 | the first get, and a forced one, puts the playout point jitter samples before lastTs + ms |
| `JitterSpec.EarlyMovesForward` | core/AmJitterBuffer.cpp:184-195 | a stream found early moves the offset forward by lastTs - ts + ms; the playout point lands where a first get puts it if and only if the old offset was zero |
| `JitterSpec.LateHalves` | core/AmJitterBuffer.cpp:196-208 | a stream found late is counted, and beyond the threshold half of its excess over the ideal offset goes |
| `JitterSpec.OnTimeSettles` | core/AmJitterBuffer.cpp:209-215 | a stream found in time keeps its offset and is no longer counted late; without a review only the audio clock moves |
| `JitterSpec.JitterMidpoint` | core/AmJitterBuffer.cpp:98-109 | the jitter estimate moves half way to the distance a packet is ahead, up to its bound, and otherwise stays |
| `JitterSpec.PutNewest` | core/AmJitterBuffer.cpp:148-154 | the newest timestamp is the later of the old one and the packet's, or the packet's when a talk spurt begins |
| `JitterSpec.LonePacket` | core/AmJitterBuffer.cpp:164-250 | a get n samples after the first leaves a lone packet alone if and only if n + 2 * ms is within the jitter; otherwise the packet leaves, with an audio timestamp jitter - ms after the first get, or is thrown away if it ended before the playout point |
| `JitterSpec.FirstPacket` | core/AmJitterBuffer.cpp:93-250 | the same at the first get of a packet put into an empty buffer |
| `JitterSpec.LeavesWhenDue` | core/AmJitterBuffer.cpp:164-250 | over any gets, the packet leaves at the first one beyond the jitter |
| `JitterBuffer.Buffer.constructor` | core/AmJitterBuffer.cpp:57-64 | all packets of the pool are on the free list |
| `JitterBuffer.Buffer.Covered` | core/AmJitterBuffer.cpp:57-84 | list, free list and the packet in hand partition the pool |
| `JitterBuffer.Buffer.Alloc` | core/AmJitterBuffer.cpp:66-77 | unlinks the first free packet; fails exactly when none is free |
| `JitterBuffer.Buffer.Free` | core/AmJitterBuffer.cpp:79-84 | the packet heads the free list |
| `JitterBuffer.Buffer.Search` | core/AmJitterBuffer.cpp:138-138 | the pointer walk stops where the specification inserts |
| `JitterBuffer.Buffer.InsertBefore` | core/AmJitterBuffer.cpp:136-147 | the pointer updates splice the packet in and keep both lists well formed |
| `JitterBuffer.Buffer.RecycleHead` | core/AmJitterBuffer.cpp:117-122 | with the pool exhausted the head is unlinked and reused, and the list stays well formed |
| `JitterBuffer.Buffer.Put` | core/AmJitterBuffer.cpp:93-157 | the linked structure stays well formed and holds what the specification of put says |
| `JitterBuffer.Buffer.Prune` | core/AmJitterBuffer.cpp:218-229 | frees exactly the packets the specification prunes |
| `JitterBuffer.Buffer.Resync` | core/AmJitterBuffer.cpp:174-215 | the clock offset after get, with 32-bit arithmetic, is that of the specification, which `JitterSpec.FirstSync`, `JitterSpec.EarlyMovesForward`, `JitterSpec.LateHalves` and `JitterSpec.OnTimeSettles` pin down |
| `JitterBuffer.Buffer.Get` | core/AmJitterBuffer.cpp:164-250 | packet returned and new state are those of the specification, for which `JitterSpec.LeavesWhenDue` says when a packet leaves, and the structure stays well formed |
| `JitterBuffer.Buffer.PrepareBuffer` | core/AmPlayoutBuffer.cpp:539-561 | the loop ends and returns the drained packets |
| `TimeScale.FindBestCorr` | core/AmPlayoutBuffer.cpp:360-380 | the first candidate of greatest correlation, or the template itself when none is positive |
| `TimeScale.RegionFits` | core/AmPlayoutBuffer.cpp:426-452 | template and candidates stay inside the buffer, and a splice changes the length by a bounded amount |
| `TimeScale.ShiftBound` | core/AmPlayoutBuffer.cpp:428-441 | the shift of the search region is within the bounds the loop relies on |
| `TimeScale.Playout.Splice` | core/AmPlayoutBuffer.cpp:457-481 | the buffer is spliced: the cross fade sample by sample, then the audio after the candidate, and no other position changed |
| `TimeScale.Playout.Turn` | core/AmPlayoutBuffer.cpp:420-487 | a turn fails if and only if there is no candidate, and then changes nothing; otherwise the first candidate of greatest correlation is spliced in at the template and the length changes by their distance, within the buffers |
| `TimeScale.Playout.Scale` | core/AmPlayoutBuffer.cpp:382-513 | terminates at every rate, and stops only for one of four reasons, each stated: the ratio is reached, the template is near the end, no candidate is left, or the fade weight is at most one half; the length changes if some candidate of the first turn correlates positively; length bounds for expansion and compression; audio outside the packet untouched; last sample kept, first sample kept when the template is not empty |
| `TimeScale.Playout.Enough` | core/AmPlayoutBuffer.cpp:489-510 | the loop goes on only with the end at least a template and a step away and a fade weight above one half, and each way of stopping means what it says |
| `TimeScale.SplicedKeeps` | core/AmPlayoutBuffer.cpp:457-487 | a splice keeps all audio outside the packet and its last sample, and its first one if the template is not empty |
| `TimeScale.FirstTurn` | core/AmPlayoutBuffer.cpp:420-452 | with a positively correlated candidate the first turn succeeds and picks a candidate, before the template when stretching and behind it when shrinking |
| `MediaScheduler.AddBegunInv` | core/AmMediaProcessor.cpp:83-115 | the map update of adding an unregistered session keeps maps and replayed queues, posts in flight included, consistent |
| `MediaScheduler.RemoveBegunInv` | core/AmMediaProcessor.cpp:143-169 | so does the map update of removing any session |
| `MediaScheduler.ArrivedExactly` | core/AmMediaProcessor.cpp:117-119 | an arriving post keeps the invariant if and only if it agrees with the posts in flight it overtakes, or the thread it is for has thrown the session out by itself |
| `MediaScheduler.LeftUnregistered` | core/AmMediaProcessor.cpp:143-172 | removing an unregistered session changes no map |
| `MediaScheduler.AddedConsistent` | core/AmMediaProcessor.cpp:83-120 | adding a session keeps the three maps consistent if and only if it was not registered |
| `MediaScheduler.NextInv` | core/AmMediaProcessor.cpp:301-355 | a step, also a thread working off a request or clearing a session itself, keeps the invariant if and only if it is not the arrival of a post that does harm |
| `MediaScheduler.RunInv` | core/AmMediaProcessor.cpp:83-172 | a run in which clients add only unregistered sessions keeps the invariant in every state if and only if no post in it does harm on arrival |
| `MediaScheduler.ApartRunInv` | core/AmMediaProcessor.cpp:115-119 | in particular after any run in which no call on a session begins while another one on it has its post in flight |
| `MediaScheduler.OverlapMisplaces` | core/AmMediaProcessor.cpp:117-119 | from every state, an addition whose post is overtaken by that of a removal leaves the session in a thread no map knows of |
| `MediaScheduler.OverlapLoses` | core/AmMediaProcessor.cpp:169-171 | from every state, a removal whose post is overtaken by that of a new addition to the same thread leaves the session registered and in no thread |
| `MediaScheduler.AloneIsTwoSteps` | core/AmMediaProcessor.cpp:83-120 | a call with no other in flight is its two steps |
| `MediaScheduler.GroupShares` | core/AmMediaProcessor.cpp:83-120 | all members of a call group are assigned one thread |
| `MediaScheduler.Quiescent` | core/AmMediaProcessor.cpp:137-172 | with all posts arrived and all requests worked off a session is in at most the thread of its group, and it is there unless that thread cleared it |
| `MediaScheduler.AddDoes` | core/AmMediaProcessor.cpp:83-120 | a session is registered in the group it names and sent to the thread the others of the group are in; a group without sessions gets the first of the threads that hold the fewest; nobody else moves |
| `MediaScheduler.RemoveDoes` | core/AmMediaProcessor.cpp:143-172 | a session is taken out of the maps, the thread it was assigned to is told, and nobody else moves |
| `MediaScheduler.SelfClearDoes` | core/AmMediaProcessor.cpp:282-299 | a thread that clears a session itself will no longer hold it; the maps and the other threads are as before |
| `MediaScheduler.Settles` | core/AmMediaProcessor.cpp:301-355 | from every state that keeps the invariant the posts and requests outstanding can be worked off, and then each session no thread has thrown out is in the thread of its group and in no other |
| `MediaScheduler.AddedTwiceLeaks` | core/AmMediaProcessor.cpp:83-120 | adding a registered session again leaves a group without sessions |
| `MediaScheduler.LeastLoaded` | core/AmMediaProcessor.cpp:98-106 | the first thread whose load no other undercuts |
| `MediaScheduler.Scheduler.AddSession` | core/AmMediaProcessor.cpp:83-120 | the new maps and queues are those of the specification |
| `MediaScheduler.Scheduler.RemoveFromProcessor` | core/AmMediaProcessor.cpp:143-172 | likewise, with the entries that map look-ups insert and erase |
| `MediaScheduler.Scheduler.ChangeCallgroup` | core/AmMediaProcessor.cpp:137-141 | a removal followed by an addition |
| `MediaScheduler.Scheduler.Process` | core/AmMediaProcessor.cpp:301-355 | the thread works off the head of its queue |
| `Multipart.FindSound` | core/AmMimeBody.cpp:376-507 | for all inputs a reported delimiter stands in the text, carries the whole boundary, and is final exactly as reported |
| `Multipart.FindExact` | core/AmMimeBody.cpp:376-507 | a part is ended at the delimiter that follows it exactly when reading the part leaves the scanner ready |
| `Multipart.FindCut` | core/AmMimeBody.cpp:500-507 | after a clean part a delimiter at the end of the buffer is found even when its closing characters are cut short, if and only if one of them is there |
| `Multipart.FindNextBoundary` | core/AmMimeBody.cpp:376-507 | the scanner loop computes the specified delimiter |
| `Multipart.ParseMultipart` | core/AmMimeBody.cpp:561-604 | the splitting loop returns the specified part texts |
| `Multipart.SplitPrinted` | core/AmMimeBody.cpp:826-853 | splitting a printed body gives back its parts, in order and complete, if and only if every part is clean |
| `Multipart.SplitPrint` | core/AmMimeBody.cpp:826-853 | the same for the printed form of a tree of bodies |
| `Multipart.PlainIsClean` | core/AmMimeBody.cpp:399-507 | parts in which every CR is followed by LF and no line starts with a hyphen are clean |
| `Multipart.TrailingCrIsLost` | core/AmMimeBody.cpp:406-416 | a part ending in a lone CR does not survive the round trip |
| `Multipart.FirstDelimiter` | core/AmMimeBody.cpp:401-404 | a buffer may begin with its first delimiter, without CRLF |
| `DtmfSender.Send` | core/AmDtmfSender.cpp:49-122 | one call ends and emits at most one packet |
| `DtmfSender.Sender.QueueEvent` | core/AmDtmfSender.cpp:40-46 | appends one event, whose duration is the true number of samples if and only if duration times rate fits 32 bits, and shorter otherwise |
| `DtmfSender.Sender.SendPacket` | core/AmDtmfSender.cpp:49-122 | the loop ends and agrees with the specification |
| `DtmfSender.RunGrammatical` | core/AmDtmfSender.cpp:49-122 | over any run with increasing timestamps and durations below 65536 the packets are a prefix of the events' blocks in queue order: one timestamp, growing durations, marker on the first only, three end packets of full duration |
| `DtmfSender.SendsUnlessFinished` | core/AmDtmfSender.cpp:49-122 | a call emits one packet, unless the queue is empty and no event is in hand, and then none |
| `DtmfSender.FinishedComplete` | core/AmDtmfSender.cpp:49-122 | when nothing is left to send, the packets sent are the full blocks of all the events queued |
| `DtmfSender.Drains` | core/AmDtmfSender.cpp:49-122 | however the events were queued, after more further calls than packets are due the packets sent are the full blocks of all of them |
| `AppTimer.NextInv` | core/AmAppTimer.cpp:79-161 | every step keeps: a timer in force is armed or about to call back, an armed one that is not in force has its removal requested, no inner map is empty, each timer object posts at most once |
| `AppTimer.RunInv` | core/AmAppTimer.cpp:165-216 | the same after any interleaving of set, remove, expiry, callback and late removal from the wheel |
| `AppTimer.RetiredNeverPosts` | core/AmAppTimer.cpp:79-105 | a replaced or removed timer object never posts, even when it still expires |
| `AppTimer.RemovedIsSilent` | core/AmAppTimer.cpp:193-201 | after a removal nothing is posted for the key until it is set again |
| `AppTimer.SetTakes` | core/AmAppTimer.cpp:165-191 | a timer that is set is in force for its key, armed and not to be removed; the one it replaces is to be removed and no longer in force; no other key is touched |
| `AppTimer.RemoveTakes` | core/AmAppTimer.cpp:193-216 | removing retires exactly the timers of the key, or of the queue, and asks the wheel for them |
| `AppTimer.SetFires` | core/AmAppTimer.cpp:79-105 | over any run, a timer that is set, and neither set again nor removed, stays in force until its callback, and with it posts exactly one timeout, for its key |
| `AppTimer.StandingExpires` | core/AmAppTimer.cpp:79-105 | at any time a timer in force can expire, and that posts its timeout |
| `AppTimer.Service.EraseTimer` | core/AmAppTimer.cpp:133-149 | erases the entry and an inner map that becomes empty |
| `AppTimer.Service.SetTimer` | core/AmAppTimer.cpp:165-191 | replaces the timer of the key by a new armed one, as `AppTimer.SetTakes` describes |
| `AppTimer.Service.RemoveTimer` | core/AmAppTimer.cpp:193-201 | takes the timer out of the map and asks the wheel to remove it |
| `AppTimer.Service.RemoveTimers` | core/AmAppTimer.cpp:203-216 | the same for all timers of the queue |
| `AppTimer.Service.AppTimerCb` | core/AmAppTimer.cpp:79-105 | posts exactly when the map still holds this object |
| `EventDispatcher.AddedInverse` | core/AmEventDispatcher.cpp:57-73 | registering by tag keeps the maps mutually inverse, the queue is found under the tag, and nothing else is rerouted |
| `EventDispatcher.AddedIdInverse` | core/AmEventDispatcher.cpp:77-120 | registering by dialog id too; the queue is found under both names and nothing else is rerouted |
| `EventDispatcher.DeletedInverse` | core/AmEventDispatcher.cpp:122-152 | a deleted queue is found under neither name and nothing else is rerouted |
| `EventDispatcher.Admitted` | core/AmEventDispatcher.cpp:57-106 | a queue is admitted if and only if none of its names leads to a queue, and a dialog only with all its names |
| `EventDispatcher.AddThenDelete` | core/AmEventDispatcher.cpp:77-152 | adding and deleting restores the tables |
| `EventDispatcher.BranchMatters` | core/AmEventDispatcher.cpp:77-120 | the branch tells two dialogs apart exactly when forked dialogs are accepted |
| `EventDispatcher.SharedId` | core/AmEventDispatcher.cpp:92-95 | without branches two dialogs share an id if and only if Call-ID and tag run together to the same text; Call-IDs of one length exclude it for different dialogs |
| `EventDispatcher.SharedForkedId` | core/AmEventDispatcher.cpp:179-182 | with branches, Call-IDs of one length and tags of one length make the id tell all dialogs apart |
| `EventDispatcher.RunTogether` | core/AmEventDispatcher.cpp:92-106 | two different dialogs with one id, the second of which is refused |
| `EventDispatcher.RunDated` | core/AmEventDispatcher.cpp:57-152 | over any run of registrations and deletions the two maps stay mutually inverse |
| `EventDispatcher.PostedLate` | core/AmEventDispatcher.cpp:174-196 | an event posted by dialog id, with any operations between the two look-ups, goes to the queue that carried the id if and only if the tag is not deleted in between; otherwise it fails, or goes to the later registration of the tag |
| `EventDispatcher.StaleTagMisroutes` | core/AmEventDispatcher.cpp:285-298 | a deletion and a new registration in between that send the event to another dialog |
| `EventDispatcher.HoldsLookup` | core/AmEventDispatcher.cpp:154-171 | for every hash function, looking up in the bucket is looking up in the flat map |
| `EventDispatcher.Dispatcher.AddEventQueue` | core/AmEventDispatcher.cpp:57-73 | refines the flat addition; refused exactly when the tag is taken |
| `EventDispatcher.Dispatcher.AddEventQueueId` | core/AmEventDispatcher.cpp:77-120 | refines the flat addition under a dialog id |
| `EventDispatcher.Dispatcher.DelEventQueue` | core/AmEventDispatcher.cpp:122-152 | refines the flat deletion and returns the queue |
| `EventDispatcher.Dispatcher.Post` | core/AmEventDispatcher.cpp:154-171 | delivers to the queue of the tag, or fails when there is none |
| `EventDispatcher.Dispatcher.LookUp` | core/AmEventDispatcher.cpp:185-194 | the tag of a dialog id, under the lock of its bucket |
| `EventDispatcher.Dispatcher.PostById` | core/AmEventDispatcher.cpp:174-196 | delivers to the queue of the dialog id when nobody interferes |
| `OfferAnswer.StepInv` | core/AmOfferAnswer.cpp:118-312 | each handler keeps: answers follow an offer of the opposite direction, at most one offer is outstanding, state and CSeq are those of the history |
| `OfferAnswer.RunInv` | core/AmOfferAnswer.cpp:118-529 | the same after any run of the handlers, with states set by an application in between |
| `OfferAnswer.TransactionEnds` | core/AmOfferAnswer.cpp:111-116 | an end of the offer's transaction that succeeds leaves no offer outstanding; it keeps a completed exchange if and only if it brings no new body and no unreported completion is refused |
| `OfferAnswer.CompletedDiscarded` | core/AmOfferAnswer.cpp:157-164 | an ACK, and a final error after an early answer, with a body of its own that discard a completed exchange |
| `OfferAnswer.AnswersAreReported` | core/AmOfferAnswer.cpp:90-101 | a completion is reported exactly for the call that accepted an answer |
| `OfferAnswer.RepeatedAnswer` | core/AmOfferAnswer.cpp:365-420 | a later 183 or 2xx to an answered INVITE opens no new offer if and only if it carries a description or none can be generated |
| `OfferAnswer.RequestInTakes` | core/AmOfferAnswer.cpp:118-167 | a readable description in a request is taken up, as an offer with none outstanding and as an answer to an offer sent, and nothing else is; the request is refused exactly for a body it should not have, a description out of turn, or by the session |
| `OfferAnswer.ReplyInTakes` | core/AmOfferAnswer.cpp:169-222 | a description in a reply is ignored within the transaction of an offer received or an exchange completed, and otherwise taken up if readable, so an answer is accepted; a final error of the offer's transaction resets what is not completed |
| `OfferAnswer.RequestOutTakes` | core/AmOfferAnswer.cpp:314-356 | the description of a request sent, given or generated, is taken up; the request is held back exactly when one is needed and cannot be generated, or is out of turn |
| `OfferAnswer.ReplyOutTakes` | core/AmOfferAnswer.cpp:358-452 | likewise for a reply that is no error, with the failures that are tolerated |
| `OfferAnswer.OutgoingCall` | core/AmOfferAnswer.cpp:169-222 | an offer sent and a description in a reply below 300 complete one exchange |
| `OfferAnswer.IncomingCall` | core/AmOfferAnswer.cpp:358-452 | an offer received and a 2xx or 183 filled by the session complete one exchange |
| `OfferAnswer.DelayedOffer` | core/AmOfferAnswer.cpp:314-356 | an offer received in a 2xx is answered in the ACK |
| `OfferAnswer.AnswerInAck` | core/AmOfferAnswer.cpp:118-167 | an offer sent in a 2xx is answered by the ACK |
| `OfferAnswer.Exchange.OnRequestIn` | core/AmOfferAnswer.cpp:118-167 | state and result are those of the specification |
| `OfferAnswer.Exchange.OnReplyIn` | core/AmOfferAnswer.cpp:169-222 | state and result are those of the specification, for which `OfferAnswer.ReplyInTakes` says which descriptions are taken up |
| `OfferAnswer.Exchange.OnRxSdp` | core/AmOfferAnswer.cpp:224-279 | likewise for a received description, with its three refusals |
| `OfferAnswer.Exchange.OnTxSdp` | core/AmOfferAnswer.cpp:281-312 | likewise for a description sent |
| `OfferAnswer.Exchange.OnRequestOut` | core/AmOfferAnswer.cpp:314-356 | likewise, with the generated answer in ACK and PRACK |
| `OfferAnswer.Exchange.OnReplyOut` | core/AmOfferAnswer.cpp:358-452 | likewise, with the forced bodies and the tolerated failures |
| `OfferAnswer.Exchange.OnRequestSent` | core/AmOfferAnswer.cpp:454-468 | likewise after sending a request |
| `OfferAnswer.Exchange.OnReplySent` | core/AmOfferAnswer.cpp:470-487 | likewise after sending a reply |
| `OfferAnswer.Exchange.OnNoAck` | core/AmOfferAnswer.cpp:523-529 | likewise for a missing ACK |
| `OfferAnswer.Exchange.SetState` | core/AmOfferAnswer.cpp:67-72 | likewise for a state set by an application |
| `Reliable1xx.StepInv` | core/Am100rel.cpp:173-217 | each handler keeps: RSeq values consecutive from a start in 1..1024, the gates on the first PRACK, increasing values on the client side |
| `Reliable1xx.RunInv` | core/Am100rel.cpp:18-217 | the same after any run, whatever the mode and however it changes |
| `Reliable1xx.SuccessGate` | core/Am100rel.cpp:211-215 | a 2xx is refused if and only if the extension is active and the first numbered 1xx lacks its PRACK |
| `Reliable1xx.ProvisionalGate` | core/Am100rel.cpp:195-206 | a further 1xx is refused under the same condition |
| `Reliable1xx.PrackOfFirst` | core/Am100rel.cpp:69-79 | the confirmed flag is set exactly by the PRACK of the first 1xx |
| `Reliable1xx.RestartsAfterWrap` | core/Am100rel.cpp:195-204 | the numbering starts anew only at first use or after the 32-bit counter ran out |
| `Reliable1xx.LaterPrackNotAwaited` | core/Am100rel.cpp:204-214 | a 2xx passes while the second reliable 1xx lacks its PRACK |
| `Reliable1xx.RequestInDoes` | core/Am100rel.cpp:18-83 | an INVITE is refused if and only if one side insists on the extension and the other does not offer it, with 421 or 420; offered by both, the extension is active from then on |
| `Reliable1xx.ReplyOutDoes` | core/Am100rel.cpp:173-217 | a 1xx to an INVITE gets the next RSeq if and only if the extension is active, the application has set none and the reply is not refused; a refused reply leaves no trace |
| `Reliable1xx.ReplyInDoes` | core/Am100rel.cpp:85-149 | a reliable 1xx is reported if and only if its RSeq is above all reported before; the call is given up if and only if a 1xx lacks the extension or the number, or a PRACK fails |
| `Reliable1xx.StampsAreLogged` | core/Am100rel.cpp:195-206 | the RSeq headers put into replies over a run are those of the history, in order |
| `Reliable1xx.HeadersConsecutive` | core/Am100rel.cpp:195-206 | the RSeq headers of a dialog count up by one from a start in 1..1024 over any run, for as long as the 32 bits last |
| `Reliable1xx.Tracker.OnRequestIn` | core/Am100rel.cpp:18-83 | mode changes, error replies and PRACK bookkeeping of the specification |
| `Reliable1xx.Tracker.OnReplyOut` | core/Am100rel.cpp:173-217 | headers added, refusals and new state of the specification |
| `Reliable1xx.Tracker.OnReplyIn` | core/Am100rel.cpp:85-149 | retransmissions are ignored, a newer RSeq is reported once |
| `WallClock.NoOverflow` | core/AmAudio.cpp:499-509 | no 64-bit overflow on 48-bit time for supported rates |
| `WallClock.ScaleExact` | core/AmAudio.cpp:499-509 | for every 64-bit time and rate the 32-bit result is the exact sample count modulo 2^32 |
| `WallClock.TicksAdvance` | core/AmMediaProcessor.cpp:264-264 | n ticks advance the sample clock by n * (rate / 100) modulo 2^32 across any number of wraps |
| `WallClock.DifferenceScales` | core/AmRtpAudio.cpp:128-157 | a 64-bit unsigned difference across wraps scales to the true elapsed samples |
| `WallClock.RateKept` | core/AmAudio.h:60-70 | one second advances the clock by the rate if and only if the rate is a multiple of 100 |
| `WallClock.RateLost` | core/AmAudio.h:60-70 | 44110 samples per second run as 44100 |
| `WallClock.DuePeriodically` | core/AmRtpAudio.cpp:128-146 | checked once per tick a stream is due exactly every ceil(frame / samples per tick) ticks, also across wraps |
| `WallClock.NeverDueAgain` | core/AmRtpAudio.cpp:128-146 | below 100 samples per second only the first check is due |
| `WallClock.Pacer.CheckInterval` | core/AmRtpAudio.cpp:128-146 | the fields after a check are those of the specification |
| `WallClock.Pacer.SendIntReached` | core/AmRtpAudio.cpp:153-157 | n ticks after the last packet the next is due when n ticks of samples fill a frame |
| `Mixer.MixMinus` | core/AmMultiPartyMixer.cpp:156-189 | before the gain a channel hears the sum of all others if and only if the samples it overwrote at that position add up to zero; one write per position suffices |
| `Mixer.OverwrittenIsHeard` | core/AmMultiPartyMixer.cpp:139-143 | a channel that writes a position twice hears its first sample |
| `Mixer.MixFits` | core/AmMultiPartyMixer.cpp:221-246 | with at most 1023 samples at a position, sum and scaled product stay within 32 bits |
| `Mixer.FactorFalls` | core/AmMultiPartyMixer.cpp:244-256 | within a call the gain stays non-negative and never rises |
| `Mixer.FactorStep` | core/AmMultiPartyMixer.cpp:246-253 | a clip strictly lowers the gain |
| `Mixer.OutputNearest` | core/AmMultiPartyMixer.cpp:244-256 | the sample put out is the one nearest to the scaled value within ±32737, and a sample under gain 1 stays as it is |
| `Mixer.NewFactor` | core/AmMultiPartyMixer.cpp:246-253 | the gain after a clip is the largest that keeps the product within the limit |
| `Mixer.NoSecondClip` | core/AmMultiPartyMixer.cpp:244-256 | after a clip no later sample of the call with no larger magnitude clips |
| `Mixer.PutInv` | core/AmMultiPartyMixer.cpp:132-144 | a packet keeps: the mix is the sum of all writes, each track holds its channel's latest ones |
| `Mixer.GoneInv` | core/AmMultiPartyMixer.cpp:348-355 | a leaving channel keeps it too, its sound staying in the mix as another party's |
| `Mixer.JoinedInv` | core/AmMultiPartyMixer.cpp:342-346 | a joining channel keeps it too |
| `Mixer.MixAdd` | core/AmMultiPartyMixer.cpp:221-227 | the loop adds the samples in place |
| `Mixer.MixSub` | core/AmMultiPartyMixer.cpp:229-235 | the loop subtracts the samples in place |
| `Mixer.Conference.AddChannel` | core/AmMultiPartyMixer.cpp:67-94 | a new identifier above all others; only the first fitting buffer state gains a silent track |
| `Mixer.Conference.RemoveChannel` | core/AmMultiPartyMixer.cpp:96-113 | the channel leaves every buffer state, the mixes unchanged |
| `Mixer.Conference.FindOrCreate` | core/AmMultiPartyMixer.cpp:259-274 | the first state of the rate, holding exactly the current channels |
| `Mixer.Conference.PutChannelPacket` | core/AmMultiPartyMixer.cpp:115-154 | the packet is written to the state of the current rate and to no other |
| `Mixer.Conference.Scale` | core/AmMultiPartyMixer.cpp:237-257 | output and gain per sample, gain within 0..64, output within ±32737 |
| `Mixer.Conference.GetChannelPacket` | core/AmMultiPartyMixer.cpp:156-205 | a current channel that wrote each position at most once hears the sum of all others, scaled; any other hears silence |

## Left out

- Sockets, transport, thread creation and the wheel timer's internals: sends succeed or fail by a parameter, expiry happens at any time.
- SDP parsing and printing, MIME header parsing and URI parsing: bodies are values with a content kind, or opaque texts.
- The ring storage of SampleArray: a track is a map from unbounded positions to samples, so ring eviction and the 32-bit wrap of positions are not modelled.
- Codecs, packet loss concealment, DTMF detection, RTP relaying, configuration and audio files: not modelled.
- AmEventQueueProcessor::getWorker and thread pools: one worker is modelled, not the round robin that assigns queues to workers.
- EventDelivery.Worker.RunQueue: nobody posts between the end of the drain and the release; EventDelivery.RunInv covers those interleavings.
- AmEventQueue::processSingleEvent: not modelled; it takes one turn of the loop that is modelled.
- B2BRelay: CANCEL, the translation of RAck in PRACK, the re-INVITE of an established session, and the mapping of REFER identifiers are not modelled; ACKs are passed up only after a 2xx, as the dialog layer does.
- B2BRelay.RunAccounts: assumes a live peer, because an empty peer id makes relaying report success without posting, and events posted to a finalized leg stay in the channel.
- TimeScale.Playout.Scale: uses exact arithmetic where the source uses float, and takes the fade as any function of the index that is zero at index zero. Line 507 of the source tests the fade weight where the factor seems meant; the model tests the fade weight.
- TimeScale.FindBestCorr: sums exact integers where the source rounds floats.
- TimeScale.Playout.Splice: fades in exact arithmetic where the source uses float.
- JitterBuffer.Buffer.PrepareBuffer: returns the packets in order; writing them to the playout buffer and concealing losses are not modelled.
- AppTimer: direct timers and the arithmetic of expiry times are not modelled.
- EventDispatcher: broadcast drops its lock while iterating and is not modelled. Registration and deletion hold both locks and are one step each; posting by dialog id is two.
- EventDispatcher.Dispatcher.PostById: both look-ups without interference; EventDispatcher.PostedLate says what interference does.
- OfferAnswer: the reply or BYE that an error triggers is a later step of the run; the contents of the stored descriptions are not modelled.
- Reliable1xx: only the dialog's view; onRequestOut, which adds option tags, and onTimeout are not modelled.
- Mixer: sample rate bookkeeping, the choice of the buffer state by time stamp and the removal of outdated states are parameters, so the law holds for any choice.
- Mixer.MixAdd: sums are unbounded integers; Mixer.MixFits says when they fit 32 bits.
- Mixer.MixSub: differences are unbounded integers; Mixer.MixFits says when they fit 32 bits.
- Mixer.Conference.AddChannel: does not keep the multiset of sample rates.
- Mixer.Conference.RemoveChannel: does not keep the multiset of sample rates.
- Mixer.Conference.PutChannelPacket: the current sample rate and the position are parameters.
- Mixer.Conference.GetChannelPacket: which buffer state is read, and which are dropped afterwards, are parameters.
