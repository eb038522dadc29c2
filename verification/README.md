# A verified model of Async-DuckDB and DelegateMQ

Async-DuckDB marshals every DuckDB call to one worker thread through the DelegateMQ
messaging library. This project models the protocols the two rest on and proves
what they keep. Code that updates objects in place is modelled by classes and methods
whose contracts give the whole new state; concurrency is modelled by state machines
with one step for each critical section, and results are stated for every run.

| file | what it models |
|---|---|
| Options.dfy | a value that may be missing |
| Packets.dfy | the header and payload of a remote message |
| TransportMonitor.dfy | pending messages: capacity, acknowledgement, multi-pass drain of timeouts |
| RetryMonitor.dfy | the retry store with whole calls as steps: no leak, retries end |
| RetryProtocol.dfy | the same protocol fully interleaved: budget, physical sends, the leak |
| RetryAgreement.dfy | calls that do not overlap: the interleaved model and the whole-call one agree |
| Participant.dfy | the receiver's ring of sequence numbers and its duplicate filter |
| Delivery.dfy | dispatcher, retry protocol, unreliable channel and filter put together |
| EndToEnd.dfy | a dispatch carried through, in spite of lost transmissions |
| AsyncWait.dfy | the blocking call: semaphore, message lock, waiting flag |
| WorkerThread.dfy | the stdlib worker: two-level queue, full policies, shutdown |
| DuckProxy.dfy | RunSync and RunAsync over that worker, with DuckDB as an opaque step function |
| InvokeWait.dfy | the second handshake: early statuses and their reconciliation |
| PoolAllocator.dfy | the fixed pool with its intrusive free list |
| XAllocSize.dfy, XAllocator.dfy | power-of-two sizes, the allocator registry, block accounting, xrealloc |
| Timer.dfy | deadlines, and the intrusive timer list with lazy removal |
| Crc16Register.dfy, Crc16Table.dfy, Crc16.dfy | the CRC-16 register, its table, and what the code detects |
| Multicast.dfy | re-entrant broadcasts with lazy deletion |
| Signal.dfy | subscriptions owned by move-only handles |

Where the code and its documentation disagree the model follows the code:

- DelegateMQ/delegate/MulticastDelegate.h:20-22 promises a snapshot for each broadcast;
  the code walks the live list and skips nulled cells (`Multicast.NoSnapshot`; when it
  does call the snapshot is `Multicast.SnapshotIff`).
- DelegateMQ/extras/util/RetryMonitor.h:97-113 says that the transport's Send calls Add and
  that a failed send was never added; Add is called at line 101, before Send, so a failed
  send leaves its key pending without a store entry.
- DelegateMQ/delegate/DelegateAsyncWait.h:438-440 takes a missing success to mean that the
  target was not invoked; it may be running when the wait ends
  (`AsyncWaitRuns.TimedOutYetRan`; the exact split is `AsyncWaitRuns.ReturnedCalls`).
- DelegateMQ/extras/util/NetworkEngine.h:194-196 says that a fast ACK is never lost; that
  holds for the first eight early statuses of an id (`InvokeWait.NinthLost` and
  `EarlyAckOverruled`; the exact condition is `InvokeWait.ExactIff`).

Seven properties hold only under a condition, and the exact condition is proved:

- a stored retry entry can be left untracked, exactly when its re-registration is refused
  while it is stored and not pending (`RetryProtocol.LeakExactly` and `RoomMeansNoLeak`,
  with `LeakExample` and `StuckForever`);
- a call without success ran its target exactly when the destination got the message lock
  first (`AsyncWaitRuns.ReturnedCalls`);
- a broadcast calls the subscribers of its entry exactly when it skips none of them and
  all that were added since (`Multicast.SnapshotIff`);
- a duplicate passes the receiver's filter once SIZE other numbers have been accepted
  (`DuplicateFilter.LaterCopyRefused`, with `ForgottenCopyExample`);
- the storage of AllocatorPool is too small for objects smaller than a pointer
  (`PoolAllocator.StorageHoldsIff`);
- xallocator's block size is not the one intended when request, header and footer exceed
  2^63 together (`XAllocSize.BlockSizeLeastIff`);
- the first report for a number decides a wait exactly when the number is not reported,
  that report is not an early one after the eighth, or the first report not dropped
  carries the same status (`InvokeWait.ExactIff`); the wait stays open in spite of a
  report exactly when all its reports are dropped (`InvokeWait.LostIff`).

## Model

| member | source | states |
|---|---|---|
| DuplicateFilter.RunKeepsSpaced | DelegateMQ/extras/databus/Participant.h:302-310 | in every run of offered numbers, equal accepted numbers are more than the history size apart, and the accepted list only grows |
| DuplicateFilter.SpacedRecentDistinct | DelegateMQ/extras/databus/Participant.h:294-311 | the remembered numbers, the last min(n, SIZE) accepted, are pairwise distinct |
| DuplicateFilter.LaterCopyRefused | DelegateMQ/extras/databus/Participant.h:302-310 | a later copy of an accepted number is refused if and only if fewer than SIZE numbers were accepted since |
| DuplicateFilter.ForgottenCopyAccepted | DelegateMQ/extras/databus/Participant.h:302-310 | after SIZE other numbers the first one is accepted a second time, for every such sequence |
| DuplicateFilter.ForgottenCopyExample | DelegateMQ/extras/databus/Participant.h:294-311 | a concrete run of ten numbers in which the default history of eight lets a duplicate through |
| SeqHistoryRing.ScanFinds | DelegateMQ/extras/databus/Participant.h:302-305 | the scan of the ring finds every remembered number, whatever the turn of head |
| SeqHistoryRing.ScanSound | DelegateMQ/extras/databus/Participant.h:302-305 | a valid cell the scan hits is one of the remembered numbers |
| SeqHistoryRing.Rotate | DelegateMQ/extras/databus/Participant.h:306-308 | writing at head and advancing it modulo SIZE keeps the ring equal to the recent part of the accepted list |
| SeqHistoryRing.SeqHistory.IsDuplicate | DelegateMQ/extras/databus/Participant.h:294-311 | is_duplicate is true exactly when the number is among the last min(n, SIZE) accepted; otherwise it is appended to them |
| Participants.Participant.ProcessIncoming | DelegateMQ/extras/databus/Participant.h:62-109 | for a packet that is received with a good marker: dropped exactly if its id is not 0 and its number is among the last SIZE accepted for the id; otherwise its payload goes to the handler of its id if one is registered, and to no one if not, and the number is remembered unless the id is 0; a bad marker gives -1 and a failed receive its own code, and both change nothing |
| Participants.Participant.FilterDuplicate | DelegateMQ/extras/databus/Participant.h:83-88 | the filter's critical section creates the ring of an id on first use and offers the number to it, leaving every other id's history alone |
| MonitorKeys.MakeKeyInjective | DelegateMQ/extras/util/TransportMonitor.h:71-71 | the composite key tells ids and sequence numbers apart |
| MonitorKeys.KeyOrder | DelegateMQ/extras/util/TransportMonitor.h:71-71 | keys are ordered by id first and then by sequence number, which is the order of the map |
| TransportMonitors.AddKeepsSound | DelegateMQ/extras/util/TransportMonitor.h:68-93 | an Add keeps the capacity bound and the balance: each accepted fresh add is pending, owed a callback, or was reported once |
| TransportMonitors.RemoveKeepsSound | DelegateMQ/extras/util/TransportMonitor.h:99-133 | the entry that an acknowledgement ends, exact or by sequence number only, is one pending add and one SUCCESS; which entry that is, is stated by Remove and AckEndsOne |
| TransportMonitors.SweepKeepsSound | DelegateMQ/extras/util/TransportMonitor.h:150-178 | moving up to sixteen expired entries to the batch leaves each owed exactly one TIMEOUT and frees as much room in the map |
| TransportMonitors.FireKeepsSound | DelegateMQ/extras/util/TransportMonitor.h:181-184 | firing one TIMEOUT of the batch settles exactly that add |
| TransportMonitors.TransportMonitor.Add | DelegateMQ/extras/util/TransportMonitor.h:68-93 | true if and only if there is room, also for a key already pending; the new map, and the history of fresh adds |
| TransportMonitors.TransportMonitor.Remove | DelegateMQ/extras/util/TransportMonitor.h:99-133 | with an id, the entry of that id and number is ended if it is pending; without one, nothing is ended exactly if no pending entry has the number, and otherwise the pending entry with the smallest key that has it; the ended entry leaves the map and is one SUCCESS |
| TransportMonitors.TransportMonitor.ScanFor | DelegateMQ/extras/util/TransportMonitor.h:116-126 | nothing is found exactly if no pending entry has the number; otherwise a pending key that has it, and none smaller has |
| TransportMonitors.TransportMonitor.Sweep | DelegateMQ/extras/util/TransportMonitor.h:149-178 | one locked pass takes only entries older than the timeout, in key order: all of them, or the first sixteen, all smaller than what stays expired; the others are unchanged |
| TransportMonitors.TransportMonitor.Report | DelegateMQ/extras/util/TransportMonitor.h:180-184 | the callbacks of a batch: each entry is told once, in order, and re-added only where the subscriber asks |
| TransportMonitors.TransportMonitor.Process | DelegateMQ/extras/util/TransportMonitor.h:141-193 | reports TIMEOUT exactly once, in key order, for every entry older than the timeout and no other; what is left is no older than the timeout, and consists of the entries that had not expired and the re-added ones; takes E/16 + 1 passes for E reports |
| TransportMonitors.DrainPass | DelegateMQ/extras/util/TransportMonitor.h:145-192 | each pass extends the reported keys in order and leaves expired exactly those not yet reported, in spite of re-adds |
| MonitorRuns.FirstKeysAreBatch | DelegateMQ/extras/util/TransportMonitor.h:157-171 | the batch of the run model is the one the sweep loop takes |
| MonitorRuns.StepInv | DelegateMQ/extras/util/TransportMonitor.h:68-193 | adds and acknowledgements from any thread, also between a sweep and its callbacks, keep the capacity bound and the balance |
| MonitorRuns.EveryAddAccountedFor | DelegateMQ/extras/util/TransportMonitor.h:68-193 | in every run m_pending never exceeds its cap, and each fresh Add of a key has come to exactly one of pending, timeout about to be reported, SUCCESS, TIMEOUT |
| MonitorRuns.AddTracks | DelegateMQ/extras/util/TransportMonitor.h:68-93 | with room an added message is pending with the time of its latest add; a full map refuses it and is unchanged |
| MonitorRuns.AckEndsOne | DelegateMQ/extras/util/TransportMonitor.h:99-133 | in every run an acknowledgement of a pending message takes one key out of the map and adds one SUCCESS: that of its id and number or, without an id, that of the least id with the number; any other changes nothing |
| MonitorRuns.SweepTakesFirst | DelegateMQ/extras/util/TransportMonitor.h:149-184 | a sweep moves only entries older than the timeout to the batch, in key order, all of them or the first sixteen; each TIMEOUT told is of the next of the batch |
| RetryStore.TimeOutCosts | DelegateMQ/extras/util/RetryMonitor.h:155-204 | every branch a timeout of a stored, sent entry can take costs the store one life: the sum of attemptsRemaining + 1 strictly falls |
| RetryStore.SubmitAdds | DelegateMQ/extras/util/RetryMonitor.h:80-130 | a submission adds at most its own budget to that sum, also when it replaces an entry or is refused |
| RetryStore.RetryMonitor.SendWithRetry | DelegateMQ/extras/util/RetryMonitor.h:80-130 | with room the packet is sent and its key pending since now, without room neither; the entry is stored with the whole budget exactly if it was sent without error, and otherwise there is none; the result |
| RetryStore.RetryMonitor.OnStatusChanged | DelegateMQ/extras/util/RetryMonitor.h:133-210 | a SUCCESS or the end of the budget erases the entry; a timeout of a sent entry takes one attempt, tracks the key again and sends the stored packet if there is room, and erases the entry if not; one of an unsent entry only tracks it again; an unknown key changes nothing |
| RetryStore.RetryMonitor.Retry | DelegateMQ/extras/util/RetryMonitor.h:159-204 | a retry spends one attempt, re-adds the key and sends the stored packet, or erases the entry if the monitor is full |
| RetryRuns.StepKeepsInv | DelegateMQ/extras/util/RetryMonitor.h:80-210 | every whole call, sweep and callback keeps: stored keys are pending or in the current batch, filed under their own key, with isSent true |
| RetryRuns.NoLeak | DelegateMQ/extras/util/RetryMonitor.h:80-210 | in every run of whole calls each stored key is pending or owed a callback, and pending whenever no batch is open |
| RetryRuns.SendTracks | DelegateMQ/extras/util/RetryMonitor.h:80-130 | with room a submission transmits its packet and tracks its key since now; it is stored with the whole budget exactly if it was sent without error |
| RetryRuns.TimeoutRetries | DelegateMQ/extras/util/RetryMonitor.h:155-204 | in every run a timeout of a stored message with attempts left retransmits its own packet for one attempt and tracks it again if there is room; any other erases it |
| RetryRuns.AckSilences | DelegateMQ/extras/util/RetryMonitor.h:149-154 | in every run, once a pending message is acknowledged by id and number, nothing with its key is stored or transmitted until it is submitted anew |
| RetryRuns.RunBudget | DelegateMQ/extras/util/RetryMonitor.h:133-210 | in every run the timeouts of stored keys plus the lives left are bounded by the lives at the start plus the budget of each send |
| RetryRuns.BatchesAreRun | DelegateMQ/extras/util/TransportMonitor.h:145-192 | batches of at most sixteen, each swept and reported in turn with the re-adds in between, are a run of the model |
| RetryRuns.StoreEmpties | DelegateMQ/extras/util/RetryMonitor.h:133-210 | without new sends, one full timeout more than the largest remaining budget empties the store; a full timeout is any series of batches that tells of every stored key |
| RetryRuns.ProcessTells | DelegateMQ/extras/util/TransportMonitor.h:141-193 | Process, as passes of up to sixteen until one is not full, sweeps valid batches and tells of exactly the expired keys, with the retry monitor re-adding from its callbacks |
| RetryRuns.ProcessIsFullTimeout | DelegateMQ/extras/util/TransportMonitor.h:141-193 | one call of Process when everything stored has expired is a full timeout |
| RetryProtocol.StepBudget | DelegateMQ/extras/util/RetryMonitor.h:80-210 | each critical section, in any interleaving, keeps attemptsRemaining + retransmissions decided = maxRetries for every stored entry |
| RetryProtocol.StepAttempts | DelegateMQ/extras/util/RetryMonitor.h:80-210 | each critical section keeps all transmissions, sent or in progress, distinct attempts of their submissions with the submitted packet |
| RetryProtocol.StepCover | DelegateMQ/extras/util/RetryMonitor.h:80-210 | each critical section keeps every stored key pending, guarded by a call in progress, or orphaned by a refused re-registration |
| RetryProtocol.BudgetConserved | DelegateMQ/extras/util/RetryMonitor.h:133-210 | in every interleaving of sends, acknowledgements and timeouts, a stored entry's attempts plus its decided retransmissions equal maxRetries and its packet is the one submitted |
| RetryProtocol.PhysicalSends | DelegateMQ/extras/util/RetryMonitor.h:80-210 | each submission goes out at most 1 + max(0, maxRetries) times, every time with identical header and payload |
| RetryProtocol.LeakExactly | DelegateMQ/extras/util/RetryMonitor.h:206-209 | when no call is in progress, a stored key is not pending if and only if its re-registration was refused while it was stored and not pending, and nothing has stored, erased or added it since |
| RetryProtocol.RoomMeansNoLeak | DelegateMQ/extras/util/RetryMonitor.h:206-209 | in every run in which each re-registration finds room, every stored key is pending once no call is in progress |
| RetryProtocol.LeakExample | DelegateMQ/extras/util/RetryMonitor.h:169-209 | for any two packets with different keys and room for one, an explicit run ends with a stored entry that nothing tracks |
| RetryProtocol.StuckForever | DelegateMQ/extras/util/RetryMonitor.h:206-209 | such an entry outlives every run in which its key is not submitted again |
| RetryAgreement.SendAgrees | DelegateMQ/extras/util/RetryMonitor.h:80-130 | the critical sections of a SendWithRetry that nothing interrupts add up to the whole-call function: same pending keys, store and transmissions, in every case |
| RetryAgreement.TimeoutAgrees | DelegateMQ/extras/util/RetryMonitor.h:155-209 | so do those of a timeout callback, in each of its branches |
| RetryAgreement.AckAgrees | DelegateMQ/extras/util/RetryMonitor.h:149-154 | and those of an acknowledgement |
| RetryAgreement.AcknowledgeAgrees | DelegateMQ/extras/util/RetryMonitor.h:149-154 | and those of an acknowledgement together with the removal from the monitor's map |
| Dispatching.Dispatcher.Dispatch | DelegateMQ/extras/dispatcher/Dispatcher.h:48-69 | the packet is the marker, the id, the process's count of dispatches modulo 65536, by any dispatcher, and the stream's content; the stream is reset; without a transport the call returns -1 and changes nothing |
| Dispatching.SequenceCounter.FetchAdd | DelegateMQ/extras/dispatcher/Dispatcher.h:54-54 | the shared counter gives the n-th dispatch of the process the number n modulo 65536 |
| Dispatching.SameNumber | DelegateMQ/extras/dispatcher/Dispatcher.h:54-54 | two dispatches with the same number are at least 65536 apart |
| Delivery.HandledWasDispatched | DelegateMQ/extras/databus/Participant.h:62-109 | over a channel that loses, duplicates, delays and reorders, a handler is invoked only with a payload some sender dispatched under that id and number |
| Delivery.HandledTwiceIsFarApart | DelegateMQ/extras/databus/Participant.h:62-109 | two invocations for one id and number are separated by at least SIZE other numbers newly accepted for that id |
| Delivery.AtMostOnce | DelegateMQ/extras/databus/Participant.h:82-88 | while at most SIZE + 1 numbers have been accepted for an id, no number of it is handled twice |
| Delivery.OneSenderExactCall | DelegateMQ/extras/dispatcher/Dispatcher.h:48-61 | with one sender and at most 65536 dispatches, the number of an invocation names the very dispatch it carries out |
| Delivery.ChannelsAreRegistered | DelegateMQ/extras/databus/Participant.h:93-107 | in every run the ids that have a handler are exactly those registered |
| Delivery.DeliveryInvokes | DelegateMQ/extras/databus/Participant.h:62-109 | in every run, handing over a transmission invokes the handler of its id once, with its payload, exactly if there is one and the number is not among the last SIZE accepted for the id; a number not seen is remembered either way |
| EndToEnd.LiftRun | DelegateMQ/extras/dispatcher/Dispatcher.h:48-69 | the protocol steps of one sender are steps of the whole system and touch no other sender and not the receiver |
| EndToEnd.Retries | DelegateMQ/extras/util/RetryMonitor.h:155-204 | a sent entry with a attempts left can be retransmitted k times for every k up to a, each time with the submitted packet |
| EndToEnd.AnyTransmissionSuffices | DelegateMQ/extras/util/RetryMonitor.h:80-210 | in every run: while the monitor has room, a dispatch whose id has a handler and whose number is not remembered gets through if any one of its 1 + maxRetries transmissions does: the first k may be lost, the next invokes the handler with the payload, and a second copy of it invokes nothing |
| Semaphores.Semaphore.Wait | DelegateMQ/delegate/Semaphore.h:26-50 | the wait succeeds exactly when the semaphore was signaled, and clears it |
| Semaphores.Semaphore.Signal | DelegateMQ/delegate/Semaphore.h:53-60 | the signal is a latch: it leaves the semaphore raised |
| AsyncWait.DelegateAsyncWait.BeginCall | DelegateMQ/delegate/DelegateAsyncWait.h:323-343 | the caller's value and success flag are reset; an unbound delegate is left at once, one in sync mode goes to its target, otherwise the delegate is cloned and the message says that the source waits |
| AsyncWait.DelegateAsyncWait.EndCall | DelegateMQ/delegate/DelegateAsyncWait.h:356-375 | the flag is cleared; the clone's value is taken over, with success, exactly if the wait succeeded; otherwise the default is returned |
| AsyncWait.DelegateAsyncWait.Invoke | DelegateMQ/delegate/DelegateAsyncWait.h:406-436 | the target runs exactly if the source still waits; if it ends with a value this is stored and the semaphore raised, and if it throws or is not run neither |
| AsyncWaitRuns.InvokeIsSteps | DelegateMQ/delegate/DelegateAsyncWait.h:415-433 | the destination's single steps under the lock compose to Invoke |
| AsyncWaitRuns.StepInv | DelegateMQ/delegate/DelegateAsyncWait.h:323-436 | the inductive invariant of the handshake: the lock, the waiting flag, the runs and the value |
| AsyncWaitRuns.RunsAtMostOnce | DelegateMQ/delegate/DelegateAsyncWait.h:406-436 | over every interleaving of source, destination, timeout, refused dispatch and dropped message the target starts at most once |
| AsyncWaitRuns.CallerStaysWhileRunning | DelegateMQ/delegate/DelegateAsyncWait.h:356-363 | while the target runs the caller has neither ended nor entered its final section, so by-reference arguments are alive |
| AsyncWaitRuns.NeverStartsAfterReturn | DelegateMQ/delegate/DelegateAsyncWait.h:356-363 | once operator() has returned the target is not running and in no continuation starts on that message or changes the caller's result |
| AsyncWaitRuns.SuccessMeansFinished | DelegateMQ/delegate/DelegateAsyncWait.h:358-361 | m_success implies that the target ran to its end and that the value is its own; without it there is no value |
| AsyncWaitRuns.RefusedNeverRuns | DelegateMQ/delegate/DelegateAsyncWait.h:350-353 | after a refused dispatch the target never runs and the call does not succeed |
| AsyncWaitRuns.WaitingGetsValue | DelegateMQ/delegate/DelegateAsyncWait.h:352-363 | in every run, a caller still waiting when Invoke has ended with a value cannot time out any more and returns that value with success |
| AsyncWaitRuns.CallReturns | DelegateMQ/delegate/DelegateAsyncWait.h:323-436 | no deadlock: from every reachable state the call returns within nine steps if a running target ends, in whatever way |
| AsyncWaitRuns.RanIff | DelegateMQ/delegate/DelegateAsyncWait.h:356-363 | a call that has returned ran its target, once, if and only if the destination got the message lock before the source did |
| AsyncWaitRuns.ReturnedCalls | DelegateMQ/delegate/DelegateAsyncWait.h:438-441 | the exact split of returned calls: success if and only if the wait succeeded, and then the target ran to its end; without success the target ran exactly if the destination had the lock first, and never otherwise |
| AsyncWaitRuns.TimedOutYetRan | DelegateMQ/delegate/DelegateAsyncWait.h:352-363 | an explicit run in which the call times out, reports no success, and the target ran all the same |
| WorkerThread.Thread.DispatchDelegate | DelegateMQ/port/os/stdlib/Thread.cpp:245-306 | accepted exactly if there is room and no exit, fatal exactly if there is none and the policy is FAULT, blocked exactly if there is none, no exit, and the policy is TIMEOUT, and refused otherwise; an accepted message goes to the end of its priority's queue and no other queue changes |
| WorkerThread.Thread.Resume | DelegateMQ/port/os/stdlib/Thread.cpp:260-287 | a blocked dispatch is accepted if there is room and no exit, and refused otherwise |
| WorkerThread.Thread.Take | DelegateMQ/port/os/stdlib/Thread.cpp:399-439 | the worker takes the first HIGH message, else the first of the other queue, and leaves the rest; on empty queues it stops if exit is set |
| WorkerThread.Thread.BeginExit | DelegateMQ/port/os/stdlib/Thread.cpp:177-203 | exit is set and the exit message queued behind all others, past the limit |
| WorkerThread.Thread.EndExit | DelegateMQ/port/os/stdlib/Thread.cpp:222-230 | after the join the queues are cleared |
| WorkerRuns.StepInv | DelegateMQ/port/os/stdlib/Thread.cpp:177-511 | the inductive invariant over producers, worker and ExitThread: order by priority, the exit message last, the bound |
| WorkerRuns.FifoPerPriority | DelegateMQ/port/os/stdlib/Thread.cpp:284-287 | in every interleaving the invoked messages of each priority are a prefix of those accepted, in the order of acceptance |
| WorkerRuns.NormalWaitsForHigh | DelegateMQ/port/os/stdlib/Thread.cpp:425-432 | when a NORMAL or the exit message is about to be taken, every HIGH message accepted so far has been invoked |
| WorkerRuns.QueueBounded | DelegateMQ/port/os/stdlib/Thread.cpp:192-197 | a nonzero MAX_QUEUE_SIZE is exceeded by at most the exit message |
| WorkerRuns.AllInvokedBeforeJoin | DelegateMQ/port/os/stdlib/Thread.cpp:177-231 | when the worker has stopped, the invoked messages are exactly the accepted ones, with multiplicity, and in order within each priority |
| WorkerRuns.NoneAcceptedAfterExit | DelegateMQ/port/os/stdlib/Thread.cpp:280-282 | after ExitThread's first section no dispatch returns true |
| WorkerRuns.CallEnters | DelegateMQ/port/os/stdlib/Thread.cpp:237-243 | a dispatch that begins before the exit reaches the lock, one that begins after it is refused |
| WorkerRuns.RoomMeansAccepted | DelegateMQ/port/os/stdlib/Thread.cpp:245-306 | in every run, for every limit and policy, a dispatch that finds room before the exit can go on, its message goes to the end of its queue, and it is among the accepted ones whatever follows |
| WorkerRuns.NoRoom | DelegateMQ/port/os/stdlib/Thread.cpp:247-279 | a dispatch that finds no room is dropped, fatal or blocked exactly by its policy; a blocked one stays out unless it is woken, and is refused when its time is up |
| WorkerRuns.ExitReleases | DelegateMQ/port/os/stdlib/Thread.cpp:260-282 | exit releases every blocked dispatch and refuses it |
| WorkerRuns.FaultOnlyByPolicy | DelegateMQ/port/os/stdlib/Thread.cpp:253-258 | a run is fatal only with a limit and the policy FAULT |
| WorkerRuns.WorkerDrains | DelegateMQ/port/os/stdlib/Thread.cpp:389-503 | from every reachable state after ExitThread's first section the worker alone stops within two steps for each message left, so the join ends |
| DuckTasks.Bound | DuckDB/async_duckdb.cpp:203-208 | the resize and assignment of BindValue: the bound value at its index, earlier values kept, the gap filled |
| DuckTasks.ExecuteSeesLastBinds | DuckDB/async_duckdb.cpp:198-218 | after any tasks Execute is given, at each index up to the largest bound one, the value last bound there, and the unbound value in gaps |
| DuckTasks.PreparedStatement.CheckIndex | DuckDB/async_duckdb.cpp:198-200 | an index is out of range exactly outside 1 to 1000 |
| DuckTasks.PreparedStatement.BindTask | DuckDB/async_duckdb.cpp:202-209 | the parameters after a bind; unchanged if the statement was not prepared successfully |
| DuckTasks.EngineChain | DuckDB/async_duckdb.cpp:198-307 | for any tasks there are engines in between: a query or an execute turns the one before it into the one after it and answers what the engine answers there, a bind leaves the engine alone; an execute is given the parameters last bound before it |
| DuckProxy.StepInv | DuckDB/async_duckdb.cpp:60-143 | the inductive invariant of the proxy over the worker's protocol |
| DuckProxy.Linearizable | DuckDB/async_duckdb.cpp:60-143 | every answer or exception is that of its own task in the order of the enqueued ones, whatever the other callers' timeouts; what a task does and answers there is stated by EnginesInOrder, what its caller makes of it by WhatCallersSee |
| DuckProxy.EnginesInOrder | DuckDB/async_duckdb.cpp:198-307 | in every run there is one engine more than invoked tasks, from the initial one to the present one; the i-th task, a query or an execute on the parameters last bound, turns engine i into engine i + 1 and what it answers there is kept for its caller; a bind changes no engine |
| DuckProxy.WhatCallersSee | DuckDB/async_duckdb.cpp:67-140 | in every run: an exception is thrown to its caller, an error inside a result is thrown by RunSync and handed over by RunAsync, and everything else is handed over; only RunSync times out, only a future is broken, and that of a task never enqueued; a caller whose task has run can always return |
| DuckProxy.RejectedIff | DuckDB/async_duckdb.cpp:198-200 | in every run a bind is rejected exactly if its index is 0 or more than 1000, and then nothing is enqueued for it |
| DuckProxy.ExecuteAnswer | DuckDB/async_duckdb.cpp:198-218 | an Execute call's answer is the engine's for exactly the values last bound at each index by the binds enqueued before it, from any thread |
| DuckProxy.EnqueuedOnceAndRun | DuckDB/async_duckdb.cpp:107-126 | no task is enqueued twice, the database is the replay of the invoked ones, and when the worker has stopped every enqueued task has run in its place and nothing else has |
| DuckProxy.OpenCallsEnqueued | DuckDB/async_duckdb.cpp:30-37 | in every run without a shutdown each call in range whose dispatch is over is enqueued, timed out or not |
| DuckProxy.OpenCallRunsOnce | DuckDB/async_duckdb.cpp:107-126 | such a call takes effect exactly once, at its place in the order, whatever follows and whether or not its caller has timed out |
| DuckProxy.CallEnqueues | DuckDB/async_duckdb.cpp:30-37 | from the end of every run with the worker open a call in range is enqueued, last, by its own two steps |
| DuckProxy.EnqueuedCanBeAnswered | DuckDB/async_duckdb.cpp:107-126 | from the end of every run the worker alone reaches and answers every enqueued call, and its caller, if it is still there, can return |
| DuckProxy.DetachedCallIsLost | DuckDB/async_duckdb.cpp:30-37 | once CentralThread is null a call is never enqueued, whatever follows: it is rejected, or times out, or its promise is broken |
| DuckProxy.OrderRespectsRealTime | DuckDB/async_duckdb.cpp:122-128 | a call whose dispatch is over, as after RunSync returns or RunAsync hands out its future, comes before every call that begins later in the order of effects |
| PoolAllocator.Allocator.Pop | DelegateMQ/extras/allocator/Allocator.cpp:161-172 | the head of the intrusive list is returned and the list shortened, or NULL on an empty list |
| PoolAllocator.Allocator.Push | DelegateMQ/extras/allocator/Allocator.cpp:151-156 | the block is linked in front; the rest of the list is not disturbed |
| PoolAllocator.Allocator.Allocate | DelegateMQ/extras/allocator/Allocator.cpp:63-114 | a recycled block first, else the next fresh slot, none exactly when all maxObjects slots are outstanding; the block was not outstanding before |
| PoolAllocator.Allocator.Deallocate | DelegateMQ/extras/allocator/Allocator.cpp:119-136 | the block goes to the front of the free list and out of the outstanding set, with the counters |
| PoolAllocator.Allocator.Write | DelegateMQ/extras/allocator/Allocator.cpp:151-172 | writing anywhere inside an outstanding block leaves the free list intact |
| PoolAllocator.Allocator.OutstandingBlocks | DelegateMQ/extras/allocator/Allocator.cpp:119-131 | outstanding blocks are in the pool, on block boundaries, and pairwise disjoint |
| PoolAllocator.Allocator.FreeAndOutstanding | DelegateMQ/extras/allocator/Allocator.cpp:63-136 | the free list has no repetition, free and outstanding slots partition the first m_poolIndex, and m_blocksInUse counts the outstanding ones and equals allocations minus deallocations modulo 2^32 |
| PoolAllocator.StorageHoldsIff | DelegateMQ/extras/allocator/Allocator.h:97-107 | AllocatorPool's array holds all its blocks if and only if there are none or sizeof(T) is at least the size of a pointer |
| PoolAllocator.StorageExample | DelegateMQ/extras/allocator/Allocator.h:97-107 | one object of one byte: the block does not fit in the array |
| XAllocSize.NextHigher | DelegateMQ/extras/allocator/xallocator.cpp:106-113 | the shifting loop computes, for 1 to 2^63, the least power of two not below the argument, and 0 for 0 and for all larger values of size_t |
| XAllocSize.RoundedIsLeast | DelegateMQ/extras/allocator/xallocator.cpp:106-113 | for 1 to 2^63 the result is the least power of two not below the argument |
| XAllocSize.BlockSizeLeastIff | DelegateMQ/extras/allocator/xallocator.cpp:293-297 | the block size is the least power of two that holds request, header and footer if and only if their sum is at most 2^63 |
| XRegistry.FindFinds | DelegateMQ/extras/allocator/xallocator.cpp:192-204 | on a dense registry the search finds an allocator of the size if and only if one is registered |
| XRegistry.InsertKeeps | DelegateMQ/extras/allocator/xallocator.cpp:209-220 | inserting a size that is not registered keeps the registry dense, with one allocator for each size, and loses none |
| XRegistry.Registry.FindAllocator | DelegateMQ/extras/allocator/xallocator.cpp:192-204 | the loop over the array is the search up to the first empty slot |
| XRegistry.Registry.InsertAllocator | DelegateMQ/extras/allocator/xallocator.cpp:209-220 | an allocator is inserted exactly if a slot is empty, into the first such slot, and no other slot changes |
| XRegistry.RegistryCorrect | DelegateMQ/extras/allocator/xallocator.cpp:293-337 | for any number of threads the registry stays a dense prefix with one allocator for each size, and calls for one size return the same, registered, undeleted allocator; a call fails only when all fifteen slots are taken |
| XRegistry.CallGetsItsSize | DelegateMQ/extras/allocator/xallocator.cpp:293-337 | whatever the other threads do, a call that returns has an allocator of the block size it asked for |
| XRegistry.CallFinishes | DelegateMQ/extras/allocator/xallocator.cpp:293-337 | from every reachable state a call finishes on its own within four steps if its size is registered or a slot is empty |
| XAccounting.BlockCountBalances | DelegateMQ/extras/allocator/xallocator.cpp:343-416 | for any interleaving of xmalloc and xfree, m_blockCnt = blocks in use + free-list length modulo 2^32 whenever the lock is free, and no block is in two places |
| XAccounting.MallocAndFree | DelegateMQ/extras/allocator/xallocator.cpp:343-416 | in every interleaving an undisturbed xmalloc takes the first free block into use or else a new one, which alone counts as a new block, and an xfree puts its block first on the free list |
| XMemory.BlockHoldsRequest | DelegateMQ/extras/allocator/xallocator.cpp:293-297 | a block's user area holds the request |
| XMemory.BlockHoldsIff | DelegateMQ/extras/allocator/xallocator.cpp:293-347 | the block of the allocator chosen holds request, header and footer if and only if their sum is at most 2^63 |
| XMemory.XMemory.XMalloc | DelegateMQ/extras/allocator/xallocator.cpp:343-392 | a block not in use, with room for the request; every other block is unchanged |
| XMemory.XMemory.XFree | DelegateMQ/extras/allocator/xallocator.cpp:397-416 | null is ignored; otherwise the block returns to the free list of its own size |
| XMemory.XMemory.XRealloc | DelegateMQ/extras/allocator/xallocator.cpp:421-452 | null allocates and size 0 frees; otherwise each byte of the old block that lies within the new size is in the new block at the same place, the old block is first on the free list of its size, and every other block is unchanged |
| Crc16Table.EntryMatches | DelegateMQ/extras/util/crc16.h:24-51 | each of the 256 table entries is eight bit steps of its index |
| Crc16.CalcBlockByLoop | DelegateMQ/extras/util/crc16.h:68-84 | the bit loop computes the bit-serial CRC of the message |
| Crc16.CalcBlockByTable | DelegateMQ/extras/util/crc16.h:56-61 | the table loop computes the same bit-serial CRC, for every message and initial value |
| Crc16.TableStep | DelegateMQ/extras/util/crc16.h:59-59 | one table step is eight bit steps, for every register and byte |
| Crc16.Composes | DelegateMQ/extras/util/crc16.h:56-84 | Crc(a + b, c) = Crc(b, Crc(a, c)) |
| Crc16.FeedLinear | DelegateMQ/extras/util/crc16.h:73-82 | the register is linear in the message and the initial value |
| Crc16.BurstSeen | DelegateMQ/extras/util/crc16.h:68-84 | a nonzero window of at most sixteen bits never leaves a zero register unchanged |
| Crc16.WindowSeen | DelegateMQ/extras/util/crc16.h:68-84 | no difference inside one window of sixteen bits is lost, for any length and position |
| Crc16.BurstDetected | DelegateMQ/extras/util/crc16.h:68-84 | two messages of equal length that differ only inside one window of 16 consecutive bits have different CRCs, for any length, position and initial value |
| Crc16.CrcIsRemainder | DelegateMQ/extras/util/crc16.h:18-18 | the CRC is the remainder of the message polynomial by x^16 + x^12 + x^5 + 1, the generator of section 2 of ITU-T V.41 |
| Multicast.MulticastDelegate.PushBack | DelegateMQ/delegate/MulticastDelegate.h:122-143 | the cell list gains the delegate at its end |
| Multicast.MulticastDelegate.Remove | DelegateMQ/delegate/MulticastDelegate.h:147-167 | the first cell with an equal delegate is erased, or during a broadcast nulled in place; if there is none nothing changes |
| Multicast.MulticastDelegate.Clear | DelegateMQ/delegate/MulticastDelegate.h:174-184 | the list is emptied, or during a broadcast all its cells are nulled |
| Multicast.MulticastDelegate.Leave | DelegateMQ/delegate/MulticastDelegate.h:240-245 | the end of a broadcast; the outermost one drops the null cells |
| Multicast.MulticastDelegate.Cleanup | DelegateMQ/delegate/MulticastDelegate.h:221-232 | without the flag nothing happens; with it the null cells go and the others keep their order |
| Multicast.ErasesFirst | DelegateMQ/delegate/MulticastDelegate.h:147-167 | the plain list operation takes out the first equal delegate and nothing else |
| Multicast.StepRefines | DelegateMQ/delegate/MulticastDelegate.h:56-67 | each step of arbitrarily nested broadcasts and callbacks acts on the live delegates as the plain list operation and keeps the invariant |
| Multicast.RunRefines | DelegateMQ/delegate/MulticastDelegate.h:122-249 | in every run the live delegates equal the plain list under append, remove first match and clear; iterators stay valid; no null is left when no broadcast is active |
| Multicast.CallsAreLive | DelegateMQ/delegate/MulticastDelegate.h:60-67 | a broadcast calls the delegate of the cell it has reached, a current subscriber, or skips a null cell; no other step makes a call |
| Multicast.FinishedBroadcastReachedAll | DelegateMQ/delegate/MulticastDelegate.h:60-67 | a broadcast that has walked to the end has passed every cell, in list order and at most once |
| Multicast.RemovedBeforeReachedNotCalled | DelegateMQ/delegate/MulticastDelegate.h:147-167 | a delegate removed before a broadcast reaches its cell is not called by that broadcast, whatever follows |
| Multicast.NoSnapshot | DelegateMQ/delegate/MulticastDelegate.h:18-22 | a run that contradicts the class comment: a delegate added from a callback is called, one removed from a callback is not |
| Multicast.SnapshotIff | DelegateMQ/delegate/MulticastDelegate.h:56-67 | at its end a broadcast has called exactly the places live on its entry if and only if it skipped none of them and skipped every place added since; it has then called the subscribers found on entry, each once and in order |
| Multicast.SnapshotInEveryRun | DelegateMQ/delegate/MulticastDelegate.h:56-67 | that holds in every run of nested broadcasts and callbacks |
| Multicast.QuietBroadcastIsSnapshot | DelegateMQ/delegate/MulticastDelegate.h:56-67 | a broadcast during which no container method is called calls the subscribers it found on entry, each once and in order, whatever broadcasts are nested in it |
| InvokeWait.InvokeWaitState.StatusCallback | DelegateMQ/extras/util/NetworkEngine.h:231-252 | a status of the id is buffered, if fewer than eight are, before the number is recorded; afterwards it decides the wait if it is of the number and nothing has; anything else changes nothing |
| InvokeWait.InvokeWaitState.Reconcile | DelegateMQ/extras/util/NetworkEngine.h:259-277 | recording the number completes the wait exactly if a buffered status has the number, with the result of the first that has |
| InvokeWait.Outcome | DelegateMQ/extras/util/NetworkEngine.h:231-279 | for every interleaving, complete is set exactly when a heard status matches the recorded number, and success is that of the first match |
| InvokeWait.UndecidedBeforeSend | DelegateMQ/extras/util/NetworkEngine.h:238-243 | nothing is decided before the number is recorded |
| InvokeWait.NothingLost | DelegateMQ/extras/util/NetworkEngine.h:196-279 | with at most 8 early statuses for the id the outcome is that of the first status reported for the number |
| InvokeWait.FirstReportDecides | DelegateMQ/extras/util/NetworkEngine.h:196-279 | the same over the raw reports: with at most eight of the id before the number is recorded, the wait completes exactly if one carries the id and the number, and the first that does gives the result |
| InvokeWait.ExactIff | DelegateMQ/extras/util/NetworkEngine.h:231-279 | for all inputs the outcome is that of the first report for the number if and only if the number is not reported, or its first report is not an early one after the eighth, or the first report that is not dropped carries the same status |
| InvokeWait.LostIff | DelegateMQ/extras/util/NetworkEngine.h:241-242 | complete stays unset in spite of a report if and only if all reports of the number are early ones after the eighth |
| InvokeWait.NinthLost | DelegateMQ/extras/util/NetworkEngine.h:204-205 | a concrete ninth early status is lost |
| InvokeWait.EarlyAckOverruled | DelegateMQ/extras/util/NetworkEngine.h:241-248 | a concrete ninth early SUCCESS is dropped and a later failure decides the wait |
| TimerDeadlines.FiredAtMost | DelegateMQ/extras/util/Timer.cpp:106-140 | a periodic timer started at s with interval T has fired at most (now - s) / T times after any polls under a clock that never goes back |
| TimerDeadlines.DeadlineWithin | DelegateMQ/extras/util/Timer.cpp:120-137 | a starved timer, whose next deadline has passed too, gets the clock value as its deadline, any other exactly one interval more; with one clock value for the check that is now, and in any case within [now, now + T] |
| TimerDeadlines.NoDrift | DelegateMQ/extras/util/Timer.cpp:122-123 | a timer polled promptly keeps its deadlines at exact multiples of T |
| TimerDeadlines.StarvedFiresOnceAPoll | DelegateMQ/extras/util/Timer.cpp:120-137 | a timer polled only at intervals longer than T fires at each poll, and its deadline is always the clock value of the last |
| TimerLists.TimerList.Start | DelegateMQ/extras/util/Timer.cpp:45-85 | a timer is enabled with its deadline and is on the list once, at the head if it was not there; a timeout that is not positive throws and changes nothing |
| TimerLists.TimerList.Stop | DelegateMQ/extras/util/Timer.cpp:90-101 | a timer is disabled and left on the list, and the sweep is requested |
| TimerLists.TimerList.Destroy | DelegateMQ/extras/util/Timer.cpp:24-40 | the timer is unlinked and the others keep their order |
| TimerLists.TimerList.Sweep | DelegateMQ/extras/util/Timer.cpp:154-171 | the pointer surgery leaves exactly the enabled timers in their old order |
| TimerLists.TimerList.SweepIfStopped | DelegateMQ/extras/util/Timer.cpp:153-171 | after ProcessTimers' first part every timer on the list is enabled |
| TimerLists.TimerList.CheckExpired | DelegateMQ/extras/util/Timer.cpp:106-140 | the timer fires exactly if it is enabled and its deadline is not after the first clock reading; a periodic one that fires moves on by one interval or, if the second reading is past that, to the third; a one-shot one is disabled |
| TimerLists.TimerList.CheckAll | DelegateMQ/extras/util/Timer.cpp:176-190 | the fired timers are those found expired, in list order, with their next deadline or disabled; the fault occurs exactly when sixteen expire before the last timer is reached |
| TimerLists.TimerList.ProcessTimers | DelegateMQ/extras/util/Timer.cpp:145-191 | the list invariant and the list after the sweep; exactly the timers whose deadline had passed fire, in list order, and move on or are disabled; the fault occurs exactly when sixteen of the timers before the last are due |
| TimerLists.KeptInOrder | DelegateMQ/extras/util/Timer.cpp:154-171 | what the sweep keeps is in the old order |
| TimerLists.PickedInOrder | DelegateMQ/extras/util/Timer.cpp:176-190 | what the checks pick is in list order |
| TimerLists.OverflowsIff | DelegateMQ/extras/util/Timer.cpp:176-190 | the checks run out of room exactly when sixteen of the timers before the last are due |
| SignalHandles.ScopedConnection.Moved | DelegateMQ/delegate/Signal.h:122-123 | a moved handle is connected exactly if the other was, which no longer is |
| SignalHandles.ScopedConnection.Disconnect | DelegateMQ/delegate/Signal.h:85-93 | the copy leaves the list of a live state, once; a dead state's list is not touched |
| SignalHandles.ScopedConnection.Assign | DelegateMQ/delegate/Signal.h:125-131 | the handle lets its own subscription go and takes the other's; self-assignment does nothing |
| SignalHandles.Signal.Connect | DelegateMQ/delegate/Signal.h:179-193 | one new entry at the end of the list, with a connected handle |
| SignalHandles.Signal.Clear | DelegateMQ/delegate/Signal.h:273-285 | a new empty live state; the old one is dead and empty |
| SignalHandles.Signal.Destroy | DelegateMQ/delegate/Signal.h:159-167 | the state is dead and empty |
| SignalRuns.StepInv | DelegateMQ/delegate/Signal.h:44-296 | the inductive invariant over Connect, Disconnect, moves, drops, Clear and destruction of any number of signals |
| SignalRuns.SubscribersExact | DelegateMQ/delegate/Signal.h:44-193 | in every run a signal's list is, in connection order, one entry for each handle issued since the last Clear that is still connected |
| SignalRuns.CreateStartsEmpty | DelegateMQ/delegate/Signal.h:150-158 | in every run a new signal has no subscribers and no other changes |
| SignalRuns.ConnectAdds | DelegateMQ/delegate/Signal.h:179-193 | in every run a connection adds one new subscriber, last, which its handle holds, and no other list changes |
| SignalRuns.DisconnectRemoves | DelegateMQ/delegate/Signal.h:85-93 | in every run disconnecting or dropping a connected handle takes its own entry, and no other, off its signal's list |
| SignalRuns.MoveHandsOver | DelegateMQ/delegate/Signal.h:122-123 | in every run a move hands the subscription to the new handle, and no list changes |
| SignalRuns.AssignHandsOver | DelegateMQ/delegate/Signal.h:125-131 | in every run an assignment hands it over after the target's own entry has left its list; no other list changes |
| SignalRuns.ClearEmpties | DelegateMQ/delegate/Signal.h:159-167 | in every run Clear and the destructor leave no subscriber and no handle subscribed to the signal, and every other signal keeps its own |
| SignalRuns.LateDisconnect | DelegateMQ/delegate/Signal.h:290-296 | disconnecting a handle of a cleared or destroyed signal changes no list |

## Left out

- Delivery.HandledWasDispatched: the senders are those that go through RetryMonitor; acknowledgement packets and damage to packets are not modelled.
- DuckProxy.Linearizable: a RunSync issued on the worker thread itself runs inline inside the current task (lines 96-98) and counts as part of that task.
- InvokeWait.Outcome: the wait's own timeout, and a send lambda that never runs, leave complete unset and are not steps of the model.
- PoolAllocator.Allocator.Allocate: an exhausted pool yields no block; the new-handler loop and the bad_alloc path are environment behaviour. Heap-block mode is covered by XAccounting only.
- RetryProtocol.StepCover: a sweep of several entries is a series of single expiries, and the callbacks of one batch may interleave freely, which allows more runs than the code has.
- RetryStore.RetryMonitor.SendWithRetry: the transport and the monitor are present; a monitor without them is not modelled, and what Send returns is a parameter.
- Signal snapshots, and calls made from them: copies of the list, the small-buffer variant included.
- TransportMonitors.TransportMonitor.Process: one thread calls Process, since the batch array is shared, the clock stands still during the call, the timeout is not negative, and the subscribers re-add only the keys they are told about; the OnCapExceeded and OnPendingExceeded signals only log.
- WorkerRuns.AllInvokedBeforeJoin: one ExitThread from another thread; a restart after it, a thread that exits itself from a callback, the watchdog and the statistics are not modelled, and a fault stops the run.
- XMemory.XMemory.XMalloc: blocks are separate by identity, requests obey `Fits`, since beyond it the block does not hold the request with its header (`XMemory.BlockHoldsIff`), and a heap that has no memory left is not modelled; safeguards and static pools are compiled out by default.
- XMemory.XMemory.XRealloc: as for XMalloc, the new size obeys `Fits`.
- DuckDB itself, SQL, result materialization, the Appender and the examples: a foreign library, an unsynchronized row buffer, and bookkeeping.
- Concrete transports, sockets, serializers, the other thread ports, delegate binding and cloning, DataBus registries, rate limiters and clock helpers: I/O, wrappers over kernels, or easy members.
- A delegate container or thread destroyed from inside its own callback: lifetime tricks outside the modelled state.
