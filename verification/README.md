# Verified model of the communication middleware core

Dafny proofs about the binding-independent layer of the `mw::com` middleware:
sample reference counting, message passing, the offer lifecycle of skeletons,
configuration and service discovery. `dafny verify dfyconfig.toml` checks all of it.

The bindings, the channel, the executor, the file system and the JSON library are an
environment: each call to them is given its answer, which may be any success or
failure, and what they rely on is a precondition of the modelled call. Concurrent code
is a step machine: a state, the steps any thread may take next, and theorems about
every run, that is, every interleaving of any length. Objects the code changes in place
are classes. `std::terminate` and failing production assertions are a halting outcome
where the code can reach them and a proof obligation where it must not.

| file | what it models |
|---|---|
| `Common.dfy` | options, results, totals over sequences of actors |
| `SampleAccounting.dfy` | the lock-free counter of free samples, run by any number of threads |
| `SampleReferences.dfy` | the tracker, factories, guards and sample pointers as objects, with a ledger of who holds which reference |
| `ProxyEvents.dfy` | the subscription machines of proxy events and the samples they hand out |
| `NonBlockingSender.dfy` | producers under a lock and a drain task that reads the front without it |
| `MessageCodec.dfy`, `MessagePipeline.dfy` | the raw message buffer; sender, channel and receiver end to end |
| `ReceiverShutdown.dfy` | stopping the listening threads, with the stop callback of ISO C++20, section 32.3.5 |
| `Skeletons.dfy`, `SkeletonMoves.dfy`, `SkeletonLifecycle.dfy`, `SkeletonRuns.dfy`, `SkeletonCases.dfy` | skeletons, events and fields that refer to each other: single operations, moving whole skeletons, offering and stopping, whole runs, and runs that go wrong |
| `Json.dfy`, `Deployments.dfy`, `DeploymentFormat.dfy`, `Specifiers.dfy`, `HashStrings.dfy` | deployments and their serialisation, the format key by key, instance specifiers, hash strings |
| `ConfigDescription.dfy`, `ConfigParser.dfy` | what a configuration file describes; the parser and its cross-checks |
| `ServiceDiscovery.dfy`, `RuntimeInit.dfy` | find handles, callbacks and instances; the configuration of the runtime singleton |

## Where the code does less than one might expect

Each of these is a lemma or a contract below, with the exact condition under which the
expected property holds.

- **A listening thread can be stranded in two ways** (`ReceiverShutdown.ServedIff`). If
  the stop is requested by a message handler on thread 0, the callback mistakes this for
  its inline case and posts one stop too few, so some thread must have returned early. If
  it is requested by anyone else after the callback was constructed and before thread 0
  looks at its token, thread 0 may see it and unregister the callback before that is
  called, so no other thread may need a stop. Every other request brings all threads back.
  The standard allows the second case; an implementation that takes the callback off the
  list together with making the request does not have it.
- **A skeleton that was moved from is not safe to move again**
  (`SkeletonMoves.MoveConstruct`, `SkeletonCases.MoveTwice`): its elements tell the
  skeleton that took over about the new addresses, which thereby loses its own links, and
  the new one has none.
- **Assigning to a moved-from skeleton does not re-establish its links**
  (`SkeletonMoves.MoveAssign`, `SkeletonMoves.AssigningLinked`,
  `SkeletonCases.AssignToTheEmptied`), because an event's move assignment keeps its own
  parent reference while a field's takes the other one over.
- **`StopOfferService` after a half-failed offer does nothing**
  (`SkeletonCases.HalfAnOffer`): what was prepared by then stays offered until the
  elements are destroyed, and the skeleton's binding is never told to stop. It acts if and only if the service flag is set
  (`SkeletonLifecycle.StopOfferService`), which an offer sets if and only if the binding
  and all elements accept (`SkeletonLifecycle.OfferService`).
- **Memory lent by an event can be sent after the offer was stopped**
  (`SkeletonCases.MemoryOutlivesTheOffer`): only `Allocate` and the copying `Send` are
  refused. A field's first value is still the saved one, unless memory of another binding
  was sent to it early (`Skeletons.FirstValueIsTheSaved`,
  `SkeletonCases.MemoryOfAnotherComesFirst`).
- **Element ids are read with 16 bits and stored with 8**: a type is accepted only if its
  configured ids differ modulo 256 (`ConfigParser.TypeAcceptedIff`), so one with the
  different ids 1 and 257 is refused (`ConfigParser.DifferentIdsCanCollide`).
- **The tracing flag is not serialised, and a service name ends at its first NUL**
  (`Deployments.RoundTripIsExactIff`).
- **`Reset` of a tracker in use breaks a later assertion**: exactly if a reference is
  outstanding some run reaches a failing one (`SampleAccounting.ResetIsSafeIffUnused`);
  `ProxyEvents.RunEvents` shows that subscriptions never do this.
- The byte table at `mw/com/message_passing/shared_properties.h:58-66` gives payloads of
  4 and 8 bytes; the code copies 8 and 16, and the model follows the code.

## Model

| member | source | states |
|---|---|---|
| `SampleAccounting.EveryRunIsBalanced` | mw/com/impl/sample_reference_tracker.cpp:98-189 | any number of threads, any interleaving of loads, exchange successes and failures, guard and factory operations: counter + references in hand + reserved in factories + live guards = maximum in every state of the run |
| `SampleAccounting.StepKeepsBalance` | mw/com/impl/sample_reference_tracker.cpp:98-189 | each single step of any thread keeps that sum |
| `SampleAccounting.NoUnderflowAndAssertHolds` | mw/com/impl/sample_reference_tracker.cpp:141-189 | in every run the exchanged subtraction stays at or above zero, a release never lifts the counter above the maximum and the assertion load never sees it there |
| `SampleAccounting.NothingIsLost` | mw/com/impl/sample_reference_tracker.cpp:98-189 | when all threads are idle and all factories and guards are gone the counter is back at the maximum |
| `SampleAccounting.AllocateGrant` | mw/com/impl/sample_reference_tracker.cpp:141-173 | a call grants at most the request, and if it grants less the shared counter was zero at some instant during that very call, whatever other threads did |
| `SampleAccounting.CallInProgress` | mw/com/impl/sample_reference_tracker.cpp:141-173 | at every point of a call taken plus still wanted is the request, and an expected value of zero was read from a counter that was zero since the call began |
| `SampleAccounting.MovingAGuardKeepsTheCount` | mw/com/impl/sample_reference_tracker.cpp:50-68 | moving a guard leaves the number of live guards as it was |
| `SampleAccounting.MovingAFactoryKeepsTheCount` | mw/com/impl/sample_reference_tracker.cpp:91-96 | moving a factory leaves the number of reserved references as it was |
| `SampleAccounting.CounterChanges` | mw/com/impl/sample_reference_tracker.cpp:98-189 | in every run and whoever else moves: the counter falls only by a successful exchange, by what the thread gets, which is all it wants or all it saw; a failed exchange reloads the value and takes nothing; the counter rises only by a release, by just what was held, or is set by a reset |
| `SampleAccounting.GuardAndFactorySteps` | mw/com/impl/sample_reference_tracker.cpp:43-122 | in every run: taking a guard brings one live guard for one reservation, moving one leaves the target as the source was and the source dead, releasing ends one live guard for one reference, a moved factory keeps nothing, a destroyed one gives back just what it had |
| `SampleAccounting.OthersUnaffected` | mw/com/impl/sample_reference_tracker.cpp:98-189 | no step changes what another thread is doing |
| `SampleAccounting.ResetIsSafeIffUnused` | mw/com/impl/sample_reference_tracker.cpp:175-179 | in every state of any threads and for every new number: after `Reset` some run reaches a failing assertion load if and only if a reference was outstanding |
| `SampleAccounting.ResetShiftsTheBooks` | mw/com/impl/sample_reference_tracker.cpp:175-179 | along every run from a reset, counter + outstanding = new maximum + what was outstanding at the reset |
| `SampleAccounting.LastAssertAfterReset` | mw/com/impl/sample_reference_tracker.cpp:181-189 | once everything is returned the last release's assertion load sees the maximum plus exactly that number, and so holds if and only if it was zero |
| `SampleAccounting.UsedFails` | mw/com/impl/sample_reference_tracker.cpp:175-189 | from any state with a full counter and something outstanding, whatever the threads are doing, a run leads to a failing assertion load |
| `SampleAccounting.GetsIdle` | mw/com/impl/sample_reference_tracker.cpp:141-189 | a thread left alone always gets out of its call: a release with the counter increased, an allocation with what it took in a new factory |
| `SampleAccounting.ResetWhileUsedBreaksTheAssert` | mw/com/impl/sample_reference_tracker.cpp:175-189 | concrete run: reset with one live guard, then its release lifts the counter above the maximum |
| `SampleReferences.SampleReferenceTracker.Allocate` | mw/com/impl/sample_reference_tracker.cpp:141-173 | run alone, with any finite number of spurious failures, the retry loop terminates and grants exactly min(available, requested), reserved in the factory it returns |
| `SampleReferences.SampleReferenceTracker.Reset` | mw/com/impl/sample_reference_tracker.cpp:175-179 | demands that nothing is outstanding; afterwards counter and maximum are the new number |
| `SampleReferences.TrackerGuardFactory.Move` | mw/com/impl/sample_reference_tracker.cpp:91-96 | the reservation goes to the new factory and none stays behind |
| `SampleReferences.TrackerGuardFactory.TakeGuard` | mw/com/impl/sample_reference_tracker.cpp:111-122 | no guard exactly when nothing is reserved; otherwise one reservation becomes one newly numbered live reference held by the new guard |
| `SampleReferences.TrackerGuardFactory.Destroy` | mw/com/impl/sample_reference_tracker.cpp:98-104 | unused reservations go back to the counter |
| `SampleReferences.SampleReferenceGuard.ForTracker` | mw/com/impl/sample_reference_tracker.cpp:43-48 | a new guard turns one reserved reference into a live one that it holds |
| `SampleReferences.SampleReferenceGuard.Move` | mw/com/impl/sample_reference_tracker.cpp:50-53 | the new guard holds the same reference, the old one none; the books name the new holder |
| `SampleReferences.SampleReferenceGuard.MoveAssign` | mw/com/impl/sample_reference_tracker.cpp:55-68 | self-assignment changes nothing; otherwise the own reference is released once and the other one taken over, also when both belong to different trackers |
| `SampleReferences.SampleReferenceGuard.Deallocate` | mw/com/impl/sample_reference_tracker.cpp:70-83 | the reference is released exactly once, having not been released before |
| `SampleReferences.SwapGuards` | mw/com/impl/plumbing/sample_ptr.h:121-128 | the swap of two guards exchanges their references and releases none |
| `SampleReferences.SamplePtr.constructor` | mw/com/impl/plumbing/sample_ptr.h:57-61 | takes over the reference of the guard it is given |
| `SampleReferences.SamplePtr.Move` | mw/com/impl/plumbing/sample_ptr.h:76-80 | sample and reference go to the new pointer; the old one is empty |
| `SampleReferences.SamplePtr.MoveAssign` | mw/com/impl/plumbing/sample_ptr.h:82 | the own reference is released, the other one taken over; a self-move releases nothing |
| `SampleReferences.SamplePtr.Swap` | mw/com/impl/plumbing/sample_ptr.h:121-128 | exchanges samples and references, also with itself, and releases none |
| `SampleReferences.SamplePtr.Reset` | mw/com/impl/plumbing/sample_ptr.h:130 | `Reset` with its by-value parameter destroyed at the end: the old reference goes back, the parameter's one is kept |
| `SampleReferences.LiveAndDie` | mw/com/impl/plumbing/sample_ptr.h:76-130 | any sequence of moves, self-moves, swaps, resets and clears on any number of sample pointers of any number of trackers, references passing from one tracker's pointer to another's, then destruction: every reference ever issued by any of the trackers is released, none twice, and every counter is complete |
| `SampleReferences.RunOps` | mw/com/impl/plumbing/sample_ptr.h:76-130 | the state after every such script, before anything is destroyed: who holds which reference of which tracker is exactly what the script says, every tracker's books are right, and nothing but releases happened to them |
| `SampleReferences.PerformOne` | mw/com/impl/plumbing/sample_ptr.h:76-130 | the exact effect of one operation on all holders and all books: who holds what afterwards, and the one reference that is freed, if any |
| `SampleReferences.DestroyAll` | mw/com/impl/plumbing/sample_ptr.h:90 | after all sample pointers are destroyed no reference is live |
| `SampleReferences.Ledger.ReleaseKeepsBalance` | mw/com/impl/sample_reference_tracker.cpp:75-83 | releasing a live reference keeps the books balanced and was not done before |
| `SampleReferences.Ledger.TransferKeepsBalance` | mw/com/impl/sample_reference_tracker.cpp:50-68 | passing a reference on keeps the books balanced |
| `ProxyEvents.ProxyEvent.Subscribe` | mw/com/impl/proxy_event_base.cpp:109-134 | in every state and for every answer of the binding the exact result and tracker contents; `Reset` is reached only with no reference outstanding |
| `ProxyEvents.ProxyEvent.Unsubscribe` | mw/com/impl/proxy_event_base.cpp:136-150 | leaves the subscribed states, and terminates exactly when a sample is still held |
| `ProxyEvents.ProxyEvent.GetNewSamples` | mw/com/impl/proxy_event.h:154-185 | for every state, request, number of samples offered and failure of the binding, also one that comes after some samples were delivered: the number returned is the number of samples delivered; the maximum is reported exactly if request or free slots are zero, `kNotSubscribed` exactly if free slots meet a proxy that is not subscribed or the binding says so, `kBindingFailure` exactly for any other failure; the samples are the binding's first ones in order, each with its own reference, and unused reservations are back on return |
| `ProxyEvents.ProxyEvent.Deliver` | mw/com/impl/proxy_event.h:154-185 | one guard per delivered sample until samples or guards run out |
| `ProxyEvents.AnyRun` | mw/com/impl/proxy_event_base.cpp:109-150 | any subscriptions, unsubscriptions, binding state changes, deliveries and pointer operations on any number of events, in any order, and then the destruction of all pointers: every reference ever issued by any event was released and every counter is complete |
| `ProxyEvents.RunEvents` | mw/com/impl/proxy_event_base.cpp:109-150 | the state after every such script: each event is in the subscription state the operations lead to and its books are right, one that is not subscribed has nothing outstanding, and `Reset` never met an outstanding reference on the way |
| `ProxyEvents.PerformEventOp` | mw/com/impl/proxy_event_base.cpp:109-150 | each single operation keeps "not subscribed means nothing outstanding", puts the event it concerns and no other into the subscription state it should, delivers as many samples as there are slots, requests and samples for, and does to the pointers what is stated for it |
| `ProxyEvents.NoReferenceAppears` | mw/com/impl/plumbing/sample_ptr.h:76-130 | moving, swapping and resetting pointers never brings up a live reference |
| `NonBlockingSender.HandedThenQueuedIsAccepted` | mw/com/message_passing/non_blocking_sender.cpp:74-123 | in every interleaving of producers, drain tasks, stop requests and shutdown: messages handed to the wrapped sender followed by the unsent queue are the accepted messages in order, and the queue never exceeds its capacity |
| `NonBlockingSender.QueueAndTaskAgree` | mw/com/message_passing/non_blocking_sender.cpp:74-123 | only the task submitted last may touch the queue, and without a stop request the queue is non-empty exactly when that task still may |
| `NonBlockingSender.EveryRunKeepsInv` | mw/com/message_passing/non_blocking_sender.cpp:74-123 | the drain task, which reads the front without the lock, always finds it there |
| `NonBlockingSender.StepKeepsInv` | mw/com/message_passing/non_blocking_sender.cpp:74-123 | each single step keeps the protocol invariant |
| `NonBlockingSender.AbandonedForGood` | mw/com/message_passing/non_blocking_sender.cpp:74-140 | once a task has obeyed a stop with messages left, nothing more is ever handed over; what was is a prefix of the accepted messages and the rest stays queued in order |
| `NonBlockingSender.StopIsObeyed` | mw/com/message_passing/non_blocking_sender.cpp:74-76 | in every run: a task that looks at a stopped token ends there, with nothing handed over or removed; with any other token it goes on to send |
| `NonBlockingSender.StopInRun` | mw/com/message_passing/non_blocking_sender.cpp:130-140 | a task's token is stopped at some point of a run exactly if that was requested before |
| `NonBlockingSender.AtMostOneMore` | mw/com/message_passing/non_blocking_sender.cpp:74-102 | in every run: once the token of the task submitted last is stopped, at most the one message it is already sending is still handed over before the next submission |
| `NonBlockingSender.SendInRun` | mw/com/message_passing/non_blocking_sender.cpp:104-123 | in every run a message is accepted exactly if the queue is not full and no shutdown was asked for before; then it is the last of the queue, and a task is submitted exactly if it is the only one there |
| `NonBlockingSender.HandOverAndPop` | mw/com/message_passing/non_blocking_sender.cpp:79-100 | in every run only the front element is handed over, and it stays queued until the same task removes it; the task then ends exactly if nothing is left |
| `NonBlockingSender.TasksMakeProgress` | mw/com/message_passing/non_blocking_sender.cpp:74-102 | a task that has not ended always has a step to take, and each such step lowers a bounded amount of work, so the tasks get idle unless messages keep coming; callers are never held up |
| `NonBlockingSender.IdleIsDrained` | mw/com/message_passing/non_blocking_sender.cpp:74-123 | once no task can go on and no stop was requested, everything accepted was handed over |
| `NonBlockingSender.LeftBehind` | mw/com/message_passing/non_blocking_sender.cpp:74-123 | concrete run: a task obeys a stop and leaves the message queued |
| `NonBlockingSender.AfterWaitNobodyTouches` | mw/com/message_passing/non_blocking_sender.cpp:130-140 | once the stored task has ended, no task takes a step at any later point of the run before a message is accepted into the empty queue, so the queue may be destroyed |
| `NonBlockingSender.OthersEnded` | mw/com/message_passing/non_blocking_sender.cpp:104-123 | if the task submitted last has ended, all tasks have |
| `NonBlockingSender.IterationIsThreeSteps` | mw/com/message_passing/non_blocking_sender.cpp:74-102 | one undisturbed turn of the drain loop is exactly the protocol's token check, hand-over and removal |
| `NonBlockingSender.DrainedHands` | mw/com/message_passing/non_blocking_sender.cpp:74-102 | `k` turns hand over exactly the first `k` queued messages in order |
| `NonBlockingSender.Sender.SendInternal` | mw/com/message_passing/non_blocking_sender.cpp:104-123 | the critical section is exactly the protocol's send step, and the caller learns whether the message was taken |
| `NonBlockingSender.Sender.SendQueueElements` | mw/com/message_passing/non_blocking_sender.cpp:74-102 | without further sends the loop ends after exactly queue-length turns with everything handed over, or earlier exactly at the first stop it sees, with the rest still queued; either way what it did is a run of the protocol's own steps, the stop its request and token check included |
| `MessageCodec.RoundTrip` | mw/com/message_passing/serializer.cpp:54-179 | every short and every medium message comes back from its buffer, for every id, pid and payload |
| `MessageCodec.BytesAreInjective` | mw/com/message_passing/serializer.cpp:54-121 | different messages, in particular a short and a medium one, never share a buffer, nor does any with a stop message |
| `MessageCodec.FieldsAreDisjointAndInBounds` | mw/com/message_passing/shared_properties.h:37-86 | type, id, pid and payload fields do not overlap and lie inside the buffer |
| `MessageCodec.SignedRoundTrip` | mw/com/message_passing/serializer.cpp:25-52 | a signed integer copied byte by byte comes back |
| `MessageCodec.HeaderOf` | mw/com/message_passing/serializer.cpp:54-121 | what stands at each of the fixed positions of the buffer |
| `MessageCodec.ByteByByte` | mw/com/message_passing/serializer.cpp:54-121 | every byte of the buffer of every message: the type is 0x42 or 0x43, one byte of id and four of process id in two's complement with the least significant first, then eight or sixteen of payload, and zeros |
| `MessageCodec.Serialize` | mw/com/message_passing/serializer.cpp:54-121 | the byte copies into the zeroed buffer produce exactly the specified buffer |
| `MessageCodec.CopyInto` | mw/com/message_passing/serializer.cpp:25-35 | a copy changes the bytes of its field and no others |
| `MessagePipeline.ChannelSender.SendPrepared` | mw/com/message_passing/sender.h:206-230 | the payload is in the channel once on success and not at all on failure; it gives up only when retries are used up or a stop is seen after that attempt, and reports the last error, which is exactly determined by the channel's answers |
| `MessagePipeline.ChannelSender.Send` | mw/com/message_passing/sender.h:168-197 | a closed channel is refused with ENFILE; otherwise the serialised message is sent at most once |
| `MessagePipeline.EndToEnd` | mw/com/message_passing/sender.h:168-230 | non-blocking sender, retrying sender with any answers and stops, serialiser and receiver with any registrations together, every interleaving: the channel holds exactly the accepted messages whose hand-over succeeded, in order and once, each decodes to the original, and each delivery is right for it: it goes to the callback registered first under its id if that is of its kind, ends the process if that is of the other kind, and goes to nobody if there is none |
| `MessagePipeline.OneWayToHandle` | mw/com/message_passing/receiver.h:283-318 | for any registrations and message there is exactly one right delivery, and the receiver's table gives it |
| `MessagePipeline.HandOverInRun` | mw/com/message_passing/sender.h:168-230 | in every run a hand-over succeeds exactly if the channel is open and some attempt succeeds before retries are used up or a stop is seen |
| `MessagePipeline.SendSucceedsIff` | mw/com/message_passing/sender.h:168-230 | a send succeeds exactly if the channel is open and an attempt succeeds that all earlier ones lead to; otherwise it reports ENFILE or the error of the last attempt, the first one after which no retry or a stop is left |
| `MessagePipeline.Receiver.OnMessage` | mw/com/message_passing/receiver.h:283-318 | what the lookup in the table does is right for the registrations made |
| `MessagePipeline.EveryRunKeepsInv` | mw/com/message_passing/non_blocking_sender.cpp:74-123 | the joint invariant of sender, channel and receiver in every run |
| `MessagePipeline.FirstRegistrationWins` | mw/com/message_passing/receiver.h:193-203 | after any registrations an id is known exactly if it was registered, with the callback that came first |
| `ReceiverShutdown.StopsCoverThreads` | mw/com/message_passing/receiver.h:152-281 | after a stop request that will serve all threads, which is decided by who makes it and where thread 0 is then, at every later point of every run: pending stops plus those still to be posted are at least the threads in or able to enter the message loop |
| `ReceiverShutdown.EveryListenerReturns` | mw/com/message_passing/receiver.h:152-281 | every run is finite, and one that can go no further after such a request has brought every listening thread back |
| `ReceiverShutdown.ServedIff` | mw/com/message_passing/receiver.h:205-244 | the exact condition, known at the request, over all continuations: all of them keep the threads covered, and all that can go no further have brought every thread back, if and only if the request is not one of thread 0's handler with no thread returned early, nor one made between the construction of the callback and thread 0's check while another thread needs a stop |
| `ReceiverShutdown.RequestDecides` | mw/com/message_passing/receiver.h:205-244 | that condition at the request is the shutdown's invariant right after it |
| `ReceiverShutdown.UnservedGetsUncovered` | mw/com/message_passing/receiver.h:205-244 | from every state after a request that does not meet it some run loses a thread |
| `ReceiverShutdown.AllDoneIffCovered` | mw/com/message_passing/receiver.h:205-281 | a run that was asked to stop and can go no further has brought all threads back if and only if the stops cover the threads |
| `ReceiverShutdown.CoveredExactly` | mw/com/message_passing/receiver.h:205-281 | the stops cover the threads if and only if the messages of the whole shutdown and the threads that need none together reach all threads |
| `ReceiverShutdown.RequestFromThreadZero` | mw/com/message_passing/receiver.h:217-233 | a stop requested from a handler of thread 0 posts one message too few: enough exactly if some thread returned early |
| `ReceiverShutdown.NoThreadLeavesEarly` | mw/com/message_passing/receiver.h:246-281 | no thread takes a stop before a stop was requested |
| `ReceiverShutdown.EveryRunKeepsInv` | mw/com/message_passing/receiver.h:152-281 | stops pending, to be posted and taken add up to the shutdown's budget in every state of every run |
| `ReceiverShutdown.StepKeepsInv` | mw/com/message_passing/receiver.h:152-281 | each single step keeps that account |
| `ReceiverShutdown.StopIsTaken` | mw/com/message_passing/receiver.h:246-281 | in every run only a thread in the loop that is not itself calling the callback takes a stop message, which is then gone from the channel |
| `ReceiverShutdown.AllPosted` | mw/com/message_passing/receiver.h:217-233 | once the callback is through, the stops pending and taken are as many as the threads, or one less if it ran on thread 0 |
| `ReceiverShutdown.StoppedTokenIsObeyed` | mw/com/message_passing/receiver.h:246-281 | in every run a thread that looks at a stopped token never enters the loop and takes no stop message |
| `ReceiverShutdown.StepDecreasesMeasure` | mw/com/message_passing/receiver.h:205-281 | each step uses up part of a bounded measure |
| `ReceiverShutdown.SomeStepIsEnabled` | mw/com/message_passing/receiver.h:205-281 | while the stops cover the threads and one is left, some thread or the callback can move |
| `ReceiverShutdown.ThreadZeroCanStrandItself` | mw/com/message_passing/receiver.h:217-233 | concrete run: one listener that requests the stop in its own handler waits for ever |
| `ReceiverShutdown.ADroppedCallbackCanStrandAThread` | mw/com/message_passing/receiver.h:216-241 | concrete run: thread 0 sees the request first and unregisters the callback, and thread 1 waits for ever |
| `Skeletons.ExactlyOneOwner` | mw/com/impl/flag_owner.h:30-58 | in every sound world an event binding is offered if and only if some event owns it with its flag set, and no two events own it |
| `Skeletons.NobodyLeftNothingOffered` | mw/com/impl/skeleton_event_base.h:62-121 | when no skeleton is left no event binding is offered |
| `Skeletons.SkeletonEvent.PrepareOffer` | mw/com/impl/skeleton_event_base.h:84-92 | the flag is set exactly when the binding accepted, or was set before |
| `Skeletons.SkeletonEvent.PrepareStopOffer` | mw/com/impl/skeleton_event_base.h:96-103 | afterwards neither flag nor binding is offered, whatever was before |
| `Skeletons.SkeletonEvent.Send` | mw/com/impl/skeleton_event.h:174-192 | copying in a value is refused unless offered; it reaches the binding exactly on success |
| `Skeletons.SkeletonEvent.Allocate` | mw/com/impl/skeleton_event.h:210-227 | memory is lent only while offered; otherwise `kNotOffered`, or `kBindingFailure` if the binding refuses |
| `Skeletons.SkeletonEvent.SendSample` | mw/com/impl/skeleton_event.h:194-208 | lent memory is sent to the binding whether or not the event is offered |
| `Skeletons.SkeletonEvent.Destroy` | mw/com/impl/skeleton_event_base.h:62 | an offered binding is stopped before it goes |
| `Skeletons.SkeletonEvent.Move` | mw/com/impl/skeleton_event.h:152-158 | binding and flag go to the new event, the parent's map names it |
| `Skeletons.SkeletonEvent.MoveAssign` | mw/com/impl/skeleton_event.h:160-172 | the own binding is stopped and dropped, the other's taken over; the event's own parent, not the other's, learns the address |
| `Skeletons.SkeletonField.DoDeferredUpdate` | mw/com/impl/skeleton_field.h:177-191 | the saved value is sent and forgotten only when the binding took it |
| `Skeletons.SkeletonField.PrepareOffer` | mw/com/impl/skeleton_field_base.h:67-99 | all outcomes: no value, refusal by the binding, refusal of the value, success; a failure loses nothing and a prepared field holds no saved value |
| `Skeletons.SkeletonField.Update` | mw/com/impl/skeleton_field.h:140-151 | saved until the field was prepared, sent afterwards |
| `Skeletons.SkeletonField.Allocate` | mw/com/impl/skeleton_field.h:164-175 | memory is lent only once the field was prepared, and while it is offered |
| `Skeletons.SkeletonField.UpdateSample` | mw/com/impl/skeleton_field.h:153-157 | lent memory is sent at any time; what is of the field's own binding never comes before the saved value |
| `Skeletons.FirstValueIsTheSaved` | mw/com/impl/skeleton_field_base.h:67-99 | the first value the binding of a prepared field accepted is the last one saved for it, unless memory of another binding came earlier |
| `Skeletons.SkeletonField.Move` | mw/com/impl/skeleton_field.h:108-115 | event, mark and saved value go to the new field, the parent's map names it |
| `Skeletons.SkeletonField.MoveAssign` | mw/com/impl/skeleton_field.h:117-131 | the same, with the own event destroyed and the parent reference taken over |
| `Skeletons.Skeleton.UpdateReferences` | mw/com/impl/skeleton_base.cpp:127-137 | afterwards every registered element refers to this skeleton |
| `Skeletons.Skeleton.MoveBase` | mw/com/impl/skeleton_base.cpp:120-138 | binding, maps and flag go to the new base, the old one is empty, the elements refer to the new one |
| `Skeletons.Skeleton.AssignBase` | mw/com/impl/skeleton_base.cpp:140-164 | the same into an existing base, whose own offer is stopped first, its binding's included, and nobody else's |
| `Skeletons.Skeleton.Cleanup` | mw/com/impl/skeleton_base.cpp:104-118 | the binding is told to stop exactly if the service was offered, and no other binding is |
| `Skeletons.OfferEvent` | mw/com/impl/skeleton_event_base.h:84-92 | offering keeps the whole world sound |
| `Skeletons.AssignEvent` | mw/com/impl/skeleton_event.h:160-172 | so does assigning an event, whose cargo ends up in the target |
| `Skeletons.MoveEvent` | mw/com/impl/skeleton_event.h:152-158 | so does moving one |
| `Skeletons.OfferField` | mw/com/impl/skeleton_field_base.h:67-99 | so does offering a field; it succeeds exactly if the binding answers well and the field was prepared before or has a value the binding takes |
| `Skeletons.AssignField` | mw/com/impl/skeleton_field.h:117-131 | so does assigning a field |
| `SkeletonMoves.MoveConstruct` | mw/com/impl/skeleton_base.cpp:120-138 | move construction of a whole skeleton whatever state the source is in, moved from included: it terminates if and only if some element's name is unknown to the skeleton it will tell; otherwise everything comes along, the new skeleton has its links if and only if all members were registered with the source under just their names, and each other linked skeleton keeps its links if and only if no element tells it anything and nothing of it was registered with the source |
| `SkeletonMoves.MoveAssign` | mw/com/impl/skeleton_base.cpp:140-164 | move assignment of a whole skeleton into any other of its class, either of them moved from or not: the same four statements with the target's events and the source's fields as the elements that tell; assigning a skeleton to itself changes nothing |
| `SkeletonMoves.LinkedSource` | mw/com/impl/skeleton_base.cpp:120-138 | a source with its links meets all these conditions: moving from it never terminates, passes the links on and concerns nobody else |
| `SkeletonMoves.OnlyLinkedSourcesPassOn` | mw/com/impl/skeleton_event.h:152-158 | of the sources that have their links or an empty base just the linked ones pass them on; with an empty base, whoever some element refers to loses its links |
| `SkeletonMoves.AssigningLinked` | mw/com/impl/skeleton_event.h:160-172 | assigning from a source with its links: the target gets them if and only if its own events refer to it, and only then everybody else is left alone |
| `SkeletonMoves.MoveElements` | mw/com/impl/skeleton_event.h:152-158 | moving the members one by one: it terminates exactly if a name is unknown where the element's reference leads, and otherwise each member has its cargo and reference and each map names it exactly where it was told |
| `SkeletonMoves.MoveEvents` | mw/com/impl/skeleton_event.h:152-158 | the loop over the events, whatever their order and whoever they refer to |
| `SkeletonMoves.MoveFields` | mw/com/impl/skeleton_field.h:108-115 | the loop over the fields, whatever their order and whoever they refer to |
| `SkeletonMoves.AssignEvents` | mw/com/impl/skeleton_event.h:160-172 | assigning the member events one by one: each gets its counterpart's cargo, keeps its own reference and is told there; it terminates exactly if a name is unknown there |
| `SkeletonMoves.AssignFields` | mw/com/impl/skeleton_field.h:117-131 | assigning the member fields one by one: each gets its counterpart's cargo and reference; the member events keep what they have |
| `SkeletonLifecycle.OfferService` | mw/com/impl/skeleton_base.cpp:206-264 | halts exactly without a binding or with an unbound element; succeeds exactly if every answer does and every field is prepared or has a value its binding takes, and then every registered event is offered and every registered field's last saved value has reached its binding, as it has whenever a new offer becomes visible; whatever fails no saved value is lost; a failure is `kFieldValueIsNotValid` only if the root and all events accept and some field has no value, and `kBindingFailure` only if the root, an event, a field, a value, the finalisation or service discovery refused, and it is one of the two |
| `SkeletonLifecycle.OfferServiceEvents` | mw/com/impl/skeleton_base.cpp:166-182 | succeeds exactly if every event's binding accepts, then all are offered |
| `SkeletonLifecycle.OfferServiceFields` | mw/com/impl/skeleton_base.cpp:184-204 | succeeds exactly if every field can be offered, then all are prepared and offered; no saved value is lost either way |
| `SkeletonLifecycle.AllBound` | mw/com/impl/skeleton_base.cpp:56-90 | the two assertions hold exactly if every element has a binding |
| `SkeletonLifecycle.StopOfferService` | mw/com/impl/skeleton_base.cpp:266-286 | if and only if the service was offered, every element and the skeleton's own binding are told to stop, and the binding is not left prepared; nothing of any other skeleton changes |
| `SkeletonRuns.AnyRun` | mw/com/impl/skeleton_base.cpp:99-286 | from any such state and after any operations, the destruction of all that is left: no event binding is offered any more, neither an old nor a new one, whether or not links were lost on the way; and no skeleton binding is left prepared, unless some offer failed half way |
| `SkeletonRuns.RunOps` | mw/com/impl/skeleton_base.cpp:99-286 | the state after every script of creations, offers with any failures, stops, updates, sends, allocations, zero-copy sends, moves, assignments and destructions on any number of skeletons: the world is sound, and while the program goes on each skeleton not moved from has its links and every other is empty; unless some offer failed half way, a skeleton binding is prepared only for a skeleton whose service is offered; the script is carried out to its end unless the process or the links went, no offer fails half way unless some binding accepted one, and no memory strays unless some was sent to a field |
| `SkeletonRuns.AnyOps` | mw/com/impl/skeleton_base.cpp:99-286 | the same for a program that starts with nothing, and: if memory only went back to where it came from, every prepared field's first value is the last one saved for it |
| `SkeletonRuns.PerformOne` | mw/com/impl/skeleton_base.cpp:120-286 | each single operation keeps this, and exactly how the program goes on is told from the state before: it ends only by an offer without a binding, by using a field that was moved from, or by a move or assignment that tells an unknown name, and loses links only by the other moves and assignments of skeletons that were moved from; an offer counts as failed half way exactly if it leaves a prepared binding of a service that is not offered, and memory as strayed exactly if it was another binding's |
| `SkeletonRuns.PerformMove` | mw/com/impl/skeleton_base.cpp:120-138 | which objects there are after a move; it ends the process or loses links exactly if a skeleton with members that was moved from tells an unknown name or not |
| `SkeletonRuns.PerformAssign` | mw/com/impl/skeleton_base.cpp:140-164 | the same for an assignment, where one of the two must have been moved from |
| `SkeletonRuns.Destroy` | mw/com/impl/skeleton_base.cpp:99-118 | destroying a skeleton, members first, leaves a sound world without it; its binding is told to stop exactly if the service was offered, and nobody else's is |
| `SkeletonRuns.WithoutTheGone` | mw/com/impl/skeleton_event_base.h:62 | a skeleton whose elements gave up their bindings can be forgotten |
| `SkeletonRuns.NewEvent` | mw/com/impl/skeleton_event.h:111-131 | a new member event is registered, linked and not offered, and has a binding exactly if the factory made one |
| `SkeletonRuns.NewField` | mw/com/impl/skeleton_field.h:90-107 | a new member field is registered, linked and without a value, and has a binding exactly if the factory made one |
| `SkeletonCases.MoveTwice` | mw/com/impl/skeleton_event.h:152-158 | every skeleton with its links and at least one member, moved from twice: the second move does not terminate, but neither of the two new skeletons has its links |
| `SkeletonCases.MoveAfterTheTaker` | mw/com/impl/skeleton_base.h:144-152 | if the skeleton that took over was moved away too, moving from the first again ends the process |
| `SkeletonCases.AssignToTheEmptied` | mw/com/impl/skeleton_event.h:160-172 | every skeleton with events that was moved from and gets another of its class assigned: neither it nor the one that took over before has its links |
| `SkeletonCases.BuiltAndMoved` | mw/com/impl/skeleton_event.h:152-158 | concrete run: a skeleton with one event, moved from twice |
| `SkeletonCases.BuiltAndAssigned` | mw/com/impl/skeleton_event.h:160-172 | concrete run: two skeletons with one event each, one moved away and then assigned the other |
| `SkeletonCases.HalfAnOffer` | mw/com/impl/skeleton_base.cpp:206-286 | an offer that fails in the fields leaves every event offered and the binding prepared, and `StopOfferService` leaves them so |
| `SkeletonCases.MemoryOutlivesTheOffer` | mw/com/impl/skeleton_event.h:174-227 | memory lent while offered is accepted after the offer was stopped, when copying is refused |
| `SkeletonCases.MemoryOfAnotherComesFirst` | mw/com/impl/skeleton_field.h:153-157 | memory of another binding sent to a field before its offer comes before the saved value |
| `Json.MapRoundTrip` | mw/com/impl/configuration/configuration_common_resources.h:128-158 | a map written element by element comes back whenever its elements do |
| `Json.ConvertServiceElementMapToJson` | mw/com/impl/configuration/configuration_common_resources.h:128-139 | the insert loop produces exactly that map, in any order, and every insertion takes place |
| `Json.ConvertJsonToServiceElementMap` | mw/com/impl/configuration/configuration_common_resources.h:141-158 | the loop back reads every element or ends the process |
| `Json.DeserializeVariantSelects` | mw/com/impl/configuration/configuration_common_resources.h:99-124 | the recursion finds exactly the alternative of the stored index, and ends the process for any other index |
| `Deployments.ServiceInstanceRoundTrip` | mw/com/impl/configuration/service_instance_deployment.cpp:118-156 | every service instance deployment comes back the same, except that tracing is off and the service name ends at its first NUL |
| `Deployments.RoundTripIsExactIff` | mw/com/impl/configuration/service_instance_deployment.cpp:118-156 | it comes back unchanged if and only if nothing is traced and the name has no NUL |
| `Deployments.BindingRoundTrip` | mw/com/impl/configuration/lola_service_instance_deployment.cpp:100-166 | each binding variant comes back with its optional ids and sizes, event, field and user maps |
| `Deployments.EventRoundTrip` | mw/com/impl/configuration/lola_event_instance_deployment.cpp:55-113 | every combination of optional event settings comes back with tracing off |
| `Deployments.UidMapRoundTrip` | mw/com/impl/configuration/lola_service_instance_deployment.cpp:40-81 | the map from quality to user ids comes back |
| `Deployments.ConvertUidMapToJson` | mw/com/impl/configuration/lola_service_instance_deployment.cpp:64-81 | the writing loop produces exactly the specified object, in any order |
| `Deployments.ConvertJsonToUidMap` | mw/com/impl/configuration/lola_service_instance_deployment.cpp:40-62 | the reading loop returns exactly the specified map or ends the process |
| `Deployments.QualityNames` | mw/com/impl/configuration/quality_type.cpp:37-74 | a string is read exactly if it is the name of a quality, and as that one |
| `Deployments.ServiceTypeRoundTrip` | mw/com/impl/configuration/service_type_deployment.cpp:88-112 | every service type deployment comes back the same, id maps included |
| `Deployments.LolaTypeComesBack` | mw/com/impl/configuration/binding_service_type_deployment.h:143-176 | the LoLa alternative with its event and field id maps |
| `Deployments.InstanceIdRoundTrip` | mw/com/impl/configuration/service_instance_id.cpp:91-117 | every instance id, of either binding or blank, comes back |
| `Deployments.IdRoundTrip` | mw/com/impl/configuration/lola_service_instance_id.cpp:61-79 | a binding's instance id comes back |
| `Deployments.ServiceRoundTrip` | mw/com/impl/configuration/service_identifier_type.cpp:65-91 | a service identifier comes back with its name up to the first NUL |
| `Deployments.VersionTypeRoundTrip` | mw/com/impl/configuration/service_version_type.cpp:56-81 | a service version comes back |
| `Deployments.CStringTwice` | mw/com/impl/configuration/service_identifier_type.cpp:65-76 | cutting a name at its first NUL again changes nothing, so a second round trip is exact |
| `Specifiers.SpecifierIff` | mw/com/impl/instance_specifier.cpp:33-58 | a text is an instance specifier if and only if, up to its first NUL, it is short names of letters, digits and underscores with a slash between each two, a slash or not in front, and no digit as first character |
| `DeploymentFormat.InstanceIff` | mw/com/impl/configuration/service_instance_deployment.cpp:118-131 | an object is read as a service instance deployment if and only if it records it, key by key: version 1, service, binding by index with every id, size, setting and user list, ASIL level, specifier |
| `DeploymentFormat.TypeIff` | mw/com/impl/configuration/service_type_deployment.cpp:88-97 | the same for service type deployments |
| `DeploymentFormat.InstanceIdIff` | mw/com/impl/configuration/service_instance_id.cpp:91-100 | the same for instance ids |
| `DeploymentFormat.LolaIff` | mw/com/impl/configuration/lola_service_instance_deployment.cpp:100-126 | the same for the LoLa part: an absent id or size is none, an unreadable one is fatal |
| `DeploymentFormat.EventIff` | mw/com/impl/configuration/lola_event_instance_deployment.cpp:55-85 | the same for event settings: an absent or unreadable one is none |
| `DeploymentFormat.UidMapIff` | mw/com/impl/configuration/lola_service_instance_deployment.cpp:40-62 | the same for users by quality, with no other key than the three names |
| `DeploymentFormat.ServiceIff` | mw/com/impl/configuration/service_identifier_type.cpp:65-76 | the same for service identifiers |
| `DeploymentFormat.OnlyThisVersion` | mw/com/impl/configuration/service_instance_deployment.cpp:125-129 | no reader of any part takes an object without a version or with one other than 1 |
| `DeploymentFormat.WrittenInstance` | mw/com/impl/configuration/service_instance_deployment.cpp:133-156 | what is written for a service instance deployment records it, under the same keys |
| `DeploymentFormat.WrittenType` | mw/com/impl/configuration/service_type_deployment.cpp:99-112 | the same for service type deployments |
| `DeploymentFormat.WrittenInstanceId` | mw/com/impl/configuration/service_instance_id.cpp:102-117 | the same for instance ids |
| `HashStrings.IdsTakeFourDigits` | mw/com/impl/configuration/binding_service_type_deployment.h:79-88 | the padded hex of any 16-bit id has exactly four digits and determines the id |
| `HashStrings.FourDigits` | mw/com/impl/configuration/binding_service_type_deployment.h:79-88 | the four characters of a 16-bit id are its lower-case hexadecimal digits, the highest first |
| `HashStrings.IndexThenId` | mw/com/impl/configuration/service_instance_id.cpp:53-82 | a hash string is the index of the binding kind followed by the four digits of the id, or the index alone |
| `HashStrings.PaddedIsRead` | mw/com/impl/configuration/lola_service_instance_id.cpp:43-52 | the padded hex of a number is read back as that number |
| `HashStrings.HexLength` | mw/com/impl/configuration/lola_service_instance_id.cpp:43-52 | numbers below a power of 16 fit the padded width exactly |
| `HashStrings.HashSizes` | mw/com/impl/configuration/service_instance_id.cpp:53-82 | the exact length of each hash string; both together always fit the buffer |
| `HashStrings.TypeIsRead` | mw/com/impl/configuration/service_type_deployment.cpp:51-79 | the type's hash string determines binding kind and service id |
| `HashStrings.HandleIsRead` | mw/com/impl/handle_type.h:126-163 | the concatenation is uniquely decodable into binding kinds, instance id and service id |
| `HashStrings.SameCharactersIff` | mw/com/impl/handle_type.h:126-163 | two handles hash the same characters if and only if they agree on all of these |
| `HashStrings.HashInput` | mw/com/impl/handle_type.h:126-163 | the two copies never leave the buffer and produce exactly the concatenation |
| `ConfigParser.ParsedIsWellFormed` | mw/com/impl/configuration/config_parser.cpp:1235-1251 | every configuration that is returned is well formed: each instance's service has a LoLa type that declares all its events and fields, stored ids of a type are pairwise distinct, no ASIL-B instance in a process that is not |
| `ConfigParser.ResolveIsExact` | mw/com/impl/runtime.cpp:259-278 | for a returned configuration exactly one identifier for a configured specifier, with the type declaring its elements, and none otherwise |
| `ConfigParser.Parse` | mw/com/impl/configuration/config_parser.cpp:1235-1251 | parsing list by list with both cross-checks returns the configuration the JSON tree describes, and ends the process exactly if it describes none |
| `ConfigParser.ParsedIff` | mw/com/impl/configuration/config_parser.cpp:368-1251 | a configuration is returned if and only if the tree describes it, told key by key: each service type and instance of the lists and no other, each name, version, id, ASIL level, number of slots and subscribers, memory size, strictness and user list as the file has it, duplicates, missing keys and values out of range excluded, and both cross-checks |
| `ConfigParser.LevelsAreTheFiles` | mw/com/impl/configuration/config_parser.cpp:186-204 | in a returned configuration an instance is ASIL-B exactly if its deployment says "B" and QM exactly if it says "QM"; the process is ASIL-B exactly if "global" says "B" |
| `ConfigParser.LevelBNeedsProcessB` | mw/com/impl/configuration/config_parser.cpp:1128-1143 | a file with a "B" instance whose process is not "B" ends the process |
| `ConfigParser.CrosscheckAsilLevels` | mw/com/impl/configuration/config_parser.cpp:1128-1143 | passes if and only if every ASIL-B instance is in an ASIL-B process |
| `ConfigParser.CrosscheckServiceInstancesToTypes` | mw/com/impl/configuration/config_parser.cpp:1145-1213 | passes if and only if every instance has a LoLa type declaring all its elements |
| `ConfigParser.AreEventAndFieldIdsUnique` | mw/com/impl/configuration/config_parser.cpp:784-811 | true if and only if the stored event and field ids are pairwise distinct, across both maps |
| `ConfigParser.ElementIdsAccepted` | mw/com/impl/configuration/config_parser.cpp:701-782 | a list of event or field types is accepted if and only if every element can be read and no name appears twice |
| `ConfigParser.ElementIdsContents` | mw/com/impl/configuration/config_parser.cpp:701-782 | an accepted list yields exactly the names and stored ids it configures |
| `ConfigParser.DifferentIdsCanCollide` | mw/com/impl/configuration/config_parser.cpp:701-740 | concrete input: a type whose two events have the ids 1 and 257 is refused |
| `ConfigParser.TypeAcceptedIff` | mw/com/impl/configuration/config_parser.cpp:813-849 | a LoLa type is accepted if and only if it has a service id and at least one of the lists, the lists are accepted, and no two configured ids of its events and fields agree modulo 256 |
| `ConfigParser.UniqueIffLowBytes` | mw/com/impl/configuration/config_parser.cpp:784-811 | the stored ids are pairwise distinct if and only if the configured ones are modulo 256 |
| `ConfigParser.ParseElementTypeDeployments` | mw/com/impl/configuration/config_parser.cpp:701-782 | the loop over the list is that function, stopping at the first bad element |
| `ConfigParser.ParseLolaServiceTypeDeployment` | mw/com/impl/configuration/config_parser.cpp:813-849 | a LoLa type needs a readable service id, at least one of the two lists and distinct ids |
| `ConfigParser.ParseServiceTypeDeployment` | mw/com/impl/configuration/config_parser.cpp:851-888 | the first SHM binding decides, SOME/IP ones are skipped, any other ends the process, none leaves the type blank |
| `ConfigParser.ParseServiceTypes` | mw/com/impl/configuration/config_parser.cpp:890-922 | all service types, a repeated identifier ends the process |
| `ConfigParser.ParseElementInstances` | mw/com/impl/configuration/config_parser.cpp:368-459 | all events or fields of an instance, a repeated name ends the process |
| `ConfigParser.ParseServiceInstances` | mw/com/impl/configuration/config_parser.cpp:652-699 | all instances, a repeated specifier ends the process |
| `ConfigParser.TypesHaveUniqueIds` | mw/com/impl/configuration/config_parser.cpp:890-922 | every LoLa type of an accepted list has distinct ids |
| `ConfigParser.InstancesAreGood` | mw/com/impl/configuration/config_parser.cpp:577-699 | every accepted instance is stored under its specifier, has a valid ASIL level and a LoLa binding |
| `ServiceDiscovery.ServiceDiscovery.StartFindService` | mw/com/impl/service_discovery.cpp:75-94 | succeeds exactly if every client does, and then stores one instance per identifier under a new handle; any failure leaves callbacks, instances and running searches as before and reports the first client's error |
| `ServiceDiscovery.ServiceDiscovery.StartFindServiceImpl` | mw/com/impl/service_discovery.cpp:139-153 | a refusing client takes everything stored under the handle with it |
| `ServiceDiscovery.ServiceDiscovery.StopFindService` | mw/com/impl/service_discovery.cpp:114-137 | every client concerned is told to stop, callback and instances of the handle and no others are erased, an error is reported exactly if some client reported one |
| `ServiceDiscovery.ServiceDiscovery.GetNextFreeFindServiceHandle` | mw/com/impl/service_discovery.cpp:155-162 | a handle never given out before |
| `ServiceDiscovery.ServiceDiscovery.Destroy` | mw/com/impl/service_discovery.cpp:39-52 | leaves no stored instance and no running search, and erases exactly the callbacks of handles that had an instance |
| `ServiceDiscovery.ServiceDiscovery.RolledBack` | mw/com/impl/service_discovery.cpp:139-153 | erasing a handle undoes everything added under it |
| `ServiceDiscovery.WithoutKeepsOthers` | mw/com/impl/service_discovery.cpp:114-137 | erasing a handle keeps exactly the entries of other handles |
| `ServiceDiscovery.WithoutUndoesAdding` | mw/com/impl/service_discovery.cpp:114-153 | and restores the container, order included |
| `ServiceDiscovery.FindService` | mw/com/impl/service_discovery.cpp:222-251 | ends the process for an unknown specifier, fails exactly if every search failed, and otherwise merges the finds in order |
| `ServiceDiscovery.MergedFinds` | mw/com/impl/service_discovery.cpp:222-251 | a handle is in the result exactly if some search that succeeded found it |
| `ServiceDiscovery.MergedInOrder` | mw/com/impl/service_discovery.cpp:222-251 | the result is the finds of the successful searches one behind the other, in their order, each handle as often as it was found |
| `ServiceDiscovery.Live` | mw/com/impl/service_discovery.cpp:39-182 | any starts and stops, then the destructor: each successful start is given the number of starts before it, and nothing is left stored or running |
| `ServiceDiscovery.LiveOne` | mw/com/impl/service_discovery.cpp:75-137 | a start gives a handle exactly if every client accepts, and uses one up in any case |
| `ServiceDiscovery.HandlesAreNeverReused` | mw/com/impl/service_discovery.cpp:155-162 | the handles of any run strictly increase, however many were stopped in between |
| `RuntimeInit.Execute` | mw/com/impl/runtime.cpp:95-226 | for every sequence of calls: the process ends exactly if some call is one that ends it, and otherwise the configuration in force is the one the reference definition names, that of the last `Initialize` before the first call that reached the instance, or the default |
| `RuntimeInit.ExecuteOne` | mw/com/impl/runtime.cpp:95-226 | each single call keeps the object in step with that definition and ends the process exactly when the definition says so |
| `RuntimeInit.InForceIsUnique` | mw/com/impl/runtime.cpp:95-226 | the definition names at most one configuration |
| `RuntimeInit.InForceForGood` | mw/com/impl/runtime.cpp:204-226 | once there is one no later call changes it |
| `RuntimeInit.ConfigIsInTheFiles` | mw/com/impl/runtime.cpp:95-174 | each `Initialize` holds the default manifest, its buffer, or the manifest its arguments name, and none if there is no such file |
| `RuntimeInit.LastInjectionCounts` | mw/com/impl/runtime.cpp:176-202 | a mock answers exactly if the last injection put one there |
| `RuntimeInit.Runtime.Initialize` | mw/com/impl/runtime.cpp:95-109 | ignored once locked; otherwise stores the default manifest or ends the process |
| `RuntimeInit.Runtime.InitializeFromBuffer` | mw/com/impl/runtime.cpp:111-136 | the same with the parsed buffer |
| `RuntimeInit.Runtime.InitializeFromArguments` | mw/com/impl/runtime.cpp:138-174 | the same with the manifest named on the command line |
| `RuntimeInit.Runtime.GetInstance` | mw/com/impl/runtime.cpp:176-226 | the mock if there is one; otherwise the instance, created by the first such call and unchanged afterwards |
| `RuntimeInit.FindManifestPath` | mw/com/impl/runtime.cpp:150-170 | the argument scan finds the value behind the first occurrence of the option |
| `RuntimeInit.FirstOptionCounts` | mw/com/impl/runtime.cpp:150-170 | later occurrences do not count, and an option without a value means the default |
| `RuntimeInit.ManifestPathIsNamed` | mw/com/impl/runtime.cpp:150-170 | every command line names exactly one path: what follows the first "-service_instance_manifest", or the default path if there is none or nothing follows it |

## Left out

- Tracing, logging and error texts: they do not influence what is modelled; callbacks and filters for tracing are not parameters here.
- The bindings themselves, shared memory, channel traits, the ring buffer behind the sender's queue and the executor: environment only; the termination for a queue capacity above 100 is not modelled.
- Retry delays, loop delays and time in general; waiting for a channel to open.
- Memory orders weaker than sequential consistency: one atomic has a single modification order, the queue is guarded by a lock.
- SampleAccounting.ResetIsSafeIffUnused: the two stores of `Reset` are taken together, because the header demands that nobody else uses the tracker meanwhile.
- The value of a `SamplePtr` after it was the source of a defaulted move assignment: the guard is settled, the binding's own pointer is not.
- SkeletonRuns.PerformMove: a source some element of which refers to a skeleton that is gone is not moved, since the code would follow a dangling reference; the same holds for assignments, and for what a program does with skeletons whose links are lost, other than destroying them.
- Sending memory to an event or field whose binding could not be created: the code dereferences a null pointer there.
- The parent reference of a field's own event: it is never used to update a map, and moving a field leaves it as it is.
- The instance id of a skeleton and its withdrawal from service discovery: the withdrawal is one call without a result that matters here.
- A clean-up of the skeleton binding after an offer that failed before its flag was set: the code does not promise one; only the safe direction, no stop without a successful prepare, is stated.
- Strict weak orders and equal hashes for instance identifiers, handles and deployments: they do not hold as written (`mw/com/impl/handle_type.cpp:81-84`, `mw/com/impl/configuration/service_instance_deployment.cpp:75-95`).
- The lifetime of the pointer that instance identifiers keep to the stored configuration after the runtime has taken it over.
- The text form of JSON: a tree of values is the starting point; integers outside the range asked for count as unreadable.
- ConfigParser.Parse: queue sizes, the mode of shared-memory size calculation and the tracing section of a configuration are not modelled; malformed ones end the process in the code and are ignored here.
- ConfigParser.ParseServiceTypes: a service type without a list of bindings is taken as the end of the process, where the code dereferences the end of the map, whose outcome is undefined.
- The iteration order of maps: every loop over a map is proved for any order.
- Wrap-around of the find-handle counter at 2^64.
- ServiceDiscovery.ServiceDiscovery.StopFindService: a client forgets its searches for the handle even if it reports an error; what a binding does then is its own affair.
- User callbacks that call back into service discovery while a search is being started.
- The error message printed for a message without a registered callback; a callback of the wrong kind ends the process.
