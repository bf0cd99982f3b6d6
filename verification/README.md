# Verified model of the gateway's ordered server push

The gateway pushes messages to each client over one stream. Every message takes a
number from its session's counter, and a per-session queue puts messages on the wire in
the order of their numbers, keeps them until the client acknowledges them, retransmits
them, and gives them up in the end. Requests are answered by concurrent workers, each of
which brackets its response with the notifies bound before and after it. A client that
reconnects gets a new session that takes over from its old one. Around this core stand a
limiter for requests and connections, and the framing of messages on the stream.

The code that changes things in place is modelled by classes and methods with loops,
each proved against a specification: a state and the steps that change it. The
properties are lemmas about all runs of those steps, under every interleaving.

| file | what it holds |
|---|---|
| `QueueSpec.dfy`, `QueueAlgebra.dfy` | the queue as a state with its wire history, its steps and its runs |
| `MessageQueue.dfy`, `OrderedQueue.dfy` | the heap and the queue as the gateway runs them |
| `QueueHistory.dfy` | order on the wire, conservation, how often a number is sent |
| `QueueProgress.dfy`, `Reordering.dfy` | what blocks the queue; the queue as a reorder buffer |
| `QueueAcks.dfy`, `Validator.dfy` | acknowledgement as a join, the window of counters, the exported metadata |
| `QueueTiming.dfy`, `QueueStamps.dfy` | how early and how late an unacknowledged message is given up; when messages are offered, retransmitted and dropped |
| `NotifySpec.dfy`, `NotifyHistory.dfy`, `NotifyOrdering.dfy` | the notify bindings |
| `Workers.dfy` | any number of workers, the counter and the queue as one transition system |
| `NotifyDelivery.dfy`, `Quiescence.dfy` | each bound notify goes out once; what the wire shows when all is done |
| `TaskFates.dfy`, `Service.dfy` | what a failure ends, and that every task is served in full when nothing fails |
| `SessionSpec.dfy`, `Sending.dfy`, `Sessions.dfy` | sessions, pushes and the session manager |
| `PushSteps.dfy`, `ManagerSteps.dfy` | what these do, as steps of `Reconnect.dfy` |
| `Reconnect.dfy`, `Lineage.dfy` | all sessions as one transition system; what an heir is given, who is registered and logged in |
| `ChainLedger.dfy`, `ChainTiming.dfy`, `ChainStamps.dfy` | conservation, time bounds and the spacing of retransmissions along chains of reconnects |
| `HandOff.dfy`, `TakeOver.dfy` | what is handed over, and when a take-over in two moments is one step |
| `RateLimit.dfy`, `Protector.dfy`, `Connections.dfy` | the limiter |
| `Framing.dfy`, `Codec.dfy` | the length-prefixed stream |

How to read the model:

- A send callback is an oracle that says which numbers get through; time is an integer
  that is passed to each step: nanoseconds, and seconds for the notify bindings.
- A drain is described by its `burst`, the messages it sends. `IsBurst` says which runs
  of parked messages are possible: with several parked messages of one number the heap
  may choose either, and the code does not say which.
- The queue's history fields are `firsts` (first transmissions in order), `resends` (how
  often each frame was retransmitted) and `skipped` (numbers a resync stepped over).
- `HandOff.ResumedQueue` and `HandOff.RetriesCarryOver` ask that the predecessor keeps
  nothing under number zero, which holds in every reachable state
  (`Reconnect.NoZeroKept`).

## What turned out not to hold

- The request window is called sliding but does not slide: when a whole window has gone
  by since the last reset, it is emptied at once. Two full budgets can be let through
  within one nanosecond of each other (`RateLimit.TwoBudgetsReached`), and no more than
  two in any interval as long as the window (`RateLimit.TwoBudgets`).
- A resync does not drain the heap: it leaves the queue stuck, with a message stranded in
  it, if and only if the message after the resynced number is parked
  (`QueueProgress.ResyncStrands`). A send that fails inside a drain does the same with its
  own message, which is put back at the expected number
  (`QueueProgress.FailedDrainStrands`). In both cases nothing was lost, and still only
  another resync, or a second delivery of that number, moves the queue on
  (`QueueProgress.StrandedBlocks`).
- A number once lost (queue full, send failed, parked message expired) blocks all later
  ones until a resync covers it; plain acknowledgements, retries and further pushes do
  not help (`QueueProgress.OnlyAResyncFrees`, if and only if).
- After a reconnect the answer to START goes out at once if and only if the larger of the
  inherited and the reported acknowledgement is exactly the predecessor's counter
  (`HandOff.StartAnsweredAtOnceIff`).
  - If it is less, the answer is parked, and nothing new goes out until a resync covers the
    answer itself, a number that the client was never sent (`HandOff.AnswerWaitsForResync`,
    if and only if). In particular, acknowledging exactly what the predecessor numbered does
    not help: the answer stays parked at the expected number, and everything later behind
    it (`HandOff.CatchingUpStrandsAnswer`).
  - If it is more, pushes are refused as stale up to the claimed number, and all later ones
    go out without the client doing anything (`HandOff.RefusedUpToClaim`).
- The code reads the predecessor's counters some time before it closes the predecessor.
  Such a take-over amounts to one step if and only if the predecessor takes no number and
  admits no request in between (`TakeOver.SplitIsOneStepIff`); then nothing on its wire is
  numbered above the counter that was read (`TakeOver.QuietWireStaysWithin`). Otherwise a
  late push of the predecessor goes out under the number of the heir's first one
  (`TakeOver.LatePushSharesNumber`, `TakeOver.LatePushesIff`), and a late request is
  admitted twice (`TakeOver.LateRequestAdmittedTwice`). The other cause is a second
  connection of the same user that reads the predecessor before it is unregistered: the
  chain branches, and the first pushes of both heirs share a number
  (`TakeOver.TwoHeirsShareNumber`).
- An acknowledgement of something not yet sent upsets the counters until its handler's
  resync. All exports of a run are accepted, half-way points included, if and only if each
  acknowledgement is within what has been sent when its handler begins
  (`Validator.ExportsAreValidIff`); and exactly then an acknowledgement at or below the
  last one changes nothing at any point of the run (`QueueAcks.OldAcksAreNoOpsIff`).
- A full queue refuses everything, also the number that would drain it, so it stays as it
  is until a cleanup or a resync makes room (`QueueProgress.FullQueueBlocks`).
- A push on a closed session is still accepted if its message is parked; it never reaches
  the wire (`PushSteps.ClosedPushSendsNothing`).
- That every parked number is at least the expected one, once each, is kept by an
  accepted message if and only if its number was not already parked
  (`Reordering.EnqueueStaysOrderlyIff`): the queue does not reject repeats above the
  expected number.
- `TECHNICAL_DESIGN.md:628` says that 30 seconds without an acknowledgement trigger a
  retransmission; in the code it is more than half of that (`RETRY_TIMEOUT`).

## Model

| member | source | states |
|---|---|---|
| MessageHeap.RootIsLeast | internal/session/ordered_queue.go:21-33 | the root of a heap of parked messages carries a least number |
| MessageHeap.SiftUpStep | internal/session/ordered_queue.go:21-33 | one exchange on the way up leaves a heap except, possibly, at the parent |
| MessageHeap.SiftDownStep | internal/session/ordered_queue.go:21-33 | one exchange with a least child on the way down leaves heap order everywhere else, and nothing beyond the bound moves |
| MessageHeap.MessageQueue.Push | internal/session/ordered_queue.go:21-33 | heap order kept, exactly the new message added |
| MessageHeap.MessageQueue.Pop | internal/session/ordered_queue.go:21-33 | heap order kept, exactly the old root removed and returned |
| MessageHeap.MessageQueue.Init | internal/session/ordered_queue.go:195-202 | any list becomes a heap of the same messages |
| MessageHeap.MessageQueue.Up | internal/session/ordered_queue.go:21-33 | sifting up restores the heap and loses nothing |
| MessageHeap.MessageQueue.Down | internal/session/ordered_queue.go:21-33 | sifting down restores heap order below a position and touches nothing beyond the bound |
| OrderedQueue.RootDecides | internal/session/ordered_queue.go:136-148 | looking at the root alone tells whether the expected number is parked with nothing below it |
| OrderedQueue.OrderedMessageQueue.constructor | internal/session/ordered_queue.go:62-80 | a new queue is in the initial state of the specification |
| OrderedQueue.OrderedMessageQueue.EnqueueMessage | internal/session/ordered_queue.go:90-134 | takes exactly one enqueue step of the specification: outcome, new state and what was drained |
| OrderedQueue.OrderedMessageQueue.SendExpected | internal/session/ordered_queue.go:111-123 | sending the expected message and draining behind it is one transmission of a maximal run of parked messages |
| OrderedQueue.OrderedMessageQueue.ProcessWaitingMessages | internal/session/ordered_queue.go:136-153 | the drain terminates; it sends a run of consecutive least parked messages that cannot be prolonged |
| OrderedQueue.OrderedMessageQueue.SendRoot | internal/session/ordered_queue.go:139-148 | pop, send and put back: a failed send leaves the state as it was |
| OrderedQueue.OrderedMessageQueue.DeleteAcked | internal/session/ordered_queue.go:215-221 | deleting while iterating leaves exactly the entries above the number, and counts the others |
| OrderedQueue.OrderedMessageQueue.AckMessagesUpTo | internal/session/ordered_queue.go:211-228 | takes the ack step and returns how many entries went |
| OrderedQueue.OrderedMessageQueue.ResyncSequence | internal/session/ordered_queue.go:179-208 | takes the resync step, heap included |
| OrderedQueue.OrderedMessageQueue.CleanupExpiredMessages | internal/session/ordered_queue.go:248-270 | takes the cleanup step on both collections |
| OrderedQueue.OrderedMessageQueue.RetryTimedOutMessages | internal/session/ordered_queue.go:272-285 | takes the retry step: each due message that gets through is resent once and marked, no other |
| OrderedQueue.OrderedMessageQueue.Stop | internal/session/ordered_queue.go:287-303 | empties the queue once, and is idempotent |
| OrderedQueue.Filtered | internal/session/ordered_queue.go:195-200 | the rebuilt list holds exactly the parked messages that satisfy the condition, with their multiplicities |
| QueueAlgebra.TransmitConcat | internal/session/ordered_queue.go:111-123 | transmitting one run after another is transmitting their concatenation |
| QueueAlgebra.DrainedExtends | internal/session/ordered_queue.go:136-153 | one more drained message extends the run, and the states compose |
| QueueAlgebra.ResendOneMore | internal/session/ordered_queue.go:277-284 | resending one message more adds one frame and changes one entry |
| QueueHistory.StreamRun | internal/session/ordered_queue.go:111-153 | in every run first transmissions go out in increasing order, and every number below the expected one was either transmitted or skipped, never both |
| QueueHistory.NoOvertaking | internal/session/ordered_queue.go:98-153 | when a number goes out for the first time every lower one went out before or was stepped over by a resync of this run |
| QueueHistory.SkippedByResync | internal/session/ordered_queue.go:191-203 | only a resync past the expected number skips numbers |
| QueueHistory.GrowsRun | internal/session/ordered_queue.go:90-228 | what has been put on the wire stays so, at the same place, and the counters never go back |
| QueueHistory.Conservation | internal/session/ordered_queue.go:111-123 | in every state of every run each transmitted message is pending, acknowledged, or was sent 1 + MaxRetries times, unless the queue was stopped; none more often; nothing else is kept or resent |
| QueueHistory.RetryKeepsLedger | internal/session/ordered_queue.go:277-284 | a retry round resends each due message once and keeps the account |
| QueueHistory.GoneForGood | internal/session/ordered_queue.go:184-188 | a number that was passed and is no longer kept is never put on the wire again |
| QueueHistory.OnePayloadPerNumber | internal/session/ordered_queue.go:90-134 | on one queue's wire a number has one payload and at most 1 + MaxRetries appearances |
| QueueProgress.OnlyAResyncFrees | internal/session/ordered_queue.go:191-203 | a queue stuck at a number that is not delivered again passes it if and only if a resync covers it |
| QueueProgress.NothingPassesALostNumber | internal/session/ordered_queue.go:98-153 | until then nothing with that number or a higher one goes out for the first time |
| QueueProgress.SilentUntilResync | internal/session/ordered_queue.go:191-203 | a queue to which none of the numbers it could expect up to a given one is delivered passes that one if and only if a resync covers it, and transmits nothing new before |
| QueueProgress.RejectionLoses | internal/session/ordered_queue.go:98-116 | a number refused because the queue is full or the send fails is lost in that sense |
| QueueProgress.ExpiryLoses | internal/session/ordered_queue.go:261-269 | so is a number whose parked message expires |
| QueueProgress.ResyncStrands | internal/session/ordered_queue.go:191-203 | a resync that moves the expected number on leaves a message parked at it if and only if it was parked before, and sends nothing |
| QueueProgress.FailedDrainStrands | internal/session/ordered_queue.go:139-143 | after a number has gone out, the next expected one is parked if and only if it was parked before and its send failed |
| QueueProgress.StrandedBlocks | internal/session/ordered_queue.go:136-153 | the queue moves past its expected number, without a delivery of it, if and only if a resync covers it, and sends nothing new before |
| Reordering.Refinement | internal/session/ordered_queue.go:90-153 | with distinct numbers, a working link and room, and with acks, retries, ticks at which nothing parked has expired and resyncs that skip nothing in between, the expected number is the least one not enqueued, the trace is 1 to next - 1 with the right payloads, and the heap holds the rest |
| Reordering.HarmlessReorders | internal/session/ordered_queue.go:179-285 | each such step keeps that correspondence |
| Reordering.NeverOverCapacity | internal/session/ordered_queue.go:98-100 | in no state of any run are more messages parked than the queue has room for |
| Reordering.ParkedAhead | internal/session/ordered_queue.go:124-153 | in every run that enqueues no number twice, whatever else happens in it, every parked number is at least the expected one and parked once |
| Reordering.EnqueueReorders | internal/session/ordered_queue.go:111-133 | one enqueue keeps that correspondence and is accepted |
| Reordering.EnqueueStaysOrderlyIff | internal/session/ordered_queue.go:124-127 | parked numbers stay distinct and at or above the expected one if and only if the accepted number was not already parked |
| Reordering.OtherStepsStayOrderly | internal/session/ordered_queue.go:179-285 | no other step disturbs that |
| Reordering.PermutationIsSorted | internal/session/ordered_queue.go:90-153 | any permutation of 1 to n, n within the capacity, is sent as 1 to n, each with its payload, and the heap ends up empty |
| QueueAcks.AckThenResync | internal/gateway/handlers.go:226-227 | acknowledge-then-resync by one number is the resync |
| QueueAcks.ResyncJoins | internal/session/ordered_queue.go:179-208 | two resyncs are one to the larger number: idempotent and commutative, heap included |
| QueueAcks.AcksJoin | internal/session/ordered_queue.go:211-228 | any list of acks equals one ack of their maximum |
| QueueAcks.OldAckIsNoOp | internal/session/ordered_queue.go:211-228 | in the window an ack or resync at or below the last acknowledgement changes nothing |
| QueueAcks.NoOpIsOldAck | internal/session/ordered_queue.go:211-228 | and only such an ack changes nothing |
| QueueAcks.OldAcksAreNoOpsIff | internal/gateway/handlers.go:226-227 | at every point of a run acks and resyncs at or below the last acknowledgement change nothing, if and only if every ack is within what has been sent when its handler begins |
| QueueAcks.TightWindowRun | internal/gateway/handlers.go:226-227 | under that condition the window itself holds at every point, half-way points included |
| QueueAcks.WindowRun | internal/gateway/handlers.go:226-227 | in every run, with any number of ack handlers between their two steps, the loosened window holds; and the window itself whenever none is half way |
| QueueAcks.PendingFitsWindow | internal/backup/data_validator.go:93-105 | at most as many messages are pending as lie between the two counters |
| Validator.WindowIsValid | internal/backup/data_validator.go:71-108 | a queue in its window passes the check with any tolerance, none included |
| Validator.HalfwayAckIsValidIff | internal/backup/data_validator.go:76-80 | right after an ack, before anything else happens, the export passes if and only if the client acknowledged something sent |
| Validator.ExportsAreValidIff | internal/backup/data_validator.go:71-108 | all exports of a new queue's run pass, half-way points included, if and only if every ack is within what has been sent when its handler begins; and then without the tolerance |
| Validator.TooManyPendingIff | internal/backup/data_validator.go:93-105 | which metadata is rejected for its pending count, which for its acknowledgement, and which is accepted |
| Validator.TooManyPendingWhen | internal/backup/data_validator.go:93-105 | an export of a run is rejected for its pending count only while an ack handler is half way and more than ten acknowledged messages are kept |
| Validator.ExportShows | internal/backup/sync_service.go:442-449 | an export shows the three counters and the number of kept messages |
| Validator.ExportsAreValid | internal/backup/sync_service.go:442-449 | every export of a new queue's run with no handler half way passes without the tolerance |
| QueueTiming.NeverGivenUpEarly | internal/session/ordered_queue.go:255-259 | an unacknowledged message is given up only more than 75 seconds after it was enqueued |
| QueueTiming.AgedRun | internal/session/ordered_queue.go:277-284 | every retry of a pending message came more than half the message timeout after the attempt before |
| QueueTiming.GivenUpInTime | internal/session/ordered_queue.go:236-285 | with ticks at most ten seconds apart and retries that get through, nothing is kept more than 115 seconds after its first transmission |
| QueueTiming.PromptRun | internal/session/ordered_queue.go:236-285 | the schedule behind that bound: at most 25 seconds to each retry and 40 more after the last |
| QueueProgress.FullQueueBlocks | internal/session/ordered_queue.go:98-100 | a full queue refuses every number, and nothing moves until a cleanup, a resync or a stop |
| QueueProgress.StoppedIsSilent | internal/session/ordered_queue.go:94-96 | a stopped queue stays empty and puts nothing more on the wire |
| QueueProgress.WithRoom | internal/session/ordered_queue.go:111-133 | with room the expected number goes out if and only if its send gets through, a higher one is parked, a lower one refused, and a refused message leaves no trace |
| QueueProgress.ResyncKeepsAbove | internal/session/ordered_queue.go:184-208 | what a resync keeps of the parked and of the sent messages, one by one |
| QueueStamps.MessagesAreOffered | internal/session/ordered_queue.go:102-109 | every parked message, and every message as it was first transmitted, is exactly what some enqueue step of the run offered, with the time of that step |
| QueueStamps.NewMessagesAreOffered | internal/session/ordered_queue.go:111-153 | what a step transmits first is stamped on the wire history with the time of the step |
| QueueStamps.RetriesAreSpaced | internal/session/ordered_queue.go:277-284 | in every run the steps that put one number on the wire again are more than 15 seconds apart, by their own times |
| QueueStamps.RetryAfterEnqueue | internal/session/ordered_queue.go:277-284 | and the first comes more than 15 seconds after the step that enqueued the number |
| QueueStamps.ResendStamps | internal/session/ordered_queue.go:277-284 | a retransmission finds an entry more than 15 seconds old with fewer than three retries, and leaves it stamped with the time of the step and one retry more |
| QueueStamps.EntriesRun | internal/session/ordered_queue.go:116-121 | what is kept is marked sent, filed under its number, and before its first retry carries the time of its enqueue |
| QueueStamps.CleanupExact | internal/session/ordered_queue.go:254-269 | a cleanup drops exactly the parked messages older than 30 seconds, and the sent ones that are that old and have three retries |
| QueueStamps.ParkedExpiresIff | internal/session/ordered_queue.go:261-267 | in every run a parked message is dropped by a cleanup if and only if the step that enqueued it lies more than 30 seconds back |
| QueueStamps.ParkedAtMost | internal/session/ordered_queue.go:236-270 | with prompt ticks nothing stays parked for more than 40 seconds |
| ChainStamps.ChainRetriesAreSpaced | internal/session/ordered_queue.go:277-284 | along a chain of reconnects two retransmissions of one number, by one session or by two, are more than 15 seconds apart |
| NotifyHistory.HoldsSurvivors | internal/session/notify_ordering.go:43-148 | after any operations a request number holds exactly the items bound to it and neither returned nor expired in a cleanup since, in binding order; no list is empty |
| NotifyHistory.NotReturnedTwice | internal/session/notify_ordering.go:66-82 | an item that was returned never survives a later operation |
| NotifyHistory.CleanLeavesYoung | internal/session/notify_ordering.go:106-148 | after a cleanup no remaining item is older than the limit |
| NotifyHistory.CleanKeepsExactly | internal/session/notify_ordering.go:112-126 | a cleanup keeps of each list, in order and one by one, exactly the items created no more than the age limit ago |
| NotifyHistory.BindingsAreComplete | internal/session/notify_ordering.go:66-82 | a take returns every item that was bound and is still bound |
| NotifyHistory.NotifyConservation | internal/session/notify_ordering.go:43-148 | items bound = items returned + items cleaned up + items pending, over every run and both tables |
| NotifyHistory.CleanCount | internal/session/notify_ordering.go:106-148 | what a cleanup counts is what it removes |
| NotifyOrdering.MessageOrderingManager.AddNotifyBindBeforeRsp | internal/session/notify_ordering.go:43-53 | one add operation on the before table, or refusal of a missing item |
| NotifyOrdering.MessageOrderingManager.AddNotifyBindAfterRsp | internal/session/notify_ordering.go:55-64 | one add operation on the after table, or refusal of a missing item |
| NotifyOrdering.MessageOrderingManager.GetAndRemoveBeforeNotifies | internal/session/notify_ordering.go:66-73 | returns the bound list and forgets it |
| NotifyOrdering.MessageOrderingManager.GetAndRemoveAfterNotifies | internal/session/notify_ordering.go:75-82 | returns the bound list and forgets it |
| NotifyOrdering.MessageOrderingManager.GetPendingBeforeCount | internal/session/notify_ordering.go:84-93 | counts the items before responses |
| NotifyOrdering.MessageOrderingManager.GetPendingAfterCount | internal/session/notify_ordering.go:95-104 | counts the items after responses |
| NotifyOrdering.MessageOrderingManager.CleanupExpiredNotifies | internal/session/notify_ordering.go:106-148 | one cleanup operation on both tables, and the number of items it removed |
| NotifyOrdering.CleanMap | internal/session/notify_ordering.go:112-145 | filtering the map while iterating it leaves exactly the unexpired items in order, drops emptied entries, and counts |
| NotifyOrdering.KeepUnexpired | internal/session/notify_ordering.go:112-126 | the unexpired items of one list in their order, and how many others there were |
| Workers.Bracketing | internal/gateway/async_processor.go:193-208 | under every interleaving the transmitted messages of one task appear as before-notifies in binding order, response, after-notifies in binding order, no place twice |
| Workers.PayloadProvenance | internal/gateway/handlers.go:345-386 | each transmitted message of a task carries the payload at its place: for a notify, in the list of surviving bindings that the task's own take returned, a take no other task or phase shares; for the response, the task's own reply |
| Workers.OneReply | internal/gateway/async_processor.go:183-205 | the reply on record for a task is the response, or the error, that it got in a step of the run, and it gets only one |
| NotifyDelivery.NotifyGoesOutOnce | internal/gateway/handlers.go:345-386 | under every interleaving each bound notify is put on the wire for the first time at most once, under one number |
| NotifyDelivery.SentNotifyWasBound | internal/gateway/handlers.go:345-386 | every notify a task puts on the wire was bound to the task's request, on the side of its phase, with the payload it goes out with |
| NotifyHistory.SurvivorsAreBound | internal/session/notify_ordering.go:66-82 | the items a take returns come from different bindings, in binding order |
| Quiescence.AllOnTheWire | internal/session/ordered_queue.go:90-153 | if nothing goes wrong, then once all workers are idle and every number taken elsewhere has been put, the wire shows 1 up to the counter in order, each with the payload it was taken for, and nothing is parked |
| Quiescence.NothingMissing | internal/gateway/async_processor.go:193-208 | and every notify that a task fetched, and its response, is on the wire |
| Service.ServedInFull | internal/gateway/async_processor.go:193-208 | in such a run, once all is done, every task that got its response has fetched what was bound before it and after it, and set out to send it |
| Service.BoundNotifyGoesOut | internal/gateway/handlers.go:345-386 | and every notify that was bound to its request, on either side, and still was when it was fetched, is on the wire with its payload |
| Service.ResponseGoesOut | internal/gateway/async_processor.go:200-204 | and so is the response, unless it is empty and the sender is `ProcWithNotifyBinds` |
| Service.AnsweredAnyway | internal/gateway/async_processor.go:195-204 | whatever fails, an asynchronous task that got its response has set out to send it |
| TaskFates.FailureEnds | internal/gateway/async_processor.go:193-208 | after a push that fails, an asynchronous task takes no more numbers for notifies bound before its response, if it was at those, and otherwise none at all; one of `ProcWithNotifyBinds` takes none at all |
| TaskFates.ErrorStandsAlone | internal/gateway/async_processor.go:183-192 | a task that gets an error from upstream fetches no notifies and takes a number only for the error |
| TaskFates.NothingWithoutReply | internal/gateway/async_processor.go:172-192 | a task takes numbers only after its reply, and `ProcWithNotifyBinds` none for an empty response |
| TaskFates.FetchedRun | internal/gateway/async_processor.go:193-208 | where a task that got its response stands, in every run |
| TaskFates.SubmitIff | internal/gateway/async_processor.go:111-128 | a submission is accepted if and only if the workers have been started and the channel has room |
| TaskFates.ChannelRun | internal/gateway/async_processor.go:111-128 | the channel never exceeds its capacity, and keeps the order of submission |
| TaskFates.BegunInOrder | internal/gateway/async_processor.go:146-159 | workers begin tasks in the order of submission |
| Quiescence.SmoothRun | internal/gateway/ordered_sender.go:25-56 | throughout such a run the numbers that workers took are in the queue's hands or in one worker's, and not in both, and the queue reorders what it was given |
| Workers.NothingLeftOut | internal/session/session.go:338-402 | a task that took a number for a message took one for every earlier message of the phase, for the response before any after-notify, and, if strict, for all before-notifies |
| Workers.SystemRun | internal/gateway/async_processor.go:146-208 | labels, program order, fetched lists and gap-freedom hold in every reachable state of workers, counter, bindings and queue, and so do distinct takes and single replies |
| Workers.LogGrows | internal/gateway/ordered_sender.go:25-27 | taking a number keeps the numbers of each task in program order |
| Workers.EnqueueKeepsLabels | internal/gateway/ordered_sender.go:25-56 | enqueueing under a number taken earlier keeps every parked or transmitted message under the payload its number was taken for |
| Sending.TrailNumbers | internal/gateway/ordered_sender.go:25-34 | a series of pushes takes consecutive numbers in the order of the plan, each for its own payload, whatever becomes of them |
| Sending.CaughtUpTrail | internal/session/session.go:338-359 | a session with nothing outstanding puts a series of pushes on the wire at once, all of them, in order |
| Sending.CaughtUpTrailSucceeds | internal/session/session.go:338-359 | and the series does not fail |
| Sessions.ServesInOrder | internal/session/session.go:338-402 | a caught-up session that serves a request shows on the wire exactly the notifies bound before it, the response unless empty, and the notifies bound after it, each kind in binding order |
| PushSteps.PushIsTwoSteps | internal/gateway/ordered_sender.go:25-56 | every push is a number taken and, if the message encodes, an enqueue that is an enabled step of the runs of all sessions |
| PushSteps.ClosedPushSendsNothing | internal/gateway/ordered_sender.go:59-62 | in any world a push on a closed session leaves its wire as it is, and is accepted if and only if its message is parked |
| PushSteps.OpenPushGoesOutIff | internal/gateway/ordered_sender.go:59-75 | a push on a caught-up session goes out if and only if its message encodes and the stream takes it |
| PushSteps.TickIsTwoSteps | internal/session/ordered_queue.go:236-246 | a tick is a cleanup and a retry round, enabled steps both; that of a closed session puts nothing on the wire |
| PushSteps.OpenTickResends | internal/session/ordered_queue.go:277-284 | an open session's retry round resends what is due and the stream takes |
| Sessions.Session.Tick | internal/session/ordered_queue.go:236-246 | does both parts of a tick, with the session's own callback |
| Sessions.Session.NewServerSeq | internal/session/session.go:151-153 | the number returned is fresh, and one above the counter |
| Sessions.Session.SetClosed | internal/session/session.go:100-110 | marks the session closed, reports whether it was, stops nothing |
| Sessions.Session.Close | internal/session/session.go:74-92 | stops the queue unless the session had been marked closed |
| Sessions.Session.ActivateSession | internal/session/session.go:222-230 | leaves the initial status once, and sets the zone only then |
| Sessions.Session.ValidateClientSeq | internal/session/session.go:206-220 | the new state and the verdict of the admission rule |
| Sessions.Session.InheritFrom | internal/session/session.go:184-203 | counters, zone and status are the predecessor's; the queue is new and resynchronised with the inherited acknowledgement |
| Sessions.Session.SendOrderedMessage | internal/gateway/ordered_sender.go:25-56 | takes a number even when encoding fails; otherwise one enqueue under it, with a callback that fails once the session is closed |
| Sessions.Session.SendBeforeNotifies | internal/session/session.go:361-381 | pushes what is bound before the response to a request, and forgets those bindings |
| Sessions.Session.SendAfterNotifies | internal/session/session.go:383-402 | the same for what is bound after it |
| Sessions.Session.SendNotifies | internal/session/session.go:361-402 | pushes the items in order, stopping at the first failure |
| Sessions.Session.SendResponse | internal/session/session.go:404-428 | pushes a response unless it is empty |
| Sessions.Session.ProcWithNotifyBinds | internal/session/session.go:338-359 | pushes what is bound before, the response and what is bound after, in that order, up to the first failure; says which bindings are gone |
| Sessions.SessionManager.CreateOrReconnectSession | internal/session/manager.go:49-115 | a new session, or the heir of the registered one if that was active within twice the connection-down delay, which is closed and unregistered; both indexes and the handed-over messages |
| Sessions.SessionManager.BindSession | internal/session/manager.go:313-329 | indexes the session under its user, unless a session of another name holds that user |
| Sessions.SessionManager.AckMessagesUpTo | internal/session/manager.go:232-246 | stores the number as it comes, acknowledges on the queue, counts; nothing for an unknown session |
| Sessions.SessionManager.ValidateClientSequence | internal/session/manager.go:274-281 | the verdict of the session, or refusal for an unknown one |
| Sessions.HandleAck | internal/gateway/handlers.go:213-237 | acknowledge then resynchronise, unless the number is not zero or the payload does not parse; success exactly when the session is registered and a kept message was acknowledged |
| Sessions.CheckStart | internal/gateway/handlers.go:250-276 | the verdict on a START, the first failing check counting; the session takes the user's name before the binding can fail |
| Sessions.HandleStart | internal/gateway/handlers.go:247-296 | a START that fails a check is answered by the error for it; otherwise the reported acknowledgement is applied before the answer takes its number; success exactly when the answer is accepted |
| ManagerSteps.CreateOrReconnect | internal/session/manager.go:49-115 | over objects that represent a state of all sessions, creating or reconnecting makes objects that represent the state after a `Create` step |
| ManagerSteps.NameAndBind | internal/gateway/handlers.go:269-276 | naming the user of a session and binding it is a `Bind` step |
| ManagerSteps.TakesOverAgrees | internal/session/manager.go:53-93 | whether a connection takes over a session, and which, the objects and the state agree on; lately means within 60 seconds |
| ManagerSteps.FineIff | internal/gateway/handlers.go:250-276 | when a START is fine, and which error the first failing check gives |
| ManagerSteps.RefusedStart | internal/gateway/handlers.go:250-290 | a refused START acknowledges nothing, and changes the session's user only if that was taken |
| Lineage.HeirTakesAfter | internal/session/session.go:184-203 | the heir has status, zone and acknowledgement as read, counters and sent messages of the predecessor, and an empty queue that expects the number after the acknowledgement; the predecessor is closed and unregistered |
| Lineage.NewcomerStartsAfresh | internal/session/manager.go:66-88 | a session without a predecessor starts from nothing, not logged in |
| Lineage.LoggedInIff | internal/session/session.go:190-193 | in every run whose take-overs read as they close, a session is logged in, and in which zone, if and only if it or one before it in its chain was activated |
| Lineage.RegisteredIff | internal/session/manager.go:117-124 | a session is registered from its creation until it is removed, expires or is taken over |
| Lineage.StopsIff | internal/session/session.go:74-92 | only expiry of a session not yet closed stops its queue |
| Lineage.TakesOverIff | internal/session/manager.go:53-97 | a session is taken over if and only if it is indexed under the user named, was active lately and is registered; the new one is then indexed |
| Lineage.BindsIff | internal/session/manager.go:313-329 | a session is indexed under its user unless another one is; a removed one's name is dropped |
| Lineage.LetThroughIff | internal/session/session.go:206-220 | in every run a request of a registered session is let through if and only if none with a nonzero number was before, or it is the one after the last |
| Lineage.AckReachesHeir | internal/session/session.go:163-166 | the next heir's queue expects the number after the latest acknowledgement, even a lower one |
| Lineage.AckReports | internal/gateway/handlers.go:226-227 | what an acknowledgement makes of counters, kept messages and stored number, registered or not |
| Lineage.StartReports | internal/gateway/handlers.go:277-281 | a START that reports nothing changes nothing before its answer |
| Reconnect.ManagerRun | internal/session/manager.go:89-126 | in every reachable state each session took over from an older one that is closed, unregistered, superseded only once, and has put nothing on the wire above the inherited counter |
| Reconnect.ChainIsLinear | internal/session/manager.go:89-115 | chains of reconnects do not branch |
| Reconnect.OneNumberOnePayload | internal/session/manager.go:89-126 | along a chain of reconnects a number never names two payloads on the wire |
| Reconnect.HeirsKnow | internal/session/session.go:184-203 | whatever a session put on the wire its heirs know under the same number and payload |
| Reconnect.SilencedPushSendsNothing | internal/gateway/ordered_sender.go:59-62 | a closed session's pushes add nothing to the wire |
| Reconnect.SilencedRetrySendsNothing | internal/gateway/ordered_sender.go:59-62 | nor do its retries |
| ChainLedger.ChainConservation | internal/session/manager.go:89-98 | along a chain of reconnects every transmitted message is pending in the last queue, acknowledged to one of the queues, or was sent 1 + MaxRetries times counted over all of them, unless the last queue was stopped; no number is first transmitted twice; nothing else is kept or resent |
| ChainLedger.ChainRun | internal/session/manager.go:89-126 | the invariant behind it, kept by every step of every session and by every creation |
| ChainLedger.StepContinues | internal/session/ordered_queue.go:90-303 | a step of the last queue is the same step of the whole chain read as one queue |
| ChainLedger.OtherChains | internal/gateway/ordered_sender.go:59-62 | a superseded session adds nothing to what its heirs' chains have put on the wire |
| ChainLedger.NeverGivenUpEarlyInChain | internal/session/ordered_queue.go:255-259 | handing a message over does not shorten its time: given up by any session of the chain, it was enqueued more than 75 seconds before |
| ChainTiming.GivenUpInTimeInChain | internal/session/ordered_queue.go:236-285 | with prompt ticks and retries that get through, an open session keeps nothing for more than 115 seconds and its lag after the first transmission, by whichever session of its chain |
| ChainTiming.LagRun | internal/session/ordered_queue.go:62-80 | each hand-over from an open session adds at most one tick to the lag, because the heir's ticker starts anew |
| ChainTiming.ClockedRun | internal/session/manager.go:89-98 | the schedule behind the bound, kept by every step of every session and by every hand-over |
| Reconnect.AdmittedOnce | internal/session/session.go:206-220 | along a chain nonzero request numbers are admitted once each, counting up by one, zeros only before them |
| Reconnect.AdmissionRun | internal/gateway/handlers.go:45-52 | every session's admission log counts up, and its counter is the last entry |
| HandOff.ResumedQueue | internal/session/manager.go:91-98 | after reconnect and START the queue expects the number after the larger acknowledgement and keeps exactly the predecessor's messages above the reported one |
| HandOff.RetriesCarryOver | internal/session/manager.go:94-98 | the retransmissions due are the predecessor's above the reported number |
| HandOff.StartAnsweredAtOnceIff | internal/gateway/handlers.go:277-290 | the answer goes out at once if and only if all the predecessor numbered is acknowledged; parked if less is, refused if more is claimed |
| HandOff.AnswerWaitsForResync | internal/session/ordered_queue.go:191-203 | once the answer is parked, the queue gets past it if and only if a resync covers the answer's own number, and puts nothing new on the wire before |
| HandOff.CatchingUpStrandsAnswer | internal/session/ordered_queue.go:191-203 | a client that then acknowledges exactly the predecessor's counter leaves the answer parked at the expected number, and everything later behind it, under the same condition |
| HandOff.SilentBelowCounter | internal/session/ordered_queue.go:191-203 | whatever is pushed after the hand-off, the inherited counter is passed if and only if a resync covers it, and nothing new goes out before |
| HandOff.RefusedUpToClaim | internal/session/ordered_queue.go:128-131 | if the client acknowledged the predecessor's counter or claims more, pushes offered in order over a working link are refused up to the claim, and all later ones go out at once |
| TakeOver.SplitIsOneStepIff | internal/session/manager.go:89-98 | a take-over read at one moment and closed at a later one makes the same heir as one step, with zone, status and acknowledgement from the earlier moment, if and only if the predecessor took no number and admitted no request in between, whatever else it did |
| TakeOver.SplitIsACreateStep | internal/session/manager.go:89-126 | such a take-over, of a predecessor still registered when it is closed, is a step of the runs that the properties of chains are about |
| TakeOver.QuietWireStaysWithin | internal/session/session.go:184-203 | if the predecessor takes no number between reading and closing, its whole wire stays within the counter that was read |
| TakeOver.LatePushesIff | internal/gateway/ordered_sender.go:25-34 | for a caught-up predecessor over a working link it does so if and only if it pushes nothing in between |
| TakeOver.LatePushSharesNumber | internal/session/manager.go:89-98 | a push in between and the heir's first push go out under the same number |
| TakeOver.TwoHeirsShareNumber | internal/session/manager.go:90-96 | the first pushes of two heirs that read the same predecessor go out under the same number |
| TakeOver.LateRequestAdmittedTwice | internal/session/session.go:199-220 | a request admitted in between is admitted by the heir too |
| RateLimit.EpochExact | internal/gateway/overload_protector.go:176-207 | between resets exactly the first MaxQPS * W - 1 requests are let through |
| RateLimit.TwoBudgets | internal/gateway/overload_protector.go:176-207 | in no interval as long as the window are more than twice that let through |
| RateLimit.TwoBudgetsReached | internal/gateway/overload_protector.go:74-79 | and twice that can be, a nanosecond apart |
| Protector.SlicesMakeTotal | internal/gateway/overload_protector.go:92-101 | the buckets, each the additions of its slice of time, sum up to all additions since the reset |
| Protector.BucketIsItsTime | internal/gateway/overload_protector.go:72 | within the window an addition belongs to the bucket of its own stretch of time |
| Protector.SlidingWindow.Add | internal/gateway/overload_protector.go:65-89 | resets exactly when a whole window has gone by, and puts the addition into the bucket of its time |
| Protector.SlidingWindow.GetSum | internal/gateway/overload_protector.go:92-101 | the sum is everything added since the last reset |
| Protector.SlidingWindow.Rate | internal/gateway/overload_protector.go:104-107 | additions per second, exactly |
| Protector.RateAgainst | internal/gateway/overload_protector.go:184-192 | comparing the rate with the limit is comparing the count with the limit for the window |
| Protector.OverloadProtector.AllowNewRequest | internal/gateway/overload_protector.go:176-207 | one step of the epoch machine; the verdict is its verdict, or yes when protection is off |
| Protector.OverloadProtector.AllowNewConnection | internal/gateway/overload_protector.go:151-174 | room is judged against the counter, refusals are counted, protection off admits all |
| Protector.OverloadProtector.OnConnectionEnd | internal/gateway/overload_protector.go:243-252 | the counter goes down by one, but not below zero |
| Connections.GateRun | internal/gateway/server_connection.go:27-70 | under every interleaving of the accept loop with ending handlers the counter equals the connections that hold it, stays within the limit, and the clamp never fires |
| Connections.RefusedWhenFull | internal/gateway/server_connection.go:48-52 | a connection is refused if and only if as many handlers are at work as there may be |
| Connections.EndTakesOneOff | internal/gateway/overload_protector.go:243-252 | the two steps of an ending handler take one off the counter, but not below zero; counting a connection adds one |
| Framing.PlaceValues | internal/message/codec.go:110-132 | four bytes are the header of a number if and only if they add up to it, most significant first |
| Framing.FrameLayout | internal/message/codec.go:130-138 | a frame is four such bytes and then the message |
| Framing.LimitIsOneMebibyte | internal/message/codec.go:16-19 | what is too large to write or to read |
| Framing.HeaderDecodes | internal/message/codec.go:105-110 | the length survives the header |
| Framing.HeaderEncodes | internal/message/codec.go:130-134 | every four bytes are the header of one length |
| Framing.ReadsOneWay | internal/message/codec.go:97-122 | no input can be read in two ways: message, error and remainder are determined |
| Framing.RoundTrip | internal/message/codec.go:97-145 | the stream of any list of messages reads back as that list, to the last byte |
| Framing.PrefixReads | internal/message/codec.go:97-145 | every strict prefix reads back as a strict prefix of the list and then an end of input; the end is clean if and only if the cut is between frames |
| Framing.CutOffReads | internal/message/codec.go:97-122 | which error a stream cut off in the header, after it, or in the body gives |
| Framing.ReadsWhatIsThere | internal/message/codec.go:97-122 | of any input, the messages read are framed at its front, and the end is clean if and only if nothing else is there |
| Codec.ReadMessage | internal/message/codec.go:97-122 | the one reading of the input, each error in its own condition, with what was consumed |
| Codec.WriteMessage | internal/message/codec.go:125-145 | a whole frame, nothing for an oversized message, or the part that the stream took |
| Codec.ReadMessages | internal/gateway/server_connection.go:220-246 | the read loop returns all messages of the input up to the first error |

## Left out

- Sequence counters are unbounded naturals: the model assumes that they stay below 2^64 - 1. An acknowledgement of 2^64 - 1 would wrap the expected number to zero.
- Message objects are values: copying the sent messages at a reconnect copies the map's entries, and that old and new queue might share message objects is not modelled.
- Sessions.SessionManager.CreateOrReconnectSession: is one step here; `TakeOver.dfy` says when the code's reading first and closing later amounts to that. There, all reading is one moment, and closing, unregistering and copying another. Connection, stream, client name and address are left out.
- Sessions.Session.SendOrderedMessage: the callback is part of the call; a queue without a callback is one over which nothing gets through. The closed check and the write are one step, so a session closed between them is not modelled, nor is a partial write by a failed callback.
- OrderedQueue.OrderedMessageQueue.RetryTimedOutMessages: the order in which one round resends its messages follows Go's map order in the code; the model counts resent frames without ordering them.
- QueueAcks.WindowRun: is for a queue without messages copied from a predecessor; such messages may be numbered at or above the expected number, and the window then fails.
- QueueTiming.GivenUpInTime: is for such a queue too; for copied messages the bound is in `ChainTiming.dfy`, as conservation and the lower bound are in `ChainLedger.dfy`.
- ChainTiming.GivenUpInTimeInChain: a closed session retries nothing, so what it keeps has no upper bound; the time between closing and a take-over counts as lag.
- QueueTiming.NeverGivenUpEarly: takes the times given to steps as they are; readings of one monotonic clock are assumed only for the upper bound.
- Reordering.Refinement: excludes rejection, expiry of a parked message and resyncs that skip numbers, as the property does; what they do is in `QueueProgress.dfy`.
- Workers.Bracketing: is for asynchronous tasks and for `ProcWithNotifyBinds`; the synchronous path sends the response before the before-notifies (internal/gateway/handlers.go:177-185); what it fetches and pushes is in the runs, as takes and pushes by others, but its order is not claimed. Task context, upstream call and headers are oracles.
- Workers.NothingLeftOut: says that numbers are taken without gaps; whether each message then goes out depends on the queue, and is shown in `Quiescence.dfy` for runs in which nothing goes wrong.
- RateLimit.TwoBudgets: assumes that adding a request and reading the rate are one step, that the configuration does not change, that the window is at least one second, and that clock readings do not go back. The rate is compared in exact arithmetic; the one-millisecond pause above the warning threshold is left out.
- Protector.SlidingWindow.Add: the loop that would empty passed buckets stands in the branch where less than a window has gone by and asks for the opposite, so it never runs and is not written out. Reset and configuration updates are left out.
- Connections.GateRun: is for protection switched on and a fixed limit, without Reset.
- Codec.ReadMessage: a reader gives bytes until it ends; other read errors and the latency callback are left out.
- Session removal: that the queue of a removed session keeps its timer, and that the two session indexes need not agree, is what the code does; no agreement is claimed. Shutdown of the manager is left out.
- HandOff.RefusedUpToClaim: pushes are offered in the order of their numbers; out of order, those above the claim are parked and drained as in `Reordering.dfy`.
- Payload encoding (protobuf), checksums and `ValidateMessages`: library code or independent checks.
- Upstream registry and routing, the upstream concurrency counter, heartbeats, backup and failover, metrics, logging, configuration, QUIC, TLS and HTTP: plumbing around the core.
- Liveness under a fair scheduler and data races on unsynchronised fields are not modelled.
