# Model of the Doris Go Stream Load SDK

The SDK in `stream-load-sdks/doris_go_stream_load` is a small concurrent pipeline: callers
enqueue submissions (one or more records sharing a handle), a batcher packs them into upload
bodies, workers deliver the bodies to Doris under transaction labels, and handles and callbacks
report what became of each. This project models that pipeline and proves what it promises: an
accepted submission is never lost, is settled once, and is loaded at most once. It also models the
two command-line demos that repeat parts of it.

## Modules

- `Seqs`, `Encoding`, `Submissions`: sums and flattening, bodies and their sizes, admission.
- `Packing`: the batcher's packing rule as a left fold. `Batches`: the batch object and the
  batcher's closures, updated in place, proved against that fold.
- `QueueSteps`, `QueueSafety`: the intake queue with any number of producers, one consumer and
  `Close`; one event is one mutex section, channel operation or select branch. `QueueReplies`: what
  the answer of an `Enqueue` call means. `IntakeQueue`: the queue as an object, with the collection
  loop in its own form.
- `Pipeline`: the whole client as one state machine (queue, clock, batcher, dispatch channel,
  workers, completions, callbacks). `PipelineSafety`, `Refinement`, `Linger`, `Attachment`,
  `TopUp`, `WorkerSafety`, `Settlement`, `Blocking`, `Shutdown`: what every run of it keeps, what its
  goroutines wait for and nothing else, where every run ends, and
  that it does end after `Close`.
- `Replies`, `LabelProtocol`, `LabelSafety`: the reply alphabet, deliveries beside an abstract
  Doris, and the at-most-once argument. `Backoff`, `Worlds`, `Polling`, `DeliveryLoops`, `DemoLoop`: the loops with
  their deadlines in an environment of replies and clock; each accounts for every act from start to
  end and traces a run of the protocol. `DoubleCommit`: the delivery loop doing what
  the at-most-once condition excludes.
- `EndToEnd`, `Finish`: the client and the protocol together, and that every run of both can be
  brought to its end.
- `Handles`, `Stats`, `StatsFlow`: one-shot handles, the duration ring and percentiles, and the
  counters under concurrent workers. `RowClaims`: row claiming in the benchmark demo.

A state machine is a predicate `Enabled`, a function `Step` and a partial function `Run`; a theorem
about all interleavings quantifies over the event list given to `Run`.

## What is assumed of Doris

- A label commits at most once, and only after a request under it arrived. A request, once sent,
  may arrive at any later time or more than once; nothing is assumed about a request that failed.
- ABORTED is final. UNKNOWN means never registered, then or later. VISIBLE and COMMITTED mean
  committed.
- A readable 2xx reply whose status is empty, `Success` or `Publish Timeout`, or that says the
  label's earlier job FINISHED, means committed.
- Generated labels have not been used before.

## Where the code and its documentation differ

- `stream-load-sdks/doris_go_stream_load/README.md:362` says label state UNKNOWN ends in failure;
  `client.go:821-831` retries under a fresh label. The model follows the code, and
  `LabelSafety.GivingUpIsSafeIff` shows that this is safe.
- The comment at `client.go:530-531` says the replaced label is registered as ABORTED. When the
  poll window closes on a failed dial (`client.go:836-838`) the replaced label may instead be
  running or committed. At-most-once is therefore proved for runs in which no such expiry gives up a
  live label; `LabelSafety.DialExpiryIsUnsafeIffLive` says that this is exactly when the event is
  harmful, `LabelSafety.ExpiryIsUnsafeIffDialFailed` that an expiry can be harmful exactly when the
  last poll failed to dial, and `DoubleCommit.DeliversTwice` is the delivery loop running into it.

## Model

| member | source | states |
|---|---|---|
| `EndToEnd.ExactlyOnce` | stream-load-sdks/doris_go_stream_load/client.go:383-582 | For every run of the client beside Doris in which no poll window that closes on a failed dial gives up a live label: at every moment Doris has loaded no submission twice, and has loaded it exactly once as soon as its handle has a result with nil Err; and once all workers have stopped every accepted submission is settled in exactly one place |
| `EndToEnd.NeverLoadedTwice` | stream-load-sdks/doris_go_stream_load/client.go:476-571 | At every moment, whatever is still in flight, the commits whose batch contains a given submission number at most one |
| `EndToEnd.SuccessMeansLoaded` | stream-load-sdks/doris_go_stream_load/client.go:573-576 | From the moment the completion is set, before any callback, a submission whose handle has a result with nil Err has been loaded by exactly one commit |
| `EndToEnd.StepKeepsSystem` | stream-load-sdks/doris_go_stream_load/client.go:466-474 | Each step of batcher, worker, producer, clock or server keeps the product invariant: the delivery of batch k is the k-th and follows the client's protocol, and a stored result is what its delivery ended in |
| `EndToEnd.RunKeepsSystem` | stream-load-sdks/doris_go_stream_load/client.go:383-582 | The product invariant holds after every run in which no dial-failure expiry gives up a live label |
| `Finish.EveryRunCanFinish` | stream-load-sdks/doris_go_stream_load/client.go:261-274 | Whatever producers, clock, workers and Doris have done so far without giving up a live label, some continuation closes the client and stops every worker, again giving up none: the end that the settlement theorems speak of can always be reached, and there each accepted submission is settled once and loaded as reported |
| `Finish.DeliveryCanEnd` | stream-load-sdks/doris_go_stream_load/client.go:486-570 | From every state of a delivery and of its label, some answers Doris may give bring it to its end without giving up a live label |
| `Settlement.EverySubmissionSettlesOnce` | stream-load-sdks/doris_go_stream_load/client.go:383-474 | Once all workers have stopped: the dispatched batches concatenated are the accepted submissions in order; each has exactly one place, its handle names that batch, the batch has a result, and its callback ran once with that result or, having none, never |
| `Settlement.NilMeansSettled` | stream-load-sdks/doris_go_stream_load/client.go:291-332 | In every run that ends with all workers stopped: a non-empty submission whose Enqueue returned nil has exactly one place, result and due callback run, and one whose Enqueue returned an error has none |
| `Settlement.EndIsDrained` | stream-load-sdks/doris_go_stream_load/client.go:421-427 | The dispatch channel is closed only when every accepted submission is in a dispatched batch and no batch is open |
| `Settlement.ResultsAreFinal` | stream-load-sdks/doris_go_stream_load/types.go:206-215 | A batch's first result is its result in every later state |
| `Settlement.HandleMeansPlaced` | stream-load-sdks/doris_go_stream_load/client.go:65-74 | A handle's completion is that of the batch its submission really is in |
| `Settlement.StepKeepsClient` | stream-load-sdks/doris_go_stream_load/client.go:383-474 | Every atomic step keeps the queue, batching, handle and worker invariants together |
| `Settlement.RunKeepsClient` | stream-load-sdks/doris_go_stream_load/client.go:383-474 | So it does after every run, of any length and interleaving |
| `Shutdown.CloseEnds` | stream-load-sdks/doris_go_stream_load/client.go:261-274 | From any reachable state with the queue closed, whatever producers and the clock do, the client takes at most Work steps of its own, and as long as some worker has not stopped one more is possible |
| `Shutdown.NeverStuck` | stream-load-sdks/doris_go_stream_load/client.go:383-474 | No deadlock after Close: the batcher, the dequeue call inside it, or a worker can step, also with the dispatch channel full |
| `Shutdown.StepWorks` | stream-load-sdks/doris_go_stream_load/client.go:383-474 | After Close each own step of queue, batcher or worker lowers the work left, and no producer, clock or second Close raises it |
| `Blocking.BatcherBlocksIff` | stream-load-sdks/doris_go_stream_load/client.go:383-464 | In every run the batcher is kept from going on if and only if it has finished, waits in a select for a first submission (none there, queue open, timer not due), or waits for room in a full dispatch channel |
| `Blocking.WorkerBlocksIff` | stream-load-sdks/doris_go_stream_load/client.go:466-474 | An upload worker is kept from going on if and only if it has stopped or the dispatch channel is empty and open |
| `Blocking.ProducerBlocksIff` | stream-load-sdks/doris_go_stream_load/request_queue.go:29-60 | Every call admission lets through can begin, and one that has begun is kept waiting if and only if no token is left and the queue is open |
| `Blocking.ChannelIsBounded` | stream-load-sdks/doris_go_stream_load/client.go:388-395 | In every run the dispatch channel holds at most as many batches as it was made for, and no batch is taken that was not sent |
| `WorkerSafety.StepKeepsWorkers` | stream-load-sdks/doris_go_stream_load/client.go:466-474 | One worker per batch; a callback is recorded only for a batch already completed, with its result, and never twice |
| `WorkerSafety.AllStopped` | stream-load-sdks/doris_go_stream_load/client.go:573-594 | When the workers have stopped every dispatched batch is completed and each non-nil callback in it has run exactly once, the others never |
| `WorkerSafety.ResultIsFinal` | stream-load-sdks/doris_go_stream_load/types.go:206-215 | No worker step replaces a stored result |
| `Attachment.NextIsUnattached` | stream-load-sdks/doris_go_stream_load/types.go:306-317 | The handle of the next submission has no completion yet, so the first attach is the one for the batch it goes into |
| `Attachment.StepKeepsHandles` | stream-load-sdks/doris_go_stream_load/client.go:65-74 | Every placed submission's handle names its own batch, also across the flush inside addSubmission and while the dispatch channel is full |
| `Attachment.OnlyOpenIsAttached` | stream-load-sdks/doris_go_stream_load/client.go:65-74 | A step attaches handles only to the batch that is still open after it and moves none, so attaching to a batch is over when it is dispatched |
| `Refinement.BatchingIsOneFold` | stream-load-sdks/doris_go_stream_load/client.go:383-464 | However the stream is chunked, pushed back or interleaved: the batches are one left fold of the packing rule over the accepted submissions with flush markers, and every dispatched batch encodes within BatchBytes |
| `Refinement.LogIsAPrefix` | stream-load-sdks/doris_go_stream_load/request_queue.go:152-185 | What the fold has consumed, followed by what is in hand, answered, collected, pushed back and queued, is the accepted sequence |
| `Refinement.FewestInEveryRun` | stream-load-sdks/doris_go_stream_load/client.go:404-419 | From the start of any run or any flush marker up to the next one, or up to now with the open batch counted, the batcher has spent no more batches than any order-preserving partition of that stretch into bodies within BatchBytes |
| `Refinement.OpenBatchHasRoom` | stream-load-sdks/doris_go_stream_load/client.go:443-447 | The remaining <= 0 branch of the drain loop is never taken |
| `PipelineSafety.StepKeepsBatcher` | stream-load-sdks/doris_go_stream_load/client.go:383-464 | Every step keeps: batches equal the fold, nothing dequeued is lost, the batcher is the only consumer, no batch is open in the outer dequeue, the channel closes exactly at the end |
| `PipelineSafety.SealKeepsPack` | stream-load-sdks/doris_go_stream_load/client.go:408-412 | Sending the open batch and resuming behind a full channel, with or without a pending submission, is the fold's own step |
| `Linger.LingerIsMaximumAge` | stream-load-sdks/doris_go_stream_load/client.go:421-463 | When only waits take time: an open batch is never older than Linger however many submissions join it; the select waited in with a batch open has a timer set for exactly createdAt + Linger; the check before it flushes if and only if that age is reached; and the untimed dequeue is entered only with no batch open |
| `Linger.LingerSincePlaced` | stream-load-sdks/doris_go_stream_load/client.go:68-73 | The same age in times of the run alone: since the event that put the open batch's first submission into it, no more than Linger has passed |
| `Linger.OpenedAt` | stream-load-sdks/doris_go_stream_load/client.go:68-73 | In every run createdAt is the time of the event that put the first submission into the batch now open; every later event has left that batch open |
| `Linger.FlushIsNeverEarly` | stream-load-sdks/doris_go_stream_load/client.go:437-458 | A flush by timer or by age happens only at age Linger or more, or when the queue is drained for good |
| `Linger.RunStaysNotEarly` | stream-load-sdks/doris_go_stream_load/request_queue.go:71-93 | In every run the timer of the timed dequeue never expires before the open batch's createdAt + Linger |
| `TopUp.TopUpOverrun` | stream-load-sdks/doris_go_stream_load/client.go:443-461 | In every run: a group brought to a batcher with no open batch encodes within BatchBytes; a group of several brought to an open one overshoots it together by at most one byte in CSV and stays below it in JSON |
| `TopUp.StepKeepsRoom` | stream-load-sdks/doris_go_stream_load/client.go:443-448 | Each step keeps: the dequeue in progress asks for BatchBytes when no batch is open and for what the open body leaves of it otherwise, which is never zero, the value that would lift the limit |
| `Packing.GreedyNeedsFewest` | stream-load-sdks/doris_go_stream_load/client.go:404-419 | Greedy stays ahead: no order-preserving partition into bodies within the limit has fewer batches, in CSV and in JSON |
| `Packing.GreedyIsAPartition` | stream-load-sdks/doris_go_stream_load/client.go:404-419 | The greedy cut is itself such a partition, so the bound is met |
| `Packing.PartCostsAtMostOne` | stream-load-sdks/doris_go_stream_load/client.go:404-419 | Adding any run of submissions that fits one body costs the greedy packer at most one more batch |
| `Packing.FewestBetweenFlushes` | stream-load-sdks/doris_go_stream_load/client.go:404-419 | The same optimality in mid-run, between two flushes |
| `Packing.FewestSinceFlush` | stream-load-sdks/doris_go_stream_load/client.go:404-419 | The same for the packing rule alone, from an empty log or any flush on |
| `Packing.FoldKeepsEverything` | stream-load-sdks/doris_go_stream_load/client.go:404-419 | Batches in order hold exactly the arrivals in order |
| `Packing.FoldRespectsLimit` | stream-load-sdks/doris_go_stream_load/client.go:404-419 | With the admission check, every sealed batch is non-empty and encodes within BatchBytes, and an open one has room |
| `Packing.SealedIsInert` | stream-load-sdks/doris_go_stream_load/client.go:388-395 | Batches already dispatched play no part in later cuts |
| `Batches.DeliveryBatch.Add` | stream-load-sdks/doris_go_stream_load/client.go:65-90 | Appends the item; byteSize is the length of the body that would now be encoded; createdAt is set by the first item only |
| `Batches.DeliveryBatch.AddSubmission` | stream-load-sdks/doris_go_stream_load/client.go:58-63 | Appends the submission; hasCallback says whether any submission in the batch has one |
| `Batches.DeliveryBatch.EstimatedByteSizeWith` | stream-load-sdks/doris_go_stream_load/client.go:92-119 | Predicts exactly the encoded length after adding the item; with no item, the present encoded length |
| `Batches.DeliveryBatch.EncodeBody` | stream-load-sdks/doris_go_stream_load/client.go:121-140 | Fails exactly for a batch without items; otherwise yields the mode's body, of length byteSize, whose bytes Encoding.BodySplits and Encoding.SeparatorByte pin down |
| `Batches.Batcher.AddSubmission` | stream-load-sdks/doris_go_stream_load/client.go:404-419 | The closure, with its flush before and after, takes the batcher's state to the packing rule's next state |
| `Batches.Batcher.AddItems` | stream-load-sdks/doris_go_stream_load/client.go:413-415 | All items of a submission land in one batch, in order |
| `Batches.Batcher.Fill` | stream-load-sdks/doris_go_stream_load/client.go:412-415 | After one submission the batch holds exactly its items behind the earlier ones, and byteSize is the size of the whole |
| `Batches.Batcher.Flush` | stream-load-sdks/doris_go_stream_load/client.go:388-395 | Dispatches the open batch, if any, and nothing else |
| `Batches.Batcher.FilledSize` | stream-load-sdks/doris_go_stream_load/client.go:334-353 | The incremental byteSize agrees with the body of all the batch's records, so the precomputed sizes may be compared with it |
| `Encoding.RecordsLieWholeInBody` | stream-load-sdks/doris_go_stream_load/client.go:121-140 | Every record lies whole in the encoded body at its own offset, neighbours exactly one separator byte apart |
| `Encoding.BodySplits` | stream-load-sdks/doris_go_stream_load/client.go:121-140 | Round trip: splitting a CSV body at byte 10, or a JSON body between its bytes 91 and 93 at byte 44, gives back the records, when none contains that byte |
| `Encoding.SeparatorByte` | stream-load-sdks/doris_go_stream_load/client.go:121-140 | The byte before each record but the first is 10 in CSV and 44 in JSON |
| `Encoding.BodyEnds` | stream-load-sdks/doris_go_stream_load/client.go:125-137 | A JSON body starts with byte 91 and ends with byte 93 |
| `Encoding.BodyOfOneMore` | stream-load-sdks/doris_go_stream_load/client.go:75-89 | How much one more record lengthens the body, first or later, in both modes |
| `Encoding.BodyGrowth` | stream-load-sdks/doris_go_stream_load/client.go:341-346 | What several records add to a non-empty body: their payload and one separator each |
| `Encoding.JoinCSVRowsByteSize` | stream-load-sdks/doris_go_stream_load/client.go:638-650 | The loop computes the length of the encoded CSV body |
| `Encoding.JoinJSONRecordsByteSize` | stream-load-sdks/doris_go_stream_load/client.go:652-664 | The loop computes the length of the encoded JSON body, two for none |
| `Encoding.BuildJSONBody` | stream-load-sdks/doris_go_stream_load/client.go:125-137 | The builder loop yields the JSON body that Encoding.BodySplits takes apart again |
| `Submissions.SendRecords` | stream-load-sdks/doris_go_stream_load/client.go:291-323 | The checks before the queue, each outcome if and only if it is the first to apply: no records, the first invalid record, an encoded body above BatchBytes, closed; otherwise a submission whose stored sizes are its real ones |
| `Submissions.NewSubmissionIsWellSized` | stream-load-sdks/doris_go_stream_load/client.go:334-353 | The stored standalone size is the length of the encoded body of the records |
| `Submissions.SizeAfterAppend` | stream-load-sdks/doris_go_stream_load/client.go:334-353 | standaloneByteSize and appendByteSize are what opening with, or appending, the submission adds to the encoded body |
| `Submissions.StandaloneIsOneOff` | stream-load-sdks/doris_go_stream_load/request_queue.go:152-154 | What collectBatch charges a first submission differs from the open batch's real growth by one byte: one too few in CSV, one too many in JSON |
| `QueueSafety.ReachableInv` | stream-load-sdks/doris_go_stream_load/request_queue.go:29-185 | In every reachable state, for any producers: tokens = items + pending + held + between token and write, at most maxRequests; accepted = delivered + in hand + pending + items; collected byte counts exact |
| `QueueSafety.StepKeepsInv` | stream-load-sdks/doris_go_stream_load/request_queue.go:29-185 | Each mutex section, channel operation and select branch keeps those invariants |
| `QueueSafety.NothingBlocks` | stream-load-sdks/doris_go_stream_load/request_queue.go:48-59 | The write under the mutex and every release of a slot can go through at once; Len is at most maxRequests |
| `QueueSafety.PushBackIsSafeIffFree` | stream-load-sdks/doris_go_stream_load/request_queue.go:171-175 | Assigning pending loses nothing if and only if it was nil |
| `QueueSafety.PendingIsFreeWhenAssigned` | stream-load-sdks/doris_go_stream_load/request_queue.go:171-175 | With one dequeuer it is nil whenever it is assigned |
| `QueueSafety.EndMeansEverythingDelivered` | stream-load-sdks/doris_go_stream_load/request_queue.go:83-89 | ok=false only when the queue is closed and empty and everything accepted has been handed out in order |
| `QueueSafety.DrainedForGood` | stream-load-sdks/doris_go_stream_load/request_queue.go:116-132 | From then on no run of any producers changes that |
| `QueueSafety.CollectTerminates` | stream-load-sdks/doris_go_stream_load/request_queue.go:152-185 | However many events others squeeze in, one collectBatch call takes at most 2*maxRequests+1 steps of its own |
| `QueueSafety.CollectsWhileItFits` | stream-load-sdks/doris_go_stream_load/request_queue.go:161-184 | A collection takes the next submission if and only if the encoded body of all it then holds is within maxBytes, and otherwise pushes back that one |
| `QueueSafety.FirstAloneIff` | stream-load-sdks/doris_go_stream_load/request_queue.go:152-159 | It stops at the first submission if and only if the encoded body of that one alone reaches maxBytes |
| `QueueSafety.StepKeepsIds` | stream-load-sdks/doris_go_stream_load/request_queue.go:29-60 | No submission is accepted twice |
| `QueueReplies.NilMeansAccepted` | stream-load-sdks/doris_go_stream_load/request_queue.go:29-60 | In every run: a returned call's non-empty submission has been accepted exactly once if the answer was nil and never if it was an error; the closed error comes only from a closed queue; no call returns twice |
| `QueueReplies.AcceptedMeansNil` | stream-load-sdks/doris_go_stream_load/request_queue.go:29-60 | In every run every accepted submission's call has returned, nil exactly for the accepted ones, and every call begun has returned or is still going on |
| `QueueReplies.FirstCheck` | stream-load-sdks/doris_go_stream_load/request_queue.go:29-38 | An empty submission is dropped with nil, a closed queue refuses at once, an open one lets the call wait for its token |
| `QueueReplies.TokenIsHonoured` | stream-load-sdks/doris_go_stream_load/request_queue.go:48-59 | With a token on an open queue the submission is accepted behind all others and the call returns nil; on a closed one it gives the token back and returns the closed error, with nothing accepted |
| `QueueReplies.WhenCallersWait` | stream-load-sdks/doris_go_stream_load/request_queue.go:40-46 | A token can be had if and only if fewer than maxRequests are with submissions waiting, being collected or on their way in; the closed branch is open exactly on a closed queue |
| `QueueReplies.StepKeepsReplies` | stream-load-sdks/doris_go_stream_load/request_queue.go:29-60 | Every queue step keeps: answers true and one a call, each call in flight or answered, never both |
| `IntakeQueue.RequestQueue.Enqueue` | stream-load-sdks/doris_go_stream_load/request_queue.go:29-60 | An unblocked call drops an empty submission, fails with the closed error exactly on a closed queue and with the full error exactly when no slot is left, and otherwise appends |
| `IntakeQueue.Send` | stream-load-sdks/doris_go_stream_load/client.go:291-332 | sendRecords with its Enqueue: succeeds exactly for valid records that fit a batch, a client and queue not closed and a free slot, and then one well-sized submission more is accepted; any error leaves the accepted ones as they were |
| `IntakeQueue.RequestQueue.Close` | stream-load-sdks/doris_go_stream_load/request_queue.go:95-104 | Closes; nothing waiting is touched |
| `IntakeQueue.RequestQueue.Len` | stream-load-sdks/doris_go_stream_load/request_queue.go:106-114 | Counts items and the pushed-back submission |
| `IntakeQueue.RequestQueue.TryPendingOrImmediate` | stream-load-sdks/doris_go_stream_load/request_queue.go:134-150 | Hands out the oldest waiting submission, the pushed-back one first; none exactly when none waits |
| `IntakeQueue.RequestQueue.ProducersWrite` | stream-load-sdks/doris_go_stream_load/request_queue.go:51-58 | Producers with any number of submissions stop for want of tokens |
| `IntakeQueue.RequestQueue.ReceiveNext` | stream-load-sdks/doris_go_stream_load/request_queue.go:160-175 | One round of the loop: take, push back, or find none, with tokens and order accounted for |
| `IntakeQueue.RequestQueue.Gather` | stream-load-sdks/doris_go_stream_load/request_queue.go:160-184 | The loop of collectBatch: it ends although producers never do, with everything it holds, pushed back and left waiting accounted for |
| `IntakeQueue.RequestQueue.HandOver` | stream-load-sdks/doris_go_stream_load/request_queue.go:163-168 | Returning the tokens of the collected submissions restores: every token belongs to a waiting submission |
| `IntakeQueue.RequestQueue.CollectBatch` | stream-load-sdks/doris_go_stream_load/request_queue.go:152-185 | Against unboundedly eager producers it ends with 1 to maxRequests submissions, oldest first; the byte count is the exact joined size and within maxBytes unless one is returned alone; a push-back would not have fitted |
| `Replies.ClassifyResponseError` | stream-load-sdks/doris_go_stream_load/sender.go:341-383 | The branches compute the error whose two flags Replies.WhenTheClientRetries gives for every reply in plain codes |
| `Replies.SuccessIsOnlyOnEvidence` | stream-load-sdks/doris_go_stream_load/sender.go:385-402 | Send and the demo report success on exactly the replies that say loaded; no error is both retriable and ambiguous; a plain retry follows only a failed dial or a transient code |
| `Replies.WhenTheClientRetries` | stream-load-sdks/doris_go_stream_load/sender.go:341-402 | Over all replies, in plain codes: Send's error is retriable if and only if the dial failed, or the code is 408, 429 or at least 500 and Doris says neither Success, Publish Timeout nor Label Already Exists; ambiguous if and only if the transport failed otherwise, a 2xx carries no readable document, or the label's job is RUNNING |
| `Replies.WhenTheDemoRetries` | stream-load-sdks/doris_go_stream_load/normal_demo.go:381-429 | The same for the plain demo, which gives up on any answer it cannot read and excepts only Label Already Exists |
| `Replies.WhenAnExpiryIsRetried` | stream-load-sdks/doris_go_stream_load/client.go:836-848 | A poll window that closes leaves a retriable error if and only if the last poll failed to dial, an ambiguous one if and only if its transport failed otherwise or it named an undecided state |
| `LabelSafety.AtMostOnce` | stream-load-sdks/doris_go_stream_load/client.go:486-570 | In every run of any deliveries with lost replies in which no dial-failure expiry gives up a live label: at most one commit over all labels of a batch, exactly one after success, abandoned labels dead |
| `LabelSafety.PollIsReadRight` | stream-load-sdks/doris_go_stream_load/client.go:797-834 | Success is concluded if and only if no label but a committed one can be answered so, a fresh label is taken if and only if only a dead one can, and polling goes on exactly after replies a running label may get |
| `LabelSafety.SendIsReadRight` | stream-load-sdks/doris_go_stream_load/client.go:505-546 | An upload's answer ends the delivery in success if and only if no label but a committed one can be answered so |
| `LabelSafety.DialExpiryIsUnsafeIffLive` | stream-load-sdks/doris_go_stream_load/client.go:836-838 | When a poll window does close on a failed dial, a later second commit is possible if and only if the label given up is neither aborted nor unknown to Doris for good |
| `LabelSafety.ExpiryIsUnsafeIffDialFailed` | stream-load-sdks/doris_go_stream_load/client.go:836-838 | The condition in the client's own terms: when the poll window closes on a conversation, a second commit can follow in some run if and only if the last poll failed to dial |
| `LabelSafety.GivingUpIsSafeIff` | stream-load-sdks/doris_go_stream_load/client.go:803-831 | Over all runs of deliveries beside Doris: hearing these poll replies means the label is dead if and only if the last one was ABORTED or UNKNOWN |
| `LabelSafety.GoneIsDead` | stream-load-sdks/doris_go_stream_load/client.go:808-831 | In any run, after a reply ABORTED or UNKNOWN the polled label never commits |
| `LabelSafety.FreshLabelRun` | stream-load-sdks/doris_go_stream_load/client.go:528-546 | The safe case of a fresh label comes up both ways: there are runs in which the first label is aborted, or never registered, the poll says so, and the batch is then loaded once, under the second label, with a reported success |
| `LabelSafety.CommittedFits` | stream-load-sdks/doris_go_stream_load/client.go:836-849 | Any conversation that does not end in ABORTED or UNKNOWN also comes up in a run in which the label has committed |
| `LabelSafety.DoubleCommitRun` | stream-load-sdks/doris_go_stream_load/client.go:836-838 | A run of the protocol that shows the condition is needed: lost reply, failed dial at expiry, fresh label, two commits and a reported success |
| `DoubleCommit.DeliversTwice` | stream-load-sdks/doris_go_stream_load/client.go:476-571 | The delivery loop itself does it, for all timings and with an exact clock: its first answer is lost, its polls fail to dial, and it ends in success after two uploads under two labels, both committed in a run of Doris that says and hears the same |
| `DoubleCommit.Embeds` | stream-load-sdks/doris_go_stream_load/client.go:476-571 | Every trace of the loop in that environment is one half of a run beside Doris |
| `LabelSafety.AbandonedLiveLabelCommitsTwice` | stream-load-sdks/doris_go_stream_load/client.go:528-533 | From any state in which a live label is being replaced, such a run continues |
| `LabelSafety.StepKeepsNet` | stream-load-sdks/doris_go_stream_load/client.go:486-570 | Each client decision, message and server move keeps: abandoned labels dead, success only with a commit, one commit per committed label |
| `LabelSafety.FateIsFinal` | stream-load-sdks/doris_go_stream_load/client.go:808-831 | No event revives a dead label or undoes a commit |
| `LabelSafety.SoundMeansAtMostOnce` | stream-load-sdks/doris_go_stream_load/client.go:486-570 | A delivery whose abandoned labels are dead has at most one commit over all its labels, and exactly one once it reports success |
| `LabelSafety.DeadForGood` | stream-load-sdks/doris_go_stream_load/client.go:808-831 | A label ABORTED or never registered commits under no later events at all |
| `LabelSafety.StepKeepsApart` | stream-load-sdks/doris_go_stream_load/client.go:864-877 | A fresh label makes no two deliveries share one |
| `LabelSafety.NoSharedLabels` | stream-load-sdks/doris_go_stream_load/client.go:864-877 | In no run do two batches ever share a label, so a commit is one batch's |
| `LabelSafety.DemoAtMostOnce` | stream-load-sdks/doris_go_stream_load/normal_demo.go:123-174 | The plain demo commits at most once with no side condition, because a failed poll is fatal there |
| `Polling.PollLabelUntilConclusion` | stream-load-sdks/doris_go_stream_load/client.go:790-851 | Ends, leaving the environment's clock and counters where the polls, the readings after each and the backoffs between them take it: at the first conclusive reply, or at the first look at the clock past the deadline. Success iff the last reply said VISIBLE or COMMITTED, a fresh label iff ABORTED or UNKNOWN, otherwise the last poll error; the pauses fit the window, and with exact sleeps the last poll starts by deadline + max backoff |
| `Polling.PollingIsDetermined` | stream-load-sdks/doris_go_stream_load/client.go:790-851 | Any two accounts of one conversation agree on the number of polls and on the clock at the end |
| `Polling.PollsKeepPace` | stream-load-sdks/doris_go_stream_load/client.go:844-850 | While polling goes on the clock is past the sum of the backoffs, which bounds the polls; with exact sleeps each poll starts at most one backoff after the deadline |
| `Polling.PauseIsTheBackoff` | stream-load-sdks/doris_go_stream_load/client.go:844-851 | Between a look at the clock and the next poll lies exactly the next backoff |
| `Polling.WindowOfPolling` | stream-load-sdks/doris_go_stream_load/client.go:790-843 | On an exact clock the first poll comes at once, every look before the last is within the poll timeout, and an expiry is past it |
| `DeliveryLoops.Attempt` | stream-load-sdks/doris_go_stream_load/client.go:500-546 | One upload with its poll is a run of the label protocol and leaves the clock where upload and polls take it; the upload's answer, or when that is ambiguous the last poll reply, decides between success, the fatal error and a retry; a retry has a fresh label exactly when it polled |
| `DeliveryLoops.AttemptIsDetermined` | stream-load-sdks/doris_go_stream_load/client.go:500-546 | Any two accounts of one attempt agree on its verdict and on the world after it |
| `DeliveryLoops.Settle` | stream-load-sdks/doris_go_stream_load/client.go:521-534 | After an ambiguous answer the last poll reply decides, and a fresh label is taken exactly for a retry |
| `DeliveryLoops.WaitToRetry` | stream-load-sdks/doris_go_stream_load/client.go:548-569 | The window opens one reading after the first retriable failure; it goes on exactly when the next look at the clock is within the window, and then sleeps what DeliveryLoops.RestIsTheBackoff says |
| `DeliveryLoops.DeliverBatch` | stream-load-sdks/doris_go_stream_load/client.go:476-571 | Ends; its trace is a run of the label protocol, ending in giving up exactly when the result is the timeout. Every attempt, look at the clock and pause is accounted for from the start to the report: each attempt is a retry begun with the window open, the last one explains the result, the deadline is the first failure's reading plus DorisUploadTimeout, the reported times are the clock's. So no attempt after the first begins past the deadline, attempts <= k+2 for the k backoffs whose sum is below DorisUploadTimeout, and a timeout means the deadline has passed |
| `DeliveryLoops.DeliveryIsDetermined` | stream-load-sdks/doris_go_stream_load/client.go:476-571 | Any two accounts of one delivery agree on every attempt's end, the outcome and the time of the report: nothing in the account is the reporter's choice |
| `DeliveryLoops.RetriesKeepPace` | stream-load-sdks/doris_go_stream_load/client.go:564-569 | Each retry leaves some of the window's budget, and by its rest the clock is as far into the window as the backoffs add up to, or at its end |
| `DeliveryLoops.RestIsTheBackoff` | stream-load-sdks/doris_go_stream_load/client.go:564-569 | The rest after the n-th retriable failure is exactly the smaller of the n-th backoff and what is left of the window |
| `DeliveryLoops.RestsAddUp` | stream-load-sdks/doris_go_stream_load/client.go:564-569 | On an exact clock every rest but perhaps the last is its whole backoff, and all rests together are the smaller of the backoffs' sum and what the window left for resting |
| `DeliveryLoops.WindowIsWhole` | stream-load-sdks/doris_go_stream_load/client.go:548-556 | On an exact clock the window runs for the whole DorisUploadTimeout from the end of the first retriable attempt |
| `DeliveryLoops.RetriesAreBounded` | stream-load-sdks/doris_go_stream_load/client.go:486-570 | The retry bound follows from the account: starts within the deadline, attempts bounded by the backoffs that fit, a timeout only past the deadline and, on an exact clock, after a second attempt |
| `DeliveryLoops.DefaultAttempts` | stream-load-sdks/doris_go_stream_load/config.go:25-43 | With the built-in timings at most 78 attempts |
| `Polling.DefaultPolls` | stream-load-sdks/doris_go_stream_load/config.go:35-40 | With the built-in timings the window has room for a number of polls of one label if and only if it is at most 79 |
| `Backoff.RetryBackoffDelay` | stream-load-sdks/doris_go_stream_load/client.go:596-605 | The loop computes min(initial * 2^(n-1), max) |
| `Backoff.DelayIsIterate` | stream-load-sdks/doris_go_stream_load/client.go:853-862 | The delay before attempt n+1 is the (n-1)-fold iterate of nextBackoff from the initial backoff |
| `Backoff.NextIsDelay` | stream-load-sdks/doris_go_stream_load/client.go:853-862 | nextBackoff takes the n-th delay to the next one |
| `Backoff.DefaultRetriesFit` | stream-load-sdks/doris_go_stream_load/config.go:25-43 | At the defaults the first k backoffs fit the retry budget if and only if k <= 76 |
| `Backoff.TotalDelayGrows` | stream-load-sdks/doris_go_stream_load/client.go:596-605 | Each further backoff adds at least the initial one, so the budget bounds their number |
| `DemoLoop.DemoAttempt` | stream-load-sdks/doris_go_stream_load/normal_demo.go:126-158 | One upload of the demo with its label wait is a run of the label protocol; the upload's answer, or the last poll reply, decides what follows; an expired wait exits |
| `DemoLoop.UploadRows` | stream-load-sdks/doris_go_stream_load/normal_demo.go:123-174 | Ends; every attempt and every pause is accounted for from the start to the exit: it stops at the first attempt that succeeds, is fatal, or finds the whole budget slept; the pauses really made add up to min(initial timeout, sum of delays), whatever the clock does; the trace is a demo run of the label protocol |
| `DemoLoop.SleptIsCapped` | stream-load-sdks/doris_go_stream_load/normal_demo.go:163-173 | The waits, each the backoff or what is left of the budget, add up to the delays until the budget is spent |
| `DemoLoop.RestIsTheBackoff` | stream-load-sdks/doris_go_stream_load/normal_demo.go:163-173 | With exact sleeps the wait after the n-th failure takes exactly the smaller of the n-th backoff and what the earlier ones have left of the budget |
| `DemoLoop.WaitsAreBounded` | stream-load-sdks/doris_go_stream_load/normal_demo.go:123-174 | From the account of the attempts: the sum of the waits, and so the bound on their number, with no assumption on the clock |
| `Handles.OneShot` | stream-load-sdks/doris_go_stream_load/types.go:206-334 | Under every interleaving each of the three channels is closed at most once, done only after the result is set, and at most one bridge exists |
| `Handles.ReadersAgree` | stream-load-sdks/doris_go_stream_load/types.go:256-304 | Any two results returned for handles of one batch are equal |
| `Handles.OnceReturnedAlwaysReturned` | stream-load-sdks/doris_go_stream_load/types.go:256-304 | Once a call has returned result r, every Result or Wait that returns later on any handle of that batch returns r, and so does every WaitContext past its first select |
| `Handles.NextAnswerRepeats` | stream-load-sdks/doris_go_stream_load/types.go:256-304 | With a batch's result set, no default branch is open on any of its handles |
| `Handles.NothingMissing` | stream-load-sdks/doris_go_stream_load/types.go:256-281 | No reader meets a nil completion or an unset result |
| `Handles.NoReaderHangs` | stream-load-sdks/doris_go_stream_load/types.go:256-304 | With the result set, each Result, Wait or WaitContext on its handles can take its next step, gets one nearer its answer by it, and the last of at most three returns that result |
| `Handles.NoBridgeHangs` | stream-load-sdks/doris_go_stream_load/types.go:231-239 | With the result set, the bridge of each handle asked for Done can take its next step, and the last of at most four closes done |
| `Handles.WhenNothingIsReturned` | stream-load-sdks/doris_go_stream_load/types.go:256-304 | A call comes back without a result only from Result while its handle has none, or from WaitContext whose context ended; Wait never does |
| `Handles.ResultsAreStable` | stream-load-sdks/doris_go_stream_load/types.go:206-215 | Completions, once attached, and results, once set, never change |
| `Handles.StepKeepsInv` | stream-load-sdks/doris_go_stream_load/types.go:206-334 | Every lock section, channel operation and goroutine step keeps the handle and completion invariants |
| `Handles.BatchCompletes` | stream-load-sdks/doris_go_stream_load/types.go:206-215 | A batch can be sent on exactly when none of its attach calls is still under way, each of which can finish; then it can be completed, and the first completion is its result |
| `Stats.ClientStatsCollector.RecordDuration` | stream-load-sdks/doris_go_stream_load/types.go:110-115 | The ring rotated at durIdx stays the last min(n, 10000) durations in order |
| `Stats.ClientStatsCollector.RecordCompletion` | stream-load-sdks/doris_go_stream_load/types.go:98-118 | Called by a worker whose delivery is over it is that worker's last three adds of the shared counters; the time between start and end is recorded exactly when both are set and in order |
| `Stats.ClientStatsCollector.CountCompletion` | stream-load-sdks/doris_go_stream_load/types.go:98-105 | The three counters' part of recording a completion, as a worker's last three adds |
| `Stats.ClientStatsCollector.RecordUploadAttempt` | stream-load-sdks/doris_go_stream_load/types.go:92-96 | Called by a worker that has begun an attempt it is that worker's three adds of the shared counters, so that it keeps the balances of StatsFlow.Conservation |
| `Stats.ClientStatsCollector.TakeSnapshot` | stream-load-sdks/doris_go_stream_load/types.go:120-173 | P50 <= P90 <= P99 <= P999, each with its rank in the last durations, however the ring is rotated |
| `Stats.PercentileHasRank` | stream-load-sdks/doris_go_stream_load/types.go:175-193 | The reported value has rank floor((n-1)*q) in the window: at most that many lie below it and more do not exceed it |
| `Stats.RoundedRank` | stream-load-sdks/doris_go_stream_load/types.go:185-185 | If the floating-point product is less than a thousandth off, the index is the exact rank, or the one below, and that only where the exact product is whole |
| `Stats.PercentilesOrdered` | stream-load-sdks/doris_go_stream_load/types.go:164-168 | A higher quantile of a sorted window is no smaller |
| `Stats.SortKeepsSums` | stream-load-sdks/doris_go_stream_load/types.go:159-168 | Sorting keeps every count, so ranks in the sorted copy are ranks in the window |
| `StatsFlow.Conservation` | stream-load-sdks/doris_go_stream_load/client.go:500-582 | Over all runs and workers: errorJobs <= totalLoadJobs; whenever no worker is between two adds, attempts = jobs + retries + attempts of unfinished deliveries, and bytes and records are the sums over attempts |
| `StatsFlow.CountsOfOneDelivery` | stream-load-sdks/doris_go_stream_load/client.go:500-582 | For every n there is a run in which one delivery of n attempts is counted as one job, n attempts with their bytes and records, n - 1 retries, and one error if it failed |
| `StatsFlow.SnapshotTearsIff` | stream-load-sdks/doris_go_stream_load/types.go:120-122 | A snapshot that loads the job count first and the error count later shows more errors than jobs exactly when more errors are counted in between than there were jobs without one |
| `StatsFlow.TornSnapshot` | stream-load-sdks/doris_go_stream_load/types.go:120-122 | Such a snapshot exists: the first delivery fails between the two loads |
| `StatsFlow.StepKeepsInv` | stream-load-sdks/doris_go_stream_load/types.go:88-118 | Each single atomic add keeps the balances, counting what a worker still has to add |
| `StatsFlow.AttemptIsThreeAdds` | stream-load-sdks/doris_go_stream_load/types.go:92-96 | Three adds of a worker at an attempt change attempts, bytes and records by its own, and nothing else |
| `StatsFlow.CompletionIsThreeAdds` | stream-load-sdks/doris_go_stream_load/types.go:98-105 | Three adds of a worker at the end of a delivery change jobs, errors and retries by its own, and nothing else |
| `RowClaims.EveryRowOnce` | stream-load-sdks/doris_go_stream_load/benchmark_demo.go:188-208 | When all workers have stopped the submitted groups hold exactly rows 1..totalRows, each once, none larger than senderBatchSize, and the counter is at most totalRows + threads |
| `RowClaims.FewShortGroups` | stream-load-sdks/doris_go_stream_load/benchmark_demo.go:244-265 | In every run the groups smaller than a batch number at most one a thread: groups are filled while rows last |
| `RowClaims.AllStop` | stream-load-sdks/doris_go_stream_load/benchmark_demo.go:188-208 | No run has more than 4*totalRows + 7*threads steps, a worker that has not stopped can always step, and its check stops it exactly when all rows have been drawn |
| `RowClaims.StepKeepsInv` | stream-load-sdks/doris_go_stream_load/benchmark_demo.go:240-262 | Every claim, send and check keeps: each row up to the counter is held or submitted exactly once |
| `RowClaims.SendInChunks` | stream-load-sdks/doris_go_stream_load/benchmark_demo.go:267-276 | The chunk loop makes exactly one call, with the whole group |

## Left out

- HTTP, TLS, certificates, redirects, authentication, URL building: I/O and library calls; `Send` and
  `PollLabel` become arbitrary replies read by the classifiers.
- CSV and JSON record validation: a predicate parameter of `Submissions.SendRecords`.
- Label text and its randomness: an oracle that returns an unused label.
- Configuration defaults, validation and conversion, logging, the slow-callback warning, demo
  configuration files, printing, `example/main.go`: no hard property. Validated ranges (positive
  timeouts and sizes) are preconditions where a proof uses them.
- `canAccept`, which nothing calls, and the fake sender.
- 64-bit widths of sizes, durations and counters: integers are unbounded.
- Scheduler fairness: that `Close` ends is proved as a bound on the client's own steps and the possibility
  of one more, not by promising that a thread runs.
- Letter case and surrounding blanks of Doris's status strings: a reply carries the status it reads as.
- Busy-worker gauges, averages and rates in the statistics snapshot: floating point over the counters.
- EndToEnd.ExactlyOnce: a label is drawn when a worker takes the batch, not when the batch is opened; an
  unused label is unused at both times. The delivery inside one worker is the label protocol without
  its clock; the clock is in `DeliveryLoops`, whose traces are runs of that protocol.
- Settlement.EverySubmissionSettlesOnce: a handle is the number of the batch it is attached to and a
  completion is that batch's result; the channels and locks behind them are in `Handles`.
- Linger.LingerIsMaximumAge: holds of runs in which only waits take time, as any age bound must; a flush
  that finds the dispatch channel full waits there, and the age is counted up to the decision to seal.
- Batches.DeliveryBatch.Add: label, handle and completion of an item are not fields of this object; which
  batch a handle is attached to is modelled in `Pipeline` and `Attachment`.
- IntakeQueue.RequestQueue.Enqueue: a call that waits for a slot is in `QueueSteps`; here a full queue means
  that the context ends first, and with a free slot the context is taken to be live: with an ended one the
  select may still choose the full error.
- IntakeQueue.Send: the same, since it enqueues.
- DeliveryLoops.DeliverBatch: the result's status code and response document are not modelled; the attempt
  bound needs a clock that advances during each upload.
- Polling.PollLabelUntilConclusion: the bound on the last poll's start is for exact sleeps and does
  not count the time a poll itself takes after it has started.
- Stats.ClientStatsCollector.TakeSnapshot: the counters are read in one moment (`StatsFlow` has the separate
  loads), quantiles are exact per-mille ranks; averages, rates and busy workers are left out.
- Stats.PercentileHasRank: the rank is the exact one; `Stats.RoundedRank` says how far a rounded product can
  be from it, without modelling the rounding itself.
- Handles.OnceReturnedAlwaysReturned: a WaitContext whose context has ended may take that branch of its first
  select although the handle is assigned, as the code allows; IsDone is not modelled.
- Shutdown.CloseEnds: ending a delivery counts as one step here; that each delivery ends is
  `DeliveryLoops.DeliverBatch`.
- StatsFlow.Conservation: between the separate atomic adds of one worker the equalities hold only up to that
  worker's missing adds, so they are stated for moments when no worker is between two.
- RowClaims.EveryRowOnce: the error and stop channels of the benchmark are not modelled; every row encodes
  and every send succeeds.
