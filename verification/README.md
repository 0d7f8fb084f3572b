# A verified model of the background-task protocol

This project models the server and client halves of the `io.modelcontextprotocol/tasks` extension (SEP-2663) as
`fastmcp_tasks` implements them, and proves what the protocol promises. A tool that needs input from its client does
not block a worker: its leg ends, the questions are parked in Redis, and a later `tasks/update` enqueues the next leg.
Workers, `tasks/get`, `tasks/update` and `tasks/cancel` work on the shared store at the same time; what holds them
together is the order of their writes, a lock per task and a cancellation marker.

## How it is organised

| files | what they hold |
|---|---|
| `TaskTypes`, `TaskProtocol` | One task as a labelled transition system: its Redis keys, its Docket executions, and a program counter for every request in flight. Every Redis command that can be separated from the next one is a step, so a run is any interleaving of any number of requests with the workers. |
| `TaskInvariant`, `TaskUpdateSteps`, `TaskOtherSteps`, `TaskWorkerSteps`, `TaskRuns` | The inductive invariant and its preservation by every step. |
| `TaskBody` | The promises to the author of a tool, over the tool body itself: what its calls see, what becomes of what it returns or raises, and which answers its questions get. |
| `TaskTheorems`, `TaskFinality`, `TaskReplay`, `TaskAnswers` | What follows for every run: the refinement of the foreground loop, single execution, conservation, cancellation, finality, single use of keys, the reading of a payload. |
| `TaskCoverage` | Exactly when a leg is enqueued on complete answers, and exactly when it is a call of the foreground loop, also in a task that is being cancelled. |
| `TaskSolo`, `TaskOvertaken`, `TaskStalled`, `TaskInstances` | A request that nothing disturbs; runs in which a promise fails, from every parked task; a re-entry whose durable wait runs out; and concrete tasks that have such runs. |
| `AnswerStore` | The stored form of a client's answers. |
| `TaskRely`, `TaskServer` | The server as it is written: a class whose fields are the Redis keys and Docket executions, and whose methods are the handlers and the worker, command by command. At every `await` anybody else may run. Each command is proved to be exactly one step of the transition system, so every theorem about runs holds of the fields. |
| `PyText`, `PercentCodec`, `TaskKeys` | Task keys and Redis keys down to UTF-8, percent-encoding and decimal numbers. |
| `PollBackoff`, `ClientDrive` | The client's poll cadence and the deadline-bounded loop that drives a task to its end. |
| `Expiry`, `TaskLifetime` | A task on a clock: the sliding expiry of its keys, how long Docket keeps the executions of its legs, the lifetime of a cancellation, and what tasks/get reports when. |
| `WorkerContext` | What a tool body sees of its submitting caller on worker contexts that are reused. |
| `AccountActivity` | The bounded activity log of `purecipher` against the unbounded table. |

`dafny verify dfyconfig.toml` checks everything.

## What is assumed

- The update lock is not outlived by its holder: it has a 30 s lifetime and is released unconditionally.
- Surfaced keys are fresh and cannot be guessed; a client names keys that `tasks/get` showed it, or keys nobody minted.
- Docket runs each execution key at most once, and an enqueue that fails queues nothing. Workers and servers do not
  crash and nothing is redelivered.
- Docket shows an enqueued next leg before the durable wait runs out. If it does not, `creation.py:231-244` raises,
  after the enqueue, with the pointer still on the old leg. `TaskServer` has that branch: `TasksUpdate` then leaves
  exactly `TaskStalled.WaitRanOut` of the state it waited in. That is no reachable state
  (`TaskStalled.WaitRunningOutBreaksInv`): a client that sends its answers again gets them stored, and once the next
  leg has dropped the answers it consumed they are stored where the answers to that leg belong
  (`TaskStalled.RetryMixesLegs` says exactly when; `TaskInstances.ParkedLegIsMixed` builds such a run from every parked
  task whose next leg asks again). So everything with `Reachable` or `Inv` among its premises rests on the assumption,
  and each handler of `TaskServer` on the others not having raised so. Not so what is said of runs from any state
  (`MarkerStaysForever`, `SealedNeverEnqueues`, `SpentForever`, `RejectedChangesNothing`), nor what is said of
  payloads, stored answers, keys, the client, lifetimes and worker contexts.
- The transition system has no clock: the marker, the input keys, the routing keys and Docket's executions are there as
  long as they are not deleted. `TaskTheorems.PointerSafe`, `TaskServer.TaskStore.TasksGet`,
  `TaskFinality.FinalIffDecidedLocked`, `TaskFinality.CancellationAbsorbs` and all else about runs are about the time
  before one of them expires. The routing keys, the marker and the executions do expire in `TaskLifetime`, where an
  execution that has ended is kept for the execution TTL in whole seconds and one that has not is kept.
- `tasks/get` and each lookup are one observation.
- The check and the marker of a `tasks/cancel` (handlers.py:482-494) are one step with respect to everybody: no worker
  finishes between them, and no update moves between them either, not even one that holds the lock when the cancel does
  not.
- The input keys never expire.
- Validation and JSON are a partial validator and an inverse pair of functions; the cipher is ideal.
- Whether an attempt at the lock succeeds, and whether an enqueue does, is open: both outcomes are covered.
- A tool body is any function of the leg, its arguments, the carried state and the answers.

## What turned out to be false

A cancel goes on without the lock after five seconds (handlers.py:475-501). With that:

- *Terminal results are final* holds after a report exactly in the runs in which every cancel that marks the task holds
  the lock (`TaskFinality.FinalIffDecidedLocked`). `TaskOvertaken.UnlockedCancelUndoesResult` builds, from every parked
  task whose next leg would return, a run in which a result already reported turns into `cancelled`.
- *Cancellation never lets a leg run with part of its answers* holds if every cancel that marks the task holds the lock
  (`TaskFinality.NeverLate`), and can hold otherwise. The exact condition is what the update itself has read: a leg it
  enqueues sees what the foreground loop would hand it if and only if the payload named every request read, or an
  earlier complete set of answers had failed to re-enter (`TaskCoverage.LegIsForegroundIff`; at each state up to the
  enqueue, `TaskCoverage.CompleteIffNamed`). `TaskOvertaken.UnlockedCancelReentersShort` and `UnlockedCancelRunsShort`
  build, from every parked task and every payload that answers some of its questions but not all, a run in which the
  next leg is enqueued after the marker and called with part of its answers.
- *A cancelled task is over*: a cancel without the lock can be acknowledged without any effect
  (`TaskOvertaken.UnlockedCancelIsLost`). `TaskFinality.UnlockedCancelEndsIff` is the exact condition: the task is over
  unless the cancel took the leg it had resolved for the end of the task while the current leg was not at its end.

`TaskInstances.DemoIsParked` and `TaskInstances.DemoCompletes` are a concrete task these runs start from, with a partial
and with a complete payload. Apart from cancels:

- Answered and outstanding keys are disjoint exactly while no complete set of answers has failed to re-enter: the last
  answers stay outstanding on purpose (handlers.py:403-410). After such a failure the keys still outstanding have to be
  answered again although their answers are stored (`TaskTheorems.Conservation`, `TaskCoverage.CoveredIffReenters`;
  `TaskOvertaken.FailedReentryOverlaps` builds the failure). The update that answers them all goes on to the next leg
  like any other.
- *A completed leg with outstanding requests waits for input and has not finished* (handlers.py:292-303) fails between
  the two writes of `save_current_leg` (input_store.py:185-202), which has the pointer on the new leg and the number on the
  old. `TaskTheorems.Reports` is the exact table of what is reported, and `TaskInstances.StaleQuestions` builds, from
  every parked task whose next leg would return, a run in which that leg has returned and the questions just answered
  are reported once more. They are gone with the next writes.
- "The ceiling is never below `MIN_POLL_INTERVAL`" (client.py:142-145) fails for a small `poll_interval` setting;
  `PollBackoff.CeilingFloor` is the exact condition.
- *Cancelled stays cancelled*: the marker has no buffer and nothing refreshes it (handlers.py:494,
  input_store.py:445-459), so it lapses at a moment fixed when it was written (`TaskLifetime.MarkerIsNotRefreshed`).
  `TaskLifetime.UncancelledIff` says exactly when the task then resolves and is reported as something else: the current
  leg is not finished, or ended by itself and its execution is still kept. A leg that had ended by the time
  of the cancel, as every parked one has, is forgotten no later than the marker (`TaskLifetime.EndedStaysCancelled`),
  and one that Docket stopped is reported as cancelled by its own state (`TaskLifetime.StoppedStaysCancelled`). So, at
  the time of the cancel and without a re-entry, it can happen if and only if the current leg is not finished
  (`TaskLifetime.ReappearsIffUnfinished`). `TaskLifetime.ExampleReappears` is a task with the default TTL of 900
  seconds.
- A refresh whose commands are spread over time can strand a task (`Expiry.SplitRefresh`,
  `Expiry.SplitRefreshStrands`).
- Without an encryption key a body whose snapshot cannot be installed sees the caller of an earlier task on the same
  worker context, against context.py:551-554; `WorkerContext.InheritsIffNotInstalled` says exactly when, and whose;
  `WorkerContext.RunsAsAnother` is such a pair of tasks.

## Model

Paths without a directory above are those of `fastmcp_tasks/fastmcp_tasks/`.

| member | source | states |
|---|---|---|
| TaskTypes.Classify | fastmcp_tasks/fastmcp_tasks/input_loop.py:141-203 | a result or a tool error ends a leg with just that, a protocol error fails it with that error, and an ask with at least one question parks it with its questions and its state; one that only carries state is an error result, one that does neither ends the task |
| TaskTypes.KindFor | fastmcp_tasks/fastmcp_tasks/input_store.py:65-74 | an answer is validated as a sampling or a roots result exactly for these two methods, and as an elicitation result for elicitation/create, any other method and none |
| TaskBody.CallsAreTheLoop | fastmcp_tasks/fastmcp_tasks/input_loop.py:125-203 | the calls of a tool body in any run are those of its own foreground loop on the answers it was given, unless a leg was enqueued after the cancellation marker |
| TaskBody.EachCallFollows | fastmcp_tasks/fastmcp_tasks/context.py:584-641 | call by call, marked or not: the one before asked, and this one has the task's arguments, the state it carried and answers to keys it asked for, to all of them but for a last leg enqueued too late |
| TaskBody.EndComesFromBody | fastmcp_tasks/fastmcp_tasks/handlers.py:292-327 | a reported result is a value the last call of the body returned, a reported tool error one it raised, a reported failure a protocol error it raised, and the other way round |
| TaskBody.BodyIsReported | fastmcp_tasks/fastmcp_tasks/handlers.py:292-327 | once the newest leg has ended, with the lock free and the task not cancelled, what its call did is what is reported |
| TaskBody.GoodAnswersAreTaken | fastmcp_tasks/fastmcp_tasks/input_store.py:345-363 | of a tool that only asks elicitations, no update is refused whose answers are all elicitation results, wherever it reads them and under any interleaving |
| TaskInvariant.InitInv | fastmcp_tasks/fastmcp_tasks/creation.py:103-134 | the state create_task returns in satisfies the invariant |
| TaskRuns.ApplyInv | fastmcp_tasks/fastmcp_tasks/handlers.py:337-501 | every step of every worker, update, cancel and get keeps the invariant, whatever the others are doing |
| TaskRuns.ReachableInv | fastmcp_tasks/fastmcp_tasks/handlers.py:337-501 | the invariant holds in every state of every run |
| TaskTheorems.LogIsForeground | fastmcp_tasks/fastmcp_tasks/context.py:584-641 | the calls recorded so far are a run of the foreground loop on the answers the client gave |
| TaskTheorems.RefinesForeground | fastmcp_tasks/fastmcp_tasks/input_loop.py:125-203 | successive legs see what successive calls of the foreground loop see: leg 1 nothing, leg n+1 the state leg n carried and answers to exactly the keys it asked for, later ones winning; the log as a whole is the foreground loop's if and only if the last leg saw answers to all the keys of the leg before, and always unless a leg was enqueued after the cancellation marker |
| TaskTheorems.ReportsForegroundResult | fastmcp_tasks/fastmcp_tasks/handlers.py:292-327 | a reported result or error is that of the last call of the foreground loop |
| TaskTheorems.NoDoubleExecution | fastmcp_tasks/fastmcp_tasks/handlers.py:356-446 | under any interleaving of updates legs are enqueued as 1, 2, 3, ... each once, each body runs at most once, and at most one leg is unfinished |
| TaskTheorems.EnqueueIsFresh | fastmcp_tasks/fastmcp_tasks/handlers.py:420-432 | an update enqueues only a key new to Docket, when every earlier leg is parked |
| TaskTheorems.WaitingNeverLooksFinished | fastmcp_tasks/fastmcp_tasks/handlers.py:286-303 | between any two writes of anyone, a task whose current leg ended in an ask is reported input_required until it is cancelled, and never completed |
| TaskTheorems.Reports | fastmcp_tasks/fastmcp_tasks/handlers.py:286-334 | for every state of a task that is not cancelled: working exactly while the execution is queued or running, input_required exactly when it has parked or the number is a write behind the pointer, with the outstanding requests, of which there are some; completed and failed exactly with what the execution ended with |
| TaskTheorems.PointerSafe | fastmcp_tasks/fastmcp_tasks/handlers.py:420-440 | as long as no execution record has expired, the leg pointer names an execution the backend shows; pointer and number are at most one leg behind the newest, and agree with it whenever the lock is free |
| TaskTheorems.Conservation | fastmcp_tasks/fastmcp_tasks/input_store.py:369-425 | with the lock free, the asked keys are the answered ones and those outstanding under exactly one surfaced key; the two are disjoint if and only if no complete set of answers failed to re-enter; no accepted answer is lost |
| TaskCoverage.CoveredIffReenters | fastmcp_tasks/fastmcp_tasks/handlers.py:396-424 | an update that has stored its answers goes on to enqueue the next leg if and only if its payload named every key it had read, whatever failed before, or a cancel has cleared the requests under it; the answers are complete if and only if the payload named every key or an earlier complete set failed to re-enter |
| TaskCoverage.CompleteIffNamed | fastmcp_tasks/fastmcp_tasks/handlers.py:386-424 | from the read of the requests to the enqueue, under any interleaving and in a marked task too: the stored answers are to all the keys asked for if and only if the payload named every key read, or an earlier complete set failed to re-enter |
| TaskCoverage.LegIsForegroundIff | fastmcp_tasks/fastmcp_tasks/handlers.py:386-424 | exactly then the log up to the leg so enqueued is a run of the foreground loop |
| TaskAnswers.InvalidIffAnyFails | fastmcp_tasks/fastmcp_tasks/input_store.py:345-363 | a payload is refused as a whole if and only if the answer to some outstanding key does not validate |
| TaskAnswers.AnswersComeFrom | fastmcp_tasks/fastmcp_tasks/input_store.py:347-361 | every stored answer is the last entry for its tool key, validated into the class of the method of its request |
| TaskAnswers.ElicitationsAreTaken | fastmcp_tasks/fastmcp_tasks/input_store.py:345-363 | a payload that answers only elicitations, each with an elicitation result, is taken |
| TaskInvariant.CollectedLast | fastmcp_tasks/fastmcp_tasks/input_store.py:369-404 | of all the answers accepted for a key the last one is what the next leg gets |
| TaskUpdateSteps.TranslateFacts | fastmcp_tasks/fastmcp_tasks/input_store.py:345-366 | the keys matched are exactly the payload's keys that are outstanding and mapped, and the answers are for exactly their tool keys |
| TaskFinality.CancellationAbsorbs | fastmcp_tasks/fastmcp_tasks/handlers.py:286-290 | once the marker is written every later tasks/get reports cancelled, whatever the running leg does |
| TaskFinality.LockedCancelSeals | fastmcp_tasks/fastmcp_tasks/handlers.py:379-384 | after a cancel that decided under the lock no leg is ever enqueued |
| TaskFinality.CancelsTheLiveLeg | fastmcp_tasks/fastmcp_tasks/handlers.py:475-498 | the execution a lock-holding cancel stops is the current leg and the only one not finished |
| TaskFinality.LockedCancelStops | fastmcp_tasks/fastmcp_tasks/handlers.py:494-498 | from then on, on every run, whatever execution is not finished is one Docket has been asked to stop |
| TaskFinality.CancelDecides | fastmcp_tasks/fastmcp_tasks/handlers.py:482-494 | a cancel leaves alone an execution that failed, was stopped, or completed with nothing outstanding, and marks the task of any other |
| TaskCoverage.CancelledIsCleared | fastmcp_tasks/fastmcp_tasks/handlers.py:494-498 | a cancel that has marked a parked task under the lock leaves neither a question nor a mapping of it, under any interleaving |
| TaskFinality.FinalIffDecidedLocked | fastmcp_tasks/fastmcp_tasks/handlers.py:482-497 | a reported result or error stays, with its payload, if and only if no cancel decided without the lock; otherwise it turns into cancelled |
| TaskFinality.ParkedIsCancellable | fastmcp_tasks/fastmcp_tasks/handlers.py:482-497 | a cancel under the lock takes a task for terminal exactly when tasks/get reports an end; a parked or running one it cancels |
| TaskFinality.NeverLate | fastmcp_tasks/fastmcp_tasks/handlers.py:455-466 | in a run whose cancels all decide under the lock every leg sees the complete answers of the foreground loop; the exact condition, leg by leg, is that of TaskCoverage.LegIsForegroundIff |
| TaskFinality.UnlockedCancelEndsIff | fastmcp_tasks/fastmcp_tasks/handlers.py:475-497 | a cancel that decides without the lock leaves the task over if and only if it did not take the leg it had resolved for the end, or the task really was at its end |
| TaskReplay.SpentForever | fastmcp_tasks/fastmcp_tasks/input_store.py:117-124 | a retired surfaced key is never outstanding again, and none is minted twice |
| TaskReplay.AcknowledgedIsSpent | fastmcp_tasks/fastmcp_tasks/handlers.py:386-446 | when an update is acknowledged the task is cancelled or every key its payload named is retired |
| TaskReplay.ReplayChangesNothing | fastmcp_tasks/fastmcp_tasks/input_store.py:428-438 | sending an acknowledged payload again, at any later point and under any interleaving, changes nothing but the lock |
| TaskReplay.RejectedChangesNothing | fastmcp_tasks/fastmcp_tasks/input_store.py:358-360 | a request with an answer that does not validate changes nothing but the lock at any of its steps, whatever else it answers and whatever runs beside it |
| TaskSolo.SoloUpdate | fastmcp_tasks/fastmcp_tasks/handlers.py:386-446 | an undisturbed update adds its answers to those stored; if they are to all outstanding keys exactly one next leg is queued, pointer and number name it, its keys are retired and the task is reported as working; otherwise exactly the answered keys are retired, nothing is enqueued and the rest is reported; no other leg is touched |
| TaskOvertaken.UnlockedCancelReentersShort | fastmcp_tasks/fastmcp_tasks/handlers.py:475-501 | from every parked task: a cancel without the lock can make an update enqueue a leg on part of its answers, after the marker |
| TaskOvertaken.UnlockedCancelRunsShort | fastmcp_tasks/fastmcp_tasks/handlers.py:475-501 | in such a run the leg is then called with that part, which is no call of the foreground loop unless a complete set had failed to re-enter before |
| TaskOvertaken.FailedReentryOverlaps | fastmcp_tasks/fastmcp_tasks/handlers.py:403-432 | from every parked task and complete answers: if the enqueue fails the answers are stored and their keys are still outstanding and reported, with the lock free |
| TaskStalled.WaitRunningOutBreaksInv | fastmcp_tasks/fastmcp_tasks/creation.py:231-244 | raising when the durable wait of a re-entry runs out leaves the pointer behind the newest leg with the lock free, which no run of the model does |
| TaskStalled.AwaitedLeft | fastmcp_tasks/fastmcp_tasks/handlers.py:420-432 | while an update waits for the next leg, the answers to the old one are stored until that leg drops them, and then none are |
| TaskStalled.RetryMixesLegs | fastmcp_tasks/fastmcp_tasks/creation.py:231-244 | after the raise, answers sent again join those to the same leg as long as the next leg has not dropped them, and alone stand where the answers to the next leg belong once it has |
| TaskInstances.ParkedLegIsMixed | fastmcp_tasks/fastmcp_tasks/creation.py:231-244 | from every parked task, complete answers and a next leg that asks again: a run in which that leg parks before Docket shows it, the raise, and the same answers stored among those to it |
| TaskOvertaken.UnlockedCancelUndoesResult | fastmcp_tasks/fastmcp_tasks/handlers.py:475-501 | from every parked task whose next leg would return: such a cancel can turn a reported result into cancelled |
| TaskOvertaken.UnlockedCancelIsLost | fastmcp_tasks/fastmcp_tasks/handlers.py:475-501 | from every parked task and complete answers: such a cancel can be acknowledged while the task goes on working |
| TaskInstances.StaleQuestions | fastmcp_tasks/fastmcp_tasks/input_store.py:185-202 | from every parked task, complete answers and a next leg that returns: a run in which it has returned and the questions just answered are reported again |
| TaskInstances.DemoIsParked | fastmcp_tasks/fastmcp_tasks/input_loop.py:192-203 | a reachable parked task with two elicitations, one of them answered |
| TaskInstances.DemoCompletes | fastmcp_tasks/fastmcp_tasks/input_loop.py:192-203 | such a task with both answered, whose next leg would return |
| TaskInstances.DemoAsksAgain | fastmcp_tasks/fastmcp_tasks/input_loop.py:192-203 | such a task with both answered, whose next leg would ask again |
| AnswerStore.MergeRoundTrip | fastmcp_tasks/fastmcp_tasks/input_store.py:388-404 | merging answers into what is stored and loading it is the key-wise union, new ones winning, nothing dropped |
| AnswerStore.LoadsLastAnswers | fastmcp_tasks/fastmcp_tasks/input_store.py:541-567 | after any sequence of stores the next leg loads, for each answered key, the last answer, and nothing else |
| AnswerStore.LoadResponses | fastmcp_tasks/fastmcp_tasks/input_store.py:550-562 | the loop that rebuilds the typed answers |
| AnswerStore.StoredByClassName | fastmcp_tasks/fastmcp_tasks/input_store.py:55-60 | an answer is stored under the name of its result class |
| AnswerStore.UnknownIsSkipped | fastmcp_tasks/fastmcp_tasks/input_store.py:541-567 | only entries of the four known classes are loaded |
| TaskRely.AnswersStandStill | fastmcp_tasks/fastmcp_tasks/input_store.py:383-387 | under the lock the read-modify-write of the answers cannot interleave with another write of them |
| TaskRely.OverKept | fastmcp_tasks/fastmcp_tasks/handlers.py:458-465 | a task that is over stays over, whatever others do |
| TaskServer.TaskStore.CreateTask | fastmcp_tasks/fastmcp_tasks/creation.py:103-143 | all seven keys are written, whole, before the execution is queued, and the wait for it comes last; a task that was created starts the protocol in its initial state, and otherwise no execution is visible |
| TaskServer.TaskStore.TasksGet | fastmcp_tasks/fastmcp_tasks/handlers.py:250-334 | cancelled with the marker; without it working, input_required, completed or failed exactly as the execution stands, with the outstanding requests; never "not found" as long as nothing has expired |
| TaskServer.TaskStore.TranslateResponses | fastmcp_tasks/fastmcp_tasks/input_store.py:326-366 | the loop computes the translation the lemmas are about, and refuses exactly if an answer does not validate into the class of the method of its request |
| TaskServer.TaskStore.AcquireUpdateLock | fastmcp_tasks/fastmcp_tasks/input_store.py:498-521 | takes the lock, or gives up on one that is held, not before the timeout has passed, and terminates |
| TaskServer.TaskStore.StoreInputResponses | fastmcp_tasks/fastmcp_tasks/input_store.py:369-404 | the read, the merge and the write of encoded answers are the protocol's one store step, with others running in between |
| TaskServer.TaskStore.Reenter | fastmcp_tasks/fastmcp_tasks/handlers.py:420-444 | enqueue, wait, swap, clear, in that order; acknowledged only with every named key retired; if the wait runs out the update stands where it waited, with nothing swapped or cleared |
| TaskServer.TaskStore.TasksUpdate | fastmcp_tasks/fastmcp_tasks/handlers.py:337-446 | under any interference the handler is a run of the protocol and gives the lock back; an acknowledgement means cancelled or all named keys retired, a rejection that an answer did not validate against what the update had read when it read it, which good answers to a tool that only elicits never meet; a failed enqueue that the leg is on record as one whose re-entry failed, busy that it gave up on the lock at the timeout; and if the durable wait runs out it leaves the state it waited in, less the lock |
| TaskServer.TaskStore.TasksCancel | fastmcp_tasks/fastmcp_tasks/handlers.py:449-501 | under any interference the handler is a run of the protocol; with the lock, when it returns the task is over and Docket has been asked to stop every execution that is not finished |
| TaskServer.TaskStore.StopExecution | fastmcp_tasks/fastmcp_tasks/handlers.py:496-498 | Docket is asked to stop the execution resolved, with or without the lock |
| TaskServer.TaskStore.StoreOutstanding | fastmcp_tasks/fastmcp_tasks/input_store.py:242-268 | every request is stored under a fresh key and mapped, one command at a time, or Docket stopped the leg |
| TaskServer.TaskStore.RunBody | fastmcp_tasks/fastmcp_tasks/context.py:595-641 | the body is called on the arguments, the carried state and the decoded answers of the store |
| TaskServer.TaskStore.RunLeg | fastmcp_tasks/fastmcp_tasks/input_loop.py:125-203 | under any interference a leg runs from the queue to its end: unless Docket stops it, its body was called once, last of all, and its execution ended as the verdict on that call says, parked, completed or failed |
| PyText.StripCutsEnds | src/purecipher/account_activity.py:59 | stripping removes all whitespace at the two ends and nothing else |
| PyText.NumeralsAreRead | fastmcp_tasks/fastmcp_tasks/keys.py:68-76 | what reads as a number: digits, and single underscores between two digits |
| PyText.SignedIsRead | fastmcp_tasks/fastmcp_tasks/keys.py:68-76 | a sign and whitespace around a number |
| PyText.IntOfDecimal | fastmcp_tasks/fastmcp_tasks/keys.py:68-76 | reading back a printed number |
| PercentCodec.DecodeCharOfUtf8 | fastmcp_tasks/fastmcp_tasks/keys.py:107-111 | UTF-8 decoding inverts encoding, for every character |
| PercentCodec.QuoteRoundTrip | fastmcp_tasks/fastmcp_tasks/keys.py:107-111 | unquoting inverts quoting, for every string |
| PercentCodec.QuotedForm | fastmcp_tasks/fastmcp_tasks/keys.py:107-111 | unreserved characters stand for themselves, any other byte is a percent sign and two upper-case hex digits |
| PercentCodec.DecodedIsEncoded | fastmcp_tasks/fastmcp_tasks/keys.py:163-175 | what is decoded, unless replaced, was the one encoding of that character |
| TaskKeys.RoundTripIffClean | fastmcp_tasks/fastmcp_tasks/keys.py:118-175 | the key of any leg parses to the original parts if and only if id and type contain neither `:` nor `#` |
| TaskKeys.LegReadsBack | fastmcp_tasks/fastmcp_tasks/keys.py:51-76 | the leg number read back is max(n, 1) and the base key is unchanged |
| TaskKeys.LegNumberOfAny | fastmcp_tasks/fastmcp_tasks/keys.py:66-76 | of any key: what follows the `#`, with or without `leg`, and 1 if that is no number or there is no `#` |
| TaskKeys.ParsesIff | fastmcp_tasks/fastmcp_tasks/keys.py:138-175 | a key is read as a task's if and only if its tag is known and enough segments follow, and a scope exactly from the tag `auth` |
| TaskKeys.KeyShape | fastmcp_tasks/fastmcp_tasks/keys.py:79-115 | the form of a key without reserved characters |
| TaskKeys.ExecutionKeysApart | fastmcp_tasks/fastmcp_tasks/keys.py:51-115 | two execution keys are equal exactly for the same leg of the same task |
| TaskKeys.TokensAreClean | fastmcp_tasks/fastmcp_tasks/creation.py:83-101 | for server-generated ids the codec is exact |
| TaskKeys.RedisKeysApart | fastmcp_tasks/fastmcp_tasks/input_store.py:77-114 | the map from scope, id, field and leg to Redis key is injective, across both keyspaces |
| TaskKeys.NoInterference | fastmcp_tasks/fastmcp_tasks/keys.py:197-206 | after any interleaving of commands built by the key builders, of any tasks, every field of a task is what that task's own commands alone make of it |
| PollBackoff.PollLatency | fastmcp_tasks/fastmcp_tasks/client.py:152-165 | for any advertised intervals the next poll comes by min(2t + floor, t + ceiling) |
| PollBackoff.NoticedSoon | fastmcp_tasks/fastmcp_tasks/client.py:152-165 | a task that ends between two polls is noticed within those bounds of its end |
| PollBackoff.DelayAtLeast | fastmcp_tasks/fastmcp_tasks/client.py:139-165 | every delay is at least min(floor, setting) |
| PollBackoff.ConstantDelay | fastmcp_tasks/fastmcp_tasks/client.py:152-165 | against a constant ceiling c the k-th delay is min(floor * 2^k, c) |
| PollBackoff.CeilingFloor | fastmcp_tasks/fastmcp_tasks/client.py:139-149 | the ceiling is at least the floor if and only if a positive interval is advertised or the setting is |
| PollBackoff.CeilingMeans | fastmcp_tasks/fastmcp_tasks/client.py:139-149 | the ceiling is the advertised number of milliseconds, or 20 of them, or the setting |
| ClientDrive.DelayRestarts | fastmcp_tasks/fastmcp_tasks/client.py:269-300 | the first round and the one after an input round sleep for 20 ms at most; after a sleep the next is no shorter, but for its ceiling |
| PollBackoff.CeilingBelowFloor | fastmcp_tasks/fastmcp_tasks/client.py:139-149 | a valid setting for which it is not |
| ClientDrive.AnswerInput | fastmcp_tasks/fastmcp_tasks/client.py:173-240 | every request is put to the handler, in order, and one update follows, all within the deadline, if there is a handler and it answers each; otherwise a failure with its cause, at once without a handler, or a timeout at the deadline |
| ClientDrive.Round | fastmcp_tasks/fastmcp_tasks/client.py:275-300 | exactly one poll, then the sleep or the answers it calls for, or the end it brings, with the backoff of the round after |
| ClientDrive.DriveToTerminal | fastmcp_tasks/fastmcp_tasks/client.py:248-300 | the calls made are poll 0, 1, 2, ... each once and in order, with the sleep or the answers each calls for in between; nothing starts or ends past start + timeout and a timeout is reported exactly at the deadline; a result is the reply of the last poll, got in time, and no earlier reply was terminal or one the client cannot serve; the loop ends if there are finitely many input rounds |
| Expiry.TtlsAgree | fastmcp_tasks/fastmcp_tasks/handlers.py:117-124 | the lifetimes at creation and at refresh are the same number, for every duration |
| Expiry.Lifetimes | fastmcp_tasks/fastmcp_tasks/creation.py:103-105 | an execution is kept for the whole seconds of the duration, the keys for 900 more, the marker for these seconds but for one at least |
| Expiry.CreationIsWhole | fastmcp_tasks/fastmcp_tasks/creation.py:113-126 | however slow its writes, create_task leaves a metadata key that no other key is outlived by |
| Expiry.LookupRefreshes | fastmcp_tasks/fastmcp_tasks/handlers.py:157-173 | a lookup gives every routing key a full lifetime and leaves the marker alone |
| Expiry.SplitRefresh | fastmcp_tasks/fastmcp_tasks/handlers.py:161-173 | a refresh spread over time leaves all keys if and only if each was there at its own turn |
| Expiry.SplitRefreshStrands | fastmcp_tasks/fastmcp_tasks/handlers.py:161-173 | such a refresh can extend the metadata and lose a later key |
| TaskLifetime.ResolvableIsWhole | fastmcp_tasks/fastmcp_tasks/input_store.py:156-218 | at any time and under any pattern of polls, legs, re-entries and cancels, a task whose metadata is there has its pointer, number, arguments and snapshot, and a lookup never falls back to the first leg |
| TaskLifetime.ResolvesIffRetained | fastmcp_tasks/fastmcp_tasks/handlers.py:128-173 | a task polled in time resolves exactly as long as its current leg's execution is kept: for good while it is not finished, and no longer than the retention time after its end |
| TaskLifetime.MarkerIsNotRefreshed | fastmcp_tasks/fastmcp_tasks/input_store.py:445-459 | under any polls, legs and re-entries the marker lives until the moment fixed when it was written |
| TaskLifetime.UncancelledIff | fastmcp_tasks/fastmcp_tasks/handlers.py:286-327 | after a cancel, at any time and under any polls, legs and re-entries: the task resolves and is not reported as cancelled if and only if its metadata is there, the marker's lifetime is over, and its current leg is not finished, or ended by itself and is still kept |
| TaskLifetime.EndedStaysCancelled | fastmcp_tasks/fastmcp_tasks/input_store.py:445-459 | a task whose current leg had ended at the cancel is reported as cancelled or not found from then on |
| TaskLifetime.StoppedStaysCancelled | fastmcp_tasks/fastmcp_tasks/handlers.py:323-324 | so is one whose current leg Docket has stopped |
| TaskLifetime.ReappearsIffUnfinished | fastmcp_tasks/fastmcp_tasks/input_store.py:445-459 | a cancelled task that resolves can come to be reported as something else, without a re-entry, if and only if its current leg is not finished at the cancel |
| TaskLifetime.PolledReports | fastmcp_tasks/fastmcp_tasks/handlers.py:250-327 | all that a cancelled task polled in time is reported as, and when |
| TaskLifetime.ExampleReappears | fastmcp_tasks/fastmcp_tasks/input_store.py:445-459 | with the default TTL: cancelled for 900 seconds, then working again; the cases in which the leg ends in between |
| TaskLifetime.TaskRecord.Create | fastmcp_tasks/fastmcp_tasks/creation.py:113-132 | the writes in their order leave a whole task |
| TaskLifetime.TaskRecord.LookupTask | fastmcp_tasks/fastmcp_tasks/handlers.py:128-173 | finds the task if and only if its metadata and its execution are there, and then refreshes every key, command by command, as the lemmas have it |
| TaskLifetime.TaskRecord.TasksGet | fastmcp_tasks/fastmcp_tasks/handlers.py:250-327 | the lookup, the marker and the execution, in this order, report the status the lemmas are about |
| WorkerContext.ReadableBySameKey | fastmcp_tasks/fastmcp_tasks/encryption.py:69-145 | a snapshot is readable exactly with the codec that wrote it |
| WorkerContext.SnapshotRoundTrip | fastmcp_tasks/fastmcp_tasks/context.py:214-243 | a captured snapshot survives storage unchanged |
| WorkerContext.CallerShows | fastmcp_tasks/fastmcp_tasks/context.py:538-581 | the caller shown is the snapshot's session, its headers unless there are none, and its token's user exactly if that token has not expired |
| WorkerContext.Worker.Apply | fastmcp_tasks/fastmcp_tasks/context.py:538-581 | installs just that, so never a user whose token has expired, or, if the token does not validate, nothing |
| WorkerContext.Worker.Restore | fastmcp_tasks/fastmcp_tasks/context.py:308-393 | with a key the body starts exactly when everything was recovered; without one, unless the snapshot is sealed; what the variables hold in each case |
| WorkerContext.Worker.RecoversSaved | fastmcp_tasks/fastmcp_tasks/context.py:353-370 | with a key, what can be recovered is what was saved at the submission |
| WorkerContext.Worker.Serve | fastmcp_tasks/fastmcp_tasks/context.py:267-292 | over any sequence of tasks on one worker with a key, a body starts exactly if its own snapshot is there, sealed with that key, and its token validates; it then sees its own session, headers and unexpired token |
| WorkerContext.InheritsIffNotInstalled | fastmcp_tasks/fastmcp_tasks/context.py:551-554 | without a key, a body sees an earlier caller if and only if its own snapshot could not be installed, and which one |
| WorkerContext.RunsAsAnother | fastmcp_tasks/fastmcp_tasks/context.py:551-554 | a task whose snapshot is missing, served after one whose snapshot is there, runs as the caller of the first |
| AccountActivity.RecentIsPrefix | src/purecipher/account_activity.py:85-115 | the deque's answer is a prefix of the table's, equal if and only if the last 200 events hold enough of the user's rows, or all |
| AccountActivity.RecentIsQuery | src/purecipher/account_activity.py:85-115 | equal in particular up to 200 events |
| AccountActivity.StoredNameMeans | src/purecipher/account_activity.py:59 | a name is stored without the whitespace around it, and as `unknown` if it is nothing else |
| AccountActivity.Cap | src/purecipher/account_activity.py:89 | a limit below 1 is 1, one above 200 is 200, any other itself |
| AccountActivity.OfUserDescends | src/purecipher/account_activity.py:97-99 | a user's rows come by strictly decreasing id |
| AccountActivity.ActivityStore.Append | src/purecipher/account_activity.py:50-83 | one row under the next id joins both logs, the oldest leaving a full deque |
| AccountActivity.ActivityStore.ListRecent | src/purecipher/account_activity.py:85-115 | what the deque reports, against the whole history |

## Left out

- Runs that go on after a `tasks/update` has raised because its durable wait ran out, but for the retry of `TaskStalled`: excluded by assumption.
- Lock expiry under a holder that is still at work, crashes and redelivery: excluded by assumption.
- A `tasks/get` whose lookup and hash read are split by an update.
- Expiry of the input keys one hour after they were written.
- Metadata in replies: timestamps, poll interval, progress messages, the conversion of a result to its wire form, and the
  text of masked tool errors. A leg that ends in an empty ask is `Done(EmptyAsk)`; the handler turns it into an error reply.
- TaskServer.TaskStore.CreateTask: does not model the first worker at work during the durable wait, because no request can name the task yet; its steps are those of the run that follows.
- TaskServer.TaskStore.RunLeg: does not say how soon a cooperative stop reaches the body; it can end the leg at any await.
- PyText.PyInt: does not read non-ASCII digits or refuse numbers of more than 4300 digits.
- PercentCodec.Quote: takes Unicode scalar values; a lone surrogate, on which Python raises, is not a Dafny character.
- PollBackoff: real arithmetic, no floating-point rounding; the same in `Expiry` and `TaskLifetime`.
- `ToolTask.wait` and the caching of `ToolTask.result`: a simpler loop of the same shape as `DriveToTerminal`.
- ClientDrive.DriveToTerminal: does not model the validation of a request's parameters by the client.
- AccountActivity: ids the table skips when an insert fails, and the formatting of rows for output.
- `make_task_context` beyond the state it loads: server resolution, sessions and weak references.
- Argument coercion, component lookup, settings, capability gates, telemetry and logging.
