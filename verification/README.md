# Verified models of the AI test platform's Runner and operator scripts

The platform dispatches test runs over RabbitMQ to Runners. A Runner claims a run at the backend,
reads its plan, starts it, watches an isolated child process, reports the outcome and settles the
delivery. Operator scripts redrive dead letters, archive assets, recover one AI call and renumber
requirements; each has to survive a crash at any point.

This project models that logic in Dafny and proves what it promises for every input, every answer
of the outside world and every interleaving. Answers of the backend, behaviour of children, what
methods of their process handles raise, clocks, files and crashes are arbitrary. Assumed are only
what a row below says and what "Left out" names, above all that methods of the broker channel
(acknowledge, reject, stop consuming) do not raise.

| file | part |
|---|---|
| `Wire.dfy`, `Crashes.dfy` | shared vocabulary: replies, faults, control answers, ends of a step |
| `Supervision.dfy` | the loops that watch a child process |
| `Retry.dfy` | the attempt loop of an API case and its backoff |
| `Delivery.dfy` | the protocol of a delivery: which event may follow which, per kind |
| `Observations.dfy` | what is observed of children, and which events of a trace say it |
| `DeliveryRules.dfy` | the protocol split into one clause per event, as the handlers use it |
| `Consumer.dfy` | `RunnerTaskConsumer`: six handlers that follow the protocol and settle once |
| `DeliveryLaws.dfy` | what every conforming delivery guarantees |
| `Reasons.dfy` | why a delivery is completed, requeued, rejected or goes on, read off answers and outcomes |
| `PerformanceStore.dfy`, `PerformanceHistory.dfy` | the spool of samples; load is never repeated |
| `Broker.dfy` | Runner, broker and backend composed |
| `Template.dfy`, `Cleanup.dfy`, `Pipeline.dfy` | the API pipeline: templates, cleanup, traces, target retries |
| `Redrive.dfy`, `Archive.dfy`, `Recovery.dfy` | crash-safe operator scripts |
| `Preorder.dfy`, `Renaming.dfy` | requirement order and two-phase renaming |
| `Descendants.dfy`, `Stock.dfy` | process descendants; demo shop inventory |

`dafny verify dfyconfig.toml` checks everything.

## How to read it

**Deliveries.** A delivery is a trace of events: backend calls with their answers and results of
work. `Delivery.Follows` says which event may come next. Each handler of `RunnerTaskConsumer` is
imperative code proved to emit only conforming traces, in which what is said about a child is what
was observed of it (`Observations.Fits`), and to make exactly one settlement that agrees with its
outcome. `DeliveryLaws` then proves, without looking at the handlers, what all
conforming traces have in common, and `Broker` composes any conforming web handler with the broker
and the backend fixture.

**Crashes.** In `Redrive`, `Archive` and `Recovery` every operation may raise, may take effect and
still raise, or may be the last one before the process dies. Durable state is in fields that
survive; the invariants are proved to hold after every operation, so a crash anywhere is covered.

**What turned out false, and exactly when it holds.**

- A returning delivery is settled exactly once, with two exceptions. `_execute_deferred_cleanup`
  returns REJECTED without settling when a deferred resource is not a mapping
  (consumer.py:2834-2843); `RunnerTaskConsumer.CleanUp` proves both directions: not a mapping, no
  settlement; all mappings, one. And a watch that settles for a control fault goes on to terminate
  and close the child; if that raises (consumer.py:1491-1493, 2285-2288, 2783-2785), the handler's
  except clauses settle again. `RunnerTaskConsumer.ProcessExecutionDelivery` counts: a return has
  made one settlement of its own and one for each such watch (`log.slips`), so exactly one exactly
  when there was none, and there is none when no process method raises. `Supervision.OverrunHappens`
  is such a watch; `Retry.SettledIsFinal` shows that the API loop at least does not repeat it.
- A terminal run is never planned, started or completed again exactly on networks where a call
  sends its request at most once and no request outlives its call (`Broker.FinalIff`). The client
  repeats a request after a transient failure, four times by default (protocol.py:170, 2961-3035):
  with `n` sends a terminal run can be completed `n - 1` times more, and no more often
  (`Broker.ResentCompletion`, `Broker.TerminalIsFinal`). A request that arrives after its caller
  gave up can plan a terminal run (`Broker.LingeringPlan`).
- Template resolution is idempotent in a context exactly when the values that placeholders can
  name have nothing left to resolve (`Template.IdempotentIff`); brace-free contexts are such
  (`Template.CleanContextIsIdempotent`), not all are (`Template.NotIdempotentInGeneral`).
- The AI-call ledger counts every booking exactly when no process writes over a total that has
  moved since it read it (`Recovery.LedgerCountsIff`), and the budget holds then
  (`Recovery.BudgetHolds`); one process at a time between reading and writing is enough
  (`Recovery.ExclusiveIsNeverStale`), two overlapping runs are too many
  (`Recovery.OverlapBreaksBudget`). The one-shot recovery needs no such condition.
- Renaming keeps codes unique after every row update in any order exactly when no other row holds
  a temporary code in use and no untouched row holds one of the new numbers
  (`Renaming.RenamingIsSafeIff`).
- Every requirement of the document is numbered exactly when parent ids form no cycle
  (`Renaming.AllNumberedIffAcyclic`). Requirements on or below a cycle are never listed and keep
  their old codes.

**Code and comments that disagree.** The comment at consumer.py:2178-2179 says that a redelivery
retries saving the samples; the code takes them from memory and does not save again. The model
follows the code: such samples are lost with the process, and only saved ones count as kept.

## Model

| member | source | states |
|---|---|---|
| Wire.CheckControl | runner/runner/consumer.py:2433-2481 | the demand is that of the flags: force before cancel before nothing; an exception is its own fault, a value of another type a protocol error |
| Supervision.Turn | runner/runner/consumer.py:1465-1520 | one quiet turn of the watch loop: it goes on exactly when the deadline, the cancel window and the control answer allow it; an exit is justified by what the turn saw, and terminates the child |
| Supervision.Supervise | runner/runner/consumer.py:428-517 | the scenario, web and performance watch loops as one machine: the loop stops at the first turn that does not allow it to go on; each exit kind has its cause; an exception of the process handle replaces it, after a control fault was settled exactly when the watch overran; the child is asked to cancel at most once, told to terminate exactly when it is left alive without a result, then closed, and none outlives the loop unless closing raised |
| Supervision.CancelHasAnOrigin | runner/runner/consumer.py:1449-1539 | a pending cancellation was asked for by control at an earlier turn and accepted by the child there |
| Supervision.CancelLatches | runner/runner/consumer.py:1449-1539 | once cancellation is pending it keeps its start time and control is not consulted again |
| Supervision.LeavesInTime | runner/runner/consumer.py:2252-2324 | the loop is left no later than the first turn past the deadline or past the window of an accepted cancellation |
| Supervision.ControlIsConsulted | runner/runner/consumer.py:428-517 | between any two turns of an uncancelled loop that are a polling interval apart control is consulted, on a clock that does not go back |
| Supervision.TimeoutIsReal | runner/runner/consumer.py:445-448 | a total timeout means a clock reading at or past the deadline |
| Supervision.ForceIsAsked | runner/runner/consumer.py:471-474 | a force stop means the force flag was set in the answer of the turn that ended the loop |
| Supervision.ForceEndsTheLoop | runner/runner/consumer.py:471-474 | a turn that reads the force flag is the last one |
| Supervision.CancelIsTold | runner/runner/consumer.py:475-497 | a cancel flag without force is passed on once to a child that accepts it, and the loop waits from then |
| Supervision.ClearChangesNothing | runner/runner/consumer.py:458-470 | clear flags change nothing but the time of the last reading |
| Supervision.FaultIsReported | runner/runner/consumer.py:467-470 | a fault that ends the loop is the one control raised, or a protocol error for a garbled answer |
| Supervision.DoneEndsTheLoop | runner/runner/consumer.py:441-443 | a child that is gone or has delivered ends the loop |
| Supervision.InterruptsALiveChild | runner/runner/consumer.py:441-443 | what is terminated was alive and had delivered nothing |
| Supervision.ExceptionsMean | runner/runner/consumer.py:516-517 | which exception of the process handle leaves the loop, and whether a control fault was settled before it |
| Supervision.ApiTurn | runner/runner/consumer.py:2771-2802 | one turn of the API watch loop: control before the deadline, with the deadline read again after it; an exit terminates the child |
| Supervision.SuperviseApi | runner/runner/consumer.py:2728-2817 | the API watch loop: first stopping turn, justified exit, exceptions of the handle; the child is told to terminate exactly when it is left alive without a result, and none outlives the loop unless closing raised |
| Supervision.RecordingTurn | runner/runner/consumer.py:996-1074 | one turn of the recording loop with its local stop event and its two windows: the child has been asked for exactly what the loop remembers; an exit tells it to terminate unless an unknown error escapes, in which case closing does |
| Supervision.ConsultRecording | runner/runner/consumer.py:1028-1074 | the control answer of a recording: fault, cancel before stop, and what the child is told for each |
| Supervision.SuperviseRecording | runner/runner/consumer.py:982-1085 | the recording loop, which has no deadline and settles after terminating: justified exits, exceptions of the handle; told to terminate exactly when left alive without a result by no unknown error, closed last, and no child outlives the loop unless closing raised |
| Supervision.OverrunHappens | runner/runner/consumer.py:1485-1493 | a watch in which control settles the delivery and terminating the child raises |
| Supervision.SeesOne | runner/runner/consumer.py:428-517 | the observations determine the turn at which the loop ends and its exit |
| Supervision.ApiSeesOne | runner/runner/consumer.py:2728-2817 | the same for the API loop |
| Supervision.RecordingSeesOne | runner/runner/consumer.py:982-1085 | the same for the recording loop |
| Supervision.OverrunMeans | runner/runner/consumer.py:1485-1493 | such a watch has a turn with a live child and a failed control answer, and an exception after it |
| Retry.RunAttempt | runner/runner/consumer.py:2728-2817 | a timeout means the watch read the clock past the deadline, a force stop or a fault that control gave it at a polled turn; an answer is the child's, the executor's or that of a broken child; an exception of the handle, exactly when one was raised, is an executor error and remembers whether control had settled |
| Retry.Conclude | runner/runner/consumer.py:2519-2636 | an attempt is repeated exactly when it produced a report before the deadline, for a listed reason, with retries left and control clear; any other end is justified |
| Retry.Proceeding | runner/runner/consumer.py:2519-2663 | after the attempt either the whole backoff was waited or the end is justified by the attempt or by a step of its backoff, whose steps kept the same bounds |
| Retry.SleepOnce | runner/runner/consumer.py:3030-3061 | the single sleep without a stop event is cut at the deadline |
| Retry.WaitListening | runner/runner/consumer.py:3062-3102 | with a stop event every step is at most half a second, never sleeps past the deadline, and the steps sum to the delay when nothing intervenes |
| Retry.Wait | runner/runner/consumer.py:2998-3102 | the wait as a whole: bounded steps, exact sum, and a cause for every early end |
| Retry.ExecuteWithRetries | runner/runner/consumer.py:2483-2663 | at most max_retries + 1 attempts, each run under supervision; every repeated attempt started before the deadline, ended as observed, failed for a listed reason and was followed by its full backoff; no step of any wait, the interrupted one included, sleeps past the deadline or, with a stop event, longer than half a second before control is read; the result is justified by the last attempt, which started before the deadline unless the deadline is the result |
| Retry.SettledIsFinal | runner/runner/consumer.py:2603-2623 | an attempt that threw after control had settled is never repeated |
| Retry.RepeatedAttempt | runner/runner/consumer.py:2483-2663 | each repeated attempt on its own meets the repetition condition |
| Retry.RepeatedBecause | runner/runner/consumer.py:2984-2996 | an attempt is repeated exactly when it began and ended in time with a 5xx status, a target timeout or a network error that the policy lists, retries left and both flags clear |
| Retry.BackoffStarts | runner/runner/consumer.py:3011-3011 | the first backoff is the policy's, up to thirty seconds |
| Retry.BackoffDoubles | runner/runner/consumer.py:3011-3011 | backoffs double up to thirty seconds and stay there |
| PerformanceStore.IdentifiersAreNulFree | runner/runner/envelope.py:251-259 | envelope identifiers hold no NUL |
| PerformanceStore.KeyTextInjective | runner/runner/performance_store.py:82-84 | the NUL-separated text determines run and message |
| PerformanceStore.PathsSeparate | runner/runner/performance_store.py:82-84 | without a digest collision between them different envelopes have different files |
| PerformanceStore.SaveReadsBack | runner/runner/performance_store.py:21-80 | a saved result reads back as itself exactly when it is in range, and other keys are not disturbed |
| PerformanceStore.RangeMeans | runner/runner/performance_store.py:21-57 | in range is one millisecond to a day and one to ten thousand samples, all of them mappings |
| PerformanceStore.ReadIsStrict | runner/runner/performance_store.py:21-57 | only a file of at most eight million bytes, of version 1 and of the same identifiers is read |
| PerformanceStore.PerformanceResultStore.Load | runner/runner/performance_store.py:21-57 | a record is only returned to its own key and in range; an existing file is never taken for a missing one |
| PerformanceStore.PerformanceResultStore.Save | runner/runner/performance_store.py:59-74 | the file is replaced as a whole or not at all; success means replaced |
| PerformanceStore.PerformanceResultStore.Delete | runner/runner/performance_store.py:76-80 | exactly the file of the key goes |
| Consumer.RunnerTaskConsumer.StrictLadder | runner/runner/consumer.py:1364-1376 | the except ladder before reporting: auth stops, transport requeues, everything else rejects; one settlement |
| Consumer.RunnerTaskConsumer.SettleFirst | runner/runner/consumer.py:2451-2481 | the settlement a watch makes for a control fault before an exception: one slip, consumption stopped for an authentication failure |
| Consumer.RunnerTaskConsumer.LenientLadder | runner/runner/consumer.py:2073-2085 | the except ladder around reporting: unknown errors requeue; one settlement |
| Consumer.RunnerTaskConsumer.Conclude | runner/runner/consumer.py:3104-3125 | a completion is acknowledged exactly when the answer confirms a consistent terminal state |
| Consumer.RunnerTaskConsumer.Complete | runner/runner/consumer.py:1870-1884 | whatever the completion call answers, the delivery is settled once |
| Consumer.RunnerTaskConsumer.ProcessWeb | runner/runner/consumer.py:1322-1447 | a web delivery follows the protocol, its trace says what was observed of the child; a return has settled it once on top of the slips of its watch; an escape means there is no workspace, an unfinished call that the child still runs |
| Consumer.RunnerTaskConsumer.ExecuteWeb | runner/runner/consumer.py:1449-1539 | the web child: the outcome returned is that of the watch; a control fault or exception of the watch settles the delivery; one slip exactly for a watch that settled and then threw |
| Consumer.RunnerTaskConsumer.AfterWebWatch | runner/runner/consumer.py:1358-1379 | what each exit of the watch leads to: a delivered result, or the named end for a timeout, a stop or a broken child; after a slip the except clauses settle a second time |
| Consumer.RunnerTaskConsumer.AskAfterWeb | runner/runner/consumer.py:1382-1408 | control after the child: a demand is kept for a result and acted on otherwise |
| Consumer.RunnerTaskConsumer.FinishWeb | runner/runner/consumer.py:1409-1447 | evidence failures, a pending demand and the result lead to one settlement |
| Consumer.RunnerTaskConsumer.ReportWeb | runner/runner/consumer.py:1697-1827 | void results are rejected, open AI assertions are judged, and the completion follows |
| Consumer.RunnerTaskConsumer.ProcessScenario | runner/runner/consumer.py:369-426 | a scenario delivery follows the protocol; a return has settled it once; an escape means that the process handle or the cleanup raised, an unfinished call that the child still runs |
| Consumer.RunnerTaskConsumer.ExecuteScenario | runner/runner/consumer.py:428-517 | the scenario child: the outcome of the watch, a fault that settles, or an exception that escapes; one slip exactly for a watch that settled and then threw |
| Consumer.RunnerTaskConsumer.AfterScenarioWatch | runner/runner/consumer.py:409-417 | what each exit of the watch leads to: the outcome it stands for, a settled fault, an escape exactly for an exception of the handle |
| Consumer.RunnerTaskConsumer.ReportScenario | runner/runner/consumer.py:519-682 | control once more, then one settlement for every outcome unless the cleanup raises |
| Consumer.RunnerTaskConsumer.JudgeScenario | runner/runner/consumer.py:545-682 | judgement, deferred cleanup and completion settle once |
| Consumer.RunnerTaskConsumer.ProcessApi | runner/runner/consumer.py:1886-2095 | the case loop: settled once, or dropped exactly as `Dropped` says; with mappings only, always settled once; a call that does not settle has an unfinished or raising case, or has reported as many cases as were observed and goes on |
| Consumer.RunnerTaskConsumer.ProcessCase | runner/runner/consumer.py:1909-2095 | one case of the loop; the loop goes on only while nothing is settled and one more case is reported |
| Consumer.RunnerTaskConsumer.AttemptCase | runner/runner/consumer.py:1967-1981 | the attempts of a started case and what they lead to: the next case, one settlement, or a reason for none |
| Consumer.RunnerTaskConsumer.RunAttempts | runner/runner/consumer.py:2483-2663 | the attempts of a case under supervision: the result is justified by how they ended; an attempt that slipped, exactly when its watch settled and then threw, is reported as an executor error |
| Consumer.RunnerTaskConsumer.ReportCase | runner/runner/consumer.py:1983-2063 | the report of a case: control, judgement, cleanup and completion in order |
| Consumer.RunnerTaskConsumer.CleanUp | runner/runner/consumer.py:2820-2878 | a deferred cleanup with a resource that is not a mapping returns without settling; otherwise a return has settled once |
| Consumer.RunnerTaskConsumer.RunCleanup | runner/runner/consumer.py:2845-2856 | the supervised cleanup: the result its watch stands for, or an exception that escapes, after one slip exactly when its watch had settled |
| Consumer.RunnerTaskConsumer.Submit | runner/runner/consumer.py:2065-2095 | an accepted report of a running run leads to the next case; an answer that is no completion escapes; anything else settles once |
| Consumer.RunnerTaskConsumer.ProcessRecording | runner/runner/consumer.py:792-974 | a recording delivery follows the protocol; a return has settled it once; every other end has its reason |
| Consumer.RunnerTaskConsumer.StartRecording | runner/runner/consumer.py:828-858 | a conflict on the plan reads control again before giving up |
| Consumer.RunnerTaskConsumer.Record | runner/runner/consumer.py:888-893 | the headed child: its outcome, or a control fault that settles; an unknown error, an answer without flags or an exception of the handle escapes, and nothing else does |
| Consumer.RunnerTaskConsumer.FinishRecording | runner/runner/consumer.py:894-974 | control once more, then one settlement for every outcome; it escapes exactly when that answer cannot be read |
| Consumer.RunnerTaskConsumer.ProcessExploration | runner/runner/consumer.py:1130-1278 | an exploration delivery always returns having settled once |
| Consumer.RunnerTaskConsumer.ProcessPerformance | runner/runner/consumer.py:2097-2212 | a performance delivery is settled once; load only without kept samples; a requeue never forgets; kept samples stay readable, wherever the process dies |
| Consumer.RunnerTaskConsumer.RecallOrLoad | runner/runner/consumer.py:2161-2187 | kept samples are reported again instead of loading |
| Consumer.RunnerTaskConsumer.Recall | runner/runner/consumer.py:2161-2166 | no answer from memory and spool only when nothing is kept; kept samples come back as they were kept |
| Consumer.RunnerTaskConsumer.Keep | runner/runner/consumer.py:2172-2181 | samples are kept, as measured, exactly when saved in range |
| Consumer.RunnerTaskConsumer.CompletePerformance | runner/runner/consumer.py:2326-2409 | samples are forgotten only with an outcome that does not requeue; the process may die before the report, after it and after forgetting |
| Consumer.RunnerTaskConsumer.ForgetAndConclude | runner/runner/consumer.py:2326-2409 | the answer decides both whether the samples are forgotten and how the delivery is settled |
| Consumer.RunnerTaskConsumer.Forget | runner/runner/consumer.py:2411-2419 | forgetting drops one key and keeps every other |
| Consumer.RunnerTaskConsumer.HandleFault | runner/runner/consumer.py:2188-2212 | the except clauses settle once and a requeue keeps the samples |
| Consumer.RunnerTaskConsumer.ProcessExecutionDelivery | runner/runner/consumer.py:317-360 | every kind, every backend answer and every child, channel methods not raising: the trace follows the protocol and every event about a child, an attempt, a cleanup or kept samples says what was observed; a return has settled the delivery in agreement with the outcome, and before that once for each watch that settled and then threw; exactly once exactly when there was none, which holds when no process method raises; a call that does not settle has its reason (no executor, a child, an attempt or a cleanup that still runs, a process method or a cleanup that raised, a control answer that cannot be read, a run that goes on after its last case); slots are given back; samples are accounted for |
| Consumer.RunnerTaskConsumer.HandleAndRelease | runner/runner/consumer.py:343-360 | the slot taken is released however the handler ends, and the delivery ends as its kind says |
| Consumer.RunnerTaskConsumer.Admit | runner/runner/consumer.py:317-342 | an invalid envelope is rejected, no slot requeues, a missing executor escapes unsettled |
| PerformanceHistory.UnkeptWasForgotten | runner/runner/consumer.py:2379-2419 | samples once kept and no longer kept were forgotten in between |
| PerformanceHistory.ExtendByDelivery | runner/runner/consumer.py:2161-2212 | one more delivery keeps the history free of repeated loads |
| PerformanceHistory.LoadsAreNotRepeated | runner/runner/consumer.py:2161-2187 | if every load found its key not kept, no kept key is loaded again before it was forgotten |
| PerformanceHistory.KeysSeparate | runner/runner/performance_store.py:82-84 | identifiers without digest collisions have different files |
| PerformanceHistory.ServeOne | runner/runner/consumer.py:2097-2212 | a delivery by the consumer extends such a history, and what it may report again is what the history holds for its key |
| PerformanceHistory.HeldWasKept | runner/runner/consumer.py:2161-2181 | held samples are those of the last keeping of their key, with nothing forgotten since |
| PerformanceHistory.Serve | runner/runner/consumer.py:2161-2212 | over any deliveries and restarts sharing a spool, with the process dying at any backend call and no digest collision among the identifiers in use, a load whose samples were kept is not applied again until they were forgotten |
| DeliveryLaws.AckDecision | runner/runner/consumer.py:3104-3125 | an event decides for an acknowledgement exactly when it is a claim that found the work over or a confirmed completion |
| DeliveryLaws.ConfirmationDecision | runner/runner/consumer.py:3104-3125 | which triples of outcome, run status and case status confirm a completion, per kind |
| DeliveryLaws.AckIsEarned | runner/runner/consumer.py:1870-1884 | every acknowledged delivery has such an event right before the settlement |
| DeliveryLaws.StopIsEarned | runner/runner/consumer.py:2421-2481 | consumption stops only right after an authentication failure |
| DeliveryLaws.StopDecision | runner/runner/consumer.py:2433-2449 | and every authentication failure stops it |
| DeliveryLaws.RequeueIsTransient | runner/runner/consumer.py:3179-3183 | a delivery is requeued only for a transport or unknown error, a missing slot, a failed save or an unusable answer to samples |
| DeliveryLaws.StagesAreOrdered | runner/runner/consumer.py:1322-1447 | within a case no call is made twice and none out of order |
| DeliveryLaws.DeliveriesAreShort | runner/runner/consumer.py:317-360 | a delivery of any kind but API has at most fifteen events |
| DeliveryLaws.SettlementIsLast | runner/runner/consumer.py:317-360 | nothing follows a settlement and only a settlement follows a completion |
| DeliveryLaws.AboutTheChild | runner/runner/consumer.py:1378-1447 | what is judged, uploaded or cleaned up is the outcome of the one child of the delivery |
| DeliveryLaws.SuccessIsTheChilds | runner/runner/consumer.py:519-682 | SUCCESS is reported only for a successful child whose open AI assertions were judged PASS and, for a scenario, cleaned up |
| Observations.WatchIsSeen | runner/runner/consumer.py:1449-1539 | what the exit of a watch stands for was seen by it |
| Observations.ObservedTrace | runner/runner/consumer.py:317-360 | a trace under the rule of a delivery conforms to the protocol and every event in it says what was observed |
| Reasons.CompletionDecision | runner/runner/consumer.py:1697-1827 | an event leads to a completion exactly for the reasons listed per kind, with outcome, error, retries and evaluation: TIMEOUT for a timed-out child, CANCELLED for a stop, FAILED for a broken one, the result otherwise |
| Reasons.ReturnDecision | runner/runner/consumer.py:3179-3183 | an event requeues the delivery exactly for the transient reasons listed |
| Reasons.RejectDecision | runner/runner/consumer.py:1364-1376 | and rejects it exactly for the lasting ones |
| Reasons.OrderDecision | runner/runner/consumer.py:1322-1447 | what has to come right before what: work after a clear control answer, a report after the control answer behind the work, evidence with the demand that came with the result |
| Reasons.CompletionIsExplained | runner/runner/consumer.py:1870-1884 | every completion of a delivery has its reason right before it |
| Reasons.EndIsReported | runner/runner/consumer.py:1697-1827 | a child that ended without a result is reported by its end: a timeout as TIMEOUT, a stop as CANCELLED, the rest as failed, unless control cancelled the run |
| Reasons.TimeoutIsReported | runner/runner/consumer.py:2326-2409 | a watch that timed out is completed with TIMEOUT |
| Reasons.SuccessWasDelivered | runner/runner/consumer.py:1410-1447 | SUCCESS is reported only if the child delivered a successful result to the watch |
| Reasons.SamplesAreGenuine | runner/runner/consumer.py:2326-2409 | reported samples are those the load delivered or those kept |
| Broker.HarmlessNext | runner/runner/consumer.py:1322-1447 | after what a terminal run tolerates only a slot, a claim or a settlement can follow |
| Broker.AckNeedsConfirmation | runner/runner/consumer.py:1870-1884 | a web acknowledgement follows a confirmed completion or a cancelled claim |
| Broker.StepKeepsInv | deploy/p5f_web_broker_acceptance.py:398-441 | every step of Runner, broker or backend keeps the invariant |
| Broker.Safety | deploy/p5f_web_broker_acceptance.py:255-270 | the invariant holds in every reachable state |
| Broker.TerminalIsFinal | deploy/p5f_web_broker_acceptance.py:519-535 | the message is in exactly one place and acknowledged only for a terminal run; where no request outlives its call a terminal run is never planned or started again and is completed again at most sends - 1 times |
| Broker.NothingAfterTerminal | deploy/p5f_web_broker_acceptance.py:398-441 | where no request outlives its call, from the terminal state on the backend changes only by counting claims and conflicts |
| Broker.RedeliveryOnlyClaims | deploy/p5f_web_broker_acceptance.py:398-409 | in every run a delivery begun at a terminal run does nothing but claim, and sees the conflict the backend counted or no answer |
| Broker.RedeliveryIsRejected | deploy/p5f_web_broker_acceptance.py:404-409 | and when it settles it is never acknowledged; a protocol error is the counted conflict and the message is dead-lettered, it is requeued exactly after a transport error, and without a valid tag nothing moves |
| Broker.ResentCompletion | runner/runner/protocol.py:2961-3035 | for every number of sends a run that completes a terminal run sends - 1 times more |
| Broker.LingeringPlan | runner/runner/protocol.py:2961-3035 | on a network where requests outlive their calls, a run in which a terminal run is planned again |
| Broker.FinalIff | runner/runner/protocol.py:2961-3035 | a terminal run is never planned, started or completed again exactly when a call sends at most once and no request outlives it, or nothing is sent |
| Template.ScanIsFaithful | runner/runner/api_pipeline.py:684-701 | the segments of a template, written out again, are the template |
| Template.ScanFindsAll | runner/runner/api_pipeline.py:684-701 | every placeholder written between ordinary characters is found |
| Template.ScanIsReading | runner/runner/api_pipeline.py:695-698 | every text has a reading that takes each placeholder from left to right |
| Template.ReadingIsScan | runner/runner/api_pipeline.py:695-698 | and only one |
| Template.TextIsSpelledOut | runner/runner/api_pipeline.py:691-701 | a text that is not one placeholder resolves to its characters with the text of each named value in place, or fails for doubled braces |
| Template.TextNeedsItsNames | runner/runner/api_pipeline.py:704-707 | it fails if a name it needs is undefined, and can be spelled out if none is |
| Template.CleanIsFixed | runner/runner/api_pipeline.py:684-707 | a brace-free value resolves to itself in every context |
| Template.ResolvedIsClean | runner/runner/api_pipeline.py:684-707 | in a brace-free context every successful result is brace-free at every depth |
| Template.ResolveIdempotent | runner/runner/api_pipeline.py:684-707 | resolving a result again, in any context, changes nothing |
| Template.NotIdempotentInGeneral | runner/runner/api_pipeline.py:691-693 | a context holding a placeholder breaks idempotence |
| Template.IdempotentIff | runner/runner/api_pipeline.py:684-707 | resolution is idempotent in a context exactly when every value a placeholder can name resolves to itself |
| Template.CleanContextIsIdempotent | runner/runner/api_pipeline.py:684-707 | so it is in every brace-free context |
| Template.KeysUntouched | runner/runner/api_pipeline.py:684-688 | keys and their order stay, each value is its own resolution |
| Template.ItemsKept | runner/runner/api_pipeline.py:687-688 | a list resolves item by item, and fails exactly when an item does |
| Template.FieldsFailIff | runner/runner/api_pipeline.py:685-686 | an object fails exactly when a value does |
| Template.ShapeIsKept | runner/runner/api_pipeline.py:684-690 | lists stay lists, objects objects, other values themselves |
| Template.SubstitutesOnce | runner/runner/api_pipeline.py:695-701 | only the names written in the template are looked up: substituted text is never expanded |
| Template.RenderJoins | runner/runner/api_pipeline.py:695-698 | rendering goes piece by piece |
| Template.RenderPiece | runner/runner/api_pipeline.py:695-698 | a placeholder renders as the text of its value, a character as itself |
| Template.RenderFailsIff | runner/runner/api_pipeline.py:704-707 | rendering fails exactly when a name is undefined |
| Template.WholePlaceholderKeepsType | runner/runner/api_pipeline.py:691-693 | a string that is one placeholder yields the value itself |
| Cleanup.DueMeans | runner/runner/api_pipeline.py:291-304 | a well-formed cleanup is due exactly when it is on and its policy names the outcome |
| Cleanup.PlanStepIsUnbound | runner/runner/api_pipeline.py:279-283 | plan cleanups of a pass are those no resource is bound to |
| Cleanup.PlanStepsGoBackwards | runner/runner/api_pipeline.py:279-283 | they come in reverse plan order, none twice |
| Cleanup.NoUnboundIsMissed | runner/runner/api_pipeline.py:279-283 | and none is left out |
| Cleanup.FirstProblemIsFirst | runner/runner/api_pipeline.py:251-284 | the reported error is the first one in step order |
| Cleanup.StepAt | runner/runner/api_pipeline.py:251-284 | every step is taken from where the one before it ended, whatever happened there |
| Cleanup.AttemptedOnce | runner/runner/api_pipeline.py:263-274 | attempt_count is 1 exactly when the status is not SKIPPED; skipped exactly when the policy says so; an error code exactly when FAILED |
| Cleanup.ResourceRound | runner/runner/api_pipeline.py:254-278 | a due cleanup of a resource is sent in the state the step finds, with the resource's own id as resource_id, and its effect is the result; one that is not due changes nothing |
| Cleanup.PlanRound | runner/runner/api_pipeline.py:279-283 | a due plan cleanup is sent in the state the step finds |
| Cleanup.SentInOrder | runner/runner/api_pipeline.py:251-284 | what is sent is exactly the due steps, each once, in order and in the state it found |
| Cleanup.RecordMeans | runner/runner/api_pipeline.py:263-274 | the record of a resource has the status, attempt and error code of its step |
| Cleanup.ResourceStepsPutBack | runner/runner/api_pipeline.py:254-278 | after every resource step resource_id has its old presence and value |
| Cleanup.StepsKeepContext | runner/runner/scenario.py:373-395 | cleanups that write nothing but affected_rows leave every other context entry as it was, step by step |
| Cleanup.PassKeepsContext | runner/runner/api_pipeline.py:251-284 | so does the whole pass, failures included: resource_id has its old presence and value |
| Pipeline.OrderedMeans | runner/runner/api_pipeline.py:112-118 | in a trace list phases come in order, numbers are consecutive, and only the last trace can be a failure |
| Pipeline.PhasesInOrder | runner/runner/api_pipeline.py:112-118 | PRE, AUTH_REFRESH, EXTRACTOR, POST in this order, each numbered from one |
| Pipeline.TraceNamesItsAction | runner/runner/api_pipeline.py:388-403 | a trace names kind and name of the action with its number in its phase |
| Pipeline.CountMeans | runner/runner/api_pipeline.py:112-118 | the tally counts the traces of each phase |
| Pipeline.TokensInPlanOrder | runner/runner/api_pipeline.py:202-206 | the replayed token actions are enabled GET_TOKEN actions in plan order |
| Pipeline.NoTokenIsMissed | runner/runner/api_pipeline.py:202-206 | and all of them |
| Pipeline.RetryableMeans | runner/runner/api_pipeline.py:209-249 | a reply is retryable exactly for a listed 5xx, timeout or network error |
| Pipeline.RepeatedReply | runner/runner/api_pipeline.py:209-249 | every earlier request was repeated for a 401 or a listed reply |
| Pipeline.AtMostOne401 | runner/runner/api_pipeline.py:215-230 | two 401 among the earlier replies are counted as two |
| Pipeline.OutcomeMeans | runner/runner/api_pipeline.py:119-132 | the outcome for cleanup: SUCCESS without a problem, TIMEOUT for an expired target or total deadline, FAILURE otherwise |
| Pipeline.RegisteredMeans | runner/runner/api_pipeline.py:587-598 | registered resources are numbered by position, pending and not attempted |
| Pipeline.PairedMeans | runner/runner/api_pipeline.py:388-403 | trace k is the trace of attempt k |
| Pipeline.ApiCasePipelineExecutor.RunOneCleanup | runner/runner/api_pipeline.py:286-315 | one cleanup: refused, skipped or performed as its policy says |
| Pipeline.ApiCasePipelineExecutor.CleanResource | runner/runner/api_pipeline.py:254-278 | one resource: the step of the pass, sent with the id of the resource in the context, and the record it leaves |
| Pipeline.ApiCasePipelineExecutor.CleanResources | runner/runner/api_pipeline.py:254-278 | the resource loop is the first part of the pass |
| Pipeline.ApiCasePipelineExecutor.CleanPlan | runner/runner/api_pipeline.py:279-283 | the plan loop is the rest of it |
| Pipeline.ApiCasePipelineExecutor.RunCleanups | runner/runner/api_pipeline.py:251-284 | the whole method is the pass: resources, state, first error, and exactly the due cleanups sent in order, each in the state its step found; the context changes in nothing but affected_rows |
| Pipeline.ApiCasePipelineExecutor.Validate | runner/runner/api_pipeline.py:755-763 | accepted exactly up to 64,000 bytes |
| Pipeline.ApiCasePipelineExecutor.ApplyGetToken | runner/runner/api_pipeline.py:405-443 | success binds the value found in the response to one variable within the limit and leaves the others |
| Pipeline.ApiCasePipelineExecutor.ApplyPreAction | runner/runner/api_pipeline.py:317-349 | a disabled action changes nothing, an enabled one leaves a context within the limit; SET_VARIABLE binds the resolved value |
| Pipeline.ApiCasePipelineExecutor.ApplyExtractor | runner/runner/api_pipeline.py:485-506 | success binds the value found in the target's response to the extractor's variable within the limit |
| Pipeline.ApiCasePipelineExecutor.ApplyScript | runner/runner/api_pipeline.py:612-635 | a script leaves a context within the limit or fails |
| Pipeline.ApiCasePipelineExecutor.ApplyPostAction | runner/runner/api_pipeline.py:508-537 | resources only grow and stay freshly registered; context within the limit on success |
| Pipeline.ApiCasePipelineExecutor.PrepareResource | runner/runner/api_pipeline.py:539-597 | a resource passes the checks only with its cleanup bound and an id of 1 to 512 characters |
| Pipeline.ApiCasePipelineExecutor.Register | runner/runner/api_pipeline.py:539-610 | the resource is recorded before the context changes, also when that change fails; `__resources` then holds it under its name next to what it held |
| Pipeline.PutFieldMeans | runner/runner/api_pipeline.py:599-610 | a field that is put is found, and every other stays |
| Pipeline.ApiCasePipelineExecutor.ExecuteTraced | runner/runner/api_pipeline.py:351-403 | exactly one trace per attempt with the right status; SKIPPED means nothing changed; the list stays ordered |
| Pipeline.ApiCasePipelineExecutor.ExecutePhase | runner/runner/api_pipeline.py:112-118 | the actions of a phase in order until one fails, the context within the limit before each |
| Pipeline.ApiCasePipelineExecutor.SendRound | runner/runner/api_pipeline.py:209-236 | one request, and after the first 401 all token actions once and a request rendered anew |
| Pipeline.ApiCasePipelineExecutor.ExecuteTarget | runner/runner/api_pipeline.py:198-249 | at most max_retries + 2 requests; token actions replayed at most once, each once, in order; the end is the last reply and it is not retryable or retries are exhausted |
| Pipeline.ApiCasePipelineExecutor.ExecutePrimary | runner/runner/api_pipeline.py:107-121 | the primary part: ordered traces, bounded requests, full phases on success |
| Pipeline.ApiCasePipelineExecutor.Execute | runner/runner/api_pipeline.py:107-165 | cleanup follows every primary outcome with the outcome it calls for, unless a success defers it untouched |
| Pipeline.ExecuteCleanupTask | runner/runner/api_pipeline.py:167-196 | the second process computes the same pass from the snapshot; an unknown outcome performs nothing |
| Pipeline.DeferThenClean | runner/runner/api_pipeline.py:133-196 | deferring and cleaning up later equals cleaning up in place in resources, context, world, cleanups performed, first error and its code |
| Redrive.Site.NothingIsLost | deploy/p5e_redrive_run_dead_letter.py:337-440 | every letter is ready, held, or its body was published |
| Redrive.Site.ConfirmedIsQueued | deploy/p5e_redrive_run_dead_letter.py:370-392 | a confirmed body is the one published and is in the Runner's queue |
| Redrive.Site.Republish | deploy/p5e_redrive_run_dead_letter.py:363-392 | the intent is durable before the one publish, the confirmation before anything else |
| Redrive.Site.AckSource | deploy/p5e_redrive_run_dead_letter.py:393-402 | only the confirmed letter is acknowledged, all others stay |
| Redrive.Site.Execute | deploy/p5e_redrive_run_dead_letter.py:343-402 | an acknowledgement is sent only after confirmation, and without one the letters only moved |
| Redrive.Site.Attempt | deploy/p5e_redrive_run_dead_letter.py:230-402 | inspection publishes nothing and acknowledges nothing |
| Redrive.Site.Run | deploy/p5e_redrive_run_dead_letter.py:202-440 | one process, finished or crashed anywhere: letters other than the source are where they were, an existing journal blocks everything, `source_preserved` is reported only when no acknowledgement was sent, and the reported flags published, confirmed and ack_sent are each true exactly when it happened |
| Redrive.Site.RefusedMeans | deploy/p5e_redrive_run_dead_letter.py:202-222 | exactly which arguments are turned away before anything is touched |
| Redrive.Operate | deploy/p5e_redrive_run_dead_letter.py:202-440 | any sequence of processes: at most one publish, at most one letter leaves, and its body is in the Runner's queue |
| Archive.AppendKeeps | deploy/p5f_archive_acceptance_assets.py:724-734 | a new entry keeps keys distinct, ordinals equal to positions and every POST covered |
| Archive.UpdateKeeps | deploy/p5f_archive_acceptance_assets.py:735-757 | a state change keeps them too and never takes a start back |
| Archive.Archiver.Post | deploy/p5f_archive_acceptance_assets.py:738-739 | a POST needs a started entry on disk and a key never posted |
| Archive.Archiver.ArchiveOne | deploy/p5f_archive_acceptance_assets.py:674-757 | at most one POST, and only for a key the journal does not know; success settles the key |
| Archive.Archiver.ArchiveAll | deploy/p5f_archive_acceptance_assets.py:775-777 | all cases, elements and pages are settled when the loops end |
| Archive.Archiver.Execute | deploy/p5f_archive_acceptance_assets.py:760-804 | success means six confirmed or skipped entries, every asset among them, and a recorded POST count no less than the real one |
| Archive.Operate | deploy/p5f_archive_acceptance_assets.py:760-804 | over any number of crashed and restarted executions no key is posted twice and every POST is recorded as started |
| Recovery.RecoveredCounts | deploy/p5e_live_acceptance.py:471-495 | the rebuilt calls are as many as the manifests count |
| Recovery.Rebuild | deploy/p5e_live_acceptance.py:447-495 | the ledger rebuilt from manifests is valid and complete, or refused over the limit |
| Recovery.StepKeepsOneShot | deploy/p5e_resume_failure_analysis.py:601-651 | every step keeps the one-shot invariant; the write leaves five calls |
| Recovery.RecoveryIsOneShot | deploy/p5e_resume_failure_analysis.py:751-774 | any interleaving and crashes: at most one ledger write by a recovery and at most one POST, after it |
| Recovery.LedgerMovesOnce | deploy/p5e_resume_failure_analysis.py:631-651 | with recoveries alone the ledger goes from four calls to five once, before the POST |
| Recovery.StepKeepsBudget | deploy/p5e_live_acceptance.py:428-445 | a step keeps every sent and pending POST on the ledger |
| Recovery.LedgerCountsIff | deploy/p5e_live_acceptance.py:428-445 | the ledger counts all bookings after every prefix of a run exactly when each booking found the total it had read |
| Recovery.PostsAreBooked | deploy/p5e_live_acceptance.py:428-506 | sent and pending POSTs are never more than the bookings |
| Recovery.LedgersStayValid | deploy/p5e_live_acceptance.py:447-495 | every ledger on disk or in memory has as many calls as its total, within the limit |
| Recovery.BudgetHolds | deploy/p5e_live_acceptance.py:428-506 | POSTs <= total = calls <= 6 in every run in which no booking writes over a total that has moved |
| Recovery.ExclusiveIsNeverStale | deploy/p5e_live_acceptance.py:428-445 | no overlapping ledger use is enough for that |
| Recovery.OverlapBreaksBudget | deploy/p5e_live_acceptance.py:428-445 | two overlapping runs send two POSTs and record one |
| Recovery.Site.LiveCall | deploy/p5e_live_acceptance.py:428-506 | the live script's call takes steps of the state machine; a full ledger sends nothing |
| Recovery.Site.Resume | deploy/p5e_resume_failure_analysis.py:601-774 | the recovery takes steps of the state machine; a receipt or another ledger sends nothing |
| Recovery.Operate | deploy/p5e_resume_failure_analysis.py:751-774 | any sequence of both scripts: one recovery POST at most, POSTs <= total = calls <= 6 |
| Preorder.ChainDistinct | backend/scripts/normalize_demo_requirements.py:42-60 | a chain from a root never meets a requirement twice |
| Preorder.ChainBounded | backend/scripts/normalize_demo_requirements.py:53-59 | so the recursion ends on any parents |
| Preorder.ChainUnique | backend/scripts/normalize_demo_requirements.py:42-60 | a requirement has at most one chain |
| Preorder.Insert | backend/scripts/normalize_demo_requirements.py:48-49 | insertion keeps a list sorted by (order_index, id) with exactly one more element |
| Preorder.Sort | backend/scripts/normalize_demo_requirements.py:48-49 | sorting keeps the elements |
| Preorder.Listing.Fill | backend/scripts/normalize_demo_requirements.py:43-47 | every list holds the requirements of its parent; a parent outside counts as none |
| Preorder.Listing.SortEach | backend/scripts/normalize_demo_requirements.py:48-49 | each list is then complete and sorted |
| Preorder.Listing.Visit | backend/scripts/normalize_demo_requirements.py:53-56 | a visit appends exactly the subtree, in order |
| Preorder.Listing.Run | backend/scripts/normalize_demo_requirements.py:42-60 | the listing is all chains in lexicographic order of siblings |
| Preorder.ListedIffRooted | backend/scripts/normalize_demo_requirements.py:42-60 | listed exactly when the parents lead to a root |
| Preorder.RootOrCycle | backend/scripts/normalize_demo_requirements.py:42-60 | following parent ids up ends at a root or in a cycle |
| Preorder.CycleHasNoChain | backend/scripts/normalize_demo_requirements.py:42-60 | no requirement on a cycle has a chain to a root |
| Preorder.AllListedIffAcyclic | backend/scripts/normalize_demo_requirements.py:42-60 | all are listed exactly when the parent ids form no cycle |
| Preorder.NoneTwice | backend/scripts/normalize_demo_requirements.py:42-60 | none is listed twice |
| Preorder.ParentsComeFirst | backend/scripts/normalize_demo_requirements.py:53-56 | parents before children |
| Preorder.SubtreesAreContiguous | backend/scripts/normalize_demo_requirements.py:53-56 | subtrees are contiguous |
| Preorder.SiblingsInOrder | backend/scripts/normalize_demo_requirements.py:48-49 | siblings by (order_index, id) |
| Renaming.DecimalReadsBack | backend/scripts/normalize_demo_requirements.py:132-137 | zero-padded digits can be read back |
| Renaming.CodesDiffer | backend/scripts/normalize_demo_requirements.py:132-137 | different numbers give different codes, and temporary codes are never final ones |
| Renaming.RenamingIsSafeIff | backend/scripts/normalize_demo_requirements.py:132-137 | codes stay unique after every row update in any order exactly when the codes to be used are free |
| Renaming.FinalCodes | backend/scripts/normalize_demo_requirements.py:135-137 | the end: REQ-0001 to REQ-n in listed order, nothing else changed |
| Renaming.Project.Renumber | backend/scripts/normalize_demo_requirements.py:118-151 | all updates and the counter n + 1, or none of it; free codes always succeed |
| Renaming.Normalize | backend/scripts/normalize_demo_requirements.py:98-153 | the script as a whole: preorder, both flushes in any row order, counter; the listed requirements and no others are numbered from one in preorder, or nothing changes |
| Renaming.ParentsHaveSmallerNumbers | backend/scripts/normalize_demo_requirements.py:53-60 | a parent gets a smaller number than its child |
| Renaming.AllNumberedIffAcyclic | backend/scripts/normalize_demo_requirements.py:42-60 | every requirement gets its preorder number exactly when there is no parent cycle |
| Descendants.ChildIsReachable | deploy/p5f_web_broker_acceptance.py:227-232 | a child of something reachable is reachable |
| Descendants.WalksStayInside | deploy/p5f_web_broker_acceptance.py:224-233 | a set closed under children holds every walk from the root |
| Descendants.Find | deploy/p5f_web_broker_acceptance.py:224-233 | ends on every parent map and returns exactly the pids one or more child edges below the root |
| Stock.SoldWithout | demo/server.py:1242-1251 | removing an order lowers the sold quantity of its product by its own |
| Stock.DemoState.CreateOrder | demo/server.py:1190-1225 | an order is created exactly when the product exists with enough stock; the invariant is kept |
| Stock.DemoState.DeleteOrder | demo/server.py:1242-1251 | a deletion gives the stock back; the invariant is kept |
| Stock.DemoState.Serve | demo/server.py:1190-1251 | checks before the lock, then one of the two |
| Stock.History | demo/server.py:1190-1251 | in every history stock plus live orders is the initial stock, stock is never negative, and order ids are never reused |

## Left out

- The HTTP client, transport, pika, Playwright, process spawning, slot bookkeeping beyond take and give back, and the executors: they appear as arbitrary answers.
- `process_delivery`, `consume_once`, `consume_forever` and topology: dispatch around the modelled entry point.
- `_execute_scenario_cleanup_isolated`: its result is arbitrary in the model, since it would only add another watch loop.
- Consumer.RunnerTaskConsumer.ProcessExecutionDelivery: methods of the broker channel do not raise in the model; where one raises inside a try block the code settles once more or lets the exception escape.
- Evidence preparation and upload: one event with an arbitrary answer.
- Traces, error texts and messages of completions: only outcome, error kind, retry count and the evaluated flag are kept.
- The memory entry that the API handler drops for its own key at consumer.py:1941 and 1958: the API handler leaves performance samples alone in the model.
- The validation of a retry policy before the attempt loop (consumer.py:2494-2498): policies in the model are valid.
- Time in fractions of a millisecond: clocks and delays are integer milliseconds.
- Broker: one Runner per queue with prefetch one.
- JSON text, regular expressions beyond the template scanner, SHA-256 and dates: parsed values and an arbitrary digest stand for them.
- Cleanup and pipeline actions that are not mappings: the code raises an attribute error for them before the checks shown here.
- Pipeline.ApiCasePipelineExecutor.Execute: an executor is used for one case, so it starts fresh.
- Redrive.Site.Run: two processes at the same time are not modelled; the journal is looked at once, at the start. New dead letters arriving during a run are not modelled.
- Preorder.Listing.Visit: Python's recursion limit is not modelled.
- The deletion of legacy requirements before the renaming, readiness and preflight scripts, snapshots and migration verifiers, the frontend: fixed conjunctions over input and output.
- Stock: the `/api/resources` endpoints and sessions, which only add easy members.
