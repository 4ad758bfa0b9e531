# Ordely: a verified model of the call, audio, text, billing and reset logic

Ordely confirms a shop's online orders by telephone with a voice agent. This project models the parts
of its backend whose correctness spans several operations, and proves what holds over whole runs.
`dafny verify dfyconfig.toml` checks it with Dafny 4.11.

## The model

**The call-confirmation protocol.** `CallProtocol` holds the order and call tables and every step that
changes them. An operation that reads first and writes later is several steps; what it remembers in
between is a ticket, and a ticket can be used late, twice or never, so every interleaving of the poll,
the dispatcher, callbacks, expiry, queueing, manual retry and merchant edits is a run. `CallPolicy` and
`VoiceRules` are the pure rules. `CallInvariant` proves what every step keeps, `CallTheorems` what
follows for reachable states and whole runs, `CallEffects` what each write leaves in the tables, value
by value, `DispatchTimes` that an unanswered dispatch does not keep a call for ever, `TaskIds` that a
task id names one call, `CallWitnesses` reachable states that show why theorems have exceptions or
conditions. `CallSteps` says what the services' operations do as sequences of those steps and in closed
form; `CallServices` is the imperative form, a class whose methods follow the services.
The object records the steps of its operations (`CallTrace`), which are `CreateOrder`, `SetByMerchant`,
`Advance`, `HandleResult`, `HandleEvent`, `BeginDispatch`, `EndDispatch`, `Queue`, `QueueAllPending`,
`RetryAfterReview`, `StartPoll`, `ReadOffer`, `TakeOffer`, `PollBatch` and `EndPoll`. Called in whatever
order, they are a run from the empty tables, so the theorems about reachable states hold of its tables;
the other methods are parts of these and record nothing of their own.

**The voice agent.** `VoiceAgent` is one run of the agent as a state machine over its callbacks, with
its two timers, its decision and its one report; `AgentEffects` says what each callback does to an open
agent and which words of the tool a decision is; `VoiceCallAgent` is the class, one method a callback,
whose objects are always the result of a run. `EndToEnd` joins the agents and the tables through a
channel that may lose, repeat, delay and reorder messages.

**The audio output.** `AudioBridge` specifies the output bridge as a state with a history of the frames
sent; `AudioTheorems` proves conservation, pacing and draining, `AudioEffects` when it plays and what it
plays in between; `AudioMediaBridge` is the class, whose objects are again always the result of a run. `Pcm` has the sample conversions, `Wav` the recording
format and a strict reader of it, `AudioArtifactStore` the recorder. The header follows the WAVE form of
the "Multimedia Programming Interface and Data Specifications 1.0".

**Text.** `Csv` is the printer, the grammar the line reader follows and their round trips (section 2 of
RFC 4180); `CsvImport` the reader's loops and the order import, with totals and prices in thousandths as
their columns keep them, and `CsvLaws` what both make of literal headers, cells and rows; `Transcript`
the merging of streamed fragments; `Text` their white-space
operations.

**Billing and password reset.** `Billing` has the stored subscription, the two formulas that read it and
the steps that write it, each read and write of a request its own step; `BillingService` the endpoint.
`PasswordReset` has reset links and sessions in the same form (`iat` and `exp` are sections 4.1.6 and
4.1.4 of RFC 7519); `AuthService` the endpoints and the guard.

## Assumptions

- One backend process: the dispatcher's counter is the only mutual exclusion, so at most one dispatch
  is in progress.
- A call row is identified by its order and attempt: the unique key of
  `backend/prisma/schema.prisma:93`. Task ids are unique (`backend/prisma/schema.prisma:72`).
- A run starts a dispatch only on a call without a task id. The poll looks for this in its snapshot
  (`backend/src/calls/orchestration/call-orchestrator.service.ts:102`) and not again, so its dispatch
  belongs to a run exactly when no other dispatch of the call was accepted since
  (`CallTheorems.LateDispatchIsFreshIff`). That can happen (`CallWitnesses.PollCanBeStale`): such a
  dispatch, and a manual one of a call whose phase has moved on, are outside. With nothing in between,
  `CallServices.PollBatch` is proved to be a run. `CallTheorems.DispatcherWriteIsSafeIff` says exactly
  what the condition is worth.
- A progress event is one step, and so are the expiry of one call with its order and the transactions
  that store a result or reopen an order.
- Merchants confirm or cancel orders; other status edits are outside.
- Database, network, clock and randomness appear only as their results: the rows a query returns in any
  order, accept, defer or refuse, clock readings that never go back, and tokens never drawn before.

## Where the code does something unexpected

These are kept as they are and stated exactly.

- A call refused at launch on its third attempt leaves its order pending with no attempt left
  (`CallTheorems.NoOrderStranded`, `CallWitnesses.RefusedLaunchesStrand`); the value "rejected", which
  `decideOutcome` compares with although `VoiceDisposition` does not declare it, would do the same.
- Two cancellations of a subscription that overlap can move the end of a period already over
  (`Billing.CancelKeepsHistoryIff`, reached in `Billing.SecondCancellationMovesThePast`), and a new
  purchase makes every earlier paid period free (`Billing.PurchaseKeepsHistoryIff`). A cancellation on
  its way when a plan is bought ends the new plan (`Billing.PurchaseSurvivesIff`), and one stamped no
  later than the purchase leaves it not one paid moment (`Billing.PaidPurchaseIsLost`).
- When two requests for a reset link overlap, the link stored last works, which can be that of the
  earlier request (`PasswordReset.EarlierLinkCanWin`).
- The unit prices an import stores are rounded to thousandths, so an order's lines need not add up to its
  total: 10.000 for three pieces is stored as 3 x 3.333 (`CsvImport.TenForThree`). They do exactly when
  the pieces divide the total (`CsvImport.LinesAddUpIff`).
- A row can pass every check of the import and not be taken by the columns: an item name of more than 150
  characters (`CsvImport.LongNameIsNotStored`), or a null character in an item or the customer's name
  (`CsvImport.NullIsNotStored`). Then no order of the file is stored (`CsvImport.ImportCsv`).
- The importer splits a file into lines before it looks at quotes, and drops blank lines, so the row
  numbers it reports count non-blank lines only (`Csv.PrintThenImport`).

## Model

| member | source | states |
|---|---|---|
| `CallPolicy.LatestIsHighest` | backend/src/calls/orchestration/call-orchestration-policy.ts:20-26 | the reduction returns a call with the highest attempt of the list, in whatever order the rows come |
| `CallPolicy.NextAttemptDue` | backend/src/calls/orchestration/call-orchestration-policy.ts:13-44 | for rows 1..n in any order, the next attempt number is n+1 exactly when fewer than three calls were made, the last ended in no answer, an error or an ambiguous answer, and 30 minutes (after the first) or two hours (after the second) have passed since it completed |
| `CallPolicy.ParseClockExact` | backend/src/calls/orchestration/call-orchestration-policy.ts:69-75 | a clock text parses to m exactly when m is a minute of the day and the text is its two-digit HH:MM spelling |
| `CallPolicy.WindowExact` | backend/src/calls/orchestration/call-orchestration-policy.ts:46-67 | a shop is called from its opening minute up to, and not in, its closing minute, if both texts are two-digit spellings and the first is earlier, and otherwise never |
| `CallPolicy.NineToSix` | backend/src/calls/orchestration/call-orchestration-policy.ts:46-67 | "09:00" to "18:00" is exactly the minutes 540 to 1079 of the day |
| `VoiceRules.MinConfidence` | backend/src/voice/callbacks/call-callback.service.ts:24-31 | a configured threshold above 0 and at most 1 is used as it is, anything else is 0.7 |
| `VoiceRules.DecideOutcomeExact` | backend/src/voice/voice.rules.ts:36-55 | an outcome is confirmed or cancelled exactly for a trusted answer of that intent: the call was answered, did not fail, and the confidence lies between the threshold and 1 |
| `CallInvariant.StepKeepsInv` | backend/src/voice/callbacks/call-callback.service.ts:33-149 | every step of every service, merchant edits included, keeps: attempts 1..n per order, only attempt n pending, closed calls complete, no decided call without a settled order, retries counted, tickets still usable, the dispatched call pending and without a task id |
| `CallInvariant.RunKeepsInv` | backend/src/calls/orchestration/call-orchestrator.service.ts:49-169 | the same after any interleaving of reads and writes |
| `CallInvariant.PlannedIsNext` | backend/src/calls/calls.service.ts:239-243 | an attempt number computed from a snapshot of all rows is one more than the number of rows, with the delay already over |
| `CallInvariant.CloseKeepsInv` | backend/src/voice/callbacks/call-callback.service.ts:104-143 | closing a pending call together with its order keeps the invariant when the order settles on a decision, becomes unreachable only from the third attempt on, and stays pending only with a retry to come |
| `CallInvariant.ListingLength` | backend/src/calls/calls.service.ts:205-216 | a query for the calls of an order returns attempts 1..n, each once |
| `CallEffects.ResultEffect` | backend/src/voice/callbacks/call-callback.service.ts:79-143 | what a result for a pending call stores, case by case on its disposition, intent and confidence: status, disposition and completion time of the call and status of its order, each by name, and nothing else in either table |
| `CallEffects.LateResultIsIgnored` | backend/src/voice/callbacks/call-callback.service.ts:104-121 | a result for a closed call or another task id changes nothing |
| `CallEffects.EventEffect` | backend/src/voice/callbacks/call-callback.service.ts:42-67 | a progress event stores its phase, the end a completion time if there is none, and nothing else |
| `CallEffects.BeginEffect` | backend/src/calls/orchestration/call-dispatcher.service.ts:32-84 | a dispatch starts exactly when none is in progress, the call is pending and not just handed over, and the window of the shop is open; it holds that call under a new task id |
| `CallEffects.ReplyEffect` | backend/src/calls/orchestration/call-dispatcher.service.ts:136-166 | accepted stores a task id, the moment and the phase and leaves the rest of the row; refused closes the call as failed at this moment; deferred leaves the row; no other row changes |
| `CallEffects.ExpiryEffect` | backend/src/calls/orchestration/call-orchestrator.service.ts:152-167 | an expired call is closed as unanswered at the moment of the poll, and its pending order given up from the third attempt on; nothing else changes |
| `CallEffects.CreateEffect` | backend/src/calls/calls.service.ts:239-250 | a planned attempt becomes a new pending row without task id, dates or disposition, unless its row exists; every other row and order stays |
| `CallEffects.RetryEffect` | backend/src/calls/calls.service.ts:302-341 | a retry makes the order pending again together with its new row and one more retry counted, or does nothing |
| `CallEffects.NewOrderEffect` | backend/src/orders/orders.service.ts:93-126 | a new order is pending, with its shop's opening and closing time each in its place |
| `CallEffects.MerchantEffect` | backend/src/orders/orders.service.ts:128-147 | the merchant's confirmation or cancellation is stored whatever the order was, and changes no call |
| `CallTheorems.AttemptsAreContiguous` | backend/src/calls/calls.service.ts:201-350 | in every reachable state an order's attempts are exactly 1..n and only attempt n can be pending |
| `CallTheorems.PendingCallBlocksPlanning` | backend/src/calls/orchestration/call-orchestration-policy.ts:13-44 | while a call of the order is pending the policy itself offers no attempt, from any listing and at any time |
| `CallTheorems.NoOrderStranded` | backend/src/voice/callbacks/call-callback.service.ts:84-141 | a pending order with no pending call is due again at some time if and only if it is not abandoned: its last call refused at launch on attempt three or later, or reported as "rejected" |
| `CallTheorems.RetriesAreReopenings` | backend/src/calls/calls.service.ts:328-334 | the retry counter of an order is the number of steps of the run that moved it from unreachable back to pending |
| `CallTheorems.CallBudget` | backend/src/calls/calls.service.ts:302-341 | over every run an order has at most three calls plus one per reopening, and past three calls exactly that many |
| `CallTheorems.AutomaticAttemptsWait` | backend/src/calls/orchestration/call-orchestration-policy.ts:10-33 | attempt two is created at least 30 minutes after the first completed, attempt three at least two hours after the second, and only after a retriable ending |
| `CallTheorems.ClosedForEver` | backend/src/voice/callbacks/call-callback.service.ts:104-121 | once a call is not pending its status, disposition and completion time never change, whatever happens in whatever order |
| `CallTheorems.LeavesPendingOnce` | backend/src/calls/orchestration/call-orchestrator.service.ts:152-161 | over every run a call leaves pending exactly once if it ends up closed, and never otherwise |
| `CallTheorems.DispatcherWriteIsSafeIff` | backend/src/calls/orchestration/call-dispatcher.service.ts:144-166 | the dispatcher's unguarded writes are certain to hit a pending call if and only if the dispatch began on a call without a task id |
| `CallTheorems.ActiveStaysPending` | backend/src/calls/orchestration/call-orchestrator.service.ts:102-103 | a call dispatched without a task id stays pending until the dispatcher has written its answer |
| `DispatchTimes.DispatchedWhenAccepted` | backend/src/calls/orchestration/call-dispatcher.service.ts:144-151 | in every run the dispatch time of a call is the moment of the last step in which an agent accepted it, not after the clock, and every pending call with a task id has one |
| `DispatchTimes.PendingCallExpires` | backend/src/calls/orchestration/call-orchestrator.service.ts:143-150 | a pending call with a task id counts as stale exactly when more than 10 * 60,000 ms have passed since it was accepted |
| `CallTheorems.LateDispatchIsFreshIff` | backend/src/calls/orchestration/call-orchestrator.service.ts:102-128 | the poll's dispatch of a call it saw or inserted, however much later and after whatever steps, is on a call without a task id if and only if no other dispatch of it was accepted in between |
| `CallTheorems.DecisionIsFinal` | backend/src/voice/callbacks/call-callback.service.ts:104-143 | a call whose decision was applied is the only such call and the last call of its order for ever; the order stays confirmed or cancelled and is never called again |
| `CallTheorems.SettledForEver` | backend/src/calls/calls.service.ts:302-341 | over every run a confirmed or cancelled order stays one of the two, and only the merchant turns one into the other |
| `TaskIds.TaskIdsAreUnique` | backend/src/calls/orchestration/call-dispatcher.service.ts:101-166 | in every run, whatever calls it dispatches, no two calls have the same task id and the dispatch in progress has one no call has |
| `CallWitnesses.RefusedLaunchesStrand` | backend/src/calls/orchestration/call-dispatcher.service.ts:156-166 | a reachable state in which three launch refusals left a pending order nobody will call again |
| `CallWitnesses.GuardAdmitsRunningCall` | backend/src/calls/orchestration/call-dispatcher.service.ts:59-68 | a reachable state in which the dispatcher's own guard lets a call through that already has a task id |
| `CallWitnesses.PollCanBeStale` | backend/src/calls/orchestration/call-orchestrator.service.ts:102-128 | a reachable state in which the poll picks a call, and a run after which the guard lets its dispatch through although an agent has the call |
| `CallServices.CallServices.IsReachable` | backend/src/calls/orchestration/call-orchestrator.service.ts:49-169 | after whatever operations, in whatever order, the object's tables are a reachable state of the protocol, unless a dispatch was started on a call that had a task id |
| `CallServices.CallServices.HandleResult` | backend/src/voice/callbacks/call-callback.service.ts:70-149 | one result, found by task id, is exactly the protocol's result step; it is applied only to a pending call, and the reply says what was stored |
| `CallServices.CallServices.HandleEvent` | backend/src/voice/callbacks/call-callback.service.ts:33-68 | a progress event stores its phase, and the completion time only at "ended" and only when none is stored |
| `CallServices.CallServices.BeginDispatch` | backend/src/calls/orchestration/call-dispatcher.service.ts:32-100 | a dispatch begins exactly when none is in progress and the guard and the call window admit the call; it then holds that call under the next task id, and unless the call already had one, the run goes on |
| `CallServices.CallServices.EndDispatch` | backend/src/calls/orchestration/call-dispatcher.service.ts:101-170 | accepted, the row holds its task id, this moment as its dispatch time and the phase "dispatched", and is otherwise as before; refused, it is closed as a failed call; deferred, it is untouched; no other row changes and the counter is 0 again |
| `CallServices.CallServices.Queue` | backend/src/calls/calls.service.ts:201-258 | a call is created exactly when the order is pending, the window open, no call pending, an attempt due and its row free; it is the next attempt, the one new row, and a refusal changes nothing |
| `CallServices.CallServices.QueueAllPending` | backend/src/calls/calls.service.ts:261-299 | the new rows are exactly the attempts due of listed orders that were not there, rows that existed are untouched, and the count is the number of new rows |
| `CallServices.CallServices.RetryAfterReview` | backend/src/calls/calls.service.ts:302-341 | an unreachable order with calls, none pending, is reopened together with one call numbered one above the highest, or nothing changes |
| `CallServices.CallServices.ExpireStaleCalls` | backend/src/calls/orchestration/call-orchestrator.service.ts:143-169 | exactly the pending calls dispatched more than ten minutes before are closed as unanswered, and exactly the pending orders with such a call on attempt three or later become unreachable, in whatever order the loop runs |
| `CallServices.CallServices.StartPoll` | backend/src/calls/orchestration/call-orchestrator.service.ts:49-57 | a poll that finds another running only asks for a repetition; otherwise exactly the stale calls are expired before any order is read, so no call accepted more than 10 * 60,000 ms ago is still pending |
| `CallServices.CallServices.ReadOffer` | backend/src/calls/orchestration/call-orchestrator.service.ts:88-109 | what the poll keeps of its snapshot for an order: the one attempt that can be called now, and whether its row is still to be inserted |
| `CallServices.CallServices.TakeOffer` | backend/src/calls/orchestration/call-orchestrator.service.ts:113-125 | at any later time the offered call is used, or its row inserted by a step of the protocol; only a duplicate is passed over, and nothing else changes |
| `CallSteps.OfferStays` | backend/src/calls/orchestration/call-orchestrator.service.ts:99-125 | whatever steps come in between, an offer can still be taken |
| `CallServices.CallServices.PollBatch` | backend/src/calls/orchestration/call-orchestrator.service.ts:88-129 | with nothing between its read and its dispatch, and with capacity, the first order of the batch that can be called is called and no other, on a pending call without a task id, every other call row staying as it was; without one, or without capacity, nothing changes |
| `CallSteps.PollRun` | backend/src/calls/orchestration/call-orchestrator.service.ts:106-128 | the poll's read, insert and dispatch are a run of the protocol, from any state it can start in |
| `CallSteps.ExpiringOne` | backend/src/calls/orchestration/call-orchestrator.service.ts:152-166 | one round of the expiry loop extends the closed form of the tables by one call, whatever was expired before |
| `CallServices.CallServices.ChooseAttempt` | backend/src/calls/orchestration/call-orchestrator.service.ts:84-109 | in an open window, the attempt is a pending call no agent was ever given, or one above the number of calls when fewer than three were made and the last, if any, may be retried and its delay is over; otherwise there is none |
| `VoiceAgent.StepKeeps` | backend/src/voice/runtime/voiceCallAgent.js:243-445 | every callback keeps: closing means one cleanup, both timers clear and a phase; a decision clears the silence timer and has a confidence in 0..1; at most one report |
| `VoiceAgent.DecisionWrittenOnce` | backend/src/voice/runtime/voiceCallAgent.js:290-306 | over all interleavings the decision never changes once made or once closing began, and no silence prompt is spoken afterwards |
| `VoiceAgent.ReportedOnce` | backend/src/voice/runtime/voiceCallAgent.js:338-389 | at most one result is sent, and it carries the decision and the phase held when closing began |
| `AgentEffects.DecisionIsWhatWasSaid` | backend/src/voice/runtime/voiceCallAgent.js:290-306 | over all interleavings the decision is that of the first tool call to the open agent, or of its call-duration timer: the intent given when it is one of the three and unclear otherwise, the confidence given when it lies in 0..1 and 0 otherwise; there is none while there was neither |
| `AgentEffects.ClosingIsDeaf` | backend/src/voice/runtime/voiceCallAgent.js:243-244 | once closing, no event but the waits for audio and the cleanup changes anything |
| `AgentEffects.SetUpEffect` | backend/src/voice/runtime/voiceCallAgent.js:225-240 | each part, once ready, is noted, and the connected call starts the call-duration timer |
| `AgentEffects.OutputEffect` | backend/src/voice/runtime/voiceCallAgent.js:245-263 | audio or an interruption without a bridge, or audio it refuses, ends the run in an error; otherwise they change nothing of the agent |
| `AgentEffects.TurnEffect` | backend/src/voice/runtime/voiceCallAgent.js:264-266 | a completed turn waits once more for its audio |
| `AgentEffects.SpeechEffect` | backend/src/voice/runtime/voiceCallAgent.js:248-250 | only the customer's speech restarts the silence timer, after the greeting and before a decision |
| `AgentEffects.DrainedEffect` | backend/src/voice/runtime/voiceCallAgent.js:266-273 | a drained turn ends the greeting, and the run exactly when a decision and the request to hang up are there |
| `AgentEffects.SilenceEffect` | backend/src/voice/runtime/voiceCallAgent.js:410-424 | the silence timer speaks one prompt and starts again, does nothing without Gemini, and ends the run when the prompt fails |
| `AgentEffects.DurationEffect` | backend/src/voice/runtime/voiceCallAgent.js:402-445 | out of time, an undecided agent decides "unclear" with confidence 0 and ends by timeout; a decided one goes on |
| `AgentEffects.EndingEffect` | backend/src/voice/runtime/voiceCallAgent.js:327-336 | a rejection ends the run as rejected, a remote end or a stop as ended, with the decision held |
| `AgentEffects.FailureEffect` | backend/src/voice/runtime/voiceCallAgent.js:314-325 | a failure ends the run in an error; the request to hang up is only noted |
| `AgentEffects.CleanupEffect` | backend/src/voice/runtime/voiceCallAgent.js:366-384 | the report is "no answer" after a rejection, "error" after an error and "completed" after an end or a timeout, with the decision held |
| `VoiceAgent.GreetingStartsSilenceTimer` | backend/src/voice/runtime/voiceCallAgent.js:270-288 | a run in which the first completed turn ends the greeting and starts the silence timer, which then speaks |
| `VoiceCallAgent.VoiceCallAgent.Concluded` | backend/src/voice/runtime/voiceCallAgent.js:243-445 | of every agent object, after whatever callbacks: its decision is what the first tool call or the call-duration timer said, argument by argument, it reported at most once and with that decision, and closing cleared both timers |
| `VoiceCallAgent.VoiceCallAgent.HandleDecision` | backend/src/voice/runtime/voiceCallAgent.js:243-312 | while open and undecided, the intent given is the decision's, unclear when none was given, and the confidence given is kept when it lies in 0..1 and is 0 otherwise; a later decision is ignored, and nothing decided before changes |
| `VoiceCallAgent.VoiceCallAgent.HandleTurnComplete` | backend/src/voice/runtime/voiceCallAgent.js:243-288 | a completed turn of a connected call starts one more wait for the output to drain, or fails without a bridge |
| `VoiceCallAgent.VoiceCallAgent.ResumeTurnComplete` | backend/src/voice/runtime/voiceCallAgent.js:270-287 | once drained, the greeting is over, the silence timer restarts, and a decided agent asked to hang up is closing afterwards |
| `VoiceCallAgent.VoiceCallAgent.SendResult` | backend/src/voice/runtime/voiceCallAgent.js:338-389 | the cleanup sends the one report, with the decision held: no answer after a rejection, error after an error, completed otherwise |
| `VoiceCallAgent.VoiceCallAgent.OnSilenceTimer` | backend/src/voice/runtime/voiceCallAgent.js:410-424 | at most one prompt is spoken, and only while open, undecided and connected |
| `EndToEnd.SystemDecisionsAreTheCustomers` | backend/src/voice/callbacks/call-callback.service.ts:79-126 | whenever the system confirms or cancels an order, the order was pending, and the first thing asked of the agent launched for that very call, by its tool or its timer, was the tool call with just that intent and a confidence between the configured minimum and 1, in a run that did not end in error or rejection; messages may be lost, repeated, delayed and reordered |
| `EndToEnd.CustomersDecisionIsDone` | backend/src/voice/runtime/voiceCallAgent.js:366-382 | the other way round: the first tool call with a yes or a no the backend trusts, in a run that ends well, is reported, and that report, delivered while call and order are pending, confirms or cancels the order just so |
| `EndToEnd.OnlyResultsDecide` | backend/src/voice/callbacks/call-callback.service.ts:104-126 | apart from the merchant only a trusted result for a call of that order can confirm or cancel it |
| `EndToEnd.RunKeepsLinks` | backend/src/calls/orchestration/call-dispatcher.service.ts:101-154 | whatever happens, an agent's task id is found on no call but the one it was launched for |
| `EndToEnd.RunKeepsInv` | backend/src/voice/runtime/voiceCallAgent.js:366-382 | every message ever sent reports a dead worker's error or is the one report of its agent |
| `AudioTheorems.AudioIsConserved` | backend/src/voice/runtime/audioMediaBridge.js:63-161 | between two stops the frames sent, the frames queued and the remainder are, in order, exactly the resampled input and the padding of flushes; every frame has full size and the remainder is shorter |
| `AudioTheorems.FramesArePaced` | backend/src/voice/runtime/audioMediaBridge.js:114-183 | with no timer firing early, frame k since the last stop leaves at least 10k ms after the first, any two frames at most 40 ms closer than their distance, no reported lateness exceeds 40 ms, and every frame is counted in exactly one report |
| `AudioTheorems.DrainsInQueueLengthPlusOne` | backend/src/voice/runtime/audioMediaBridge.js:96-161 | after a flush with no later input each firing sends one queued frame and firing number queue length + 1 releases every waiter and stops the timer |
| `AudioTheorems.FlushStartsDraining` | backend/src/voice/runtime/audioMediaBridge.js:96-106 | a flush closes the turn, leaves no remainder, and leaves no waiter behind an idle output |
| `AudioTheorems.ReleasedOnlyWhenDrained` | backend/src/voice/runtime/audioMediaBridge.js:202-207 | a waiter is released only when queue, remainder and timer are all empty |
| `AudioTheorems.SilenceOnlyInOpenTurn` | backend/src/voice/runtime/audioMediaBridge.js:129-138 | silence is sent only while a turn is open and the queue is empty |
| `AudioTheorems.FiftySilencesPerEnqueue` | backend/src/voice/runtime/audioMediaBridge.js:129-138 | from one enqueue up to the next at most 50 frames of silence are sent |
| `AudioEffects.FiftySilencesThenRest` | backend/src/voice/runtime/audioMediaBridge.js:114-138 | in an open turn with an empty queue and no silence sent yet, each of the next 50 firings sends exactly one frame of zeros and sets the timer again, and the 51st stops it; no waiter is released in between |
| `AudioEffects.ChunkOpensTurn` | backend/src/voice/runtime/audioMediaBridge.js:63-66 | after any chunk with a byte in it the turn of an output not closed is open |
| `AudioEffects.TurnStaysOpen` | backend/src/voice/runtime/audioMediaBridge.js:96-106 | in every run the turn then stays open until a flush, a stop or a close |
| `AudioEffects.ChunkEffect` | backend/src/voice/runtime/audioMediaBridge.js:63-94 | an accepted chunk opens the turn, starts the count of silences again and is counted; its frames join the queue, and an idle output plays at once when the prebuffer is full or it had started |
| `AudioEffects.RefusedChunkEffect` | backend/src/voice/runtime/audioMediaBridge.js:64-69 | an empty chunk changes nothing, and one refused for its length or rate opens the turn and queues nothing |
| `AudioEffects.FlushEffect` | backend/src/voice/runtime/audioMediaBridge.js:96-106 | a flush pads the remainder with zeros to one frame, closes the turn and, when idle, sends the head of the queue whatever the prebuffer |
| `AudioEffects.PumpEffect` | backend/src/voice/runtime/audioMediaBridge.js:108-161 | what an idle output does next, case by case: wait for the prebuffer, send the head of the queue at its moment and set the timer 10 ms on, send silence in an open turn, pause in it, or end |
| `AudioEffects.FiringEffect` | backend/src/voice/runtime/audioMediaBridge.js:156-159 | a firing of the timer sends the head of the queue, or silence, or stops |
| `AudioEffects.ReportEffect` | backend/src/voice/runtime/audioMediaBridge.js:168-183 | the counters go out when asked for or when the interval is over, if anything was counted, and start again from zero |
| `AudioEffects.LatenessEffect` | backend/src/voice/runtime/audioMediaBridge.js:142-153 | a frame more than 2 ms past its moment is counted late, by exactly that much |
| `AudioEffects.SettingsFit` | backend/src/voice/runtime/audioMediaBridge.js:14-17 | a frame is a hundredth of a second to the nearest sample, and the prebuffer the fewest frames that hold its milliseconds |
| `AudioEffects.DefaultSettings` | backend/src/voice/runtime/audioMediaBridge.js:4-17 | at 48 kHz with 150 ms of prebuffer a frame has 480 samples and the first waits for 15 |
| `AudioTheorems.StepKeepsInv` | backend/src/voice/runtime/audioMediaBridge.js:63-218 | every operation keeps conservation, pacing, the silence allowance and the counters |
| `AudioTheorems.FedIsInput` | backend/src/voice/runtime/audioMediaBridge.js:63-106 | the input in the conservation law is read off the events alone, not off the bridge |
| `AudioBridge.CuttingConserves` | backend/src/voice/runtime/audioMediaBridge.js:83-88 | cutting into frames loses nothing, fills every frame and leaves less than one |
| `AudioMediaBridge.AudioMediaBridge.Conserved` | backend/src/voice/runtime/audioMediaBridge.js:63-218 | of every bridge object, after whatever callbacks: since the last stop what it sent, queued and kept is, in order, exactly the input of those callbacks |
| `AudioMediaBridge.AudioMediaBridge.Paced` | backend/src/voice/runtime/audioMediaBridge.js:108-183 | ... and frame k left at least 10k ms after the first, with no reported lateness above 40 ms |
| `AudioMediaBridge.AudioMediaBridge.EnqueueGeminiAudio` | backend/src/voice/runtime/audioMediaBridge.js:63-94 | one chunk is the run's next step: the turn is open, the frames it completes are queued after what was there, the rest is kept, and output is pumped and reported; it throws exactly for a half sample or a rate that is not positive |
| `AudioMediaBridge.AudioMediaBridge.CutFrames` | backend/src/voice/runtime/audioMediaBridge.js:83-88 | the frame-cutting loop |
| `AudioMediaBridge.AudioMediaBridge.FlushOutput` | backend/src/voice/runtime/audioMediaBridge.js:96-106 | the remainder is padded to one frame, the turn closed and the output pumped; from then on it drains |
| `AudioMediaBridge.AudioMediaBridge.PumpOutput` | backend/src/voice/runtime/audioMediaBridge.js:108-161 | one pump: nothing below the prebuffer, else one frame or one silence and a timer, else the end of the output |
| `AudioMediaBridge.AudioMediaBridge.OnOutputTimer` | backend/src/voice/runtime/audioMediaBridge.js:145-161 | a firing sends the head of the queue, or one silence in an open turn, and sets the timer again, or stops it; while draining it sends the next queued frame or, when there is none, releases every waiter |
| `AudioMediaBridge.AudioMediaBridge.WaitForOutputDrain` | backend/src/voice/runtime/audioMediaBridge.js:185-188 | a waiter is released at once on a drained output and otherwise kept |
| `Pcm.UpAndDown` | backend/src/voice/runtime/audioPcm.js:21-40 | resampling from a rate to k times that rate and back is the identity, for every signal and every k from 1 |
| `Pcm.ResampledBetweenNeighbours` | backend/src/voice/runtime/audioPcm.js:21-40 | every output sample lies between its two source neighbours, so the clamp never acts and no index leaves the signal |
| `Pcm.StraightLinesStay` | backend/src/voice/runtime/audioPcm.js:21-40 | a signal that is a straight line is resampled to the same line, each sample rounded, at the positions the ratio of the rates asks for |
| `Pcm.LengthIsNearest` | backend/src/voice/runtime/audioPcm.js:28 | the output has as many samples as the ratio of the rates asks for, to the nearest, and at least one |
| `Pcm.RoundIsNearest` | backend/src/voice/runtime/audioPcm.js:36-37 | the rounding is to the nearest whole number, halves upwards |
| `Pcm.Stereo` | backend/src/voice/runtime/audioPcm.js:10-18 | two channels are mixed to half the sum of each pair, halves upwards |
| `Pcm.ResamplePcm16` | backend/src/voice/runtime/audioPcm.js:21-40 | the loop computes the resampling function, sample by sample |
| `Pcm.MixToMono` | backend/src/voice/runtime/audioPcm.js:1-19 | each mono sample is the rounded average of its frame; one channel is returned as it is, a partial frame is refused |
| `Pcm.ChunkPcm` | backend/src/voice/runtime/audioPcm.js:42-57 | the chunks joined are the input followed by fewer than one chunk of zeros, and all have the same size |
| `Pcm.BytesRoundTrip` | backend/src/voice/runtime/audioPcm.js:59-70 | decoding encoded samples gives them back |
| `Pcm.SamplesRoundTrip` | backend/src/voice/runtime/audioPcm.js:59-70 | encoding decoded bytes gives them back |
| `Pcm.LittleEndian` | backend/src/voice/runtime/audioPcm.js:59-70 | a sample is two bytes, the less significant first, negative ones in two's complement |
| `Wav.HeaderRoundTrip` | backend/src/voice/runtime/audioArtifactStore.js:7-25 | the header is 44 bytes and reads as 16-bit PCM of that rate and channel count, with sizes equal to the file length minus 8 and minus 44 |
| `Wav.HeaderBytes` | backend/src/voice/runtime/audioArtifactStore.js:7-25 | the 44 bytes of the header: the four tags letter by letter, format 1 with 16 bits, and both sizes, rate, byte rate and channels with the least significant byte first |
| `Wav.GrowingGrows` | backend/src/voice/runtime/audioArtifactStore.js:60-61 | a positioned write at the end of the data extends the recording by exactly the new samples |
| `Wav.GrowingEnds` | backend/src/voice/runtime/audioArtifactStore.js:71-72 | rewriting the header with the final size makes the file readable as everything appended, in order |
| `AudioArtifactStore.AudioArtifactStore.AppendPcm` | backend/src/voice/runtime/audioArtifactStore.js:38-62 | which of the answers is given, exactly: bad identity or format, a format changed meanwhile, an existing file or a header that cannot be written; only "appended" adds samples, to that recording and in order |
| `AudioArtifactStore.IdExact` | backend/src/voice/runtime/audioArtifactStore.js:28 | a call's id is 16 to 64 hexadecimal digits and hyphens, in either case |
| `AudioArtifactStore.AudioArtifactStore.FinalizeCall` | backend/src/voice/runtime/audioArtifactStore.js:64-85 | exactly the open recordings of the call are closed and listed, agent first, each with the size of its file and its length to the nearest millisecond; every file ever closed, also before a failure, is a WAVE file that decodes to all samples appended to it; it fails exactly for an invalid id or a file too long for its header |
| `AudioArtifactStore.DurationIsNearest` | backend/src/voice/runtime/audioArtifactStore.js:79 | the duration listed is the playing time at that rate and channel count, to the nearest millisecond |
| `Csv.RowRoundTrip` | backend/src/common/csv.ts:2-12 | reading a printed row gives its neutralised cells, plus one empty cell exactly when the last cell was quoted |
| `Csv.DocumentRoundTrip` | backend/src/common/csv.ts:2-4 | splitting a printed document into lines gives the printed rows if and only if no cell holds a line break |
| `Csv.PrintThenImport` | backend/src/orders/orders.service.ts:174-210 | a printed table is imported as the rows it was printed from, cell by cell, if and only if no cell holds a line break and no row is blank |
| `Csv.NeutralIsInert` | backend/src/common/csv.ts:9-10 | no cell starts a formula, and only cells that would have are changed, by one apostrophe |
| `CsvLaws.PrintCellExact` | backend/src/common/csv.ts:6-12 | a cell is printed as it is, or, exactly when it holds a comma, a quote or a line break, between quotes with its own quotes doubled |
| `CsvLaws.DoubledAppends` | backend/src/common/csv.ts:11 | doubling quotes goes character by character |
| `CsvLaws.PrintExact` | backend/src/common/csv.ts:2-4 | a comma stands between cells and a line feed between rows |
| `CsvLaws.LineEndsAlike` | backend/src/orders/orders.service.ts:178-179 | the importer takes a carriage return, with or without a line feed, for one line feed |
| `CsvImport.ParseCsvLine` | backend/src/orders/orders.service.ts:361-406 | the index loop returns exactly the cells of the grammar |
| `CsvImport.MapColumns` | backend/src/orders/orders.service.ts:324-354 | each column is mapped to the first header naming it, and exactly the columns without one are missing |
| `CsvLaws.HeaderExact` | backend/src/orders/orders.service.ts:15-31 | a header names a column exactly when its letters, in lower case, spell one of the column's fifteen names |
| `CsvLaws.NameWorks` | backend/src/orders/orders.service.ts:331-337 | each of those names works with whatever is not a letter around it |
| `CsvLaws.KeyOfOne` | backend/src/orders/orders.service.ts:332 | capital letters count as their small ones, and nothing but letters counts |
| `CsvLaws.FieldsComeBack` | backend/src/orders/orders.service.ts:210-230 | a row printed with an order's texts under the headers that name their columns, in whatever order, is read back as just these texts |
| `CsvImport.CheckRow` | backend/src/orders/orders.service.ts:208-289 | a row becomes the order it describes or the complaints that apply to it, all of them and no others |
| `CsvLaws.RowOkExact` | backend/src/orders/orders.service.ts:219-269 | a row becomes an order exactly when every text is there and short enough, the phone number is one, each item's quantity, its own or the first, is from 1 to 1000 and the total from 0 to 1,000,000 |
| `CsvLaws.PhoneExact` | backend/src/orders/orders.service.ts:33 | a phone number is 7 to 19 digits and blanks, the first a digit, perhaps after a plus |
| `CsvLaws.GoodRowAt` | backend/src/orders/orders.service.ts:208-288 | each row that may become an order becomes one, at its place among those that do |
| `CsvImport.PriceLines` | backend/src/orders/orders.service.ts:274-284 | every line is priced at the share of one piece rounded to thousandths; the lines add up to the stored total exactly when the pieces divide it, and are off by at most half a thousandth a piece |
| `CsvImport.LinesAddUpIff` | backend/prisma/schema.prisma:34-45 | for every total in whole thousandths, the rounded lines add up to it if and only if the number of pieces divides it, and never miss it by more than half a thousandth a piece |
| `CsvImport.TenForThree` | backend/prisma/schema.prisma:34-45 | a total of 10 for three pieces is stored as lines worth 9.999 |
| `CsvImport.RowsAreConserved` | backend/src/orders/orders.service.ts:208-289 | every data row is counted once, as an order or as a failure under its own row number |
| `CsvImport.LongNameIsNotStored` | backend/prisma/schema.prisma:34-45 | for every item name of more than 150 characters and at most 200 UTF-16 units there is a row that passes every check and that the columns do not take |
| `CsvImport.LongNameExists` | backend/src/orders/orders.service.ts:232-241 | one such name: 151 times the same letter |
| `CsvImport.NullIsNotStored` | backend/src/orders/orders.service.ts:219-241 | the same of every row with a null character in its customer's name or its item |
| `CsvImport.ImportCsv` | backend/src/orders/orders.service.ts:174-321 | a file is refused for too few lines, missing columns or too many rows; else its orders are the good rows in order and its reported failures the first fifty bad ones, or nothing is stored, exactly when the columns do not take one of the good rows: a null character in a text, or an item name of more than 150 characters |
| `Transcript.OrderDoesNotMatter` | backend/src/voice/voice.rules.ts:68-80 | fragments without conflicting numbers merge to the same lines in whatever order, and however often, they arrive |
| `Transcript.RedeliveryIsHarmless` | backend/src/voice/voice.rules.ts:69-70 | a number delivered again, with whatever text, changes nothing |
| `Transcript.OrderedIsSorted` | backend/src/voice/voice.rules.ts:72 | the fragments kept are used once each, by increasing number |
| `Transcript.NothingSaidIsLost` | backend/src/voice/voice.rules.ts:72-79 | speaker by speaker and in order, the characters other than white space are exactly those of the fragments kept |
| `Transcript.ResultIsTidy` | backend/src/voice/voice.rules.ts:77-79 | every joined line keeps its words, single blanks stand between them, and no line is blank |
| `Transcript.MergedIsLineByLine` | backend/src/voice/voice.rules.ts:72-79 | cut the fragments kept, by number, where the speaker changes: each run gives one line, of the words of its texts put end to end with nothing between them, or none if it has no words |
| `Transcript.CutExists` | backend/src/voice/voice.rules.ts:72-76 | every sequence of fragments can be cut so |
| `Text.TidiedIsItsWords` | backend/src/voice/voice.rules.ts:77-79 | a tidied text is the words of the text with single blanks between them |
| `Transcript.LinesAlternate` | backend/src/voice/voice.rules.ts:72-76 | before blank lines are dropped, no two lines in a row have the same speaker |
| `Transcript.MergeTranscript` | backend/src/voice/voice.rules.ts:68-80 | the map, the sort and the loops compute that merge, line by line the plain concatenation of a speaker's run |
| `Billing.BothViewsAgree` | backend/src/billing/billing.rules.ts:26-33 | after any interleaving of requests, charges and commits under a clock that never goes back, the merchant application's plan is the back office's plan of this moment |
| `Billing.Catalogue` | backend/src/admin/plans.ts:15-27 | the four plans by code, with prices 0, 79, 199 and 449 and quotas 500, 1500, 5000 and 15000; an unknown code is the free one |
| `Billing.StepKeepsInv` | backend/src/billing/billing.service.ts:88-146 | no stamp lies in the future, and a plan, its start and its end are stored together |
| `Billing.StartsArePaid` | backend/src/billing/billing.service.ts:136-146 | a paid period starts only in a step that records a succeeded payment of exactly that plan's price; payments are never removed |
| `Billing.ChargesAreConserved` | backend/src/billing/billing.service.ts:110-146 | every accepted charge of a paid plan is one succeeded payment, or one purchase still to be committed |
| `Billing.RevenueIsPaidTime` | backend/src/admin/admin.sql.ts:30-46 | for every stored shop and every window, revenue is the price times the instants on which the back office's plan is the shop's plan, over 30 days |
| `Billing.AMonthEarnsThePrice` | backend/src/admin/admin.sql.ts:41-46 | thirty days from the purchase on bring in exactly the price of the plan, which the shop is on from that moment |
| `Billing.RevenueIsAdditive` | backend/src/admin/admin.sql.ts:41-46 | revenue of adjacent windows adds up |
| `Billing.CancelKeepsHistoryIff` | backend/src/billing/billing.service.ts:92-99 | a cancellation leaves every earlier moment's plan as it was if and only if the period was still running, or not begun, at its stamp |
| `Billing.SecondCancellationMovesThePast` | backend/src/billing/billing.service.ts:89-98 | a run of two overlapping cancellations, of any paid plan, after which a moment that had been free is paid for again |
| `Billing.PurchaseKeepsHistoryIff` | backend/src/billing/billing.service.ts:140-146 | a purchase leaves the plan of every moment before its stamp as it was if and only if none was paid for; otherwise those moments become free and earn nothing |
| `Billing.PurchaseSurvivesIff` | backend/src/billing/billing.service.ts:140-146 | a purchase being stored survives everything short of another request, if and only if no request for the free plan is on its way |
| `Billing.CancelErasesPurchaseIff` | backend/src/billing/billing.service.ts:94-98 | a cancellation leaves a purchase not one paid moment, and no revenue, if and only if it was stamped no later than the purchase |
| `Billing.PaidPurchaseIsLost` | backend/src/billing/billing.service.ts:88-146 | a run, of any two paid plans, that ends with both paid for, the free plan in force and no paid moment |
| `BillingService.BillingService.Subscribe` | backend/src/billing/billing.service.ts:88-161 | which of the four answers is given; a paid plan accepted is the shop's plan from this moment, with a payment of its price recorded, a refused charge records itself and leaves the shop alone, and the free plan only ends a running paid one; the tables change exactly by the request's steps |
| `PasswordReset.LinkWorksOnce` | backend/src/auth/auth.service.ts:304-335 | under any interleaving of requests and of the read and write halves of resets, no link changes a password twice |
| `PasswordReset.StoredLinkReplacesOther` | backend/src/auth/auth.service.ts:268-275 | once a link is stored for the account, exactly that link opens a reset, for an hour, and the one it replaced never works again, even if it was already opened |
| `PasswordReset.EarlierLinkCanWin` | backend/src/auth/auth.service.ts:261-297 | two overlapping requests after which the link of the earlier one is live and that of the later one dead |
| `PasswordReset.DeadLinksNeverWork` | backend/src/auth/auth.service.ts:319-333 | a token no row holds and no pending write will store is never accepted in any run |
| `PasswordReset.ResetHalves` | backend/src/auth/auth.service.ts:304-334 | opening a link remembers the password asked for; the write stores just that password, clears the link and verifies the address, in that account alone and only if it still holds the link |
| `PasswordReset.PasswordIsLastWritten` | backend/src/auth/auth.service.ts:319-355 | in every run the stored password is the one last written, by a recorded reset or by its signed-in owner, or else the first |
| `PasswordReset.ResetStoresWhatWasAsked` | backend/src/auth/auth.service.ts:304-330 | every password a reset stores was sent together with the link it used |
| `PasswordReset.StepKeepsInv` | backend/src/auth/auth.service.ts:261-335 | every half step keeps: links unshared, a pending stamp not before the user's last change while it can still win, the stored change the latest recorded reset, and whoever a reset is about to sign in verified |
| `PasswordReset.AcceptedIff` | backend/src/auth/auth.guard.ts:46-69 | in every reachable state a session is accepted if and only if it has not expired and no reset of its user is stamped with a later second |
| `PasswordReset.OldSessionsEnd` | backend/src/auth/auth.guard.ts:62-69 | a session from an earlier second than a reset is refused from that reset on, for ever |
| `PasswordReset.RefusedForEver` | backend/src/auth/auth.guard.ts:46-69 | a session refused once, for whatever reason, is refused in every later state |
| `PasswordReset.ResetSignsIn` | backend/src/auth/auth.service.ts:316-334 | the session a reset ends with passes the guard on every route, whether or not the account was verified before, if and only if sessions are signed for any time at all |
| `PasswordReset.AcceptedUntil` | backend/src/auth/auth.guard.ts:46-69 | an accepted session stays accepted exactly until it expires or a reset of its user is stamped with a later second |
| `PasswordReset.GrantedUntil` | backend/src/auth/auth.guard.ts:46-82 | a session let in on every route stays let in until it expires or a reset of its user is stamped with a later second, and is refused from then on |
| `AuthService.AuthService.RequestPasswordReset` | backend/src/auth/auth.service.ts:261-297 | a link is mailed exactly when the account exists and none was sent within the minute, and the row then holds it |
| `AuthService.AuthService.ResetPassword` | backend/src/auth/auth.service.ts:304-335 | an open link stores the password given, is used up, verifies the address and signs in, every other account staying as it was; anything else changes nothing |
| `AuthService.AuthService.ReplacePassword` | backend/src/auth/auth.service.ts:337-355 | a signed-in change needs the old password, stores the new one and changes nothing else |
| `AuthService.AuthService.CanActivate` | backend/src/auth/auth.guard.ts:46-82 | a session is refused exactly when it has expired, or its user is gone or has reset in a later second; of the others exactly those of unverified accounts are kept from routes that ask for verification |

## Left out

- CallServices.CallServices.StartPoll: a poll is `StartPoll`, `PollBatch` and `EndPoll`; the cursor that pages through the batches and the timer that polls are not part of it.
- CallServices.CallServices.PollBatch: one batch of orders, with nothing between read and dispatch; `ReadOffer`, `TakeOffer` and `BeginDispatch` are the same poll with other operations in between. An error thrown inside it, which the source logs, is not modelled.
- CallServices.CallServices.HandleEvent: provider call id and failure message are stored fields no rule reads, and are not modelled.
- CallServices.CallServices.HandleResult: duration, language and failure reason are not modelled, nor are notifications.
- CallServices.CallServices.Queue: scoping by shop is left out; every order belongs to one shop here.
- VoiceCallAgent.VoiceCallAgent.SendResult: uploading recordings and transcripts before the result is reported, its duration and its language are left out.
- AudioMediaBridge.AudioMediaBridge.EnqueueGeminiAudio: the copy written to the recorder, the milliseconds counters and input given as a typed array instead of a buffer are left out.
- AudioTheorems.FramesArePaced: assumes the timer never fires early, and says nothing about how late the runtime fires it.
- Pcm.ResamplePcm16: positions are exact rationals; floating-point rounding is not modelled.
- AudioArtifactStore.AudioArtifactStore.AppendPcm: appends of one recording happen one after another, as the bridge's write chains arrange; deleting a call's recordings is left out.
- CsvImport.CheckRow: parseInt and parseFloat are parameters; a total and the share of one piece are exact before they are rounded to their columns.
- CsvImport.ImportCsv: decoding the upload, the realtime notice and the poll the import asks for are left out, and a database that fails for other reasons than the rows.
- Csv.RowRoundTrip: the text of a number or a date is taken as given.
- Transcript.ResultIsTidy: strings are sequences of Unicode scalar values, where the source's are of UTF-16 units; a text with half a surrogate pair is not modelled. Lengths the source checks are counted in UTF-16 units.
- BillingService.BillingService.Subscribe: one request by itself; interleavings are covered by the steps of `Billing`, and card details and provider names are left out.
- PasswordReset.OldSessionsEnd: compares stamps, so a session issued in the same second as a reset, or signed after it by a login that had checked the old password before, is accepted, as the guard does.
- AuthService.AuthService.CanActivate: reading the token from the request and checking its signature are left out; the configured lifetime is a whole number of seconds.
- AuthService.AuthService.ResetPassword: one request by itself; interleavings are covered by the steps of `PasswordReset`. Verification links, mail delivery and hashing are left out; that an address gets verified is a step.
- AuthService.AuthService.ReplacePassword: one request by itself; passwords are stored and compared as they are, the hash function is left out.
- `CallsService.update`, deleting orders, and manual dispatch of a call already under way: they step outside the protocol on purpose.
- The unregistered `VoiceCallbacksService` and `VoiceDispatcherService`, which repeat the live protocol.
- The races of storing transcript entries; only the merging of entries is modelled.
- Health scores, funnels, plan recommendation, onboarding, request validation and the web pages: easy or user interface.
