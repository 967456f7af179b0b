# ShopSteward: verified models of the agent run, the simulator, relation queries and result shaping

This project models the parts of ShopSteward in which several steps have to fit together, and proves what
they promise for every input, every run and every reachable state.

- **Agent run.** `AgentGraph` is the bounded loop of the agent runtime: five nodes over one persisted state.
  `AgentNodes` runs its loops as written, `AgentGraphProofs` proves what every uninterrupted execution keeps,
  `AgentIntent` that exactly the calls the user's intent allows are accepted and executed, `AgentOutcomes` what
  completed tools, flags and ends rest on, `AgentTranscript` what stands on the tape and when a step succeeds.
  `RunDatabase` holds the rows behind one durable run and the transactions on them, `RunStore` the same
  transactions changing the rows in place, `DurableRun` any number of workers that crash, lose their lease,
  are cancelled and repeat their HTTP calls. `DurableProofs` finds the invariant, `DurableTheorems` the
  guarantees; the central one is that whatever the workers do, the committed checkpoints are one execution
  of the plain loop, so everything proved about the loop carries over; `DurableCompleteness` is the converse, that
  every execution of the loop can be committed so. `DurableProgress` is what tool admission
  makes of the requests such workers send.
- **Conversations.** `Conversations` and `ConversationRows` are the queue of runs behind a single active slot,
  `History` is what a run is given to read, `RunProgress` and `ProgressLog` the progress events beside the tool
  activity rows, `EventPages` the paged reading of an append-only log.
  `ConversationOutcomes` and `ProgressOutcomes` say what each transaction does.
- **Simulator.** `SimulatorModel` is the simulated shop and what each command does, `Simulator` the handlers as
  the service runs them, `SimulatorProofs` and `SimulatorReachable` the invariants, `SimulatorTheorems` the
  guarantees, `SimulatorOutcomes` what each command decides and does.
- **Relation path queries.** `RelationPaths` is the query generator, the generated query and the recursive query
  with their meaning; `RelationEquivalence` and `RelationConstraints` prove that the two always agree,
  `RelationAnswers` what a plan is answered with.
- **Evidence and amounts.** `DocumentEvidence` checks what the document service sends and finalizes it under the
  current authority, at the call that fetched it and at every replay; `EvidenceTheorems` is what every answer keeps,
  `EvidenceDelivery` what every answer holds;
  `Presentation` shapes tool results, `Grounding` reads amounts back from text; `PresentationOutcomes` and
  `GroundingPattern` say what they write and read.

Code that works step by step is modelled by methods and classes with loops and fields; each is proved against
a specification function, and the theorems are about those functions. `Prelude` holds a few sequence facts.

Two assumptions about the environment are built into the steps of `DurableRun`: a superstep is persisted before
the next one starts, and a job can only be completed or failed with its current, unexpired lease. Clocks, fresh
names, the model, the tools and the remote document service are inputs of the steps. A digest is the value it is
taken of.

Where the code does less than its description:

- "While a required tool is outstanding only that tool runs" does not hold as it stands: a batch may repeat a
  tool that has already succeeded (`RepeatRunsWhileOutstanding`). `RequiredToolsFirst` says exactly when the
  outstanding tool is what runs. Listed order is stated for every list; only the clarifying question, which is
  offered at every turn, may be asked ahead of its own place in it.
- That a run never reads a message of another run still waiting in the queue rests on the database clock: promotion
  goes by creation time, the history by message numbers. `QueuedMessageExactly` says exactly when it fails, whatever
  the clock: when a run inserted before the active one is still queued. A clock set back between two insertions leads
  there (`OvertakenMessageIsRead`); with rising creation times it cannot happen (`NeverAQueuedMessage`).
- One execution of the graph takes at most 2 * (max_models + max_tools) successful node steps, and a failing one
  can only come last: 41 with the defaults, so the recursion limit of 100 is never reached.

## Model

| member | source | states |
|---|---|---|
| `AgentNodes.JudgeReply` | agent/src/shopsteward_agent/runtime.py:311-366 | a reply is accepted, repairable or refused as the first failing check says, unauthorized names before any other defect; it is accepted exactly when AgentIntent.AcceptedExactly says |
| `AgentNodes.CheckCalls` | agent/src/shopsteward_agent/runtime.py:323-360 | the loop over the calls passes exactly the batches in which every call may be made under the frame and no id occurs twice |
| `AgentNodes.CheckLimits` | agent/src/shopsteward_agent/runtime.py:344-356 | the loop over the limits passes exactly when every one-run limit is an upper bound, none a budget, and every quantity limit is the quantity asked for |
| `AgentNodes.MissingTool` | agent/src/shopsteward_agent/runtime.py:199-206 | the first listed required tool that has not succeeded |
| `AgentNodes.MergeReferences` | agent/src/shopsteward_agent/runtime.py:466-473 | the merge loop computes the merge that MergedMeaning describes |
| `AgentNodes.MergedMeaning` | agent/src/shopsteward_agent/runtime.py:466-473 | known references stay in place, exactly the new ones are added, none twice |
| `AgentNodes.RunGraph` | agent/src/shopsteward_agent/runtime.py:101-137 | running node after node along the edges from a stored point yields an execution of the graph and stops at its end, at a failure or where an input is missing |
| `AgentGraphProofs.TapeDiscipline` | agent/src/shopsteward_agent/runtime.py:159-198 | whenever the model is about to be called, every assistant tool call since the initial messages has exactly one reply, in call order, through repair, clarification and context restart |
| `AgentGraphProofs.ScanMeansDisciplined` | agent/src/shopsteward_agent/runtime.py:366-400 | reading a tape front to back without a protocol error and with nothing open means that calls and replies match one to one, in order |
| `AgentOutcomes.CompletedExactly` | agent/src/shopsteward_agent/runtime.py:457-486 | at every point of every run a tool counts as completed if and only if it has succeeded: answered by the user, or returned with success; a required read only since the context last changed |
| `AgentOutcomes.FlagsExactly` | agent/src/shopsteward_agent/runtime.py:513-538 | evidence is unavailable exactly when the last step was a required read that did not succeed and had not succeeded before; the run is stopped exactly when the last step was a stop word; either ends it |
| `AgentOutcomes.StopsExactly` | agent/src/shopsteward_agent/runtime.py:529-538 | an answer stops the run if and only if it is a stop word in any case, with punctuation around it and blanks around that |
| `AgentOutcomes.RequiredToolsCompleted` | agent/src/shopsteward_agent/runtime.py:199-217 | a run ends because its last step lost a required read or was a stop word, or with every required tool having succeeded, a required read since the context last changed |
| `AgentOutcomes.RequiredToolsFirst` | agent/src/shopsteward_agent/runtime.py:311-365 | while a required tool is outstanding, that tool is what runs exactly when the tool that runs has not succeeded before |
| `AgentOutcomes.RequiredInOrder` | agent/src/shopsteward_agent/runtime.py:199-217 | until the context changes, before a required tool succeeds each listed before it has; the clarifying question alone may be answered ahead of its place |
| `AgentGraphProofs.RepeatRunsWhileOutstanding` | agent/src/shopsteward_agent/runtime.py:199-217 | a concrete run in which the first required tool runs again while the second is outstanding |
| `AgentGraphProofs.Bounded` | agent/src/shopsteward_agent/runtime.py:145-153 | an execution has at most 2 * (max_models + max_tools) successful node steps |
| `AgentGraphProofs.InvocationsDistinct` | agent/src/shopsteward_agent/runtime.py:488-497 | two tool executions of one run never carry the same invocation id |
| `AgentGraphProofs.UsageIsTotal` | agent/src/shopsteward_agent/runtime.py:434-445 | reported usage is the sum over all model replies, or unknown forever once any reply is |
| `AgentGraphProofs.ReferencesGrounded` | agent/src/shopsteward_agent/runtime.py:457-486 | only successful tool results establish references |
| `AgentTranscript.RestartsExactly` | agent/src/shopsteward_agent/runtime.py:156-198 | the tape starts anew exactly when the context the model is about to see is not compatible with the one it saw last, and at most once in a run |
| `AgentTranscript.MessagesFromSteps` | agent/src/shopsteward_agent/runtime.py:366-400 | the initial messages stay in front for good; each later message is what the model replied or what a call came to, at a step since the context last changed |
| `AgentTranscript.EachStepWrites` | agent/src/shopsteward_agent/runtime.py:156-486 | nothing said is left out: a step writes the reply, the notice of a repair or what a call came to, and that alone, behind the tape it found, or where the context has changed behind the initial messages and a note of what was completed |
| `AgentTranscript.FinalAnswer` | agent/src/shopsteward_agent/runtime.py:361-380 | a run ends with what the model last said, when that is not blank and asks for nothing more, or with a fixed text when a required read was lost or the user stopped |
| `AgentTranscript.ReserveSucceedsExactly` | agent/src/shopsteward_agent/runtime.py:139-153 | reserving a model or tool call fails exactly when the deadline has passed or as many have been reserved as the budget allows |
| `AgentTranscript.CallSucceedsExactly` | agent/src/shopsteward_agent/runtime.py:488-511 | a tool step fails exactly when the endpoint refuses the call; answering never fails |
| `AgentTranscript.ModelSucceedsExactly` | agent/src/shopsteward_agent/runtime.py:154-400 | a model step succeeds exactly when the context fits and has not changed a second time, the model replied completely and in time, and the reply is acceptable, or can be repaired and none has been before |
| `AgentTranscript.OneRepair` | agent/src/shopsteward_agent/runtime.py:363-366 | a run repairs at most one reply |
| `AgentIntent.CallsCheckMeans` | agent/src/shopsteward_agent/runtime.py:323-360 | a batch passes if and only if each call is well formed, names a known tool, is not denied, revises only within resolved and honoured limits and asks no blank question, and all ids are new and distinct |
| `AgentIntent.AcceptedExactly` | agent/src/shopsteward_agent/runtime.py:311-366 | a reply is accepted if and only if its calls are such a batch, within the number allowed, all offered, and there is something to do or to say; an outstanding tool must be called |
| `AgentIntent.NotAccepted` | agent/src/shopsteward_agent/runtime.py:311-366 | why a reply is refused or has to be repaired: unauthorized tools come before everything else, a refusal names a call that goes against the frame in just this way, a repair has something unreadable, repeated or blank |
| `AgentIntent.ExecutedWithinFrame` | agent/src/shopsteward_agent/runtime.py:335-356 | at every tool or clarify node of every run, through repairs and context restarts, the call about to run is allowed by the frame the run then works under |
| `RunStore.Store.ClaimJob` | backend/app/scheduling/repository.py:63-86 | a claim hands a ready or retrying job to a new lease, the only one that then passes the fence, and counts the attempt |
| `RunStore.Store.RecoverExpired` | backend/app/scheduling/repository.py:156-181 | an expired job goes back to retry after the first two attempts, else it fails; no lease that passes the fence is ever taken away |
| `RunStore.Store.Begin` | backend/app/agent_bridge/jobs.py:71-128 | a worker starts only an active queued or running run whose job it holds, and exactly its token then lets tool calls in |
| `RunStore.Store.Apply` | backend/app/agent_bridge/jobs.py:135-188 | waiting or final outcome and job completion are one transaction, made only by the holder for the active running run; afterwards nobody passes the fence or may call a tool |
| `RunStore.Store.Fail` | backend/app/agent_bridge/jobs.py:190-203 | a retryable error of the first two attempts keeps the run and puts the job up for a retry; otherwise the job fails and so does the run, unless it was cancelled; the lease is given up; without the lease nothing happens |
| `RunStore.Store.ReconcileRun` | backend/app/agent_bridge/jobs.py:205-222 | an open run whose job failed, was cancelled or is missing is closed as failed, and nobody was still working on it |
| `RunStore.Store.ResumeRun` | backend/app/agent_bridge/router.py:241-253 | an answer is accepted exactly for the interrupt the run waits with and stored once; a stop word closes the run, else a new claimable job is behind it; a refused answer changes nothing |
| `RunStore.Store.CancelRun` | backend/app/agent_bridge/router.py:262-272 | after cancelling an open run nobody passes the fence of its job and no tool call is let in; a closed run is left alone |
| `RunStore.Store.SaveCheckpoint` | agent/src/shopsteward_agent/checkpoint.py:46-54 | a checkpoint is stored exactly when the lease holds before and after the write |
| `RunStore.Store.SaveWrites` | agent/src/shopsteward_agent/checkpoint.py:56-63 | writes of a finished node are stored exactly when the lease holds before and after, once per checkpoint |
| `RunStore.Store.SaveInterrupt` | agent/src/shopsteward_agent/checkpoint.py:56-63 | so is an interrupt |
| `RunStore.Store.Call` | backend/app/agent_bridge/tools.py:679-759 | without the current token and lease nothing changes; a known invocation answers from its receipt or conflicts; otherwise a call that ran commits exactly its effect and its receipt, a business error a failed receipt and no effect, a crash nothing; no receipt is ever overwritten |
| `DurableProofs.Reachable` | backend/app/agent_bridge/checkpoint_fence.py:4-16 | the invariant of rows, history, workers and tool tables holds after every interleaving of actions |
| `DurableTheorems.LinearHistory` | agent/src/shopsteward_agent/checkpoint.py:46-63 | each committed checkpoint was made from the one just before it |
| `DurableTheorems.DurableRefinesGraph` | agent/src/shopsteward_agent/runtime.py:540-568 | under any crashes, takeovers and retries the committed checkpoints are one uninterrupted execution of the graph |
| `DurableCompleteness.DurableRealizesGraph` | agent/src/shopsteward_agent/runtime.py:540-568 | conversely every execution of the graph is what some schedule of workers commits, through all questions and answers, and once it has ended the run can succeed with its answer |
| `DurableCompleteness.TakeoverResumes` | backend/app/agent_bridge/jobs.py:71-128 | whatever happened before, where a run is open and its job may be claimed a new worker gets the lease and stands behind the last checkpoint, or with the step saved behind it |
| `DurableTheorems.DurableTapeDiscipline` | agent/src/shopsteward_agent/runtime.py:366-400 | tape discipline at every committed model step of a durable run |
| `DurableTheorems.DurableBounded` | agent/src/shopsteward_agent/runtime.py:145-153 | crashes cannot stretch a run beyond its budgets |
| `DurableTheorems.DurableRequiredTools` | agent/src/shopsteward_agent/runtime.py:199-217 | a committed end: its last step lost a required read or was a stop word, or every required tool has succeeded at a committed checkpoint |
| `DurableTheorems.InvocationFixesCall` | agent/src/shopsteward_agent/runtime.py:488-497 | one invocation id always carries the same tool and arguments, whichever worker sends it |
| `DurableTheorems.NoConflict` | backend/app/agent_bridge/tools.py:712-717 | no request any worker ever sent can meet the changed-arguments conflict |
| `DurableProgress.WireIdsDiffer` | agent/src/shopsteward_agent/runtime.py:488-497 | the invocation id as it is sent determines model call and index |
| `DurableProgress.AdmissionNeverRefuses` | backend/app/agent_bridge/progress.py:111-124 | nor does tool admission refuse such a request as an id reused with other arguments, whatever happens to the progress of the run |
| `DurableTheorems.EffectsOnce` | backend/app/agent_bridge/tools.py:703-759 | an invocation's effect commits at most once, with a successful receipt, for a call a committed checkpoint was about to execute |
| `DurableTheorems.EffectBehindReceipt` | backend/app/agent_bridge/tools.py:724-755 | a receipt says ok if and only if the effect of its call has been committed: no answered success is without its effect |
| `DurableTheorems.EffectsWithinFrame` | agent/src/shopsteward_agent/runtime.py:335-356 | every effect any worker ever caused is of a call the frame of its committed checkpoint allows |
| `DurableTheorems.ReceiptsFinal` | backend/app/agent_bridge/tools.py:712-717 | no later action changes a receipt |
| `DurableTheorems.AttemptsBounded` | backend/app/scheduling/repository.py:114-181 | through crashes, expiries and retries no job is attempted more than three times, and one that waits for a retry has an attempt left |
| `DurableTheorems.SupersededWritesNothing` | backend/app/agent_bridge/checkpoint_fence.py:5-14 | no action of a worker that cannot pass the fence, its lease taken away or only expired, changes any row |
| `DurableTheorems.InertForever` | backend/app/agent_bridge/checkpoint_fence.py:5-14 | a worker that once cannot pass the fence, from the moment its lease expires, never does again and never writes again: no checkpoint, pending write, effect, receipt or message |
| `DurableTheorems.ClaimSupersedes` | backend/app/scheduling/repository.py:63-86 | a new claim leaves every earlier worker without the lease, and so inert forever |
| `DurableTheorems.CancelSupersedes` | backend/app/agent_bridge/router.py:262-272 | so does a cancellation, which also closes the run |
| `DurableTheorems.ClosedStays` | backend/app/agent_bridge/jobs.py:135-203 | status, messages, effects, receipts, checkpoints and answers of a closed run are final |
| `DurableTheorems.AnswersMatchQuestions` | agent/src/shopsteward_agent/runtime.py:540-568 | the clarify step of a checkpoint consumed the one answer given to the interrupt of that checkpoint |
| `DurableTheorems.AnswerHandedOver` | agent/src/shopsteward_agent/runtime.py:540-568 | a worker resuming with an answer never finds that the run does not wait; it hands the answer to the paused node exactly when the step it belongs to is neither committed nor saved, and otherwise that step has used this very answer |
| `DurableTheorems.OneFinalMessage` | backend/app/agent_bridge/jobs.py:166-180 | exactly the succeeded runs have a final message, and they have one |
| `ConversationRows.Rows.SendUserMessage` | backend/app/agent_bridge/repository.py:103-124 | a new key stores the message and a queued run and fills an empty slot; a used key answers from its receipt or is refused; the invariant of the conversation is kept |
| `ConversationRows.Rows.PromoteNext` | backend/app/agent_bridge/repository.py:90-100 | an empty slot goes to the first queued run by creation time and id; it stays empty only when nobody queues |
| `ConversationRows.Rows.Close` | backend/app/agent_bridge/repository.py:127-150 | closing frees the slot for the next run; it stays empty only when nobody queues |
| `ConversationRows.Rows.ResumeWith` | backend/app/agent_bridge/router.py:234-253 | an answer is stored and its run queued again under a new job, or closed on a stop word; a refusal changes nothing, and the invariant is kept |
| `ConversationRows.Rows.CancelRun` | backend/app/agent_bridge/router.py:262-272 | an open run is closed, a closed one left alone; the invariant is kept |
| `ConversationRows.Rows.FinishRun` | backend/app/agent_bridge/jobs.py:166-180 | answer, closing and promotion are one transaction that keeps the invariant, or nothing changes |
| `ConversationRows.Rows.PauseRun` | backend/app/agent_bridge/jobs.py:149-155 | the run waits with its interrupt and its old answer is used up; the invariant is kept |
| `ConversationOutcomes.SendDecides` | backend/app/agent_bridge/repository.py:103-124 | a used key answers as before or is refused; a new one stores the message with a new queued run and fills an empty slot, and nothing else |
| `ConversationOutcomes.ResumeDecides` | backend/app/agent_bridge/router.py:234-253 | unknown runs, used keys and other interrupts are refused or answered as before; otherwise the answer is stored, and a stop word closes the run, anything else is kept for it and schedules it again |
| `ConversationOutcomes.CancelDecides` | backend/app/agent_bridge/router.py:262-272 | an open run is closed and its slot filled again, a closed one left alone |
| `ConversationOutcomes.FinishDecides` | backend/app/agent_bridge/jobs.py:166-180 | only the active running run is finished: its answer stored, the run closed as succeeded, the slot filled again |
| `ConversationOutcomes.HandlersDecide` | backend/app/agent_bridge/jobs.py:71-203 | starting, waiting and failing need the active run in the right state, change its row alone, and failing fills the slot again |
| `ConversationTheorems.SlotIsUsed` | backend/app/agent_bridge/repository.py:90-150 | a running or waiting run is the active one; nobody queues while the slot is empty |
| `ConversationTheorems.ActivationInOrder` | backend/app/agent_bridge/repository.py:90-100 | a transaction that makes another run active, whatever the clocks, has activated the first of the queued by creation time and id; with a rising clock every earlier run is closed |
| `ConversationTheorems.OneAnswerIffSucceeded` | backend/app/agent_bridge/jobs.py:166-180 | a run has one assistant message if it succeeded and none otherwise |
| `ConversationTheorems.KeysAreFresh` | backend/app/agent_bridge/repository.py:77-87 | every scheduling uses a dedup key that was never used before |
| `ConversationTheorems.MarkIsFirstMessage` | backend/app/agent_bridge/repository.py:109-117 | a run's mark is the number of its own first message and marks rise with the runs |
| `ConversationTheorems.RetryIsHarmless` | backend/app/agent_bridge/repository.py:48-58 | repeating an accepted message or answer under its key, at any later time, answers as before and changes nothing |
| `History.AdmittedHistory` | backend/app/agent_bridge/context_sources.py:26-68 | filter, anchor loop, sort and cut compute the history the lemmas below describe |
| `History.FillAnchors` | backend/app/agent_bridge/context_sources.py:36-39 | the dictionary holds the smallest number of each group |
| `History.UserMessagesExactly` | backend/app/agent_bridge/context_sources.py:29-46 | a mission run reads every user message up to its mark and all its own later ones, and no other |
| `History.ReadingOrder` | backend/app/agent_bridge/context_sources.py:26-46 | the reading order holds exactly the readable rows, none twice, groups in the order in which they open, each in the order it was written |
| `History.FollowupReadsSix` | backend/app/agent_bridge/context_sources.py:41-42 | a follow-up reads the last six of them |
| `History.LatestTwelve` | backend/app/agent_bridge/context_sources.py:43-46 | of the earlier answers exactly the 12 latest in reading order are kept |
| `History.GroupedByRun` | backend/app/agent_bridge/context_sources.py:36-40 | what one run said and was answered stands together, in the order it was written |
| `ConversationHistory.QueuedMessageExactly` | backend/app/agent_bridge/context_sources.py:71-102 | whatever the clocks: the active run reads a message of another run that is still queued exactly when a run inserted before it is still queued |
| `ConversationHistory.OvertakenMessageIsRead` | backend/app/agent_bridge/repository.py:90-100 | with creation times that fall it happens: the last of three runs overtakes the second and reads its message |
| `ConversationHistory.NeverAQueuedMessage` | backend/app/agent_bridge/context_sources.py:71-102 | provided creation times rise with the rows, what the active run reads is its own or of a closed run |
| `ConversationHistory.ReadInGroups` | backend/app/agent_bridge/context_sources.py:36-40 | in every reachable conversation what a run reads is grouped by run and in order inside |
| `ProgressLog.Log.Add` | backend/app/agent_bridge/progress.py:21-33 | an event gets the next number |
| `ProgressLog.Log.End` | backend/app/agent_bridge/progress.py:36-53 | only an open activity ends, with one event that shows it |
| `ProgressLog.Log.InterruptAll` | backend/app/agent_bridge/progress.py:56-65 | the loop interrupts every open activity, and none is open afterwards |
| `ProgressLog.Log.StartToolCall` | backend/app/agent_bridge/progress.py:110-143 | refused exactly when a known invocation comes with other arguments; a recorded result or the same worker's open start answers without a new start; log, rows and results stay in agreement |
| `ProgressLog.Log.CompleteToolCall` | backend/app/agent_bridge/progress.py:146-161 | result and end of the activity are one transaction, and log, rows and results stay in agreement |
| `ProgressLog.Log.InterruptToolCall` | backend/app/agent_bridge/progress.py:164-177 | an abandoned call ends as interrupted while the run is running, and log, rows and results stay in agreement |
| `ProgressOutcomes.StartDecides` | backend/app/agent_bridge/progress.py:110-143 | a first start adds a row with attempt one; a later one takes the row up with the next attempt under the current lease, ending first what another worker left open; everything else changes nothing |
| `ProgressOutcomes.CompleteDecides` | backend/app/agent_bridge/progress.py:146-161 | a result is recorded once, and an open row ends with its outcome, its references and its error, in one event |
| `ProgressOutcomes.InterruptDecides` | backend/app/agent_bridge/progress.py:164-177 | an abandoned call ends as interrupted if it was open and the run is running |
| `ProgressOutcomes.BeginDecides` | backend/app/agent_bridge/progress.py:56-65 | taking a run over interrupts everything open, one event each in table order, and then says that it runs |
| `ProgressOutcomes.PauseDecides` | backend/app/agent_bridge/jobs.py:149-155 | so does waiting for an answer |
| `ProgressOutcomes.CloseDecides` | backend/app/agent_bridge/repository.py:127-150 | and closing, once |
| `ProgressOutcomes.RetryDecides` | backend/app/agent_bridge/jobs.py:190-203 | a failed attempt stops what is open and leaves the run running; an answer queues it again |
| `ProgressTheorems.LogShowsRows` | backend/app/agent_bridge/progress.py:21-177 | the last event of each invocation shows its row; nothing is open unless the run is running; completed and failed activities have a result with that outcome |
| `ProgressTheorems.StartsAndEndsAlternate` | backend/app/agent_bridge/progress.py:110-161 | starts and ends of an invocation strictly alternate at every point of the log |
| `ProgressTheorems.AttemptsAreStarts` | backend/app/agent_bridge/progress.py:126-141 | after any transactions and at every point of the log the attempt shown is the number of starts so far, and a row's attempt is the number of starts in all |
| `ProgressTheorems.NeverRefused` | backend/app/agent_bridge/progress.py:111-124 | where every invocation comes with one call only, admission refuses none |
| `EventPages.ReadPage` | simulation/simulator/repository.py:184-209 | a page is the slice of the log behind the cursor, at most limit rows; a cursor ahead of the log is refused |
| `EventPages.PagesAreSuffix` | backend/app/agent_bridge/progress.py:180-224 | pages read from any cursor while events are appended are the log from there on, without gap or duplicate |
| `EventPages.DrainedReadsAll` | backend/app/agent_bridge/progress.py:187-223 | when the last page has no more behind it, everything the log then held has been read |
| `EventPages.Stream` | backend/app/agent_bridge/router.py:362-408 | over a log that others append to between readings the stream sends the log from the cursor on, as the last reading had it; it stops at the first reading that finds the run closed and nothing left, with everything sent, or when its time is up; a cursor ahead of the log is refused |
| `Simulator.Service.CreateRun` | simulation/simulator/repository.py:155-181 | a new key stores a run with its seed; a used key answers with the original seed or is refused |
| `Simulator.Service.SubmitPurchase` | simulation/simulator/repository.py:276-344 | checks, replay, decided action, terms, and for an acceptance cash, in-transit goods, order and event in one transaction |
| `Simulator.Service.AdvanceRun` | simulation/simulator/repository.py:354-472 | all steps or none |
| `Simulator.Service.ScriptOnce` | simulation/simulator/repository.py:368-465 | one turn of the script loop: delivery, skipped delivery with the sale behind it, sale or revision |
| `Simulator.Deliver` | simulation/simulator/repository.py:393-422 | the delivery branch: latest ETA, horizon, then every pending order |
| `Simulator.Service.TriggerRun` | simulation/simulator/controls.py:90-177 | sale, revision or arrival with its checks, refused as a whole when the world leaves its limits |
| `Simulator.Service.AddOrder` | simulation/simulator/repository.py:310-321 | the purchase table stays in the order of its action ids |
| `SimulatorProofs.DeliveriesRows` | simulation/simulator/repository.py:402-411 | after the delivery loop what was pending is fully received and nothing else has moved |
| `SimulatorProofs.DeliveriesEvents` | simulation/simulator/repository.py:402-422 | one event per pending order, in the order of action ids, with what was outstanding |
| `SimulatorReachable.Reachable` | simulation/simulator/repository.py:155-472 | the invariants hold after every sequence of commands |
| `SimulatorOutcomes.ValidatedExactly` | simulation/simulator/schemas.py:108-288 | a request is refused as invalid exactly when a title, amount, time or count is out of range |
| `SimulatorOutcomes.CreateDecides` | simulation/simulator/repository.py:155-181 | a new key creates one run, set up with the scenario's or the requested parameters, whose world is its seed; a used key answers as before or is refused |
| `SimulatorOutcomes.SeedsAreSetUp` | simulation/simulator/repository.py:69-152 | in every reachable state each run has the seed it was set up with |
| `SimulatorOutcomes.PurchaseDecides` | simulation/simulator/repository.py:240-344 | a new purchase is accepted if and only if it is the offered article and supplier while the offer stands, at least the minimum and in whole packs, at the offered price and expected total, with the cash there and an ETA inside the scenario; else its reason is the first of these that is wrong; what either does to rows, world and log |
| `SimulatorOutcomes.PurchaseAnswers` | simulation/simulator/repository.py:276-297 | before that: unknown runs, other stores, used keys and decided actions |
| `SimulatorOutcomes.OrdersMeetOffers` | simulation/simulator/repository.py:240-344 | in every reachable state every accepted order meets the offer of its run at the event that placed it, and is due its lead time after; every refused one has cost nothing and says why |
| `SimulatorOutcomes.StepDoesExactly` | simulation/simulator/repository.py:368-465 | in every reachable state a script step that succeeds delivers all that is pending at its latest ETA, or sells 10 pieces at 2000, or revises the demand to 70, an hour on, by its position alone; a skipped delivery skips its day |
| `SimulatorOutcomes.AdvanceDecides` | simulation/simulator/repository.py:354-472 | an advance is refused for what stands in front of it, or takes its steps one after the other and answers with the last, or fails with the first that fails and changes nothing |
| `SimulatorOutcomes.TriggerDecides` | simulation/simulator/controls.py:90-177 | in every reachable state a sale, revision or arrival is refused for the first thing that is wrong, or done in full: an arrival receives the named amount, or all that is outstanding, at its ETA at the earliest |
| `SimulatorTheorems.WorldIsFoldOfLog` | simulation/simulator/repository.py:212-237 | folding the log over the initial snapshot gives the current balances, and the log is numbered 1 to last_sequence |
| `SimulatorTheorems.GoodsAndMoneyConserved` | simulation/simulator/repository.py:322-342 | in transit is the sum of accepted minus received; initial plus accepted is on hand plus in transit plus sold; cash is initial minus accepted totals and never negative |
| `SimulatorTheorems.EventsInTime` | simulation/simulator/repository.py:373-429 | event times are sorted and inside the scenario, and no goods arrive before the order's ETA |
| `SimulatorTheorems.DocumentsValid` | simulation/simulator/schemas.py:177-280 | every event payload, every receipt and the world satisfy their schemas, and no balance leaves its range |
| `SimulatorTheorems.CreateNeverConflicts` | simulation/simulator/repository.py:161-177 | a new key never meets a run already created under it |
| `SimulatorTheorems.StepSucceedsExactly` | simulation/simulator/repository.py:369-435 | a script step is refused only for its position or for want of a pending order; ETA, horizon, stock and in-transit guards never fire |
| `SimulatorTheorems.ArrivalSucceedsExactly` | simulation/simulator/controls.py:109-122 | an arrival on an order of the run succeeds exactly for a quantity between 1 and what is outstanding |
| `SimulatorTheorems.WorldLimitIsReceivables` | simulation/simulator/controls.py:158-162 | the world-limit error comes exactly from a sale that overflows receivables |
| `SimulatorTheorems.FailureChangesNothing` | simulation/simulator/main.py:125-223 | a refused command changes nothing |
| `SimulatorTheorems.HandleExtends` | simulation/simulator/repository.py:212-237 | events are only appended, seeds and recorded answers kept, simulated time never runs backwards |
| `SimulatorTheorems.RetryReturnsOriginal` | simulation/simulator/repository.py:39-59 | retrying a successful command under its key, at any later time, returns the original answer and changes nothing |
| `SimulatorTheorems.DuplicatesAddNothing` | simulation/simulator/repository.py:276-344 | deleting every retry, every reuse of a taken key and every resubmission of a decided action leaves the same runs, orders and logs |
| `SimulatorTheorems.VerdictIsFinal` | simulation/simulator/repository.py:292-321 | an action's receipt never changes |
| `SimulatorTheorems.AdvanceIsSingles` | simulation/simulator/repository.py:354-472 | advancing by n succeeds exactly when n single advances do, with the same runs, orders and logs for the same clock readings; otherwise nothing changes |
| `RelationPaths.FixedJoinSql` | backend/tools/verify_knowledge_relations.py:112-140 | the generator loops build one SELECT per size with its joins and avoidance clauses |
| `RelationPaths.EvalRecursive` | backend/tools/verify_knowledge_relations.py:143-155 | evaluating the recursive query by its working table ends and yields its rows |
| `RelationEquivalence.SelectMeansSimplePath` | backend/tools/verify_knowledge_relations.py:112-140 | a tuple satisfies the generated SELECT of its size exactly when it is a simple contiguous path from a seed |
| `RelationEquivalence.FixedJoinsEqualRecursion` | backend/tools/verify_knowledge_relations.py:112-155 | for every table, seed set and depth from 1 both queries return the same multiset of rows |
| `RelationEquivalence.RowsAreSimplePaths` | backend/tools/verify_knowledge_relations.py:112-155 | a row is returned exactly when it shows a simple contiguous path of length 1 to depth from a seed |
| `RelationEquivalence.EachPathOnce` | backend/tools/verify_knowledge_relations.py:112-155 | each such path is listed once |
| `RelationConstraints.EligibleEdges` | backend/tools/verify_knowledge_relations.py:34-109 | the loop over facts builds the table that EligibleMeaning describes, or fails where EligibleFails says |
| `RelationConstraints.EligibleMeaning` | backend/tools/verify_knowledge_relations.py:34-109 | a row is in the edge table if and only if a verified, current fact of the principal's store grants it: allowed predicate, readable source and document versions, met qualifiers, backwards only where the plan allows and never for a substitution |
| `RelationConstraints.EligibleFails` | backend/tools/verify_knowledge_relations.py:48-65 | building it fails if and only if a fact in scope names a missing document that is looked up |
| `RelationConstraints.EligibleHopsUnique` | backend/tools/verify_knowledge_relations.py:34-109 | edge id and direction identify a row of the edge table |
| `RelationConstraints.ConstrainPaths` | backend/tools/verify_knowledge_relations.py:158-200 | the loop keeps the rows the plan admits and sorts them by path |
| `RelationConstraints.SortedUnique` | backend/tools/verify_knowledge_relations.py:200-200 | sorting by path gives equal lists for equal bags when the path determines the row |
| `RelationConstraints.ConstrainedPermutes` | backend/tools/verify_knowledge_relations.py:158-200 | constraining does not depend on the order of rows |
| `RelationConstraints.ComparisonAlwaysEqual` | backend/tools/verify_knowledge_relations.py:247-277 | the comparison the script asserts on its fixtures holds for all facts, plans, seeds and depths, and no lookup fails |
| `RelationConstraints.AnswersAreGranted` | backend/tools/verify_knowledge_relations.py:34-200 | every hop of every returned path, with the qualifiers shown, comes from a fact that grants it, and every document cited as evidence may be read by the principal |
| `RelationAnswers.ReturnedExactly` | backend/tools/verify_knowledge_relations.py:34-200 | end to end and for either query: an output is returned if and only if it shows a simple path of at most the depth from a seed, along facts that grant its hops, with a targeted end, no SKU but the plan's, every notice's lists respected and no chain over an intransitive substitution; with the nodes, qualifiers and sources of those facts |
| `DocumentEvidence.FinalizeLoop` | backend/app/agent_bridge/document_evidence.py:181-222 | the loop with its shrinking budget and seen set computes the finalized answer |
| `DocumentEvidence.FilterCurrent` | backend/app/agent_bridge/document_evidence.py:61-76 | exactly the candidates the authority currently publishes, in order |
| `DocumentEvidence.KeepPaths` | backend/app/agent_bridge/document_evidence.py:156-173 | exactly the current ones among the first 20 relation paths |
| `DocumentEvidence.CollectVersions` | backend/app/agent_bridge/document_evidence.py:142-153 | the nested loops collect the versions of the first 20 candidates and of the edges of their first 20 paths |
| `EvidenceTheorems.OnlyIssuedAndCurrent` | backend/app/agent_bridge/document_evidence.py:301-323 | nothing is fetched outside the issued scope or the current authority, edges of paths included; texts are originals or marked, re-digested prefixes |
| `EvidenceTheorems.WithinBudget` | backend/app/agent_bridge/document_evidence.py:188-219 | at most 24000 characters, at most limit pieces, none twice |
| `DocumentEvidence.SearchResponse` | backend/app/knowledge/service_client.py:12-34 | the client refuses an answer that breaks the schema and otherwise drops the malformed relation paths, with a warning |
| `EvidenceTheorems.ReceivedMeaning` | knowledge/src/shopsteward_knowledge/contracts.py:111-159 | what passes has at most 20 candidates of 1 to 24000 characters, each with the digest of its text and only well-formed paths, and is otherwise as sent |
| `EvidenceTheorems.AnsweredIsFull` | backend/app/agent_bridge/document_evidence.py:424-436 | the batch lookup at the end of the first call, and at the end of every replay, gives what the whole authority of that moment would give |
| `EvidenceTheorems.AnsweredTrusted` | backend/app/agent_bridge/document_evidence.py:424-452 | every call under one invocation id, the first or a replay, answers within the budget, none twice, with evidence published at that call and cut from what the first call fetched |
| `EvidenceTheorems.EveryAnswerInScope` | backend/app/agent_bridge/document_evidence.py:301-452 | from the remote answer to any replay: what is answered is published now, was published and in the issued scope when fetched, edges of paths included, is what was sent or a marked prefix of it, and carries the digest of its text |
| `EvidenceTheorems.WithdrawnIsReported` | backend/app/agent_bridge/document_evidence.py:424-436 | a replay reports whatever of the stored answer has been withdrawn since |
| `EvidenceTheorems.RemovalIsReported` | backend/app/agent_bridge/document_evidence.py:182-187 | whatever the authority filter removes is reported as degraded and stale |
| `EvidenceDelivery.FinalizeDelivers` | backend/app/agent_bridge/document_evidence.py:181-222 | everything at hand is returned: of the first limit pieces that stand each identity once and in order, as the authority states it, with all its standing paths, whole until the budget is used up and then cut, marked and re-digested; and exactly what was removed, lost or cut is reported |
| `EvidenceDelivery.FetchedDelivers` | backend/app/agent_bridge/document_evidence.py:296-325 | so for what is fetched: refused exactly when the remote answer breaks its schema |
| `EvidenceDelivery.AnsweredDelivers` | backend/app/agent_bridge/document_evidence.py:424-452 | and for every call of a series, the first or a replay |
| `EvidenceTheorems.FinalizeIdempotent` | backend/app/agent_bridge/document_evidence.py:181-222 | finalizing twice under one clock and authority is finalizing once |
| `EvidenceTheorems.BatchIsEnough` | backend/app/agent_bridge/document_evidence.py:301-323 | for every answer of the remote service the batch lookup gives what the whole authority would give |
| `PresentationTheorems.ShapingKeepsMoneyFacts` | backend/app/agent_bridge/presentation.py:48-126 | supplier names, deadline verdicts and local times leave the list of money facts of every document as it was |
| `PresentationTheorems.ShapedKeepsMoneyFacts` | backend/app/agent_bridge/tools.py:421-428 | so does the whole shaping of a tool result |
| `PresentationTheorems.NamesKeepMoney` | backend/app/agent_bridge/presentation.py:95-111 | naming suppliers changes no money fact |
| `PresentationTheorems.VerdictsKeepMoney` | backend/app/agent_bridge/presentation.py:70-88 | replacing deadlines by verdicts changes no money fact |
| `PresentationTheorems.LocalTimesKeepMoney` | backend/app/agent_bridge/presentation.py:48-61 | adding local times changes no money fact |
| `PresentationOutcomes.VerdictsExactly` | backend/app/agent_bridge/presentation.py:64-92 | a deadline gives way to the verdict whether it has passed, unless the object has one; the later of two decides; every other field stays; what a plan was made from gets no verdict |
| `PresentationOutcomes.LocalTimesExactly` | backend/app/agent_bridge/presentation.py:48-61 | every field stays and what reads as a time has its local time beside it, unless the object has that field; nothing else is added |
| `PresentationOutcomes.NamesExactly` | backend/app/agent_bridge/presentation.py:95-111 | a known supplier has its name beside its id unless one that says something is there; texts are renamed, everything else stays |
| `PresentationOutcomes.NoNamesNoChange` | backend/app/agent_bridge/presentation.py:95-98 | returning early without names is a shortcut only: naming would change nothing |
| `PresentationOutcomes.LeavesStay` | backend/app/agent_bridge/presentation.py:48-111 | lists are shaped item by item, plain values stay |
| `PresentationOutcomes.FactsExactly` | backend/app/agent_bridge/presentation.py:114-126 | an amount is listed if and only if a path leads to it through the document, and not through what is already displayed, ending at a whole number in minor units; the path is its name |
| `PresentationOutcomes.DisplayExactly` | backend/app/agent_bridge/presentation.py:114-126 | each listed amount is shown with its name, its amount and the amount as yuan, in order |
| `Grounding.UnsupportedAmounts` | backend/app/agent_bridge/presentation.py:129-147 | the scanning loop reports the stated amounts the records lack, left to right |
| `GroundingPattern.ReadExactly` | backend/app/agent_bridge/presentation.py:129-147 | at a position the scan reads a marked amount where one starts, else an amount with a unit |
| `GroundingPattern.MarkedExactly` | backend/app/agent_bridge/presentation.py:130-133 | where a currency mark, blanks and a number start, a marked amount is read, as long as possible |
| `GroundingPattern.MarkedOnly` | backend/app/agent_bridge/presentation.py:136-139 | nothing else is read as one, and its value is a hundred times its number's, commas dropped |
| `GroundingPattern.MeasuredExactly` | backend/app/agent_bridge/presentation.py:130-145 | where a sign, number, blanks, scale and unit start, apart from other letters and not of minutes, exactly they are read, in one way only; yuan count a hundred, thousands and ten thousands as such |
| `GroundingPattern.MeasuredOnly` | backend/app/agent_bridge/presentation.py:130-145 | and nothing else is |
| `Grounding.YuanReadsBack` | backend/app/agent_bridge/presentation.py:120-120 | the printed yuan of a nonnegative amount has exactly the value of that amount |
| `Grounding.DisplayedAmountIsGrounded` | backend/app/agent_bridge/presentation.py:129-147 | an amount printed as yuan behind CNY is supported exactly when the records have it |
| `Grounding.ListingIsGrounded` | backend/app/agent_bridge/presentation.py:129-147 | of a text that lists displayed amounts exactly the unrecorded ones are reported, in order |

## Left out

- One durable model has one run and one configuration; runs of other conversations share no row with it.
- LangGraph, PostgreSQL and the HTTP clients appear only by contract: atomic transactions, row locks, unique keys, a checkpoint per superstep, writes of a finished node kept for the next worker.
- Lease renewal, which like every other write needs an unexpired lease; the shared budget, call records and context manifests of the model node. None of them changes the state the loop persists.
- Authorization of the principal, tool catalogs and argument schemas in front of the token check.
- The document tools' first lock-and-release before the remote call; their second transaction is the tool call of the model.
- Timeouts are failure replies; a timed-out tool may have committed its effect, so the tape is not claimed to agree with the receipts.
- Runs of the follow-up trigger, learning and monitoring hooks, language recall.
- `RunStore.Store.ResumeRun`: the replay of an answer under its idempotency key, which comes first, is in `ConversationRows.Rows.ResumeWith`.
- `RunStore.Store.Call` answers a repeated call from its receipt as it is; that a document tool finalizes its receipt once more is in `DocumentEvidence`.
- The schema of a remote answer is modelled as far as finalizing reads it: identifiers, ranks, scores and locators are not; whether a relation path fits its schema is an input.
- The conversation model takes handler transactions as let through by the lease fence; the fence itself is in the durable model.
- `ProgressLog.Log.InterruptAll` goes through the open rows in table order; the source leaves that order to the database.
- Start and finish times, durations and the error-code pattern of progress rows.
- Several products, stocks or offers in one scenario: the seed has exactly one of each, so looking up the row of a SKU is not modelled.
- Event ids and the listing of runs; identifiers of the simulator are numbers, in the order the database sorts them.
- `SimulatorTheorems.DocumentsValid`: the schema's bound on a sequence number, 2^63 - 1, is not stated; it only ends a log of that many events.
- `Grounding.UnsupportedAmounts`: digits and blanks are the ASCII ones, and decimals are exact, where the source rounds to 28 digits.
- `Presentation` takes calendar parsing, the supplier-code pattern and the business time zone as inputs.
- `EvidenceTheorems.BatchIsEnough` relies on a version keeping its document, store and content while its generation and revision stand.
- `RelationConstraints.ComparisonAlwaysEqual` relies on unique fact ids and on the dumped path text identifying the path.
- Intent rules, prompts, sentence dropping, alerts, offer cards, the planning engine, execution and ledger code, the console and the launchers.
