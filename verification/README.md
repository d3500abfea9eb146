# HIL-RIG host verification

A Dafny model of the HIL-RIG host software, from the user's test definition to the verdict on a
captured run, with proofs about the parts that are hardest to get right:

- **Definition to upload.** The builder object (`Api`), the compiler (`Compiler`) and the protocol
  adapter's sparse lowering (`Lowering`). The reference is naive execution: at every tick, carry out the
  instructions the user scheduled for it. Lowering is proved to preserve it, and `OutputMeaning` says what it gives
  without executing anything: the last instruction that concerns an output decides it.
- **Upload to results.** The response-gated protocol workflow as a transition system (`Workflow`) whose
  environment may deliver events, messages, partial writes, timeouts and errors in any order. A raised
  error is an outcome that keeps the mutated state, and runs go on after it. `WorkflowSafety` holds the invariant of
  all runs, `WorkflowTheorems` and `WorkflowWires` what follows from it, `WorkflowService` the `service` call as a piece
  of a run, `WorkflowPass` what such a call achieves, `WorkflowDeadline` timeouts, `WorkflowProgress` progress, and `WorkflowCompletion`, `WorkflowRefusal` and `WorkflowStall` the exact
  conditions of properties that fail. `Connection` is the object itself, with its fields and loops, each method proved
  against the transition system.
- **Results to capture.** The capture database with key constraints and incremental metadata
  (`CaptureStore`), the batching writer over all sequences of arrivals (`BatchWriter`), any number of producers and the
  writer interleaved over a bounded queue (`RunBuilder`), the builder object (`CapturedRun`), and the connection and
  the builder joined (`CaptureTicks`, `JoinedRun`, with runs in `JoinedWitness`).
- **Capture to verdict.** What the fifteen operations mean (`AssertionMeaning`), evidence with explicit gaps
  (`Evidence`), handlers with their accumulators (`Handlers`), verdicts compared with the truth in all completions of the unknown ticks (`Verdicts`), and
  evaluation of a whole assertion set (`Evaluator`).
- **The parts together** (`EndToEnd`).

Exceptions are values: an `Option`, a `Result` or an `Outcome` that carries the state and the error. History that
no branch reads (logs, trails, records taken) is kept beside the state so that properties of whole runs can
be stated. Decimal and floating-point quantities are exact reals. Clock readings, serial byte counts, Transport answers and decoded messages
are inputs.

`dafny verify dfyconfig.toml` checks the project.

## Properties that the code does not have

Six plausible strengthenings are false of the code. The model keeps the code's behaviour and states the exact boundary:

- Accepting every result does not imply RESULTS_COMPLETE. Completion goes unreported exactly when a failure, a new
  session, an accepted call, a new operation or the end of an operation hid it after it was last reported
  (`WorkflowCompletion.CompletionIsHiddenExactlyWhen`). A rejected abort is one way: it restores the state saved at its
  request (`WorkflowRefusal.RefusalRestoresSavedPhase`), and `WorkflowRefusal.RefusedAbortHidesCompletion` is a run.
- A request on an unconfirmed session, for instance an abort, is never submitted and blocks discovery
  (`WorkflowStall.UnconfirmedRequestStalls`, with a run in `WorkflowStall.AbortCanStall`); it goes out exactly when the
  session is confirmed or it is discovery (`WorkflowStall.RequestGoesOutExactlyWhen`).
- Nothing pending does not imply a resting state. When Transport refuses to close, `close` has already dropped the
  operation and raises (`WorkflowTheorems.RaisingCloseDoesNotRest`); `WorkflowTheorems.RunRestsExactlyWhen` and
  `WorkflowTheorems.UploadMessagesAreConserved` say exactly when that matters.
- A transition verdict stays inconclusive across gaps even when the transition must have happened
  (`Verdicts.TransitionVerdictIsConservative`).
- A record whose `add` call returned is not always stored. It is, in every continuation, exactly when no record is
  between its last check and its put at the moment `finalize` stops acceptance
  (`RunBuilder.FinalizeKeepsEverythingExactlyWhen`); `RunBuilder.LateRecordIsLost` is a run that loses one.
- RESULTS_COMPLETE and a finished capture do not imply a COMPLETE capture. At most the last result is missing
  (`JoinedRun.CapturedTicksAreCounted`), and none if no `finalize` call of another thread comes between its check and its
  put (`JoinedRun.CompletedRunIsCaptured`); `JoinedWitness.InterruptedResultIsLost` is a run that loses it.

`docs/architecture.md:10-11` calls Application Response and Execution Control deferred; the code implements both, and the model follows the code.

## Model

| member | source | states |
|---|---|---|
| EndToEnd.StartedRigDrivesTheTest | src/hilrig/protocol/connection.py:322-346 | in every run, when START is submitted for an upload lowered from a compiled test, replaying the messages sent so far gives, at every tick, the outputs of naive execution, and these are the ones the user's instructions ask for: the last level with its later toggles, the last voltage, the last period and duty cycle of a PWM output that is on |
| EndToEnd.AcceptedTestRunsAsWritten | src/hilrig/api.py:1302-1312 | the same for every test the builders accepted and that compiled; such a test always has a configuration message and a sparse upload |
| EndToEnd.StartedConnectionDrivesItsTest | src/hilrig/protocol/connection.py:285-347 | for every connection object: before it submitted START, exactly one upload of that wire ID was queued, by a queue_upload call that passed its compiled test, and the messages sent so far make the rig drive, at every tick, what the definition asks for |
| JoinedRun.CapturedTicksAreCounted | src/hilrig/protocol/connection.py:575-583 | connection and capture joined, a result's check and put apart, with other producers, finalize and the writer interleaved freely: never more results than expected are counted, RESULTS_COMPLETE means exactly the expected ones, the ticks accepted by the capture are the ones counted in order, a finished writer has stored them all except at most the last, and a COMPLETE status, however requested, means every expected tick |
| JoinedRun.CompletedRunIsCaptured | src/hilrig/protocol/connection.py:575-583 | if finalize never stops acceptance while a result is between its check and its put, a finished writer has stored exactly the ticks the connection counted, so after RESULTS_COMPLETE every expected one |
| JoinedRun.UndemandingRunNeverFails | src/hilrig/results/builder.py:308-386 | when other producers leave ordinals to the writer and no status is asked for, no batch fails and the status is COMPLETE exactly when every expected tick was counted and none came late |
| JoinedWitness.EveryUploadCanBeCaptured | src/hilrig/results/builder.py:227-249 | for every host-started upload with expected results such a run exists: all results arrive, RESULTS_COMPLETE is reported and the capture is COMPLETE |
| JoinedWitness.InterruptedResultIsLost | src/hilrig/results/builder.py:281-291 | and one in which finalize comes between the check and the put of the last result: RESULTS_COMPLETE is reported, and the capture lacks that tick and is INCOMPLETE |
| EndToEnd.CompletedRunIsConclusive | src/hilrig/evaluation/evaluator.py:42-56 | the whole way: when the connection reported RESULTS_COMPLETE and the writer finished without interrupting a result, evaluating the capture meets no missing tick, and an overall PASS makes every assertion of the definition true in every completion of the unusable ticks, whatever status was asked for |
| EndToEnd.PassingACompleteCaptureIsConclusive | src/hilrig/evaluation/evaluator.py:42-56 | for a capture opened for a compiled test and finalised COMPLETE by any sequence of records, flushes and waits, no assertion sees a missing tick, and an overall PASS makes every assertion true in every completion of the unusable ticks |
| WorkflowTheorems.StartIsGated | src/hilrig/protocol/connection.py:686-719 | in every run a START follows, in build order, submission and delivery confirmation of the configuration and of every sparse tick, each answered ACCEPTED by a response of its scope that names its ID and tick, then a whole-test response ACCEPTED, with no refusal or failure in between |
| WorkflowTheorems.ResultsOnlyAfterStart | src/hilrig/protocol/connection.py:835-847 | no result is accepted before an execution-control response to START said COMPLETED for its wire ID |
| WorkflowTheorems.WireIdsAreNeverReused | src/hilrig/protocol/connection.py:307-311 | over every run the wire IDs queued are duplicate-free and are exactly the retired ones and the active one, which are disjoint |
| WorkflowTheorems.ResultsArriveInOrder | src/hilrig/protocol/connection.py:575-583 | the results accepted for the active upload are exactly ticks 0, 1, 2, … in order |
| WorkflowTheorems.CompletionIsEarned | src/hilrig/protocol/connection.py:238-245 | in every reachable RESULTS_COMPLETE state each expected tick was accepted exactly once |
| WorkflowTheorems.UploadMessagesAreConserved | src/hilrig/protocol/connection.py:591-603 | delivered, in-flight, unsent and queued messages add up to the active upload exactly while the workflow has not failed and no close has raised since it was queued, or all were delivered before; acceptance implies full delivery; a delivery in flight is the one message of the one pending operation |
| WorkflowTheorems.IdleWorkflowRests | src/hilrig/protocol/connection.py:767-779 | without a pending operation the workflow is in a resting state and nothing is in flight, in every reachable state whose raising closes were all made at rest |
| WorkflowTheorems.RunRestsExactlyWhen | src/hilrig/protocol/connection.py:469-490 | over every run: the workflow always rests when nothing is pending exactly when no close raised in the middle of an operation |
| WorkflowTheorems.RaisingCloseDoesNotRest | src/hilrig/protocol/connection.py:485-490 | a run: a close that raises while discovery is pending leaves the connection open in DISCOVERING with nothing pending |
| WorkflowTheorems.RaisingCloseLosesMessages | src/hilrig/protocol/connection.py:485-490 | a run: a close that raises after an upload was queued leaves it active with none of its messages left |
| WorkflowTheorems.SerialBytesAreConserved | src/hilrig/protocol/connection.py:894-921 | since the last session reset or drop of the buffers, bytes read are the bytes Transport consumed followed by the retained ones, and bytes written are the committed frames followed by the sent part of the pending one |
| WorkflowTheorems.BoundBuilderGetsEveryResult | src/hilrig/protocol/connection.py:256-283 | a builder bound while an upload is active stays bound as long as that upload is active, and that very builder is handed exactly the ticks accepted from then on, in order |
| WorkflowTheorems.BuilderOfAnUploadGetsItsTicks | src/hilrig/protocol/connection.py:312-320 | a builder bound when the upload was queued belongs to it and has been handed exactly ticks 0, 1, … up to the next expected one |
| WorkflowTheorems.StepAppends | src/hilrig/protocol/connection.py:530-589 | one reaction only appends to the log, and each kind of entry has its cause: a submission that Transport took is the pending operation's next message, an answer names scope, ID, tick and command of the pending request, a result is the active upload's next one for the builder bound then |
| WorkflowTheorems.EveryAnswerIsGenuine | src/hilrig/protocol/connection.py:626-680 | in every run whatever counted as an answer has the scope, wire ID, tick and command of the request it answers, and counted as positive exactly when it says ACCEPTED to an upload message or the whole test, or COMPLETED to a control |
| WorkflowTheorems.EveryEntryHasItsCause | src/hilrig/protocol/connection.py:530-589 | every log entry of a run was put there by an action of that run for which it is the right one |
| WorkflowTheorems.MatchingIsAnswering | src/hilrig/protocol/connection.py:640-667 | a response matches a request exactly when it answers it, kind by kind |
| WorkflowTheorems.AnswerDecides | src/hilrig/protocol/connection.py:669-680 | an answer to an operation that only waits for it raises exactly when it is a refusal |
| WorkflowTheorems.RefusalMeans | src/hilrig/protocol/connection.py:730-747 | a refused upload message or test retires the upload; a rejected START leaves it accepted and ready to start; a rejected abort or reset restores the saved state; anything else fails the workflow and keeps the upload |
| WorkflowTheorems.AcceptanceMeans | src/hilrig/protocol/connection.py:696-719 | an accepted upload message makes the next one pending, the last one the wait for whole-test validation with its deadline, and that makes the upload ready to start, or starts it in immediate mode |
| WorkflowTheorems.ControlSuccessMeans | src/hilrig/protocol/connection.py:720-728 | discovery confirms the session, START runs the upload, a completed abort or reset retires it |
| WorkflowTheorems.FailureMeans | src/hilrig/protocol/connection.py:879-885 | a failed workflow forgets its operations and permissions and keeps the upload, the session and the bytes |
| WorkflowTheorems.QueueingMeans | src/hilrig/protocol/connection.py:285-347 | the refusals of an upload in order, and what queueing one that is not refused changes |
| WorkflowTheorems.RequestsMean | src/hilrig/protocol/connection.py:379-424 | the refusals of start, abort, reset and of binding a builder in order |
| WorkflowCompletion.CompletionIsReportedExactlyWhen | src/hilrig/protocol/connection.py:575-583 | over every run the state is RESULTS_COMPLETE exactly when some action reported it (the last expected result, or the rejection of an abort or reset requested in RESULTS_COMPLETE) and no later action hid it (a failure, a new session, an accepted call, a new operation, or the end of any other operation) |
| WorkflowCompletion.CompletionIsHiddenExactlyWhen | src/hilrig/protocol/connection.py:238-245 | once every expected result was accepted, completion was reported at some point and goes unreported now exactly when some action after the last report hid it |
| WorkflowCompletion.GrantedExactlyWhen | src/hilrig/protocol/connection.py:379-424 | a request of the caller is accepted exactly when the conditions of its kind hold |
| WorkflowCompletion.StepReports | src/hilrig/protocol/connection.py:530-589 | each single reaction sets the report, takes it away or leaves the state alone, as those names say |
| WorkflowRefusal.SavedPhaseSurvives | src/hilrig/protocol/connection.py:393-424 | in every run a pending abort or reset has been pending since its request and still carries the state in which it was requested |
| WorkflowRefusal.RefusalRestoresSavedPhase | src/hilrig/protocol/connection.py:742-746 | in every run that ends with the rejection of an abort or reset, the state afterwards is the one in which it was requested, whatever came between |
| WorkflowRefusal.RefusedAbortHidesCompletion | src/hilrig/protocol/connection.py:393-408 | for every host-started upload with expected results there is a run from a new connection that ends open and idle in RUNNING with every result accepted |
| WorkflowStall.UnconfirmedRequestStalls | src/hilrig/protocol/connection.py:794-808 | in every run from an unsent request on an unconfirmed session, whatever callers, Transport and the rig do, the request stays pending, nothing is submitted and no timeout strikes, until a close or a failure drops it |
| WorkflowStall.RequestGoesOutExactlyWhen | src/hilrig/protocol/connection.py:794-820 | in every reachable state an unsent request can go out in some run exactly when the session is confirmed or it is discovery; then a Transport that answers OK takes it at once |
| WorkflowStall.AbortCanStall | src/hilrig/protocol/connection.py:393-408 | such requests exist: any upload queued before a session is established can be aborted at once, and stalls |
| WorkflowStall.EveryRunUnarms | src/hilrig/protocol/connection.py:822-833 | no deadline is ever set before the last message of an operation was submitted |
| WorkflowDeadline.TimesOutExactlyWhen | src/hilrig/protocol/connection.py:822-833 | over every run: whenever an answer is awaited, one step began the wait (the confirmation of the operation's last message, or for validation the answer to the last upload message) and it has gone on since; looking for an overdue response raises exactly when the timeout has passed since the clock reading of that step |
| WorkflowSafety.EveryRunKeeps | src/hilrig/protocol/connection.py:98-147 | the full invariant (start gate, fresh IDs, ordered results, upload accounting, resting phases, byte conservation) holds after every sequence of calls and environment reactions, including those that raised |
| WorkflowSafety.StepKeeps | src/hilrig/protocol/connection.py:530-589 | every single reaction keeps that invariant |
| WorkflowWires.StartFollowsTheWholeUpload | src/hilrig/protocol/connection.py:794-820 | in every run, when START is submitted the upload messages sent for its wire ID are exactly those of one queued upload, in build order, none twice |
| WorkflowWires.EveryRunIsFed | src/hilrig/protocol/connection.py:749-765 | at every point the messages sent for the active wire ID are a prefix of its upload in build order, and nothing is sent for IDs never queued |
| WorkflowProgress.UploadTakesExactlyItsWork | src/hilrig/protocol/connection.py:696-719 | an upload of k messages on a confirmed session, in any run that does not disturb it before it is validated: it is validated exactly when 3k + 1 useful events have happened among whatever else, namely k submissions, k confirmations and k + 1 answers; until then a useful event is possible |
| WorkflowProgress.ServicePassesValidate | src/hilrig/protocol/connection.py:426-467 | the same for any sequence of service calls, raised errors included: validated exactly after k submissions, k confirmations and k + 1 answers, which takes at least k calls |
| WorkflowProgress.UsefulStepWorks | src/hilrig/protocol/connection.py:591-603 | each useful event uses exactly one unit of the remaining work, and the last one validates the upload |
| WorkflowProgress.NeutralStepKeeps | src/hilrig/protocol/connection.py:426-467 | whatever neither helps nor disturbs (reads, offers, writes, refused calls, idle turns, repeated answers) leaves the upload where it was |
| WorkflowProgress.DisturbedExactlyWhen | src/hilrig/protocol/connection.py:730-747 | failures, refusals, a new session and a close are exactly what takes an unfinished upload off its course |
| WorkflowProgress.ValidationIsInReach | src/hilrig/protocol/connection.py:696-719 | from every unfinished state some continuation of as many useful events as there is work left validates the upload |
| WorkflowService.PassesAreRuns | src/hilrig/protocol/connection.py:426-467 | any sequence of service calls is a run of the transition system |
| WorkflowPass.PassAchieves | src/hilrig/protocol/connection.py:426-467 | what one service call does to bytes, log and deadlines: it takes in all data read before the first offer, hears every event and message of both inboxes in order unless it raises, writes exactly the bytes the port accepts of the pending frame and commits a whole one, sends the message that is due, and raises when a response is overdue |
| WorkflowPass.PassExchanges | src/hilrig/protocol/connection.py:498-528 | the serial side: received and consumed bytes are accounted for, offers go on until Transport took everything or would not take more, and the output is serviced exactly when the pass gets that far |
| WorkflowPass.PassListens | src/hilrig/protocol/connection.py:530-589 | confirmations, responses and results of the first and then the second inbox are marked in the log, all of them when nothing raises, and a pass that does not raise met no event or message that is an error of its own |
| Connection.EveryConnectionIsSafe | src/hilrig/protocol/connection.py:98-147 | every valid connection object is in a state that some run reaches, so all run theorems apply to it |
| Connection.FixedIOProtocolConnection.SendUpload | src/hilrig/protocol/connection.py:349-377 | the polling loop: a normal return means that the upload built from this test was delivered whole and validated, in at least as many service calls as it has messages, before the deadline |
| Connection.FixedIOProtocolConnection.QueueUpload | src/hilrig/protocol/connection.py:285-347 | refusals in order, otherwise the upload built from the compiled test is queued under the attempt's, the builder's or a fresh wire ID; a raised error changes nothing |
| Connection.FixedIOProtocolConnection.BuildUpload | src/hilrig/protocol/application.py:95-126 | an upload is built exactly when the attempt belongs to the definition and everything can be lowered, and it carries the compiled test |
| Connection.FixedIOProtocolConnection.ReadSerial | src/hilrig/protocol/connection.py:498-511 | received bytes are appended to the retained ones; a port that cannot be read changes nothing and raises |
| Connection.FixedIOProtocolConnection.Close | src/hilrig/protocol/connection.py:469-490 | closing drops operations and buffers and is idempotent; when Transport refuses to close, the error escapes and the connection stays open without them |
| Connection.FixedIOProtocolConnection.Service | src/hilrig/protocol/connection.py:426-467 | one pass, on fields and histories: data read is appended, a pending or offered frame goes out by exactly the bytes the port accepts and is committed when whole, both inboxes are heard in order, no response is left overdue and an established session is used; an overdue response makes it raise; the whole pass is a piece of a run, errors included |
| Connection.FixedIOProtocolConnection.OfferReceived | src/hilrig/protocol/connection.py:513-528 | the receive loop equals repeated prefix consumption and terminates when an OK answer takes something |
| Connection.FixedIOProtocolConnection.DrainEvents | src/hilrig/protocol/connection.py:537-563 | Transport events are handled in order up to the first error |
| Connection.FixedIOProtocolConnection.DrainMessages | src/hilrig/protocol/connection.py:565-587 | Application messages are handled in order up to the first error |
| Connection.FixedIOProtocolConnection.TakeEvent | src/hilrig/protocol/connection.py:540-562 | reaction to one Transport event; failures and resets mutate the workflow before raising |
| Connection.FixedIOProtocolConnection.TakeMessage | src/hilrig/protocol/connection.py:566-587 | dispatch of one decoded message, including undecodable and unexpected ones |
| Connection.FixedIOProtocolConnection.TakeResult | src/hilrig/protocol/connection.py:575-583 | a result in sequence is stored when a builder is bound, counted, and completes the run when it is the last expected one |
| Connection.FixedIOProtocolConnection.ValidateResultSequence | src/hilrig/protocol/connection.py:835-847 | results before START, of another test or out of order fail the workflow |
| Connection.FixedIOProtocolConnection.HandleDeliveryConfirmed | src/hilrig/protocol/connection.py:591-603 | a confirmation clears the flag, counts an upload message, and sets the deadline of a fully submitted operation to now plus the timeout; an unexpected one fails the workflow |
| Connection.FixedIOProtocolConnection.HandleSystemInfoResponse | src/hilrig/protocol/connection.py:605-624 | system information is accepted only for a pending discovery and only when compatible |
| Connection.FixedIOProtocolConnection.HandleApplicationResponse | src/hilrig/protocol/connection.py:626-680 | it raises a mismatch exactly when the scope, ID, tick or command of the response is not that of the pending request, and unexpected exactly without one; otherwise the response is remembered with its outcome |
| Connection.FixedIOProtocolConnection.FinishPendingOperationIfReady | src/hilrig/protocol/connection.py:686-694 | an operation completes only when its response, its deliveries and its submissions are all in |
| Connection.FixedIOProtocolConnection.CompleteOperation | src/hilrig/protocol/connection.py:696-728 | what each kind of completed operation does next |
| Connection.FixedIOProtocolConnection.HandleNegativeResponse | src/hilrig/protocol/connection.py:730-747 | a refused upload is retired; a rejected START stays ready; a rejected abort or reset restores the saved state; anything else fails |
| Connection.FixedIOProtocolConnection.AdvanceWorkflow | src/hilrig/protocol/connection.py:749-765 | nothing pending: discovery first, then the next queued upload operation |
| Connection.FixedIOProtocolConnection.ActivateOperation | src/hilrig/protocol/connection.py:767-779 | an operation becomes pending together with its workflow state |
| Connection.FixedIOProtocolConnection.SubmitNextApplicationMessage | src/hilrig/protocol/connection.py:794-820 | one message at a time, only on an established and, except for discovery, confirmed session |
| Connection.FixedIOProtocolConnection.CheckResponseTimeout | src/hilrig/protocol/connection.py:822-833 | it raises exactly when an unanswered operation has a deadline that is not after now, and then fails the workflow |
| Connection.FixedIOProtocolConnection.ServiceOutput | src/hilrig/protocol/connection.py:894-921 | one output turn: a pending frame, or else the one offered, goes out by exactly the bytes the port accepts and is committed when whole; a nonsense report writes nothing |
| Connection.FixedIOProtocolConnection.BuildOperations | src/hilrig/protocol/connection.py:324-339 | one operation per message, configuration first |
| Connection.FixedIOProtocolConnection.Start | src/hilrig/protocol/connection.py:379-391 | START is queued only for an accepted upload that is ready to start |
| Connection.FixedIOProtocolConnection.Abort | src/hilrig/protocol/connection.py:393-408 | an abort saves the current state and has no confirmed-session guard |
| Connection.FixedIOProtocolConnection.ResetApplication | src/hilrig/protocol/connection.py:410-424 | an application reset requires a confirmed session |
| Connection.FixedIOProtocolConnection.BindResultBuilder | src/hilrig/protocol/connection.py:256-283 | when a builder may be bound or replaced |
| Connection.FixedIOProtocolConnection.FailWorkflow | src/hilrig/protocol/connection.py:879-885 | failure drops the operations and flags but keeps the active upload |
| Connection.FixedIOProtocolConnection.InvalidateSession | src/hilrig/protocol/connection.py:887-892 | a lost session forgets confirmation and pending output, and fails the workflow |
| Connection.FixedIOProtocolConnection.RetireActiveUpload | src/hilrig/protocol/connection.py:862-867 | retirement records the wire ID and clears the transaction |
| Lowering.LoweringPreservesMeaning | src/hilrig/protocol/application.py:245-329 | for every tick, the configuration message and the last sparse message at or before it give the same outputs as naive execution, including analogue values carried only by the extra tick-zero message and retained waveforms of disabled PWM outputs |
| OutputMeaning.RigShowsTheTest | src/hilrig/protocol/application.py:406-466 | output by output, without reference to the execution of instructions: at every tick a digital output has the last High or Low scheduled up to then, or the configured level, flipped once by each later Toggle; an analogue output the last voltage in microvolts; a PWM output nothing while switched off, otherwise the period and duty cycle last asked for |
| OutputMeaning.EveryMessageShowsTheTest | src/hilrig/protocol/application.py:292-329 | the same of each sparse message until the next one, and of the configuration message before the first |
| OutputMeaning.OutputsAreDetermined | src/hilrig/protocol/application.py:406-466 | those conditions name one definite set of outputs |
| OutputMeaning.ConfigurationIsExact | src/hilrig/protocol/application.py:174-243 | the configuration message carries the tick length in microseconds of the frequency mode, the tick count, and the configured initial digital and PWM outputs |
| OutputMeaning.AdapterRaisesExactlyWhen | src/hilrig/protocol/application.py:364-403 | the adapter raises exactly when an initial value or a fixed-output operation is not a whole number of microvolts, permyriads or nanoseconds in the range of the wire |
| Lowering.LoweringSucceedsExactlyWhen | src/hilrig/protocol/application.py:364-403 | sparse lowering raises exactly when an initial value or a fixed-output instruction is not exactly representable |
| Lowering.ConversionsAreExact | src/hilrig/protocol/application.py:373-403 | volts, duty and frequency convert to an integer exactly when that integer names the same quantity and fits the wire |
| Lowering.NoInstructionIsLostByGrouping | src/hilrig/protocol/application.py:288-291 | on tick-sorted input, grouping adjacent instructions into a dictionary overwrites nothing: each group is all of its tick's instructions |
| Lowering.GroupIsSchedule | src/hilrig/protocol/application.py:283-302 | after sorting, filtering and grouping each tick has exactly its own instructions in creation order |
| Lowering.MessageTicksAreExact | src/hilrig/protocol/application.py:292-309 | message ticks strictly increase and are exactly the ticks with an instruction on a fixed output, plus zero when an analogue output is configured |
| Lowering.ApplyInstruction | src/hilrig/protocol/application.py:406-466 | the in-place update: High and Low set the level, Toggle flips it, a voltage becomes its microvolts, a switch, frequency or duty cycle changes that part of a PWM output only; nothing else changes, or it raises |
| Lowering.BuildSparseInstructions | src/hilrig/protocol/application.py:245-329 | the loops over mutable output lists emit exactly the specified message sequence, or raise |
| Lowering.EmitMessages | src/hilrig/protocol/application.py:299-329 | the message loop: apply a tick's group, then emit the whole state |
| Lowering.InitialiseOutputs | src/hilrig/protocol/application.py:252-281 | the configuration loop sets every configured initial output, in any order, or raises |
| Lowering.BuildConfiguration | src/hilrig/protocol/application.py:174-243 | tick duration, run length and initial digital and PWM outputs of the configuration message, or the build raises |
| Compiler.SortIsSortedPermutation | src/hilrig/compiler.py:104-109 | compilation orders by timestamp then ID and loses or invents no instruction |
| Compiler.SortKeepsEachTick | src/hilrig/compiler.py:104-109 | the instructions of one tick keep creation order |
| Compiler.OrderedIsSort | src/hilrig/models/instructions.py:123-125 | the public list's stable timestamp sort is the compiler's order |
| Compiler.BuildTimeSlots | src/hilrig/compiler.py:171-177 | grouping by tick yields exactly each tick's instructions, keys in ascending order for sorted input |
| Compiler.TimeSlotsAgree | src/hilrig/models/instructions.py:127-132 | compiled time slots and the public grouping are the same, each slot in creation order |
| Compiler.ValidateInstructions | src/hilrig/compiler.py:252-266 | stops at the first instruction fault, in checking order |
| Compiler.ValidateAssertions | src/hilrig/compiler.py:269-293 | stops at the first assertion fault, in checking order |
| Compiler.ExpectedTickCount | src/hilrig/compiler.py:145-168 | the count exceeds every stimulus and assertion end by the settling second, and one tick less would not |
| Compiler.ExpectedTickCountIsUnique | src/hilrig/compiler.py:145-168 | those two facts determine the count |
| Compiler.CompileTest | src/hilrig/compiler.py:91-142 | the compiled test or the first fault, in checking order, with the protocol's tick limit |
| Compiler.CompilationCoversEveryAssertion | src/hilrig/compiler.py:145-168 | a compiled test runs long enough for every stimulus and for all evidence of every assertion |
| Compiler.CompilesExactlyWhen | src/hilrig/compiler.py:91-168 | compilation succeeds exactly when channels exist and are configured, identifiers count from zero, ticks make sense, and the last stimulus or assertion plus one second at the mode's frequency stays below a million ticks; the count is then exactly that long |
| Compiler.FaultsMean | src/hilrig/compiler.py:252-293 | the complaint about one instruction or assertion, in checking order |
| Api.AcceptanceImpliesLowering | src/hilrig/api.py:1361-1388 | whatever the builders accepted compiles up to the tick limit, lowers, and has only assertions the evaluator knows |
| Api.AcceptedValuesConvert | src/hilrig/api.py:1419-1452 | the builders' duty and frequency checks are exactly the adapter's; accepted voltages are exactly the convertible ones up to 20 V |
| Api.AcceptedOperationsAreWire | src/hilrig/api.py:1419-1452 | a stimulus is accepted exactly when the wire can carry it, with at most 20 V on an analogue output |
| Api.AcceptedParametersAreWire | src/hilrig/api.py:1419-1452 | and so are configured initial outputs |
| Api.AcceptedVoltagesCanBeMet | src/hilrig/api.py:1006-1150 | a voltage expectation is accepted exactly when some voltage can meet it |
| Api.AcceptedWaveforms | src/hilrig/api.py:801-980 | a PWM expectation is accepted exactly with a positive target, a duty cycle that is a fraction, tolerances that are not negative, and a band that is one |
| Api.AcceptedLevels | src/hilrig/api.py:691-800 | a digital expectation is accepted unless it is a transition from a state to itself |
| Api.TimedMeans | src/hilrig/api.py:1369-1375 | resolving the times of an expectation changes nothing else about it |
| Api.TimesResolveExactly | src/hilrig/timing.py:12-36 | a time resolves to a tick exactly when it names that tick; nothing is rounded and negative times are refused |
| Api.RangesResolve | src/hilrig/timing.py:38-75 | a range resolves to its two ticks, unless one does not resolve or they are in the wrong order |
| Api.Test.constructor | src/hilrig/api.py:1171-1184 | a new test is empty, mutable and accepted |
| Api.Test.Handle | src/hilrig/api.py:1314-1325 | stable handles for valid indices; no new ones on a frozen test |
| Api.Test.Configure | src/hilrig/api.py:1216-1237 | timing is set once, before anything that depends on it |
| Api.Test.ConfigureChannel | src/hilrig/api.py:1327-1329 | an accepted channel configuration is stored once |
| Api.Test.Schedule | src/hilrig/api.py:1361-1367 | the next sequential identifier and the resolved tick go to the new instruction, or the refusals in order |
| Api.Test.AddAssertion | src/hilrig/api.py:1369-1375 | the same for assertions |
| Api.Test.Compile | src/hilrig/api.py:1302-1312 | the first success freezes the test and later calls return the same plan; every plan lowers |
| CaptureStore.BatchKeepsMetadataExact | src/hilrig/results/sqlite_store.py:276-300 | across every committed batch the count, first and last tick stay the size, minimum and maximum of the stored tick set |
| CaptureStore.CompleteMeansEveryTick | src/hilrig/results/sqlite_store.py:349-353 | the three numbers look complete exactly when the stored ticks are 0 … expected - 1 |
| CaptureStore.CompleteIsJustified | src/hilrig/results/sqlite_store.py:354-366 | COMPLETE is the final status exactly when every expected tick is stored and no other status was requested |
| CaptureStore.CaptureWriter.WriteBatch | src/hilrig/results/sqlite_store.py:266-332 | a batch is committed whole or leaves every table and all metadata as they were |
| CaptureStore.CaptureWriter.UpdateMetadata | src/hilrig/results/sqlite_store.py:282-300 | count, minimum and maximum of a batch update the metadata |
| CaptureStore.CaptureWriter.Finalize | src/hilrig/results/sqlite_store.py:334-367 | every requested status but IN_PROGRESS and COMPLETE is stored as requested; IN_PROGRESS is refused; COMPLETE is refused, and without a request INCOMPLETE is stored, exactly when the count, first and last tick are not those of a full run |
| CaptureStore.FinalizationMeans | src/hilrig/results/sqlite_store.py:349-367 | the same decision in terms of the stored ticks |
| BatchWriter.EveryRunKeeps | src/hilrig/results/builder.py:308-386 | over every run the store is what one single batch of a prefix of the taken records would give, fewer records than a batch are pending, and the batch timer is set exactly when something is pending |
| BatchWriter.StepKeeps | src/hilrig/results/builder.py:328-379 | every turn of the writer keeps that |
| BatchWriter.CommitsExactlyWhen | src/hilrig/results/builder.py:320-361 | a record that leaves fewer than a batch unsaved commits nothing; every other turn commits everything taken, or stops the writer |
| BatchWriter.StoreHoldsThePrefix | src/hilrig/results/builder.py:320-327 | the store holds exactly the persisted prefix of the records taken |
| BatchWriter.DiagnosticsKeepTheirOrder | src/hilrig/results/sqlite_store.py:320-330 | stored diagnostics are those of the saved records, in the order in which they were taken |
| BatchWriter.CommittedInPieces | src/hilrig/results/sqlite_store.py:266-332 | committing two batches in turn is committing their concatenation, failures included |
| BatchWriter.NothingElseIsTaken | src/hilrig/results/builder.py:343-352 | in every run, also after a failure or a finalize, the writer has taken exactly the records that arrived while it ran, in order, altered only by a filled-in ordinal |
| BatchWriter.SuccessfulBarrierMeansStored | src/hilrig/results/builder.py:353-366 | a successful flush or finalize means that every record queued before it is stored |
| BatchWriter.StoredRowsStay | src/hilrig/results/builder.py:308-386 | what is stored stays stored |
| BatchWriter.FailureLeavesTheStore | src/hilrig/results/builder.py:380-386 | a turn that fails stops the writer for good and stores nothing of its batch, unless only the status of a finalize request was refused, when the batch is stored whole |
| BatchWriter.UnsavedRecordsAreNotForgotten | src/hilrig/results/builder.py:332-341 | over every run: with everything saved the queue wait is unbounded; otherwise it lasts until the flush interval has passed since the clock reading at which the oldest unsaved record was taken |
| BatchWriter.AutomaticOrdinalIsNew | src/hilrig/results/builder.py:346-352 | an automatic ordinal is above every earlier ordinal of its key |
| BatchWriter.AutomaticOrdinalsCount | src/hilrig/results/builder.py:346-352 | when no record of a key brings an ordinal, its rows are numbered 0, 1, 2, … in arrival order, one for each record taken, also in a finalised capture |
| BatchWriter.CommitsExactlyWithoutClash | src/hilrig/results/sqlite_store.py:266-332 | rows can be committed exactly when no two claim the same tick or ordinal key, and the metadata is then exact |
| BatchWriter.FlushFailsExactlyOnClash | src/hilrig/results/builder.py:320-327 | a flush succeeds exactly when no two records taken so far claim the same key |
| BatchWriter.CompleteExactlyWhenEveryTickCame | src/hilrig/results/builder.py:356-361 | finalising without a status reports COMPLETE exactly when the ticks taken are 0 … expected - 1 without a clash |
| BatchWriter.CompleteIsAlwaysJustified | src/hilrig/results/sqlite_store.py:349-366 | a COMPLETE status in any reachable state, however requested, means every expected tick is stored |
| BatchWriter.FinishedStatusWasAskedFor | src/hilrig/results/sqlite_store.py:354-367 | over every run: a finished writer took one finalize request while it ran, and the stored status is the one it named, or without a name COMPLETE or INCOMPLETE as every expected tick is stored or not; never IN_PROGRESS |
| BatchWriter.DistinctRecordsNeverFail | src/hilrig/results/builder.py:374-379 | distinct ticks and automatic ordinals: no batch fails, wherever the batch boundaries fall |
| BatchWriter.OrderedRunIsComplete | src/hilrig/results/builder.py:227-249 | ticks 0 … expected - 1 in order, with anything harmless in between, are finalised COMPLETE |
| RunBuilder.EveryPerformanceIsSound | src/hilrig/results/builder.py:274-291 | over every interleaving of any number of producers with finalize and writer turns, taken records followed by queued ones are exactly the records whose submission went through, also after the writer finished; the queue is bounded and holds one finalize request at most |
| RunBuilder.FinalizeKeepsEverythingExactlyWhen | src/hilrig/results/builder.py:237-249 | a finalize call of a run whose accepted records can be stored keeps every record whose submission goes through, in every continuation, exactly when no record is between its last check and its put at that moment |
| RunBuilder.FinalizeLosesNothing | src/hilrig/results/builder.py:227-249 | the positive half for any requested status and any interleaving before and after; a single producer that finalises the run itself loses nothing |
| RunBuilder.RecordInBetweenCanBeLost | src/hilrig/results/builder.py:281-291 | a record in between has a continuation in which its submission goes through and the writer finished without it |
| RunBuilder.LateRecordIsLost | src/hilrig/results/builder.py:281-291 | such a run exists from every newly opened capture, and the record is then never stored, whatever follows |
| RunBuilder.FinishedStoresExactly | src/hilrig/results/builder.py:227-249 | a finished writer has stored every accepted record exactly when no record is left in the queue |
| RunBuilder.FinishedStatusWasWished | src/hilrig/results/builder.py:227-253 | in every interleaving a finished capture has the status asked for by the call that stopped acceptance; an aborted one is ABORTED |
| RunBuilder.OnlyRecordsAheadAreTaken | src/hilrig/results/builder.py:227-249 | for any queue, a finished writer has taken and stored exactly the records queued ahead of the finalize request |
| RunBuilder.LoopStoresEverything | src/hilrig/results/builder.py:332-341 | a writer left alone that still runs has stored every accepted record: the expired wait flushes what is pending |
| RunBuilder.FlushStoresWhatWasAccepted | src/hilrig/results/builder.py:221-225 | what was accepted before a flush request was put is stored when the flush is answered with success, whatever other producers, finalize and the writer do in between |
| RunBuilder.DrainKeeps | src/hilrig/results/builder.py:328-386 | taking everything keeps the account and empties the queue unless the writer stops |
| CapturedRun.EveryBuilderIsSound | src/hilrig/results/builder.py:92-172 | every valid builder object keeps that account, whatever calls and turns led to its state |
| CapturedRun.FinishedBuilderLostNothing | src/hilrig/results/builder.py:227-249 | a finished builder object holds every accepted record, if no record was between check and put when acceptance stopped |
| CapturedRun.CapturedRunBuilder.AddRecord | src/hilrig/results/builder.py:199-219 | a record outside the run is refused, others pass the check |
| CapturedRun.CapturedRunBuilder.CheckSubmission | src/hilrig/results/builder.py:274-285 | writer failure and closed builder are refused in that order; otherwise the item may be put |
| CapturedRun.CapturedRunBuilder.RequestFlush | src/hilrig/results/builder.py:221-225 | a flush request passes the same check |
| CapturedRun.CapturedRunBuilder.PutOnce | src/hilrig/results/builder.py:286-291 | one put attempt: the item goes to the end, or a full queue sends the producer back to its check |
| CapturedRun.CapturedRunBuilder.BeginFinalize | src/hilrig/results/builder.py:237-242 | acceptance stops before the finalize request is queued |
| CapturedRun.CapturedRunBuilder.QueueFinalize | src/hilrig/results/builder.py:243-245 | the finalize request goes in behind everything queued |
| CapturedRun.CapturedRunBuilder.Finalize | src/hilrig/results/builder.py:227-249 | finalize with nothing else going on until the writer stops: it stops, and if it stops normally the capture holds exactly the records whose submission has gone through and has the requested status, ABORTED for an abort |
| CapturedRun.CapturedRunBuilder.ExpireQueueWait | src/hilrig/results/builder.py:338-341 | an expired wait flushes the pending batch |
| CapturedRun.CapturedRunBuilder.WriterLoop | src/hilrig/results/builder.py:328-379 | the loop, with expired waits, until it stops or would wait without limit |
| CapturedRun.CapturedRunBuilder.FlushPending | src/hilrig/results/builder.py:320-327 | pending lists are committed and cleared together, or the writer fails |
| CapturedRun.CapturedRunBuilder.CollectCommunication | src/hilrig/results/builder.py:345-352 | ordinal assignment and the counter update |
| CapturedRun.CapturedRunBuilder.Collect | src/hilrig/results/builder.py:343-355 | one record joins the pending list of its kind |
| CapturedRun.CapturedRunBuilder.Iterate | src/hilrig/results/builder.py:328-379 | one turn of the writer loop |
| CapturedRun.CapturedRunBuilder.FinishRun | src/hilrig/results/builder.py:357-361 | finalisation through the store |
| CapturedRun.CapturedRunBuilder.TakeFromQueue | src/hilrig/results/builder.py:337-379 | one queued item is taken; a failure drops the rest of the queue |
| Evidence.IncludeMissingTicks | src/hilrig/evaluation/context.py:137-155 | gap filling yields one item per tick, the stored sample or a gap marker, and raises exactly when samples repeat, go back or start too early |
| Evidence.RowsBetweenExact | src/hilrig/results/sqlite_store.py:484-500 | the range query returns exactly the stored rows of the range in ascending order |
| Evidence.RangeEvidence | src/hilrig/evaluation/context.py:51-70 | a range query on a stored run has exactly one item per requested tick and never raises |
| Evidence.CountsAddUp | src/hilrig/evaluation/context.py:25-31 | every item is counted once as valid, missing or invalid |
| Evidence.TallyMeaning | src/hilrig/evaluation/digital.py:177-184 | a count is zero exactly when nothing passes the test, and the first tick is the least one that does |
| Handlers.CountsDecide | src/hilrig/evaluation/common.py:124-134 | deciding from counts gives the verdict stated without counting, and the counts cover the range |
| Handlers.EvaluateRemainState | src/hilrig/evaluation/digital.py:151-217 | verdict, counts, first failure and level counts of a remain-high or remain-low assertion |
| Handlers.ScanForTransition | src/hilrig/evaluation/digital.py:82-112 | the loop with its previous-sample variables finds the first adjacent transition |
| Handlers.EvaluateTransition | src/hilrig/evaluation/digital.py:64-148 | verdict, counts and observed transition of a transition assertion |
| Handlers.CrossingsAreSeen | src/hilrig/evaluation/digital.py:102-110 | a transition is found exactly when two adjacent usable ticks show it |
| Handlers.FirstCrossingIsFirst | src/hilrig/evaluation/digital.py:102-110 | the recorded transition is the first one |
| Handlers.ScanVoltages | src/hilrig/evaluation/analogue.py:137-165 | the voltage loop: counts, extremes, first failing tick and value |
| Handlers.EvaluateVoltageRange | src/hilrig/evaluation/analogue.py:119-193 | verdict, counts, extremes and first failure of a voltage range assertion |
| Handlers.ScanMetric | src/hilrig/evaluation/pwm.py:183-216 | the PWM loop, with the rule that a zero period is a violation without a metric |
| Handlers.EvaluateMetricRange | src/hilrig/evaluation/pwm.py:162-242 | verdict, counts, extremes and first failure of a PWM range assertion |
| Handlers.PointIsRange | src/hilrig/evaluation/common.py:93-121 | a point assertion has the verdict, counts and first failure of the one-tick range |
| Handlers.FirstFailingIsFirst | src/hilrig/evaluation/analogue.py:155-159 | the reported failing value belongs to the first failing tick |
| Verdicts.RangeVerdictIsSound | src/hilrig/evaluation/common.py:124-134 | PASS holds in every completion of the unknown ticks and FAIL in none |
| Verdicts.RangeVerdictIsExact | src/hilrig/evaluation/common.py:124-134 | where some value passes and some fails, the three verdicts say all, none, or some but not all completions |
| Verdicts.RangeVerdictIsMonotone | src/hilrig/evaluation/common.py:124-134 | more evidence never withdraws a decided range verdict |
| Verdicts.TransitionVerdictIsSound | src/hilrig/evaluation/digital.py:114-132 | PASS and FAIL of a transition are sound over completions |
| Verdicts.TransitionIsForcedExactlyWhen | src/hilrig/evaluation/digital.py:114-132 | every completion makes the transition exactly when the two states are known in that order |
| Verdicts.TransitionIsPossibleExactlyWhen | src/hilrig/evaluation/digital.py:114-132 | some completion makes the transition exactly when two adjacent ticks allow it |
| Verdicts.TransitionVerdictIsConservative | src/hilrig/evaluation/digital.py:102-107 | the verdict stays INCONCLUSIVE although every completion makes the transition exactly when both states are known in order but nowhere on adjacent ticks |
| Verdicts.GapHidesForcedTransition | tests/test_evaluator.py:251-271 | an instance of that conservatism: low, unknown, high |
| Verdicts.TransitionVerdictIsMonotone | src/hilrig/evaluation/digital.py:82-132 | more evidence never withdraws a decided transition verdict |
| Evaluator.EvaluateAssertion | src/hilrig/evaluation/evaluator.py:32-40 | dispatch by kind and operation; verdict, counts and observation tell the truth about the stored rows, or the reason why it cannot be evaluated |
| Evaluator.EvaluateDigital | src/hilrig/evaluation/digital.py:19-148 | level and transition assertions: the verdict, the counts, the first failure and the observed levels are those of the stored rows |
| Evaluator.EvaluateAnalogue | src/hilrig/evaluation/analogue.py:19-84 | the five voltage assertions: the same, with the extremes and the first failing voltage |
| Evaluator.EvaluatePwm | src/hilrig/evaluation/pwm.py:21-114 | the six PWM assertions: the same, with the extremes and the first failing value, and a zero period as a violation |
| AssertionMeaning.DigitalOperations | src/hilrig/evaluation/digital.py:19-217 | RemainHigh passes exactly when every tick of the range is stored, measured and high, and fails exactly when one is measured low; RemainLow is the mirror image, StateAtTick the one-tick case, and a transition passes exactly when two adjacent measured ticks show it |
| AssertionMeaning.AnalogueOperations | src/hilrig/evaluation/analogue.py:19-193 | Near passes exactly when the measured voltage is within the tolerance of the target; Within, RemainWithin, RemainAbove and RemainBelow with their bounds |
| AssertionMeaning.PwmPointOperations | src/hilrig/evaluation/pwm.py:21-160 | the four point operations on a PWM input, with frequency as 10^9 over the period and duty cycle as permyriads over 10^4; no period, no pass |
| AssertionMeaning.PwmRangeOperations | src/hilrig/evaluation/pwm.py:162-242 | the two range operations likewise, at every tick of the range |
| AssertionMeaning.InconclusiveMeans | src/hilrig/evaluation/common.py:124-134 | INCONCLUSIVE: nothing measured speaks against the assertion, and some tick was not measured |
| AssertionMeaning.JudgedOnce | src/hilrig/evaluation/common.py:124-134 | the conditions for PASS and FAIL leave one verdict |
| AssertionMeaning.FaultMeans | src/hilrig/evaluation/registry.py:1-22 | which kind of input each operation is known for, and which complaint comes first |
| Evaluator.Evaluate | src/hilrig/evaluation/evaluator.py:17-72 | one outcome per assertion in order, each telling the truth about the stored rows, and the overall verdict, or the first fault; a live run is refused |
| Evaluator.OverallMeaning | src/hilrig/evaluation/evaluator.py:87-102 | overall PASS exactly for a complete run without fatal errors whose assertions exist and all pass; overall FAIL exactly when one fails |
| Evaluator.VerdictIsSound | src/hilrig/evaluation/evaluator.py:31-40 | for each of the fifteen operations PASS is true in every account of the inputs that agrees with the usable measurements, and FAIL in none |
| Evaluator.TestsAreTrue | src/hilrig/evaluation/digital.py:19-217 | the tests the handlers apply decide each of the fifteen operations as it is meant, on every account of the inputs |
| Evaluator.DeservedIsJudged | src/hilrig/evaluation/common.py:93-134 | the verdict stated through those tests is the one the stored rows deserve by the meaning of the operation |
| Evaluator.CountedCounts | src/hilrig/evaluation/common.py:93-134 | counting samples counts ticks: absent, unusable, usable and failing ones, with the least failing tick |
| Evaluator.DigitalLevelVerdictIsExact | src/hilrig/evaluation/digital.py:151-217 | for digital levels INCONCLUSIVE means that the assertion may be true and may be false |
| Evaluator.VoltageVerdictIsExact | src/hilrig/evaluation/analogue.py:119-193 | for voltages with a non-empty band verdicts are exact |
| Evaluator.WaveformVerdictIsExact | src/hilrig/evaluation/pwm.py:162-242 | for PWM tests that some measurement satisfies verdicts are exact |
| Evaluator.VerdictIsMonotone | src/hilrig/evaluation/evaluator.py:31-40 | replacing missing or unusable rows never turns PASS or FAIL into anything else, for every operation |
| Evaluator.OverallPassIsTrue | src/hilrig/evaluation/evaluator.py:87-102 | an overall PASS has assertions, a complete run, and every assertion true in every completion |
| Evaluator.OverallFailIsFalse | src/hilrig/evaluation/evaluator.py:87-102 | an overall FAIL has an assertion that is false in every completion |

## Left out

- The `hil_rig_protocol` Transport and codec: Transport is an environment, and a wire message is identified with what it encodes.
- Serial discovery, opening and settings, and `connect`.
- Connection.FixedIOProtocolConnection.ReadSerial: an invalid byte count and an exception of the serial port are one error, because both leave the connection as it was.
- Connection.FixedIOProtocolConnection.SendUpload: the clock is the number of the first call after which the deadline has passed; sleeping between calls is not modelled.
- Connection.FixedIOProtocolConnection.QueueUpload: errors of the native codec while encoding the messages, which leave the connection as it was.
- Information kept only for display: firmware and session information, the last response, workflow reports, messages, names, IDs drawn at random.
- The operating-mode hint passed to Transport, which no branch reads.
- In the connection an operation is a value inside its field, not a shared object; nothing else refers to it in the source.
- Lowering.BuildConfiguration: voltage levels, enabled flags and the input channels in the configuration message, because no stimulus depends on them; nor the builders' voltage-domain checks.
- PWM output states are array elements holding values, not objects; each is referred to only by its list.
- Arguments of I2C, SPI and UART operations and their role checks: one `Transfer` operation stands for all, and lowering filters it out.
- Rounding of Decimal and float: conversions, times, duty cycles and frequencies are exact.
- Voltage arguments of expectations are taken in microvolts, after conversion.
- SQL text, write-ahead logging, file creation and the reading of JSON arguments; a table is a map with a unique key.
- Database errors other than a repeated key: they roll back in the same way.
- Threads at the level of memory operations: a check, a put, each half of `finalize` and a turn of the writer are indivisible steps.
- A flush call's own waiting: `BatchWriter.Answer` says what it is told and when.
- Warnings of a report, exports to JSON, CSV, Markdown and Excel, and alternative assertion sets.
- Missing or ill-typed arguments of stored assertions, which the compiler never writes.
- Connection.FixedIOProtocolConnection.OfferReceived: terminates for a Transport whose OK answer takes at least one byte of a non-empty offer, because a Transport that answers OK and takes nothing makes the source loop forever.
- JoinedRun.CapturedTicksAreCounted: other producers submit no ticks, because the connection is the one producer of results.
