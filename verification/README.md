# Verified model of firew2oai

firew2oai sits between clients that speak the OpenAI Responses protocol and an upstream that only
streams text. This project models its state machines and text algorithms in Dafny and proves what
they promise.

| part | modules |
|---|---|
| string operations shared by all parts | `Text` |
| the thinking filter over upstream events | `ThinkingFilter` (values), `ThinkingScanner` (the mutable scanner), `ThinkingPhase`, `ThinkingLockstep`, `ThinkingContent`, `ThinkingLeak`, `ThinkingRechunk` |
| the Responses stream with empty-attempt retry | `StreamLifecycle`, `StreamTheorems`, `StreamDelivery`, `StreamAnswers` (values), `ResponsesStream` (the handler), `StreamCallback` |
| the execution policy | `PolicyModel`, `Deduplication`, `HistorySignals`, `HistoryMeaning`, `SignalsInvariant`, `CommandChooser`, `ExecutionPolicy`, `PolicyBuilder`, `PolicyMeaning`, `PolicyRewrite`, `PolicyRewriter`, `PolicySafety`, `PolicyGuard`, `PolicyEnforcement`, `ToolSequence` |
| runs of the execution policy | `PolicyRuns`, `ReadOnlyLiveness`, `BareFiles`, `InspectionPhase`, `InspectionRuns`, `AfterWrite` |
| the AI_ACTIONS protocol and JSON repair | `ActionsProtocol`, `ActionsRoundTrip`, `ActionsVariants`, `ActionsLastBlock`, `JsonScan`, `JsonRepair`, `JsonDepths`, `JsonRepairTheorems`, `JsonObject` |
| tool-result summaries and shell quoting | `ToolSummary`, `ToolSummaryRoundTrip`, `ToolSummaryReading`, `ShellQuote` |
| admission control | `RateLimit`, `Admission`, `AdmissionReports`, `TokenAuth` |
| the bounded response store | `ResponseState`, `Conversations`, `StreamedTurns` |
| keyword search and backoff | `WordSearch`, `Backoff` |

Code that changes state step by step is modelled by classes and loops, and each such method is
proved against a function on values; the theorems are about those functions. Runs of the policy
start from an empty history, or after the first write from any history with a write, and the client
executes each next command, which ends well or badly. Such runs exist for every task they are stated
for (`RunsEnding` in `ReadOnlyLiveness`, `InspectionRuns` and `AfterWrite`, `RunsAllowed` in
`BareFiles`). For a model held to one call at a time the client may instead execute whatever the rewrite
leaves (`PolicyEnforcement.ModelFollows`).

`dafny verify dfyconfig.toml` checks everything.

## Where the code does not do what one would expect

For each of these a lemma states exactly when it happens.

- Hiding the thinking is not complete: text in front of an opening tag that arrives in an untagged
  thinking phase is shown (`ThinkingLockstep.HiddenIsOutside`, `ThinkingLeak.LeakExample`). For the same reason
  cutting an event in two is visible in one situation (`ThinkingRechunk.RechunkedStream`,
  `ThinkingRechunk.LossExample`).
- A stream that stays empty and whose context is cancelled is left without a completion
  (`StreamTheorems.AnsweredExactly`).
- When the upstream is cut off and the client has left, the response is stored all the same, with the
  text up to the write that failed (`StreamDelivery.CutOffStored`).
- The object step of the JSON repair restores what was lost only where the last bracket closes an
  array directly inside the outermost object (`JsonRepairTheorems.ObjectClosersRestored`), and it would
  alter some intact texts (`JsonRepairTheorems.RepairOfMatched`). The source only calls it on texts that
  failed to decode.
- `extractJSONObject` ends at the last brace that closes at depth zero, not at the first, so two
  objects come back as one piece (`JsonObject.ExtractsExactlyObject`, `JsonObject.TwoObjectsMerge`).
- A line of a tool's output that starts with a header word does not survive the summary
  (`ToolSummaryRoundTrip.SummaryRoundTrip`).
- A read-only task that names nothing never leaves the first stage, and one whose required command
  keeps failing never reaches the last (`ReadOnlyLiveness.ReachesFinalize`). A bare file name and a
  failed test keep a task from its end as well, because reads of such a file are not recorded
  (`BareFiles.FinalizesExactly`, `BareFiles.BareFileExample`).
- A file whose read keeps failing is proposed for ever before the first write
  (`InspectionRuns.InspectionEndsExactly`), and a file that is only to be read is created by a touch
  when a read of it had failed before it succeeded (`InspectionRuns.SourceTouched`,
  `InspectionRuns.TouchExample`).
- A write task whose test fails after a write is only made to read its targets again; then the final
  stage is reached although nothing was repaired (`AfterWrite.GivesUpAfterRepair`), and never if a
  target has no directory part (`AfterWrite.FinalizesExactly`).
- A request that the rate limit turns away is told one unit of quota less than it has left
  (`AdmissionReports.ReportsExactly`).
- With no target files, or without the command tool, tests do pass while a write is pending
  (`PolicySafety.TestsHeldBackExactly`).

## Model

| member | source | states |
|---|---|---|
| ThinkingScanner.ThinkingScanState.EmitVisible | internal/proxy/hotpath.go:57-63 | empty text emits nothing; other text sets the emitted flag and reaches the consumer, whose answer is returned |
| ThinkingScanner.ThinkingScanState.HandleTagTurn | internal/proxy/hotpath.go:68-127 | one round of the tag loop on the mutable state: events, new flags and the text still to be scanned are those of the value-level round, cut short where the consumer refuses |
| ThinkingScanner.ThinkingScanState.HandleTagged | internal/proxy/hotpath.go:65-128 | the whole tag loop: what the consumer has seen and the final flags are those of the tag loop, up to the first refusal |
| ThinkingScanner.ScanContentEvent | internal/proxy/hotpath.go:260-299 | one content event: separator, tags, hidden buffer and plain text, with the consumer able to stop the scan |
| ThinkingScanner.FinishScan | internal/proxy/hotpath.go:247-258 | the done event: the hidden buffer is released only when nothing was marked or shown, then done is delivered; the content flag covers the released buffer exactly if the consumer took it, and there is an error only if the consumer refused nothing |
| ThinkingScanner.ScanSSEEvents | internal/proxy/hotpath.go:202-303 | the whole scan against any consumer: it has seen exactly the scan's events up to its first refusal; the content flag is that of the upstream events before the one of which it refused something, and the error is the scan's unless it refused something |
| ThinkingScanner.RefusedOnce | internal/proxy/hotpath.go:200-245 | there is at most one upstream event of which a consumer refuses something, so the content flag is determined |
| ThinkingScanner.DeliverIsPrefix | internal/proxy/hotpath.go:200-201 | a consumer that refuses an event has seen a prefix of what an accepting one sees |
| ThinkingFilter.ScanIsBodyThenEnd | internal/proxy/hotpath.go:215-302 | scanning event by event equals scanning the events before the first error or done event and then ending there |
| ThinkingFilter.HasContentIsSomeContent | internal/proxy/hotpath.go:200-303 | the returned content flag holds exactly when some content event was emitted |
| ThinkingLockstep.BodyLockstep | internal/proxy/hotpath.go:65-126 | for every list of events the hiding and the showing run pass through the same thinking states, and their events outside thinking are equal, in order; the hiding run emits nothing else exactly when no event leaks |
| ThinkingLockstep.HiddenIsOutside | internal/proxy/hotpath.go:247-300 | what hiding emits is what showing emits outside thinking if and only if the first event with a marker does not have an opening tag behind some text and before any closing tag; the condition is on the upstream events alone |
| ThinkingLockstep.Lockstep | internal/proxy/hotpath.go:247-303 | the same for whole scans, with the exact second exception: the buffer released by a done event after an unmarked, non-empty stream of a thinking model |
| ThinkingLockstep.UnmarkedTextsAgree | internal/proxy/hotpath.go:247-258 | if no separator and no tag appears and done arrives, both modes deliver the same text |
| ThinkingPhase.UntaggedPhase | internal/proxy/hotpath.go:215-302 | a thinking model is in its untagged thinking phase exactly while no separator and no tag has arrived, in both modes |
| ThinkingLeak.LeakExample | internal/proxy/hotpath.go:112-126 | the leak exists: with `abc<think>` as first event hiding delivers `abc` although showing marks it as thinking |
| ThinkingRechunk.ContentInPieces | internal/proxy/hotpath.go:264-299 | cutting one content event where no tag is cut leaves the characters, the separators and the observable state unchanged, in both modes, except for one characterised cut: there the whole emits the first piece and then what the two pieces emit |
| ThinkingRechunk.RechunkedStream | internal/proxy/hotpath.go:202-303 | inside any stream the cut changes neither characters nor separators, end or error, except hiding, before any marker, with text without a tag cut off in front of a piece whose first tag opens: uncut the client sees the first piece and then what it sees after the cut |
| ThinkingRechunk.LossExample | internal/proxy/hotpath.go:112-126 | the loss exists: `abcd<think>` in one event shows `abc` in front of what `abc` and `d<think>` show |
| ThinkingContent.PlainDelivered | internal/proxy/hotpath.go:202-303 | for a model without thinking, in both modes: exactly the contents that are neither empty nor the separator are delivered, in order, and then the end if it is reached |
| ThinkingContent.ShownText | internal/proxy/hotpath.go:54-127 | for a thinking model that shows: the client gets every character but those of the tags that count, in order, and a separator for each closing tag that ends the thinking and each separator event; tags are read character by character |
| ThinkingContent.HiddenText | internal/proxy/hotpath.go:54-127 | for one that hides: exactly the characters outside thinking, no separator, in front of them what leaks, and the whole text if the stream ends without any marker |
| ThinkingContent.ErrorReported | internal/proxy/hotpath.go:233-246 | an error event before the end is the error of the scan, with its error text, else its content, else a fixed message; otherwise the error is that of the reader |
| StreamLifecycle.DoneIsLast | internal/proxy/hotpath.go:247-258 | a scan delivers at most one done event, as its last event |
| StreamTheorems.SingleAttempt | internal/proxy/responses.go:2484-2665 | at most count retries are made; all text comes from the last attempt, and every earlier one sent the client nothing |
| StreamTheorems.WellFormedTrace | internal/proxy/responses.go:2473-2855 | for every sequence of upstream attempts the full trace is accepted by the lifecycle automaton (created, each item added before done in index order, completed last with exactly the done items, deltas not empty and together equal to the text) if and only if the stream is answered, that is, unless it stayed empty and was cancelled; otherwise only the prelude was sent |
| StreamTheorems.AnsweredExactly | internal/proxy/responses.go:2484-2855 | said of the upstream attempts: the trace is complete unless all attempts that were made emit nothing and the scan of the last one, or the wait for or opening of the next, is cancelled |
| StreamTheorems.RunCompletions | internal/proxy/responses.go:2496-2622 | each way of completing on done turns the open stream into a finished one with the parsed calls or the constrained text as output |
| ResponsesStream.Client.WriteMessageAdded | internal/proxy/responses.go:2062-2079 | the announcement and the open part are offered in order, and nothing after a failed write |
| ResponsesStream.Client.WriteMessageDone | internal/proxy/responses.go:2081-2098 | the final text and the done item are offered in order, and nothing after a failed write |
| ResponsesStream.Client.WriteCalls | internal/proxy/responses.go:2559-2583 | all items announced, then all done, then completed, for any client that may leave in between |
| ResponsesStream.Client.WriteCallsInTurn | internal/proxy/responses.go:2722-2738 | each item announced and done in turn, then completed |
| ResponsesStream.HandleDone | internal/proxy/responses.go:2493-2622 | the done callback: what is sent, and that the response is stored exactly when every write succeeded |
| ResponsesStream.HandleCutOff | internal/proxy/responses.go:2667-2765 | content without done: completed from what was received, stored in any case |
| ResponsesStream.HandleEmpty | internal/proxy/responses.go:2767-2850 | neither content nor done: an injected call, a fallback text or an error text, stored only if the client stayed |
| ResponsesStream.DeliverScan | internal/proxy/responses.go:2491-2640 | the callback over one scan: text and done flag of exactly the events up to the first write that fails, and what is stored |
| ResponsesStream.ScanAttempts | internal/proxy/responses.go:2484-2665 | the retry loop with a client that may leave: it has sent exactly what that many attempts send, ends with the report of the last scan, and for a client that left in between with the text and done flag of the events up to the write that failed |
| ResponsesStream.FinishStream | internal/proxy/responses.go:2484-2855 | the scans and what follows them, with what is stored for every client: a completion on done or a stand-in for an empty answer only if delivered, a cut-off answer always |
| ResponsesStream.HandleResponsesStream | internal/proxy/responses.go:2431-2855 | for every upstream and every number of writes the client takes, the client has received exactly that prefix of the full trace; what is stored is stated for every client, for a staying client of an answered stream it is the completed output |
| StreamCallback.CallbackSees | internal/proxy/responses.go:2491-2640 | with the handler's callback as its consumer the scanner delivers the events up to and including the first whose sending fails, and is refused nothing exactly if none fails |
| StreamCallback.ScanAttempt | internal/proxy/responses.go:2491-2640 | the mutable scanner run over one attempt with that callback: the events the handler is called for, and the report of the scan if no write fails |
| StreamDelivery.GoneForGood | internal/proxy/responses.go:2455-2471 | once a write has failed nothing further reaches the client |
| StreamDelivery.FinalOutput | internal/proxy/responses.go:2473-2855 | the output of the completed event is that of the completion the last scan led to |
| StreamDelivery.HeardUpToFailure | internal/proxy/responses.go:2491-2640 | the callback is called up to and including the first event whose write fails, and no further |
| StreamDelivery.LeavesWithText | internal/proxy/responses.go:2622-2640 | a client that leaves while a scan is delivered leaves at the done event or after some text was received |
| StreamDelivery.CutOffStored | internal/proxy/responses.go:2667-2765 | an answer that is cut off is stored for every client that did not leave during the prelude, built from the text up to the write that failed |
| StreamAnswers.CompletedOutput | internal/proxy/responses.go:2493-2850 | the output of an answered stream: the calls or the constrained text parsed from what the last attempt brought if it brought text or came to its end, otherwise the required call, the fallback or the text that says what failed |
| StreamAnswers.CallOrder | internal/proxy/responses.go:2559-2583 | calls parsed on the done event are all announced before the first is done, calls parsed after a cut-off one by one, and the completion with all of them comes last |
| StreamAnswers.LeavingStored | internal/proxy/responses.go:2493-2850 | for a client that leaves: nothing is stored if it left during the prelude, at the done event or without text, otherwise the answer to the text up to the write that failed |
| HistorySignals.Collector.RecordCommandResult | internal/proxy/execution_policy.go:1023-1048 | the new signals after a result: tests succeed only when known to, other commands unless known to fail; read positions, outputs, empty reads and the last failed test are recorded |
| HistorySignals.History.ObserveCall | internal/proxy/execution_policy.go:857-902 | one call: counts, positions, and the tables by call id |
| HistorySignals.History.ObserveSessionOutput | internal/proxy/execution_policy.go:960-978 | a write_stdin output reports on the command of its session when the process has exited |
| HistorySignals.History.ObserveCommandOutput | internal/proxy/execution_policy.go:979-1003 | a command output starts a running session or records a result |
| HistorySignals.CollectExecutionHistorySignals | internal/proxy/execution_policy.go:826-1021 | the loop over the history computes the fold of its items, with results deduplicated and the latest still running session |
| SignalsInvariant.CollectedSound | internal/proxy/execution_policy.go:826-1048 | for every history: results belong to commands that were run, successes and failures together are the results, empty reads succeeded, the last write is a position of a mutation, the last failed test one of a failed test, each read position one of a read of that file, and there are at least as many tool calls as reads, tests and writes together |
| HistoryMeaning.CountsExactly | internal/proxy/execution_policy.go:826-945 | for every history: the tool calls, tests, reads and writes are counts of its items (a write is a call of a mutation tool or the run of a command that writes), the commands are those that were run, in order, and the last write is the last run that writes |
| HistoryMeaning.ResultsExactly | internal/proxy/execution_policy.go:946-1049 | for every history, by looking back from each output to the call or the session it belongs to: the commands with a result, the successful, failed and empty ones, the last failed test, the last reads, the last texts and the running session; the exit of a session is the result of its command |
| Deduplication.DedupePreserveOrder | internal/proxy/task_intent.go:1628-1647 | the loop with its seen set of lower-cased keys computes the deduplicated texts |
| Deduplication.DedupedTextsKept | internal/proxy/task_intent.go:1628-1647 | every text kept is the trimmed form of a listed one and not blank, no two are equal up to case, and each text that is not blank is kept up to case |
| Deduplication.DedupedAsValues | internal/proxy/task_intent.go:1628-1647 | the list is the one without repeated values if and only if all texts are trimmed and not blank and none differ only in case |
| Deduplication.DedupedKeepsFirst | internal/proxy/task_intent.go:1628-1647 | deduplication by value keeps each first occurrence, in order, and extends as the list grows |
| ToolSequence.NextUnmetExplicitTool | internal/proxy/execution_policy.go:2631-2650 | matching greedily finds the longest prefix of the explicit tools that occurs in order among the observed ones, and returns the tool behind it |
| PolicyBuilder.MergeExecutionSequenceFiles | internal/proxy/execution_policy.go:214-235 | the mentioned files, then the targets not among them, in order and once each |
| PolicyBuilder.CountScaffoldCreateForFile | internal/proxy/execution_policy.go:2201-2217 | the number of scaffolding commands that mention the file |
| PolicyBuilder.CollectMissingRequiredFiles | internal/proxy/execution_policy.go:2219-2234 | the targets whose read failed and that nothing read or changed successfully |
| PolicyBuilder.CollectEmptyRequiredFiles | internal/proxy/execution_policy.go:2236-2251 | the targets read as empty and not changed successfully |
| PolicyBuilder.CollectRepeatedScaffoldFiles | internal/proxy/execution_policy.go:2253-2265 | the targets scaffolded at least twice |
| PolicyBuilder.DecideDemand | internal/proxy/execution_policy.go:139-166 | the next command, the pending write and the explicit tool after seed, guard, repair and mutation-tool revision, in that order |
| PolicyBuilder.BuildExecutionPolicyWithCatalog | internal/proxy/execution_policy.go:83-212 | the assignments in order build the policy, all fields included |
| PolicyMeaning.NoPolicy | internal/proxy/execution_policy.go:83-100 | a task that uses no tools has no policy, and its batches are left alone |
| PolicyMeaning.PollingEnforced | internal/proxy/execution_policy.go:124-137 | while a command runs in a session and its output can be asked for, the poll is all that is left of any batch, unless the batch is just that |
| PolicyMeaning.PendingExactly | internal/proxy/execution_policy.go:145-165 | when a write is pending: exactly in a write task with nothing written or a test failed since, unless the guard has answered, or after a failed test there is nothing to read again and no mutation next |
| PolicyMeaning.StageExactly | internal/proxy/execution_policy.go:181-201 | each stage exactly by tool calls, pending write, next command and explicit tool; a tool is required in every stage but the last; the read loop is reported from the second read on |
| PolicyMeaning.OwnCallExactly | internal/proxy/execution_policy.go:202-209 | the call of the policy itself: the explicit one, or the next command in the verify stage, or in the explore stage for a task that need not write and a model held to one call |
| PolicyMeaning.ToolExactly | internal/proxy/execution_policy.go:150-168 | the explicit tool is dropped exactly when the guard has answered, or when it is a mutation tool, nothing was written and the next command reads |
| PolicyMeaning.FilesExactly | internal/proxy/execution_policy.go:107-121 | the targets, and the files in inspection order: those the task names, then each target it does not, once |
| PolicyMeaning.NextExactly | internal/proxy/execution_policy.go:139-165 | the next command is the seed where it is due and what is chosen otherwise, nothing once the guard has answered; after a failed test only a mutation comes before the first target that has not been read since |
| PolicyMeaning.SeedExactly | internal/proxy/execution_policy.go:1655-1674 | where the chooser proposes something else the seed command is next if and only if there are targets, a target or another file was read successfully, no write is still good, and nothing was written yet or a target is missing, empty or scaffolded; not after the guard, and after a failed test only if it changes files |
| PolicyMeaning.SeedAfterRead | internal/proxy/execution_policy.go:1655-1674 | in every history of a write task without a write or a failed test, once a target is read the seed is next |
| PolicyMeaning.ReadOnlyChoice | internal/proxy/execution_policy.go:1150-1228 | outside write tasks: the first unread file, then the first required command still to be run, then nothing, or the first unseen file if nothing is required |
| PolicyMeaning.AfterWriteChoice | internal/proxy/execution_policy.go:1140-1228 | after the first write: the first file not read since a failed test, else the first required command still to be run, else the first unseen file if nothing is required |
| PolicyMeaning.InspectionChoice | internal/proxy/execution_policy.go:1114-1149 | before the first write, in this order: the first source left, the listing or the reference of the first style not done, the first scaffolded file not read, the first file that lacks, which is created, the first file not read |
| PolicyGuard.ReportsExactly | internal/proxy/execution_policy.go:2219-2320 | the missing, empty and repeatedly scaffolded targets and whether all were looked at, on the commands of the signals |
| PolicyRewriter.ShouldRewriteReadOnlyCallsToNext | internal/proxy/execution_policy.go:582-603 | true exactly when there is a next command, there are calls, all of them only read, and none runs the next command |
| PolicyRewriter.ShouldRewriteMutationCallsToNext | internal/proxy/execution_policy.go:628-656 | true exactly when the next command is a mutation, all calls mutate, and none runs the next command |
| PolicyRewriter.ShouldRewriteSequentialExecCallsToNext | internal/proxy/execution_policy.go:605-626 | true exactly when all calls read, test or report a guard failure, and none runs the next command |
| PolicyRewriter.ShouldAdvanceExplicitRequiredCommand | internal/proxy/execution_policy.go:787-810 | true exactly when all calls only read, none runs the next command, and one repeats a seen command |
| PolicyRewriter.ApplyExecutionPolicyToParseResult | internal/proxy/execution_policy.go:330-480 | the branches in order compute the rewritten batch, all fields included |
| PolicySafety.NextIsNoTest | internal/proxy/execution_policy.go:146-163 | for every history, while a write is pending the next command is not a test |
| PolicySafety.NoTestWhilePending | internal/proxy/execution_policy.go:330-480 | for every history and batch, while a write is pending with target files, no explicit tool and the command tool at hand, the rewritten batch runs no test |
| PolicySafety.TestsHeldBackExactly | internal/proxy/execution_policy.go:495-543 | the exact condition: every batch is kept free of tests if and only if there are target files and the command tool is available |
| PolicySafety.SilentGuard | internal/proxy/execution_policy.go:495-543 | where the guard says nothing there is no test among the calls |
| PolicySafety.GuardEndsWrite | internal/proxy/execution_policy.go:147-152 | once the inspection guard is in the history no write is pending, whatever else happened |
| PolicySafety.PendingAtFirst | internal/proxy/execution_policy.go:146-147 | a write is pending from the first turn of every write task |
| PolicySafety.MissingAreNotEmpty | internal/proxy/execution_policy.go:2219-2251 | in every history no file is reported both as missing and as empty |
| PolicyGuard.ForbiddenHeldBack | internal/proxy/execution_policy.go:495-572 | for every history and batch while a write is pending: no call that is left, other than one of the next command, runs a test, reads though a target is empty or scaffolded twice or all were seen with nothing written, scaffolds such a target again, or changes only files that are no targets |
| PolicyGuard.OffenceAnswered | internal/proxy/execution_policy.go:495-580 | the first forbidden call is what the whole batch is answered for: by the next command where that comes first or the call is a test, otherwise by the refusal that fits, naming the files concerned |
| PolicyGuard.CleanBatch | internal/proxy/execution_policy.go:352-480 | while a write is pending a batch without a forbidden call gives way to the next command under stated conditions on its calls, and is kept otherwise |
| PolicyEnforcement.RewriteShape | internal/proxy/execution_policy.go:330-480 | for every batch and policy: the calls are kept as they are, all dropped in the final stage, or all replaced by one call of the policy, without visible text and as a tool call that was found |
| PolicyGuard.RewriteExactly | internal/proxy/execution_policy.go:330-493 | without a pending write, for every policy and batch: kept, emptied, replaced by the policy's own call or by the next command, with the exact condition for each on the calls |
| PolicyGuard.OtherwiseKept | internal/proxy/execution_policy.go:330-493 | where commands cannot be run or a tool is demanded, only the policy's own call and the final stage change a batch |
| PolicyGuard.CallKinds | internal/proxy/execution_policy.go:2445-2580 | which calls only read, which change files and which commands can be done later, by tool name and command |
| PolicyEnforcement.NextCommandEnforced | internal/proxy/execution_policy.go:347-357 | where the policy insists, every batch becomes exactly one call that runs the next command |
| PolicyEnforcement.StrictTurn | internal/proxy/execution_policy.go:330-493 | for a model held to one call at a time, and for all outcomes, every turn of a read-only run executes exactly the next command whatever the model asks, and the final stage drops every call |
| PolicyEnforcement.ModelFollows | internal/proxy/execution_policy.go:330-493 | for such a model and any batch in every turn, executing what the rewrite leaves gives the same history as a client that runs the next commands |
| PolicyEnforcement.ModelReachesFinalize | internal/proxy/execution_policy.go:330-493 | so whatever the model asks for in any turn, the final stage is reached if and only if from some turn on the run is neither stuck nor repeats a failing command |
| PolicyRuns.TurnCollected | internal/proxy/execution_policy.go:826-1048 | how one executed command changes the collected signals of any history, field by field |
| ReadOnlyLiveness.BuiltReadOnly | internal/proxy/execution_policy.go:139-195 | the next command and the stage of a read-only task |
| ReadOnlyLiveness.ChosenCases | internal/proxy/execution_policy.go:1162-1198 | what is chosen is an unread file or a required command that has neither succeeded nor is a failed test; if nothing is chosen, every file has been read or is read by a required command, and every required command is resolved or a failed test |
| ReadOnlyLiveness.MeasureDrops | internal/proxy/execution_policy.go:156-163 | every executed turn lowers the lexicographic measure (files and commands still open, files not read since the last failed test), unless a required command failed or a file is read again whose reads are not recorded |
| ReadOnlyLiveness.ReachesFinalize | internal/proxy/execution_policy.go:139-195 | for all outcomes: from an empty history the final stage is reached if and only if the task names a file or a command and from some turn on no required command but a test fails and no turn is stuck re-reading a file without a directory part |
| ReadOnlyLiveness.EndsInTime | internal/proxy/execution_policy.go:139-195 | if that holds from the first turn on, the final stage is reached within the stated bound |
| ReadOnlyLiveness.FinalizeMeansDone | internal/proxy/execution_policy.go:139-195 | for all outcomes: in the final stage every file has been read, every required command has succeeded, is a failed test, or failed where nothing at all succeeded, and the targets have been read since a failed test that no write followed |
| BareFiles.FinalizesUnlessStuck | internal/proxy/execution_policy.go:139-195 | if no required command but a test fails, the final stage is reached, and within the bound, if and only if the run is never stuck: a stuck run stays stuck |
| BareFiles.FinalizesExactly | internal/proxy/execution_policy.go:1026-1028 | for all outcomes, a task that only reads and tests reaches the final stage if and only if all required files have a directory part or no test ever fails, and from some turn on no required command but a test fails |
| BareFiles.BareFileNeverFinalizes | internal/proxy/execution_policy.go:1026-1028 | for all outcomes of such a task, a required file without a directory part keeps the final stage from being reached once a test has failed |
| BareFiles.NoTestFails | internal/proxy/execution_policy.go:1091-1198 | where no test is required no test ever fails, for all outcomes |
| BareFiles.BareFileExample | internal/proxy/execution_policy.go:1026-1028 | a task that names `README.md` and requires a failing test never reaches the final stage |
| AfterWrite.BuiltWritten | internal/proxy/execution_policy.go:139-195 | after a write: the next command is what remains or, after a failed test, a target to be read again, and the final stage is reached exactly when there is none |
| AfterWrite.LeftDrops | internal/proxy/execution_policy.go:1155-1198 | every executed turn leaves less, unless a required command but a test failed or a target is read again whose reads are not recorded |
| AfterWrite.FinalizesExactly | internal/proxy/execution_policy.go:139-195 | for all outcomes: after a write the final stage is reached if and only if all targets have a directory part or no test ever fails after the last write, and from some turn on no required command but a test fails |
| AfterWrite.EndsInTime | internal/proxy/execution_policy.go:139-195 | if no required command but a test fails, and if targets have a directory part, within one turn per required command, file and target; if no test fails, within one per required command and file |
| AfterWrite.FinalizeMeansDone | internal/proxy/execution_policy.go:1174-1192 | in the final stage every required command is resolved and, without any, every file seen; after a failed test the targets have been read again |
| AfterWrite.GivesUpAfterRepair | internal/proxy/execution_policy.go:146-163 | after a write and a test that failed since, the final stage is reached if and only if every target has been read again, with the test still failing |
| AfterWrite.GivesUpExample | internal/proxy/execution_policy.go:146-163 | a history with a write, a failed test and the target read again is such a one |
| AfterWrite.BareTargetExample | internal/proxy/execution_policy.go:1229-1237 | with a target without a directory part the same history never reaches the final stage |
| InspectionPhase.BuiltInspecting | internal/proxy/execution_policy.go:130-205 | before the first write the policy proposes the next inspection command and holds the write pending |
| InspectionPhase.FileStep | internal/proxy/execution_policy.go:1114-1153 | one command spends the weight of the file it is for and adds to no other file's, unless a listing, a source read or the read of a created file fails |
| InspectionRuns.InspectionEnds | internal/proxy/execution_policy.go:1114-1153 | if listings, reads of sources and reads of created files succeed, the inspection stops within the bound: from then on nothing is proposed and the write is pending |
| InspectionRuns.InspectionEndsExactly | internal/proxy/execution_policy.go:1114-1153 | for all outcomes: the inspection comes to wait for the write if and only if every source and target is read successfully at some turn and every style listed at some turn |
| InspectionRuns.SourcesDecide | internal/proxy/execution_policy.go:1114-1123 | if listings and reads of created files succeed, it does if and only if every source is read successfully at some turn |
| InspectionRuns.PendingThroughout | internal/proxy/execution_policy.go:146-147 | for all outcomes the write is pending in every turn of the inspection |
| InspectionRuns.FileShare | internal/proxy/execution_policy.go:1114-1153 | unless a listing, a source read or the read of a created file fails: at most one read per source and at most three commands per target, at every point of every run |
| InspectionRuns.ListedOnce | internal/proxy/execution_policy.go:1239-1246 | under the same condition each style is listed at most once |
| InspectionRuns.ReferenceReads | internal/proxy/execution_policy.go:1247-1264 | for all outcomes: at most one reference is read per style, counting those that can still be read |
| InspectionRuns.InspectionComplete | internal/proxy/execution_policy.go:1114-1153 | for all outcomes: when nothing is proposed any more, every source and target has been read successfully and every style listed |
| InspectionPhase.FailedSourceHoldsBack | internal/proxy/execution_policy.go:1114-1122 | a source whose read failed and never succeeded makes the next command a read of a source |
| InspectionRuns.SourceTouched | internal/proxy/execution_policy.go:1135-1145 | for all outcomes: by the end of the inspection a file that is only to be read has been created by a touch if and only if a read of it had failed and no read of it was empty |
| InspectionRuns.BrokenRunGoesOn | internal/proxy/execution_policy.go:1114-1123 | if nothing succeeds, a task that names a file never comes to its write |
| InspectionRuns.TouchExample | internal/proxy/execution_policy.go:1135-1145 | a source whose read fails once and then succeeds is created by the next command |
| JsonRepair.ScanTrailingJSONClosers | internal/proxy/tool_protocol.go:523-581 | succeeds exactly when the text ends, outside strings, in a brace with array closers missing; then it gives their number and the place before the brace |
| JsonRepair.InsertMissingArrayClosers | internal/proxy/tool_protocol.go:515-521 | inserts the missing array closers before the last brace where they are missing, and changes nothing else |
| JsonRepair.RepairAIActionsJSON | internal/proxy/tool_protocol.go:472-513 | the array step followed by the loop computes the array step followed by the object step |
| JsonDepths.ArrayStepExactly | internal/proxy/tool_protocol.go:515-581 | for every text: if it ends outside strings in a brace and white space, the closers of the open arrays go in front of that brace, otherwise it is left alone |
| JsonDepths.ObjectStepExactly | internal/proxy/tool_protocol.go:472-513 | for every text: in front of its last bracket go the closers of all but one of the objects open there, unless it stands in a string |
| JsonDepths.ClampedSurplus | internal/proxy/tool_protocol.go:479-506 | the depth of either bracket as the repair counts it is the greatest surplus of openers over closers in any ending of the text |
| JsonDepths.StringSkipped | internal/proxy/tool_protocol.go:482-497 | a string with any text in it, escaped, leaves the scan as it was |
| JsonDepths.PlainCounts | internal/proxy/tool_protocol.go:498-506 | outside strings the depths change by the openers minus the closers |
| JsonRepairTheorems.RepairOnlyInserts | internal/proxy/tool_protocol.go:472-521 | on every input the repair only inserts `]` and `}` |
| JsonRepairTheorems.ArrayStepIdempotent | internal/proxy/tool_protocol.go:515-521 | after the array step no array closer is missing |
| JsonRepairTheorems.ArrayClosersRestored | internal/proxy/tool_protocol.go:472-521 | dropping the array closers in front of the final brace of any text whose depths match is undone exactly |
| JsonRepairTheorems.ObjectClosersRestored | internal/proxy/tool_protocol.go:472-513 | dropping the object closers in front of the last bracket is undone exactly if and only if that bracket lies outside strings at brace depth one |
| JsonRepairTheorems.RepairOfMatched | internal/proxy/tool_protocol.go:472-521 | a text whose depths match is left alone if and only if its last bracket is not inside more than one open object |
| JsonRepairTheorems.IntactTextAltered | internal/proxy/tool_protocol.go:472-513 | an intact text that the repair would alter |
| JsonObject.ExtractJSONObject | internal/proxy/responses.go:1458-1500 | the loop finds the text from the first opening brace to the last brace outside strings that closes at depth zero |
| JsonObject.ResultIsBalanced | internal/proxy/responses.go:1458-1500 | any result lies in the text, starts and ends with a brace and has net depth zero outside strings |
| JsonObject.ExtractsObject | internal/proxy/responses.go:1458-1500 | behind a prefix without a brace, the result is the object together with the suffix up to its last closing at depth zero |
| JsonObject.ExtractsExactlyObject | internal/proxy/responses.go:1458-1500 | exactly the object comes back if and only if no brace of the suffix closes at depth zero; in particular for a suffix without `}` |
| JsonObject.NoResult | internal/proxy/responses.go:1458-1463 | there is no result exactly when no brace closes at depth zero from the first opening brace on |
| JsonObject.TwoObjectsMerge | internal/proxy/responses.go:1489-1494 | two objects with narration between them come back as one piece |
| ActionsProtocol.FindNextAIActionsStartMarker | internal/proxy/tool_protocol.go:192-201 | the leftmost start marker, the full one where both match |
| ActionsProtocol.FindNextAIActionsEndMarker | internal/proxy/tool_protocol.go:393-403 | the leftmost end marker of the three, the full one where several match |
| ActionsProtocol.FindAIActionsStartMarker | internal/proxy/tool_protocol.go:180-190 | the last start marker, the full one where both are found last |
| ActionsProtocol.ExtractAIActionsBlock | internal/proxy/tool_protocol.go:140-166 | the trimmed text before and the trimmed payload between the last markers, if nothing but white space follows and the payload is not blank |
| ActionsProtocol.ExtractSequentialAIActionsBlocks | internal/proxy/tool_protocol.go:366-391 | the cursor loop returns the blocks of the text in order, trimmed, blank payloads dropped |
| ActionsVariants.VariantRoundTrip | internal/proxy/tool_protocol.go:366-403 | blocks written with any of the start and end markers, none of them extended by what follows, come back trimmed and in order |
| ActionsLastBlock.LastBlockExactly | internal/proxy/tool_protocol.go:140-190 | the last-marker extractor on every text with markers: the parts around the last start marker and the last end marker, whole before curly before short, if only white space is behind and a payload between them, otherwise nothing |
| ActionsLastBlock.NoMarkerNoBlock | internal/proxy/tool_protocol.go:140-190 | without a start or an end marker there is no block |
| ActionsRoundTrip.RoundTrip | internal/proxy/tool_protocol.go:366-403 | printing any list of separable blocks and a tail without a start marker, and extracting, gives the trimmed blocks in order |
| ActionsRoundTrip.RoundTripExactly | internal/proxy/tool_protocol.go:366-403 | where no payload is blank and the tail has no start marker, the trimmed blocks come back in order if and only if every block is separable |
| ActionsRoundTrip.ExtractedClean | internal/proxy/tool_protocol.go:366-391 | from any text: extracted blocks are trimmed, have a payload, and contain no marker of their own |
| ActionsRoundTrip.ReprintStable | internal/proxy/tool_protocol.go:366-391 | extracting, printing and extracting again changes nothing, for every text |
| ActionsRoundTrip.LastBlockRead | internal/proxy/tool_protocol.go:140-190 | the last-marker extractor returns a printed block that only white space follows, whatever comes before it |
| ActionsRoundTrip.ExtractorsAgree | internal/proxy/tool_protocol.go:140-201 | on one separable block the two extractors agree |
| ToolSummary.ParseToolResultSummaryDetails | internal/proxy/responses.go:980-1039 | the line loop computes the parsed details |
| ToolSummaryRoundTrip.SummaryRoundTrip | internal/proxy/responses.go:857-888 | reading a written summary gives back call id, success, session id and text if and only if something is present, the call id is trimmed without `)` or a line break, the session id is one line, and no line of the text starts with a header word |
| ToolSummaryRoundTrip.HeaderRead | internal/proxy/responses.go:988-991 | the call id pattern finds in the header exactly the call id written there |
| ToolSummaryRoundTrip.HeaderVariant | internal/proxy/responses.go:891-891 | the first parenthesis that holds a call id gives it back trimmed, with white space in the parenthesis and any text around it |
| ToolSummaryReading.SummaryRead | internal/proxy/responses.go:981-1041 | a summary with any command, success, session and exit code lines in any order and a text without header lines is read as the last command and session, the text, and the success that its last success line or exit code says; an exit code of zero is a success |
| ToolSummaryReading.InlineOutput | internal/proxy/responses.go:1021-1026 | the output may start on its header line, which is then its first line |
| ToolSummaryReading.BlankLine | internal/proxy/responses.go:1001-1003 | a blank line is skipped before the output and kept in it |
| ToolSummaryReading.AtoiRead | internal/proxy/responses.go:1015-1020 | a number is read back from its decimal text exactly if it fits 64 bits |
| ToolSummaryRoundTrip.ParseShape | internal/proxy/responses.go:980-1039 | whatever is read, the call id is trimmed and has no `)` or line break, and the session id is one line |
| ShellQuote.BuildQuoteANSI | internal/proxy/execution_policy.go:3439-3460 | the rune loop builds the quoted text |
| ShellQuote.QuotingRoundTrip | internal/proxy/tool_protocol.go:968-970 | both quotings are one shell word whose value is the text |
| ShellQuote.SingleQuotedIsLiteral | internal/proxy/tool_protocol.go:968-970 | single-quoted text appended to any word reads back as itself, whatever follows |
| ShellQuote.DollarQuotedIsLiteral | internal/proxy/execution_policy.go:3439-3460 | the same for dollar-single quotes |
| ShellQuote.CommandWords | internal/proxy/tool_protocol.go:972-981 | read and list commands split into their fixed words and the path, for every path |
| WordSearch.FindTaskKeywordIndex | internal/proxy/task_intent.go:1100-1123 | the least whole-word occurrence although rejected hits are skipped by a whole keyword; the plain first occurrence for other keywords |
| WordSearch.FindAllTaskKeywordIndices | internal/proxy/task_intent.go:1125-1141 | the ascending list of exactly all whole-word occurrences although boundaries are tested on slices; the disjoint occurrences for other keywords |
| WordSearch.OverlapRejected | internal/proxy/task_intent.go:1118-1121 | an occurrence overlapping an earlier one is never a whole word, so skipping is safe |
| WordSearch.SliceBoundaries | internal/proxy/task_intent.go:1130-1139 | where the search resumes, boundaries on the slice are boundaries in the text |
| TokenAuth.Bucket.Take | internal/tokenauth/tokenauth.go:89-104 | refill for the whole windows passed, then take one token |
| TokenAuth.RateLimiter.Allow | internal/tokenauth/tokenauth.go:75-105 | one request of one key changes only its bucket, as the specified verdict says |
| TokenAuth.RateLimiter.Cleanup | internal/tokenauth/tokenauth.go:109-120 | exactly the buckets older than the given age are dropped |
| TokenAuth.TokenState.Reserve | internal/tokenauth/tokenauth.go:364-395 | quota, then rate, then the usage counter, for one key |
| TokenAuth.Manager.CheckAndReserve | internal/tokenauth/tokenauth.go:356-396 | one request on the whole manager: its result and the new state of every key |
| TokenAuth.Manager.CleanupTick | internal/tokenauth/tokenauth.go:252-268 | one tick sweeps every key's buckets and nothing else |
| TokenAuth.New | internal/tokenauth/tokenauth.go:202-236 | a manager from parsed configurations, or the first error in them |
| RateLimit.SlidingWindow | internal/tokenauth/tokenauth.go:75-120 | in every closed interval of length L one key is granted at most rate × (ceil(L/window) + 1) requests, for every monotone clock and interleaving of cleanup ticks |
| RateLimit.BoundAttained | internal/tokenauth/tokenauth.go:75-105 | for every rate, window and length some schedule attains that bound |
| RateLimit.PotentialFalls | internal/tokenauth/tokenauth.go:89-97 | as time passes without a request the remaining potential never grows |
| RateLimit.SweepFalls | internal/tokenauth/tokenauth.go:109-120 | a cleanup tick never increases the potential |
| Admission.RequestConserves | internal/tokenauth/tokenauth.go:356-396 | a request is admitted exactly when the key is known, has quota and finds a token; it then takes one quota unit and one token, a rejection takes neither, other keys are untouched |
| AdmissionReports.ReportsExactly | internal/tokenauth/tokenauth.go:356-396 | every field of the result: the quota and what is left of it, one less than is left when the rate limit turns the request away; the rate limit, the tokens left, and the time at which they are full again and before which they do not change |
| AdmissionReports.SweptExactly | internal/tokenauth/tokenauth.go:109-120 | a cleanup tick forgets exactly the buckets without a refill for more than two windows and changes nothing else |
| AdmissionReports.SetupBad | internal/tokenauth/tokenauth.go:201-237 | the error of a configuration is that of its first key with a problem, given well-formed ones before it |
| AdmissionReports.KeyEntry | internal/tokenauth/tokenauth.go:201-237 | a configured key starts unused, with its own rate, or else the global one, or no limiter |
| Admission.UsedIsAdmissions | internal/tokenauth/tokenauth.go:356-396 | over any run `used` is the number of admissions, and a metered key is never admitted beyond its quota |
| Admission.AdmissionsAreGrants | internal/tokenauth/tokenauth.go:372-390 | the admissions of a limited key are its limiter's grants |
| Admission.AdmissionWindow | internal/tokenauth/tokenauth.go:356-396 | the sliding-window bound for admissions |
| Admission.SetupGood | internal/tokenauth/tokenauth.go:202-233 | a configuration is taken exactly when its keys are non-empty and distinct and nothing is negative |
| Admission.FreshManagerRun | internal/tokenauth/tokenauth.go:143-396 | all bounds together for a freshly configured manager and any run |
| ResponseState.ResponseStore.constructor | internal/proxy/response_state.go:28-37 | an empty store; a non-positive size means 1024 entries |
| ResponseState.ResponseStore.Put | internal/proxy/response_state.go:39-61 | the ordered list after a put: a foreign id changes nothing, an own id is overwritten in place, a new one is appended and the oldest evicted |
| ResponseState.ResponseStore.Get | internal/proxy/response_state.go:63-81 | an entry is found exactly for its owner |
| ResponseState.ResponseStore.Evict | internal/proxy/response_state.go:102-109 | exactly the most recent insertions remain |
| ResponseState.StoreIsRecentInsertions | internal/proxy/response_state.go:39-109 | after any run of puts: no duplicates, at most the maximum, exactly the most recently first-inserted ids in order, each with its owner's latest value |
| ResponseState.OwnersIsolated | internal/proxy/response_state.go:46-50 | a put under another owner's id changes nothing and a get never crosses owners |
| Conversations.HistoriesAreConversations | internal/proxy/responses.go:2234-2244 | however turns begin and finish in between each other: every stored history is the concatenation of all turns of its conversation, all by one owner, even after the ancestors were evicted, and every turn in progress has read the conversation it continues |
| Conversations.ContinuationStored | internal/proxy/responses.go:2236-2244 | a turn that continues a stored response of its owner is stored with that history extended when it finishes, whatever other turns do in between |
| StreamedTurns.StreamTurn | internal/proxy/responses.go:2431-2855 | a turn answered by a stream and put into the store: what the client receives, and the new contents of the store for every client |
| StreamedTurns.StayingStored | internal/proxy/responses.go:2473-2855 | for a client that stays, what is stored of an answered stream is the output of its completed event |
| StreamedTurns.StreamedConversations | internal/proxy/responses.go:2234-2855 | however turns begin and are streamed in between each other, whichever clients leave and whatever is evicted: every stored history is a whole conversation of one owner, each turn of which is the items of its request and the output its own stream has left, for a client that stayed the one it was sent as completed |
| Backoff.Delay | internal/proxy/upstream_retry.go:50-65 | min(base × 2^attempt, 30 s) for every base and attempt, every intermediate value fitting a 64-bit duration |
| Backoff.BoundedExponentialDelay | internal/transport/transport.go:332-350 | the same, except that the first attempt's delay is not capped here |
| Backoff.RetryDelayForError | internal/transport/transport.go:320-330 | the longer of the doubled backoff and Retry-After, capped |
| Backoff.WaitExactly | internal/transport/transport.go:320-331 | a wait is the longer of the backoff and what the server asks for, and the cap exactly where that is longer |
| Backoff.RetriedExactly | internal/transport/transport.go:300-318 | tried again are 429, 500, 502, 503, 504 and failed sends with a live context, as long as attempts are left |
| Backoff.WaitsAgree | internal/transport/transport.go:320-350 | without a longer Retry-After both loops wait equally long |
| Backoff.StreamPost | internal/transport/transport.go:202-222 | at most count + 1 attempts, stopping at the first that is opened, not transient or interrupted, each wait as specified |
| Backoff.TotalWaitBounded | internal/transport/transport.go:202-222 | all waits of one call together last at most count × 30 s |

## Left out

- Text positions count code points where Go counts bytes; the two differ only for text outside ASCII, and every length the code computes on such text is relative to a match of ASCII text, except that a header word of a summary written with the Kelvin sign or a dotted capital I would be cut at another byte.
- Lower-casing is modelled for the characters whose lower case is an ASCII letter, which is all that the comparisons with header words, tool names and file suffixes depend on.
- The execution policy's commands are values with their classes, the paths they mention and the paths recognised in them, not command lines: the regular expressions and token lists that classify a command line are not modelled, and no path is taken to be a substring of another or to contain a command word such as `apply_patch`.
- The lists of the policy are deduplicated as values; the code compares them trimmed and without case, which is the same on the lists that `Deduplication.DedupedAsValues` describes.
- What the task extractors find (required files and commands, style globs, explicit tools, write intent), the seed command, the calls built for explicit tools and the polling call are inputs.
- Runs with an explicit tool, a seed command, a session still running, or a client that neither executes the next command nor what the rewrite leaves of a strict model's batch: single turns of them are modelled and rewritten, but the run theorems do not speak about them.
- Decoding and encoding of JSON, SSE framing and HTTP: items, events and configurations are taken as decoded.
- Server-side web search, whose message item reuses output index 0.
- The text produced by the output constraints, and how the model's buffered text is parsed into calls in the stream lifecycle: both are functions of the text there.
- Chat streaming in `proxy.go`, the non-streaming handlers, middleware, metrics, flags, TLS and whitelists.
- The limiter and the manager after `Stop`, their background goroutines as such, and one call reading the clock twice: a call has one `now`, and cleanup ticks are operations of the run.
- A manager without any configuration, reading a configuration file, and the usage queries of the token manager.
- Integer overflow outside the backoff loops.
- Copying of stored items (`cloneRawItems`): items are values, so aliasing cannot arise.
- ToolSequence.NextUnmetExplicitTool: takes the satisfied tools as a list and does not model how they are read off the history.
- Backoff.StreamPost: an attempt is its outcome; building the request and reading the body are not modelled.
