/** What the policy makes of the calls that the model asks for. */
module PolicyRewrite {
  import opened Text
  import opened PolicyModel
  import opened ExecutionPolicy

  datatype Mode = PlainText | LegacyJSON | ActionsTool | ActionsFinal

  /** `parsedToolCallBatchResult`. */
  datatype Batch = Batch(calls: seq<Call>, failed: bool, visibleText: string, mode: Mode, candidateFound: bool)

  /** The batch that consists of one call made up by the policy. */
  function Only(call: Call): Batch {
    Batch([call], false, "", ActionsTool, true)
  }

  predicate Runs(call: Call, c: Option<Command>) {
    IsExec(call) && c.Some? && call.command == c
  }

  /** `isReadOnlyInvocation`: a read-only command, or a tool whose name says that it reads. */
  predicate ReadsOnly(call: Call) {
    call.Invoke? && !IsMutationTool(call.name)
    && if IsExec(call) then call.command.Some? && call.command.value.IsReadOnly() else NamesReader(call.name)
  }

  predicate NamesReader(name: string) {
    var lower := Lower(TrimSpace(name));
    || Contains(lower, "read") || Contains(lower, "list") || Contains(lower, "search") || Contains(lower, "fetch")
    || Contains(lower, "get") || Contains(lower, "snapshot") || Contains(lower, "screenshot")
    || HasPrefix(lower, "mcp__docfork__") || HasPrefix(lower, "mcp__chrome_devtools__")
  }

  predicate Mutates(call: Call) {
    call.Invoke?
    && if IsExec(call) then call.command.Some? && call.command.value.IsMutation() else IsMutationTool(call.name)
  }

  /** A command that can be done later: it reads, tests or only reports a guard failure. */
  predicate Defers(call: Call) {
    IsExec(call) && call.command.Some?
    && (call.command.value.IsReadOnly() || call.command.value.IsTest() || call.command.value.IsGuardFailure())
  }

  predicate AnyRuns(calls: seq<Call>, next: Option<Command>) {
    exists k :: 0 <= k < |calls| && Runs(calls[k], next)
  }

  predicate AllRead(calls: seq<Call>) {
    forall k :: 0 <= k < |calls| ==> ReadsOnly(calls[k])
  }

  predicate AllMutate(calls: seq<Call>) {
    forall k :: 0 <= k < |calls| ==> Mutates(calls[k])
  }

  predicate AllDefer(calls: seq<Call>) {
    forall k :: 0 <= k < |calls| ==> Defers(calls[k])
  }

  /** There are calls, all of them only read, and none is the next command. */
  predicate ReadsInstead(calls: seq<Call>, next: Option<Command>) {
    next.Some? && calls != [] && AllRead(calls) && !AnyRuns(calls, next)
  }

  predicate MutatesInstead(calls: seq<Call>, next: Option<Command>) {
    next.Some? && next.value.IsMutation() && calls != [] && AllMutate(calls) && !AnyRuns(calls, next)
  }

  predicate DefersInstead(calls: seq<Call>, next: Option<Command>) {
    next.Some? && calls != [] && AllDefer(calls) && !AnyRuns(calls, next)
  }

  /** Every call runs the next command, which has not been run. */
  predicate AdvancesNext(calls: seq<Call>, next: Option<Command>, seen: seq<Command>) {
    calls != [] && next.Some? && forall k :: 0 <= k < |calls| ==> Runs(calls[k], next) && next.value !in seen
  }

  predicate OnlyExec(calls: seq<Call>) {
    calls != [] && forall k :: 0 <= k < |calls| ==> IsExec(calls[k])
  }

  /** Only reads, none of them the next command, and one that has been run before. */
  predicate RepeatsRead(calls: seq<Call>, next: Option<Command>, seen: seq<Command>) {
    ReadsInstead(calls, next) && seen != [] && exists k :: 0 <= k < |calls| && Repeats(calls[k], seen)
  }

  predicate Repeats(call: Call, seen: seq<Command>) {
    IsExec(call) && call.command.Some? && call.command.value in seen
  }

  // The guard of a pending write.

  predicate BlocksReads(p: Policy) {
    p.pendingWrite && (p.emptyFiles != [] || p.repeatedScaffold != [] || (!p.writeObserved && p.allFilesSeen))
  }

  predicate TouchesOnlyOthers(c: Command, files: seq<Path>) {
    files != [] && c.Paths() != [] && forall f :: f in c.Paths() ==> f !in files
  }

  predicate ScaffoldsAgain(c: Command, files: seq<Path>) {
    c.IsScaffold() && exists f :: f in files && c.Mentions(f)
  }

  /** What the guard answers to one call, if it answers at all. */
  function GuardFor(p: Policy, call: Call): Option<Command> {
    if !IsExec(call) || call.command == None then None
    else
      var c := call.command.value;
      if c.IsTest() then if p.nextCommand.Some? then p.nextCommand else Some(Guard(TestsFailedAlready, p.requiredFiles))
      else if c.IsReadOnly() && BlocksReads(p)
        then Some(Guard(ContextInspected, if p.emptyFiles != [] then p.emptyFiles else p.requiredFiles))
      else if !c.IsMutation() then None
      else if p.repeatedScaffold != [] && ScaffoldsAgain(c, p.repeatedScaffold) then
        Some(Guard(ScaffoldRepeated, p.repeatedScaffold))
      else if TouchesOnlyOthers(c, p.requiredFiles) then Some(Guard(OutsideTargets, p.requiredFiles))
      else None
  }

  function FirstGuard(p: Policy, calls: seq<Call>): Option<Command> {
    if calls == [] then None
    else if GuardFor(p, calls[0]).Some? then GuardFor(p, calls[0])
    else FirstGuard(p, calls[1..])
  }

  /** `buildPendingWriteGuardCommand`: a test gives way to a mutation that is next, wherever it stands. */
  function GuardCommand(p: Policy, calls: seq<Call>): Option<Command> {
    if !p.pendingWrite || p.requiredFiles == [] || calls == [] then None
    else if p.nextCommand.Some? && p.nextCommand.value.IsMutation() && First(calls, RunsTest).Some? then
      p.nextCommand
    else FirstGuard(p, calls)
  }

  // The rewrite.

  /** Whether a call does what the policy's own call would do. */
  predicate SameCall(actual: Call, expected: Call) {
    && actual.Invoke? && expected.Invoke? && actual.name == expected.name
    && if IsExec(expected) then
         Runs(actual, expected.command) && actual.extra.Some? && expected.extra.Some?
         && forall k :: k in expected.extra.value ==>
              k in actual.extra.value && actual.extra.value[k] == expected.extra.value[k]
       else actual.kind == expected.kind && actual.kind != OtherCall && actual.payload == expected.payload
  }

  /** The batch with the call that runs the command, or as it is if that call cannot be made. */
  function Replaced(b: Batch, command: Option<Command>, execAvailable: bool, requiredTool: string): Batch {
    var call := ExecCall(command, execAvailable, requiredTool);
    if call.Some? then Only(call.value) else b
  }

  function AdvancedForCommands(b: Batch, p: Policy, execAvailable: bool, tool: string): Batch {
    if AdvancesNext(b.calls, p.nextCommand, p.seenCommands) then b
    else if p.nextCommand.Some? && OnlyExec(b.calls) then Replaced(b, p.nextCommand, execAvailable, tool)
    else
      var b1 := if ReadsInstead(b.calls, p.nextCommand) then Replaced(b, p.nextCommand, execAvailable, tool) else b;
      if RepeatsRead(b1.calls, p.nextCommand, p.seenCommands) then Replaced(b1, p.nextCommand, execAvailable, tool)
        else b1
  }

  function AdvancedFreely(b: Batch, p: Policy, execAvailable: bool, tool: string): Batch {
    var b1 := if ReadsInstead(b.calls, p.nextCommand) then Replaced(b, p.nextCommand, execAvailable, tool) else b;
    if DefersInstead(b1.calls, p.nextCommand) then Replaced(b1, p.nextCommand, execAvailable, tool) else b1
  }

  function RewrittenCalls(b: Batch, p: Policy, execAvailable: bool, tool: string): Batch {
    var guard := GuardCommand(p, b.calls);
    if p.pendingWrite && ReadsInstead(b.calls, p.nextCommand) then Replaced(b, p.nextCommand, execAvailable, tool)
    else if p.pendingWrite && MutatesInstead(b.calls, p.nextCommand)
      then Replaced(b, p.nextCommand, execAvailable, tool)
    else if guard.Some? then Replaced(b, guard, execAvailable, tool)
    else if p.requiredCommands != [] then AdvancedForCommands(b, p, execAvailable, tool)
    else AdvancedFreely(b, p, execAvailable, tool)
  }

  /** The policy's own call replaces anything but itself. */
  predicate TakesOver(b: Batch, p: Policy) {
    && p.syntheticCall.Some?
    && (p.requiredTool != "" || ForcesNextCommand(p.stage, p.requiredTool, p.nextCommand, p.forceSingle))
    && (|b.calls| != 1 || !SameCall(b.calls[0], p.syntheticCall.value))
  }

  /** What `applyExecutionPolicyToParseResult` leaves of a batch. */
  function Rewritten(b: Batch, p: Policy, execAvailable: bool, tool: string): Batch {
    if p.enabled && p.stage == Finalize && !p.requireTool && tool == "" && b.calls != [] then
      b.(calls := [], failed := false, candidateFound := true)
    else if p.enabled && p.requireTool && b.calls == [] && p.syntheticCall.Some? then Only(p.syntheticCall.value)
    else if p.enabled && p.requireTool && b.calls != [] && TakesOver(b, p) then Only(p.syntheticCall.value)
    else if !p.enabled || !p.requireTool || tool != "" then b
    else if b.calls != [] then RewrittenCalls(b, p, execAvailable, tool)
    else Replaced(b, p.nextCommand, execAvailable, tool)
  }
}
