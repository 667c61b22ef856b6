/**
 What the rewrite does with a batch, said of its calls, the signals and the targets: which commands
 the guard of a pending write stops and what it answers, and when the next command takes over.
 */
module PolicyGuard {
  import opened Text
  import opened PolicyModel
  import opened ExecutionPolicy
  import opened PolicyRewrite
  import opened PolicySafety

  // What is forbidden while a write is pending.

  /** A read of the target has found nothing in it, and no command has changed it successfully. */
  ghost predicate EmptyTarget(s: Signals, f: Path) {
    && (exists c :: c in s.empty && c.IsReadOnly() && c.Mentions(f))
    && !exists c :: c in s.successful && c.IsMutation() && c.Mentions(f)
  }

  predicate Scaffolds(c: Command, f: Path) {
    c.IsScaffold() && c.Mentions(f)
  }

  ghost predicate ScaffoldedTwice(s: Signals, f: Path) {
    exists i, j :: 0 <= i < j < |s.commands| && Scaffolds(s.commands[i], f) && Scaffolds(s.commands[j], f)
  }

  /** A target is empty or has been scaffolded twice, or all have been looked at and nothing has been written. */
  ghost predicate InspectionOver(task: Task, s: Signals) {
    || (exists f :: f in RequiredFiles(task) && (EmptyTarget(s, f) || ScaffoldedTwice(s, f)))
    || (s.writeCalls == 0
        && forall f :: f in RequiredFiles(task) ==> exists c :: c in s.commands && c.IsReadOnly() && c.Mentions(f))
  }

  ghost predicate ReadsTooLate(task: Task, s: Signals, c: Command) {
    c.IsReadOnly() && InspectionOver(task, s)
  }

  ghost predicate ScaffoldsAgain(task: Task, s: Signals, c: Command) {
    c.IsMutation() && c.IsScaffold() && exists f :: f in RequiredFiles(task) && ScaffoldedTwice(s, f) && c.Mentions(f)
  }

  /** The command changes files, names some, and none of them is a target. */
  ghost predicate Strays(task: Task, c: Command) {
    c.IsMutation() && c.Paths() != [] && forall f :: f in c.Paths() ==> f !in RequiredFiles(task)
  }

  ghost predicate Forbidden(task: Task, s: Signals, c: Command) {
    c.IsTest() || ReadsTooLate(task, s, c) || ScaffoldsAgain(task, s, c) || Strays(task, c)
  }

  ghost predicate Offends(task: Task, s: Signals, call: Call) {
    call.Invoke? && call.name == EXEC_COMMAND && call.command.Some? && Forbidden(task, s, call.command.value)
  }

  /** A write is pending, there are targets, no tool is asked for explicitly and commands can be run. */
  ghost predicate AwaitsWrite(task: Task, s: Signals, e: Setting) {
    && Build(task, s, e).pendingWrite && Build(task, s, e).requiredTool == ""
    && RequiredFiles(task) != [] && e.execAvailable
  }

  // The reports about the targets.

  lemma {:induction false} ScaffoldedOnce(seen: seq<Command>, f: Path)
    ensures ScaffoldCount(seen, f) >= 1 <==> exists i :: 0 <= i < |seen| && Scaffolds(seen[i], f)
  {
    if seen != [] {
      ScaffoldedOnce(seen[1..], f);
      if i :| 0 <= i < |seen| && Scaffolds(seen[i], f) {
        assert i > 0 ==> Scaffolds(seen[1..][i - 1], f);
      }
      if i :| 0 <= i < |seen| - 1 && Scaffolds(seen[1..][i], f) {
        assert Scaffolds(seen[i + 1], f);
      }
    }
  }

  lemma {:induction false} CountedTwice(seen: seq<Command>, f: Path)
    ensures ScaffoldCount(seen, f) >= 2 <==>
            exists i, j :: 0 <= i < j < |seen| && Scaffolds(seen[i], f) && Scaffolds(seen[j], f)
  {
    if seen != [] {
      CountedTwice(seen[1..], f);
      ScaffoldedOnce(seen[1..], f);
      if i, j :| 0 <= i < j < |seen| && Scaffolds(seen[i], f) && Scaffolds(seen[j], f) {
        assert Scaffolds(seen[1..][j - 1], f);
        assert i > 0 ==> Scaffolds(seen[1..][i - 1], f);
      }
      if i, j :| 0 <= i < j < |seen| - 1 && Scaffolds(seen[1..][i], f) && Scaffolds(seen[1..][j], f) {
        assert Scaffolds(seen[i + 1], f) && Scaffolds(seen[j + 1], f);
      }
      if i :| 0 <= i < |seen| - 1 && Scaffolds(seen[1..][i], f) {
        assert Scaffolds(seen[i + 1], f);
      }
    }
  }

  /** What the policy reports about the targets. */
  lemma {:induction false} ReportsExactly(task: Task, s: Signals, e: Setting)
    requires task.usesTools && !Polls(s, e)
    ensures var p, files := Build(task, s, e), RequiredFiles(task);
            && p.requiredFiles == files && (p.writeObserved <==> s.writeCalls > 0)
            && (forall f :: f in p.missingFiles <==>
                              && f in files && (exists c :: c in s.failed && c.IsReadOnly() && c.Mentions(f))
                              && !exists c :: c in s.successful && (c.IsReadOnly() || c.IsMutation()) && c.Mentions(f))
            && (forall f :: f in p.emptyFiles <==> f in files && EmptyTarget(s, f))
            && (forall f :: f in p.repeatedScaffold <==> f in files && ScaffoldedTwice(s, f))
            && (p.allFilesSeen <==>
                files != []
                && forall f :: f in files ==> exists c :: c in s.commands && c.IsReadOnly() && c.Mentions(f))
  {
    hide FinalDemand, RequiredFiles, Polls, Staged, Scaffolds, ScaffoldCount;
    var d, p := FinalDemand(task, s, e), Build(task, s, e);
    StagedKeeps(Reported(Known(task, s, e), s, d), task, s, d, e);
    forall f
      ensures ScaffoldCount(s.commands, f) >= 2 <==> ScaffoldedTwice(s, f)
    {
      CountedTwice(s.commands, f);
    }
  }

  lemma {:induction false} StagedKeeps(p: Policy, task: Task, s: Signals, d: Demand, e: Setting)
    ensures var r := Staged(p, task, s, d, e);
            r == p.(stage := r.stage, requireTool := r.requireTool, readLoop := r.readLoop,
                    syntheticCall := r.syntheticCall)
  {
    hide StageOf, NeedsWrite, ForcesNextCommand, ExecCall;
  }

  // The guard.

  lemma {:induction false} PendingBuilt(task: Task, s: Signals, e: Setting)
    requires Build(task, s, e).pendingWrite
    ensures task.usesTools && !Polls(s, e)
  {
    hide FinalDemand, Polls, Staged, RequiredFiles;
  }

  /** What the guard answers to a forbidden command: the next command to a test if there is one, else a refusal. */
  ghost function Answer(task: Task, s: Signals, p: Policy, c: Command): Command {
    if c.IsTest() then p.nextCommand.GetOr(Guard(TestsFailedAlready, p.requiredFiles))
    else if ReadsTooLate(task, s, c) then
      Guard(ContextInspected, if p.emptyFiles != [] then p.emptyFiles else p.requiredFiles)
    else if ScaffoldsAgain(task, s, c) then Guard(ScaffoldRepeated, p.repeatedScaffold)
    else Guard(OutsideTargets, p.requiredFiles)
  }

  lemma {:induction false} GuardForOffence(task: Task, s: Signals, e: Setting, call: Call)
    requires AwaitsWrite(task, s, e)
    ensures var p := Build(task, s, e);
            if Offends(task, s, call) then GuardFor(p, call) == Some(Answer(task, s, p, call.command.value))
            else GuardFor(p, call) == None
  {
    hide Build, EmptyTarget, ScaffoldedTwice;
    var p := Build(task, s, e);
    PendingBuilt(task, s, e);
    ReportsExactly(task, s, e);
    hide RequiredFiles;
    if call.Invoke? && call.name == EXEC_COMMAND && call.command.Some? {
      var c := call.command.value;
      BlockedReads(task, s, e);
      RepeatedScaffold(task, s, e, c);
    }
  }

  lemma {:induction false} BlockedReads(task: Task, s: Signals, e: Setting)
    requires AwaitsWrite(task, s, e)
    ensures BlocksReads(Build(task, s, e)) <==> InspectionOver(task, s)
  {
    hide Build, EmptyTarget, ScaffoldedTwice, RequiredFiles;
    var p := Build(task, s, e);
    PendingBuilt(task, s, e);
    ReportsExactly(task, s, e);
    assert p.emptyFiles != [] <==> exists f :: f in p.emptyFiles by {
      assert p.emptyFiles != [] ==> p.emptyFiles[0] in p.emptyFiles;
    }
    assert p.repeatedScaffold != [] <==> exists f :: f in p.repeatedScaffold by {
      assert p.repeatedScaffold != [] ==> p.repeatedScaffold[0] in p.repeatedScaffold;
    }
  }

  lemma {:induction false} RepeatedScaffold(task: Task, s: Signals, e: Setting, c: Command)
    requires AwaitsWrite(task, s, e)
    ensures var p := Build(task, s, e);
            c.IsMutation() && p.repeatedScaffold != [] && PolicyRewrite.ScaffoldsAgain(c, p.repeatedScaffold)
            <==> ScaffoldsAgain(task, s, c)
  {
    hide Build, EmptyTarget, ScaffoldedTwice, RequiredFiles;
    PendingBuilt(task, s, e);
    ReportsExactly(task, s, e);
  }

  /** The first call that offends is what the guard answers. */
  lemma {:induction false} FirstOffence(task: Task, s: Signals, e: Setting, calls: seq<Call>, k: nat)
    requires AwaitsWrite(task, s, e) && k <= |calls|
    requires forall j :: 0 <= j < k ==> !Offends(task, s, calls[j])
    ensures var p := Build(task, s, e);
            && (k == |calls| ==> FirstGuard(p, calls) == None)
            && (k < |calls| && Offends(task, s, calls[k]) ==>
                  FirstGuard(p, calls) == Some(Answer(task, s, p, calls[k].command.value)))
    decreases |calls|
  {
    hide Build, AwaitsWrite, Forbidden, Answer, GuardFor;
    if calls != [] {
      GuardForOffence(task, s, e, calls[0]);
      if k > 0 {
        FirstOffence(task, s, e, calls[1..], k - 1);
      }
    }
  }

  ghost predicate SomeOffence(task: Task, s: Signals, calls: seq<Call>) {
    exists k :: 0 <= k < |calls| && Offends(task, s, calls[k])
  }

  /** Where the guard stays silent no call offends. */
  lemma {:induction false} SilentMeansClean(task: Task, s: Signals, e: Setting, calls: seq<Call>)
    requires AwaitsWrite(task, s, e)
    ensures FirstGuard(Build(task, s, e), calls) == None <==> !SomeOffence(task, s, calls)
    decreases |calls|
  {
    hide Build, AwaitsWrite, Forbidden, GuardFor, Offends;
    if calls != [] {
      GuardForOffence(task, s, e, calls[0]);
      SilentMeansClean(task, s, e, calls[1..]);
      if k :| 0 <= k < |calls| && Offends(task, s, calls[k]) {
        assert k > 0 ==> Offends(task, s, calls[1..][k - 1]);
      }
      if k :| 0 <= k < |calls| - 1 && Offends(task, s, calls[1..][k]) {
        assert Offends(task, s, calls[k + 1]);
      }
    }
  }

  // The kinds of calls.

  ghost predicate Named(name: string, words: seq<string>) {
    exists i :: 0 <= i < |words| && Contains(Lower(TrimSpace(name)), words[i])
  }

  predicate IsMutationName(name: string) {
    var tool := Lower(TrimSpace(name));
    || tool == "apply_patch" || tool == "write_file" || tool == "edit_file" || tool == "replace_in_file"
    || tool == "append_file" || tool == "create_file"
  }

  /** Which calls only read, which change files, and which commands can be done later. */
  lemma {:induction false} CallKinds(call: Call)
    ensures ReadsOnly(call) <==>
            && call.Invoke? && !IsMutationName(call.name)
            && if call.name == EXEC_COMMAND then call.command.Some? && call.command.value.IsReadOnly()
               else
                 || Named(call.name, ["read", "list", "search", "fetch", "get", "snapshot", "screenshot"])
                 || HasPrefix(Lower(TrimSpace(call.name)), "mcp__docfork__")
                 || HasPrefix(Lower(TrimSpace(call.name)), "mcp__chrome_devtools__")
    ensures Mutates(call) <==>
            && call.Invoke?
            && if call.name == EXEC_COMMAND then call.command.Some? && call.command.value.IsMutation()
               else IsMutationName(call.name)
    ensures Defers(call) <==>
            && call.Invoke? && call.name == EXEC_COMMAND && call.command.Some?
            && var c := call.command.value; c.IsReadOnly() || c.IsTest() || c.IsGuardFailure()
  {
    hide NamesReader, IsMutationTool, IsMutationName, Named;
    if call.Invoke? {
      MutationNames(call.name);
      ReaderNames(call.name);
    }
  }

  lemma {:induction false} MutationNames(name: string)
    ensures IsMutationTool(name) <==> IsMutationName(name)
  {
    hide Lower, TrimSpace;
  }

  lemma {:induction false} ReaderNames(name: string)
    ensures NamesReader(name) <==>
            || Named(name, ["read", "list", "search", "fetch", "get", "snapshot", "screenshot"])
            || HasPrefix(Lower(TrimSpace(name)), "mcp__docfork__")
            || HasPrefix(Lower(TrimSpace(name)), "mcp__chrome_devtools__")
  {
    hide Contains, Lower, TrimSpace;
    var words := ["read", "list", "search", "fetch", "get", "snapshot", "screenshot"];
    assert words[0] == "read" && words[1] == "list" && words[2] == "search" && words[3] == "fetch" && words[4] == "get"
      && words[5] == "snapshot" && words[6] == "screenshot";
  }

  // The rewrite.

  function Exec(c: Command): Call {
    Invoke(EXEC_COMMAND, Some(c), FunctionCall, Some(map[]), "")
  }

  /**
   The calls give way to the next command: none of them runs it, and all only read, or all mutate
   while a mutation is due, or all can be done later and nothing is explicitly required; or commands
   are required, only commands are run, and they are not all the next command for the first time.
   */
  ghost predicate GivesWay(calls: seq<Call>, p: Policy) {
    && p.nextCommand.Some?
    && var next := p.nextCommand;
    && var none := forall k :: 0 <= k < |calls| ==> !Runs(calls[k], next);
    && (|| (none && forall k :: 0 <= k < |calls| ==> ReadsOnly(calls[k]))
        || (none && p.pendingWrite && next.value.IsMutation() && forall k :: 0 <= k < |calls| ==> Mutates(calls[k]))
        || (none && p.requiredCommands == [] && forall k :: 0 <= k < |calls| ==> Defers(calls[k]))
        || (p.requiredCommands != [] && (forall k :: 0 <= k < |calls| ==> IsExec(calls[k]))
            && !(next.value !in p.seenCommands && forall k :: 0 <= k < |calls| ==> Runs(calls[k], next))))
  }

  /** A command is put in the place of a batch if it can be run and no other tool is demanded. */
  lemma {:induction false} ReplacedExactly(b: Batch, c: Option<Command>, execAvailable: bool, tool: string)
    ensures Replaced(b, c, execAvailable, tool) ==
            if c.Some? && execAvailable && (tool == "" || tool == EXEC_COMMAND) then Only(Exec(c.value)) else b
  {
  }

  lemma {:induction false} ReplacedIs(b: Batch, c: Option<Command>)
    ensures Replaced(b, c, true, "") == if c.Some? then Only(Exec(c.value)) else b
  {
    hide Replaced;
    ReplacedExactly(b, c, true, "");
  }

  /** What is left where neither the guard nor a call of the policy's own steps in. */
  lemma {:induction false} CallsRewritten(b: Batch, p: Policy)
    requires b.calls != [] && GuardCommand(p, b.calls) == None
    ensures RewrittenCalls(b, p, true, "") == if GivesWay(b.calls, p) then Only(Exec(p.nextCommand.value)) else b
  {
    hide ReadsOnly, Mutates, Defers, IsExec, Runs, Repeats, Replaced, GuardCommand;
    var next := p.nextCommand;
    ReplacedIs(b, next);
    if next.Some? {
      NextRuns(next.value);
    }
    InsteadMeans(b.calls, next);
    if AdvancesNext(b.calls, next, p.seenCommands) {
      assert Runs(b.calls[0], next);
    }
  }

  lemma {:induction false} NextRuns(c: Command)
    ensures var calls := Only(Exec(c)).calls;
            && !ReadsInstead(calls, Some(c)) && !DefersInstead(calls, Some(c))
            && Replaced(Only(Exec(c)), Some(c), true, "") == Only(Exec(c))
  {
    hide ReadsOnly, Defers;
    assert Runs(Only(Exec(c)).calls[0], Some(c));
  }

  lemma {:induction false} InsteadMeans(calls: seq<Call>, next: Option<Command>)
    requires calls != []
    ensures ReadsInstead(calls, next) <==>
            && next.Some? && (forall k :: 0 <= k < |calls| ==> !Runs(calls[k], next))
            && forall k :: 0 <= k < |calls| ==> ReadsOnly(calls[k])
  {
    hide ReadsOnly, Runs;
  }

  /** The call does what the policy's own call would do. */
  ghost predicate DoesSame(actual: Call, own: Call) {
    && actual.Invoke? && own.Invoke? && actual.name == own.name
    && if own.name == EXEC_COMMAND then
         && own.command.Some? && actual.command == own.command && actual.extra.Some? && own.extra.Some?
         && forall k :: k in own.extra.value ==> k in actual.extra.value && actual.extra.value[k] == own.extra.value[k]
       else actual.kind == own.kind && actual.kind != OtherCall && actual.payload == own.payload
  }

  /** The policy insists on its own call, and the batch is not just that. */
  ghost predicate OwnCallDue(b: Batch, p: Policy) {
    && p.syntheticCall.Some?
    && (|| p.requiredTool != ""
        || (p.nextCommand.Some? && (p.stage == Verify || (p.stage == Explore && p.forceSingle))))
    && !(|b.calls| == 1 && DoesSame(b.calls[0], p.syntheticCall.value))
  }

  lemma {:induction false} TakeOverMeans(b: Batch, p: Policy)
    ensures TakesOver(b, p) <==> OwnCallDue(b, p)
  {
  }

  /** Without a pending write, for every policy and batch, with commands that can be run. */
  lemma {:induction false} RewriteExactly(b: Batch, p: Policy)
    requires !p.pendingWrite
    ensures Rewritten(b, p, true, "") ==
            if !p.enabled then b
            else if !p.requireTool then
              if p.stage == Finalize && b.calls != [] then b.(calls := [], failed := false, candidateFound := true)
              else b
            else if b.calls == [] && p.syntheticCall.Some? then Only(p.syntheticCall.value)
            else if b.calls != [] && OwnCallDue(b, p) then Only(p.syntheticCall.value)
            else if p.nextCommand.Some? && (b.calls == [] || GivesWay(b.calls, p)) then Only(Exec(p.nextCommand.value))
            else b
  {
    hide RewrittenCalls, TakesOver, OwnCallDue, Replaced, GivesWay;
    TakeOverMeans(b, p);
    ReplacedIs(b, p.nextCommand);
    if b.calls != [] {
      CallsRewritten(b, p);
      WayNeedsNext(b.calls, p);
    }
  }

  lemma {:induction false} WayNeedsNext(calls: seq<Call>, p: Policy)
    ensures GivesWay(calls, p) ==> p.nextCommand.Some?
  {
  }

  /** Where commands cannot be run or a tool is demanded, only the policy's own call and the final stage matter. */
  lemma {:induction false} OtherwiseKept(b: Batch, p: Policy, execAvailable: bool, tool: string)
    requires tool != "" || !execAvailable
    ensures Rewritten(b, p, execAvailable, tool) ==
            if p.enabled && !p.requireTool && p.stage == Finalize && tool == "" && b.calls != [] then
              b.(calls := [], failed := false, candidateFound := true)
            else if p.enabled && p.requireTool && p.syntheticCall.Some? && (b.calls == [] || OwnCallDue(b, p)) then
              Only(p.syntheticCall.value)
            else b
  {
    hide TakesOver, DoesSame, RewrittenCalls, Replaced;
    TakeOverMeans(b, p);
    if tool == "" {
      NeverReplaced(b, p.nextCommand);
      CallsKept(b, p);
    }
  }

  lemma {:induction false} CallsKept(b: Batch, p: Policy)
    ensures RewrittenCalls(b, p, false, "") == b
  {
    hide ReadsInstead, MutatesInstead, DefersInstead, RepeatsRead, AdvancesNext, OnlyExec, GuardCommand, Replaced;
    NeverReplaced(b, p.nextCommand);
    NeverReplaced(b, GuardCommand(p, b.calls));
  }

  /** The next command comes before the guard's answer: to reads, to mutations while one is due, and to tests then. */
  ghost predicate NextComesFirst(calls: seq<Call>, p: Policy) {
    && p.nextCommand.Some?
    && var next := p.nextCommand;
    && var none := forall k :: 0 <= k < |calls| ==> !Runs(calls[k], next);
    && (|| (none && forall k :: 0 <= k < |calls| ==> ReadsOnly(calls[k]))
        || (none && next.value.IsMutation() && forall k :: 0 <= k < |calls| ==> Mutates(calls[k]))
        || (next.value.IsMutation() && exists k :: 0 <= k < |calls| && RunsTest(calls[k])))
  }

  /** The rewrite while a write is pending and nothing is asked for explicitly. */
  lemma {:induction false} PendingRewritten(task: Task, s: Signals, e: Setting, b: Batch)
    requires AwaitsWrite(task, s, e)
    ensures var p := Build(task, s, e);
            Rewritten(b, p, true, "") ==
            if b.calls != [] then RewrittenCalls(b, p, true, "")
            else if p.nextCommand.Some? then Only(Exec(p.nextCommand.value)) else b
  {
    var p := Build(task, s, e);
    DemandBuilt(task, s, e);
    NoOwnCall(task, s, e);
    PendingStage(task, s, e);
    hide Build, RewrittenCalls, Replaced, TakesOver;
    ReplacedIs(b, p.nextCommand);
    NoTakeOver(b, p);
  }

  /** A batch in which no call offends gives way to the next command or is kept. */
  lemma {:induction false} CleanBatch(task: Task, s: Signals, e: Setting, b: Batch)
    requires AwaitsWrite(task, s, e) && !SomeOffence(task, s, b.calls)
    ensures var p := Build(task, s, e);
            Rewritten(b, p, true, "") ==
            if p.nextCommand.Some? && (b.calls == [] || GivesWay(b.calls, p)) then Only(Exec(p.nextCommand.value))
            else b
  {
    hide Build, RewrittenCalls, FirstGuard, GivesWay, Offends;
    var p := Build(task, s, e);
    PendingRewritten(task, s, e, b);
    if b.calls != [] {
      SilentMeansClean(task, s, e, b.calls);
      TestsOffend(task, s, b.calls);
      CallsRewritten(b, p);
      WayNeedsNext(b.calls, p);
    }
  }

  lemma {:induction false} TestsOffend(task: Task, s: Signals, calls: seq<Call>)
    ensures First(calls, RunsTest).Some? ==> SomeOffence(task, s, calls)
  {
    hide InspectionOver, ScaffoldedTwice, RequiredFiles;
    if First(calls, RunsTest).Some? {
      var k :| 0 <= k < |calls| && calls[k] == First(calls, RunsTest).value;
      assert Offends(task, s, calls[k]);
    }
  }

  /** The first call that offends is answered for the whole batch, unless the next command comes first. */
  lemma {:induction false} OffenceAnswered(task: Task, s: Signals, e: Setting, b: Batch, k: nat)
    requires AwaitsWrite(task, s, e) && k < |b.calls| && Offends(task, s, b.calls[k])
    requires forall j :: 0 <= j < k ==> !Offends(task, s, b.calls[j])
    ensures var p := Build(task, s, e);
            Rewritten(b, p, true, "") ==
            if NextComesFirst(b.calls, p) then Only(Exec(p.nextCommand.value))
            else Only(Exec(Answer(task, s, p, b.calls[k].command.value)))
  {
    hide Build, FirstGuard, Offends, Answer, ReadsOnly, Mutates, Runs, First, AwaitsWrite, Replaced, RunsTest;
    var p := Build(task, s, e);
    PendingRewritten(task, s, e, b);
    AwaitsMeans(task, s, e);
    FirstOffence(task, s, e, b.calls, k);
    InsteadMeans(b.calls, p.nextCommand);
    TestFirst(b.calls);
    if p.nextCommand.Some? {
      ReplacedIs(b, p.nextCommand);
    }
    ReplacedIs(b, FirstGuard(p, b.calls));
  }

  lemma {:induction false} AwaitsMeans(task: Task, s: Signals, e: Setting)
    requires AwaitsWrite(task, s, e)
    ensures Build(task, s, e).pendingWrite && Build(task, s, e).requiredFiles != []
  {
    DemandBuilt(task, s, e);
    hide Build;
  }

  lemma {:induction false} TestFirst(calls: seq<Call>)
    ensures First(calls, RunsTest).Some? <==> exists k :: 0 <= k < |calls| && RunsTest(calls[k])
  {
    hide RunsTest;
    if k :| 0 <= k < |calls| && RunsTest(calls[k]) {
      assert calls[k] in calls;
    }
  }

  /**
   For every history and every batch, while a write is pending: no call that is left, other than one
   that runs the next command, runs a test, reads though the inspection is over, scaffolds a target a
   third time or changes only files that are no targets.
   */
  lemma {:induction false} ForbiddenHeldBack(task: Task, s: Signals, e: Setting, b: Batch)
    requires AwaitsWrite(task, s, e)
    ensures var p := Build(task, s, e);
            forall call <- Rewritten(b, p, true, "").calls :: Runs(call, p.nextCommand) || !Offends(task, s, call)
  {
    hide Build, Rewritten, AwaitsWrite, GivesWay, NextComesFirst, Offends, Answer;
    var p := Build(task, s, e);
    if p.nextCommand.Some? {
      assert Runs(Exec(p.nextCommand.value), p.nextCommand);
    }
    if SomeOffence(task, s, b.calls) {
      var k := FirstOffending(task, s, b.calls);
      OffenceAnswered(task, s, e, b, k);
      OffendingRuns(task, s, b.calls[k]);
      FirstNeedsNext(b.calls, p);
      AnswerAllowed(task, s, p, b.calls[k].command.value);
    } else {
      CleanBatch(task, s, e, b);
    }
  }

  lemma {:induction false} FirstNeedsNext(calls: seq<Call>, p: Policy)
    ensures NextComesFirst(calls, p) ==> p.nextCommand.Some?
  {
    hide RunsTest, Runs, ReadsOnly, Mutates;
  }

  lemma {:induction false} OffendingRuns(task: Task, s: Signals, call: Call)
    requires Offends(task, s, call)
    ensures call.Invoke? && call.command.Some?
  {
    hide Forbidden;
  }

  lemma {:induction false} FirstOffending(task: Task, s: Signals, calls: seq<Call>) returns (k: nat)
    requires SomeOffence(task, s, calls)
    ensures k < |calls| && Offends(task, s, calls[k]) && forall j :: 0 <= j < k ==> !Offends(task, s, calls[j])
  {
    hide Offends;
    k := 0;
    while !Offends(task, s, calls[k])
      invariant k < |calls| && forall j :: 0 <= j < k ==> !Offends(task, s, calls[j])
      decreases |calls| - k
    {
      k := k + 1;
    }
  }

  /** What the guard answers is the next command or an allowed one. */
  lemma {:induction false} AnswerAllowed(task: Task, s: Signals, p: Policy, c: Command)
    ensures var a := Exec(Answer(task, s, p, c)); Runs(a, p.nextCommand) || !Offends(task, s, a)
  {
    hide InspectionOver, ScaffoldedTwice, RequiredFiles;
  }
}
