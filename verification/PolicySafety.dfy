/** While a write is pending, no test runs. */
module PolicySafety {
  import opened Text
  import opened PolicyModel
  import opened HistorySignals
  import opened SignalsInvariant
  import opened CommandChooser
  import opened ExecutionPolicy
  import opened PolicyRewrite

  predicate NotATest(c: Option<Command>) {
    c.Some? ==> !c.value.IsTest()
  }

  ghost predicate NoTestRuns(b: Batch) {
    forall k :: 0 <= k < |b.calls| ==> !RunsTest(b.calls[k])
  }

  /** Style listings and the seed command are not tests. */
  ghost predicate NothingSeedsTests(task: Task, e: Setting) {
    (forall c :: c in task.styles ==> !c.IsTest()) && NotATest(e.seed)
  }

  lemma {:induction false} StyleIsNoTest(styles: seq<Command>, files: seq<Path>, s: Signals)
    requires forall c :: c in styles ==> !c.IsTest()
    ensures NotATest(NextStyle(styles, files, s))
  {
    hide Resolved, UnreadReference;
    if styles != [] {
      StyleIsNoTest(styles[1..], files, s);
    }
  }

  /** Before the first write only reads, listings and new files are proposed. */
  lemma {:induction false} InspectionIsNoTest(files: seq<Path>, styles: seq<Command>, s: Signals, targets: seq<Path>)
    requires forall c :: c in styles ==> !c.IsTest()
    ensures NotATest(NextInspection(files, styles, s, targets))
  {
    hide NextStyle, FirstSource, FirstScaffold, FirstToCreate, FirstUnsatisfied;
    StyleIsNoTest(styles, files, s);
  }

  lemma {:induction false} FirstDemandIsNoTest(task: Task, s: Signals, e: Setting)
    requires NothingSeedsTests(task, e) && FirstDemand(task, s, e).pendingWrite
    ensures NotATest(FirstDemand(task, s, e).nextCommand)
  {
    hide PrefersSeed, GuardFailureSeen, NextInspection, RepairTarget, FirstUnread, FirstUnmet, FirstUnseen, Deduped,
      SequenceFiles, RequiredFiles;
    InspectionIsNoTest(SequenceFiles(task), task.styles, s, RequiredFiles(task));
  }

  /** Whatever the history: while a write is pending the next command is not a test. */
  lemma {:induction false} NextIsNoTest(task: Task, s: Signals, e: Setting)
    requires NothingSeedsTests(task, e) && Build(task, s, e).pendingWrite
    ensures NotATest(Build(task, s, e).nextCommand)
  {
    DemandBuilt(task, s, e);
    hide Build, FirstDemand, RepairTarget, IsMutationTool, RequiredFiles;
    if FirstDemand(task, s, e).pendingWrite {
      FirstDemandIsNoTest(task, s, e);
    }
  }

  lemma {:induction false} DemandBuilt(task: Task, s: Signals, e: Setting)
    requires Build(task, s, e).pendingWrite
    ensures var p, d := Build(task, s, e), FinalDemand(task, s, e);
            && p.enabled && p.requiredFiles == RequiredFiles(task) && p.nextCommand == d.nextCommand && d.pendingWrite
            && p.requiredTool == d.requiredTool && p.stage == StageOf(s, d) && p.requireTool
  {
    hide Polls, FinalDemand, MissingFiles, EmptyFiles, RepeatedScaffolds, AllFilesSeen, Deduped, RequiredFiles;
  }

  /** A pending write without an explicit tool makes up no call of its own. */
  lemma {:induction false} NoOwnCall(task: Task, s: Signals, e: Setting)
    requires Build(task, s, e).pendingWrite && Build(task, s, e).requiredTool == ""
    ensures Build(task, s, e).syntheticCall == None
  {
    PendingNeedsWrite(task, s, e);
    DemandBuilt(task, s, e);
    hide Polls, FinalDemand, MissingFiles, EmptyFiles, RepeatedScaffolds, AllFilesSeen, Deduped, RequiredFiles;
  }

  lemma {:induction false} PendingNeedsWrite(task: Task, s: Signals, e: Setting)
    requires FinalDemand(task, s, e).pendingWrite || Build(task, s, e).pendingWrite
    ensures NeedsWrite(task) && FinalDemand(task, s, e).pendingWrite
  {
    if Build(task, s, e).pendingWrite {
      DemandBuilt(task, s, e);
    }
    hide Build, NextCommand, PrefersSeed, RepairTarget, GuardFailureSeen, IsMutationTool, RequiredFiles, SequenceFiles,
      Deduped;
  }

  /** The guard stops the first test among the calls, so where it stays silent there is none. */
  lemma {:induction false} SilentGuard(p: Policy, calls: seq<Call>)
    requires p.pendingWrite && p.requiredFiles != [] && GuardCommand(p, calls) == None
    ensures forall k :: 0 <= k < |calls| ==> !RunsTest(calls[k])
  {
    if calls != [] {
      hide GuardFor, First;
      SilentFirstGuard(p, calls);
    }
  }

  lemma {:induction false} SilentFirstGuard(p: Policy, calls: seq<Call>)
    requires FirstGuard(p, calls) == None
    ensures forall k :: 0 <= k < |calls| ==> !RunsTest(calls[k])
  {
    if calls != [] {
      SilentFirstGuard(p, calls[1..]);
      assert forall k :: 0 < k < |calls| ==> calls[k] == calls[1..][k - 1];
      assert !RunsTest(calls[0]);
    }
  }

  lemma {:induction false} GuardIsNoTest(p: Policy, calls: seq<Call>)
    requires NotATest(p.nextCommand)
    ensures NotATest(GuardCommand(p, calls))
  {
    hide First;
    FirstGuardIsNoTest(p, calls);
  }

  lemma {:induction false} FirstGuardIsNoTest(p: Policy, calls: seq<Call>)
    requires NotATest(p.nextCommand)
    ensures NotATest(FirstGuard(p, calls))
  {
    if calls != [] {
      FirstGuardIsNoTest(p, calls[1..]);
    }
  }

  /** Replacing the calls by a command that is not a test leaves no test if the command can be called. */
  lemma {:induction false} ReplacedRunsNoTest(b: Batch, c: Option<Command>)
    requires c.Some? && NotATest(c)
    ensures NoTestRuns(Replaced(b, c, true, ""))
  {
  }

  /** The calls of a batch that the policy rewrites step by step. */
  lemma {:induction false} RewrittenCallsRunNoTest(b: Batch, p: Policy)
    requires p.pendingWrite && p.requiredFiles != [] && NotATest(p.nextCommand) && b.calls != []
    ensures NoTestRuns(RewrittenCalls(b, p, true, ""))
  {
    hide ReadsInstead, MutatesInstead, DefersInstead, RepeatsRead, AdvancesNext, OnlyExec, Replaced, NoTestRuns,
      GuardCommand;
    if p.nextCommand.Some? {
      ReplacedRunsNoTest(b, p.nextCommand);
      ReplacedRunsNoTest(Replaced(b, p.nextCommand, true, ""), p.nextCommand);
    }
    NextNeeded(b.calls, p);
    NextNeeded(Replaced(b, p.nextCommand, true, "").calls, p);
    var guard := GuardCommand(p, b.calls);
    GuardIsNoTest(p, b.calls);
    if guard.Some? {
      ReplacedRunsNoTest(b, guard);
    } else {
      SilentGuard(p, b.calls);
      NoneRuns(b);
    }
  }

  lemma {:induction false} NoneRuns(b: Batch)
    requires forall k :: 0 <= k < |b.calls| ==> !RunsTest(b.calls[k])
    ensures NoTestRuns(b)
  {
  }

  lemma {:induction false} NextNeeded(calls: seq<Call>, p: Policy)
    ensures p.nextCommand == None ==>
              && !ReadsInstead(calls, p.nextCommand) && !MutatesInstead(calls, p.nextCommand)
              && !DefersInstead(calls, p.nextCommand) && !RepeatsRead(calls, p.nextCommand, p.seenCommands)
  {
  }

  /**
   For every history and every batch of calls: while a write is pending, with target files, no
   explicit tool and the command tool at hand, what the rewrite leaves of the batch runs no test.
   */
  lemma {:induction false} NoTestWhilePending(task: Task, s: Signals, e: Setting, b: Batch)
    requires NothingSeedsTests(task, e)
    requires Build(task, s, e).pendingWrite && Build(task, s, e).requiredTool == ""
    requires Build(task, s, e).requiredFiles != [] && e.execAvailable
    ensures NoTestRuns(Rewritten(b, Build(task, s, e), e.execAvailable, ""))
  {
    var p := Build(task, s, e);
    NextIsNoTest(task, s, e);
    DemandBuilt(task, s, e);
    NoOwnCall(task, s, e);
    PendingStage(task, s, e);
    hide Build, RewrittenCalls, NoTestRuns, Replaced, TakesOver;
    assert p.syntheticCall == None ==> !TakesOver(b, p) by {
      NoTakeOver(b, p);
    }
    if b.calls != [] {
      RewrittenCallsRunNoTest(b, p);
    } else if p.nextCommand.Some? {
      ReplacedRunsNoTest(b, p.nextCommand);
    } else {
      NotReplaced(b);
      NoneRuns(b);
    }
  }

  lemma {:induction false} NoTakeOver(b: Batch, p: Policy)
    requires p.syntheticCall == None
    ensures !TakesOver(b, p)
  {
  }

  lemma {:induction false} NotReplaced(b: Batch)
    ensures Replaced(b, None, true, "") == b
  {
  }

  lemma {:induction false} PendingStage(task: Task, s: Signals, e: Setting)
    requires Build(task, s, e).pendingWrite
    ensures Build(task, s, e).stage in {Explore, Execute}
  {
    DemandBuilt(task, s, e);
    hide Build, FinalDemand;
  }

  /** A write is pending from the first turn of every write task. */
  lemma {:induction false} PendingAtFirst(task: Task, e: Setting)
    requires task.usesTools && NeedsWrite(task) && e.requiredTool == ""
    ensures var p := Build(task, NO_SIGNALS, e);
            p.pendingWrite && p.requiredTool == "" && p.requiredFiles == RequiredFiles(task)
  {
    hide FinalDemand, Polls, NeedsWrite, MissingFiles, EmptyFiles, RepeatedScaffolds, AllFilesSeen, Deduped,
      RequiredFiles, ForcesNextCommand, ExecCall;
    NoPoll(NO_SIGNALS, e);
    DemandAtFirst(task, e);
  }

  lemma {:induction false} DemandAtFirst(task: Task, e: Setting)
    requires NeedsWrite(task) && e.requiredTool == ""
    ensures FinalDemand(task, NO_SIGNALS, e).pendingWrite && FinalDemand(task, NO_SIGNALS, e).requiredTool == ""
  {
    hide NextCommand, PrefersSeed, RepairTarget, Deduped, RequiredFiles, SequenceFiles, NeedsWrite, IsMutationTool;
  }

  // The two conditions are needed.

  function TestCall(): Call {
    Invoke(EXEC_COMMAND, Some(GO_TEST), FunctionCall, Some(map[]), "")
  }

  function PlanCall(): Call {
    Invoke("update_plan", None, FunctionCall, None, "")
  }

  /** A test and a call of another tool: no rewrite but the guard's applies to the pair. */
  function TestAndPlan(): Batch {
    Batch([TestCall(), PlanCall()], false, "", ActionsTool, true)
  }

  lemma {:induction false} TestRuns()
    ensures !NoTestRuns(TestAndPlan())
  {
    assert RunsTest(TestAndPlan().calls[0]);
  }

  /** Nothing but the guard and an available command tool changes that batch. */
  lemma {:induction false} PairPasses(p: Policy, execAvailable: bool)
    requires p.pendingWrite && (p.requiredFiles == [] || !execAvailable)
    ensures RewrittenCalls(TestAndPlan(), p, execAvailable, "") == TestAndPlan()
  {
    hide ReadsInstead, MutatesInstead, DefersInstead, RepeatsRead, AdvancesNext, OnlyExec, Replaced, FirstGuard, First;
    var b := TestAndPlan();
    PairKinds(p.nextCommand, p.seenCommands);
    var guard := GuardCommand(p, b.calls);
    if execAvailable {
      assert guard == None;
    } else {
      NeverReplaced(b, guard);
    }
  }

  lemma {:induction false} NeverReplaced(b: Batch, c: Option<Command>)
    ensures Replaced(b, c, false, "") == b
  {
  }

  lemma {:induction false} PairKinds(next: Option<Command>, seen: seq<Command>)
    ensures var calls := TestAndPlan().calls;
            && !ReadsInstead(calls, next) && !MutatesInstead(calls, next) && !DefersInstead(calls, next)
            && !RepeatsRead(calls, next, seen) && !AdvancesNext(calls, next, seen) && !OnlyExec(calls)
  {
    hide NamesReader;
    var calls := TestAndPlan().calls;
    assert !ReadsOnly(calls[0]) && !Mutates(calls[0]) by {
      assert IsExec(calls[0]);
    }
    assert !IsExec(calls[1]) by {
      assert |calls[1].name| != |EXEC_COMMAND|;
    }
    assert !Defers(calls[1]) && !Runs(calls[1], next);
  }

  /**
   The exact condition: with no explicit tool, every batch is kept free of tests while a write is
   pending if and only if there are target files and the command tool is at hand.
   */
  lemma {:induction false} TestsHeldBackExactly(task: Task, s: Signals, e: Setting)
    requires NothingSeedsTests(task, e)
    requires Build(task, s, e).pendingWrite && Build(task, s, e).requiredTool == ""
    ensures (forall b :: NoTestRuns(Rewritten(b, Build(task, s, e), e.execAvailable, "")))
            <==> Build(task, s, e).requiredFiles != [] && e.execAvailable
  {
    var p := Build(task, s, e);
    if p.requiredFiles != [] && e.execAvailable {
      forall b
        ensures NoTestRuns(Rewritten(b, p, e.execAvailable, ""))
      {
        NoTestWhilePending(task, s, e, b);
      }
    } else {
      DemandBuilt(task, s, e);
      NoOwnCall(task, s, e);
      PendingStage(task, s, e);
      NoTakeOver(TestAndPlan(), p);
      PairPasses(p, e.execAvailable);
      TestRuns();
      assert TestAndPlan().calls != [];
      hide Build, RewrittenCalls, NoTestRuns, TestAndPlan, TakesOver;
      assert Rewritten(TestAndPlan(), p, e.execAvailable, "") == TestAndPlan();
    }
  }

  /** Once the guard has answered a task that only reads, no write is pending any more. */
  lemma {:induction false} GuardEndsWrite(task: Task, s: Signals, e: Setting)
    requires GuardFailureSeen(s)
    ensures !Build(task, s, e).pendingWrite
  {
    if Build(task, s, e).pendingWrite {
      DemandBuilt(task, s, e);
      hide Build, NextCommand, PrefersSeed, RepairTarget, IsMutationTool, RequiredFiles, SequenceFiles, Deduped,
        GuardFailureSeen;
    }
  }

  /** In every history the files reported as missing are not also reported as empty. */
  lemma {:induction false} MissingAreNotEmpty(items: seq<Item>, files: seq<Path>)
    ensures var s := Collected(items); forall f :: f in MissingFiles(s, files) ==> f !in EmptyFiles(s, files)
  {
    hide Collected, PositionsSound, CountsSound;
    var s := Collected(items);
    CollectedSound(items);
    forall f | SeenRead(s.empty, f)
      ensures SeenRead(s.successful, f)
    {
      var c :| c in s.empty && c.IsReadOnly() && c.Mentions(f);
      assert c in s.successful;
    }
  }
}
