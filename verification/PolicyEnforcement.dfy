/** The rewrite makes the model follow the policy. */
module PolicyEnforcement {
  import opened Text
  import opened PolicyModel
  import opened HistorySignals
  import opened ExecutionPolicy
  import opened PolicyRewrite
  import opened PolicyRuns
  import opened PolicySafety
  import L = ReadOnlyLiveness

  /** The batch consists of one call of `exec_command`, which runs the command. */
  predicate RunsOnly(b: Batch, c: Option<Command>) {
    |b.calls| == 1 && Runs(b.calls[0], c) && b.calls[0].name == EXEC_COMMAND
  }

  /** A batch leaves the rewrite as it came, without its calls, or as one call made up by the policy. */
  predicate Shape(b: Batch, r: Batch, p: Policy, execAvailable: bool, tool: string) {
    || r == b
    || (r == b.(calls := [], failed := false, candidateFound := true) && p.stage == Finalize && !p.requireTool)
    || (p.syntheticCall.Some? && r == Only(p.syntheticCall.value))
    || MadeUp(r, p.nextCommand, execAvailable, tool)
    || MadeUp(r, GuardCommand(p, b.calls), execAvailable, tool)
  }

  predicate MadeUp(r: Batch, c: Option<Command>, execAvailable: bool, tool: string) {
    ExecCall(c, execAvailable, tool).Some? && r == Only(ExecCall(c, execAvailable, tool).value)
  }

  lemma {:induction false} ReplacedShape(b: Batch, c: Option<Command>, execAvailable: bool, tool: string)
    ensures Replaced(b, c, execAvailable, tool) == b
            || MadeUp(Replaced(b, c, execAvailable, tool), c, execAvailable, tool)
  {
  }

  /** For every batch and policy: no call of the model is edited, only kept or replaced with all others. */
  lemma {:induction false} RewriteShape(b: Batch, p: Policy, execAvailable: bool, tool: string)
    ensures var r := Rewritten(b, p, execAvailable, tool);
            && Shape(b, r, p, execAvailable, tool)
            && (r == b || r == b.(calls := [], failed := false, candidateFound := true)
                || (|r.calls| == 1 && !r.failed && r.visibleText == "" && r.mode == ActionsTool && r.candidateFound))
  {
    hide ReadsInstead, MutatesInstead, DefersInstead, RepeatsRead, AdvancesNext, OnlyExec, Replaced, GuardCommand,
      SameCall, ExecCall;
    var next := p.nextCommand;
    var b1 := Replaced(b, next, execAvailable, tool);
    ReplacedShape(b, next, execAvailable, tool);
    ReplacedShape(b1, next, execAvailable, tool);
    ReplacedShape(b, GuardCommand(p, b.calls), execAvailable, tool);
  }

  /** The stages in which the policy insists on its next command. */
  predicate Insists(task: Task, p: Policy) {
    && p.enabled && p.requireTool && p.requiredTool == "" && p.nextCommand.Some?
    && (p.stage == Verify || (p.stage == Explore && p.forceSingle && !NeedsWrite(task)))
  }

  lemma {:induction false} OwnCall(task: Task, s: Signals, e: Setting)
    requires Insists(task, Build(task, s, e)) && e.execAvailable
    ensures var p := Build(task, s, e); p.syntheticCall == ExecCall(p.nextCommand, true, "")
  {
    hide FinalDemand, Polls, MissingFiles, EmptyFiles, RepeatedScaffolds, AllFilesSeen, Deduped, RequiredFiles,
      NeedsWrite, ExecCall, IsExecTool;
    if task.usesTools && Polls(s, e) {
      PollNamesTool(task, s, e);
    }
  }

  /** While a session is polled the explicit tool is the polling tool. */
  lemma {:induction false} PollNamesTool(task: Task, s: Signals, e: Setting)
    requires task.usesTools && Polls(s, e)
    ensures Build(task, s, e).requiredTool != ""
  {
    hide Polls, FinalDemand, Deduped, RequiredFiles;
  }

  /**
   Whatever the model asks for in these stages, exactly the next command is executed: its calls are
   replaced by one that runs it, unless they already are one.
   */
  lemma {:induction false} NextCommandEnforced(task: Task, s: Signals, e: Setting, b: Batch)
    requires Insists(task, Build(task, s, e)) && e.execAvailable
    ensures RunsOnly(Rewritten(b, Build(task, s, e), true, ""), Build(task, s, e).nextCommand)
  {
    hide Build, Rewritten, ExecCall, NeedsWrite, RunsOnly;
    OwnCall(task, s, e);
    if Build(task, s, e).pendingWrite {
      PendingStage(task, s, e);
      PendingNeedsWrite(task, s, e);
    }
    InsistedBatch(task, Build(task, s, e), b);
  }

  lemma {:induction false} InsistedBatch(task: Task, p: Policy, b: Batch)
    requires Insists(task, p) && !p.pendingWrite && p.syntheticCall == ExecCall(p.nextCommand, true, "")
    ensures RunsOnly(Rewritten(b, p, true, ""), p.nextCommand)
  {
    hide NeedsWrite, RewrittenCalls, IsExecTool;
    OwnCallRuns(p.nextCommand);
    if b.calls != [] && !TakesOver(b, p) {
      assert SameCall(b.calls[0], p.syntheticCall.value);
      KeptBatch(p, b);
    }
  }

  lemma {:induction false} OwnCallRuns(c: Option<Command>)
    requires c.Some?
    ensures var call := ExecCall(c, true, ""); call.Some? && Runs(call.value, c) && call.value.name == EXEC_COMMAND
  {
  }

  /** A single call that runs the next command is never replaced by anything but itself. */
  lemma {:induction false} KeptBatch(p: Policy, b: Batch)
    requires p.nextCommand.Some? && RunsOnly(b, p.nextCommand) && !p.pendingWrite
    ensures RunsOnly(RewrittenCalls(b, p, true, ""), p.nextCommand)
  {
    hide ReadsOnly, Mutates, Defers, Repeats, Runs, AllRead, AllMutate, AllDefer;
    assert AnyRuns(b.calls, p.nextCommand);
    OwnCallRuns(p.nextCommand);
  }

  /**
   For a model held to one tool call at a time and a read-only task: whatever the model asks for,
   the turn executes exactly the next command, and in the final stage every call is dropped.
   */
  lemma {:induction false} StrictTurn(run: ClientRun, n: nat, b: Batch)
    requires L.EndingRun(run) && run.task.strictLoop && run.setting.execAvailable
    ensures var p := RunPolicy(run, n);
            && (p.nextCommand.Some? ==> RunsOnly(Rewritten(b, p, true, ""), p.nextCommand))
            && (p.stage == Finalize ==> Rewritten(b, p, true, "").calls == [])
  {
    hide RunSignals, Build, RewrittenCalls, TakesOver, RunsOnly, L.EndingRun, L.Proposed;
    var s := RunSignals(run, n);
    TaskOf(run);
    L.RunAnswered(run, n);
    L.BuiltReadOnly(run.task, s, run.setting);
    StrictPolicy(run.task, s, run.setting);
    if RunPolicy(run, n).nextCommand.Some? {
      NextCommandEnforced(run.task, s, run.setting, b);
    }
  }

  /**
   A client that executes what the rewrite leaves of the batches of its model. `run` has the task and
   what the commands print; `others` is what any batch but a single command leaves in the history.
   */
  datatype ModelRun = ModelRun(run: ClientRun, asks: nat -> Batch, others: (nat, seq<Call>) -> seq<Item>)

  function Executed(m: ModelRun, n: nat, calls: seq<Call>): seq<Item> {
    if calls == [] then []
    else if |calls| == 1 && IsExec(calls[0]) && calls[0].command.Some? then
      [ToolCall(m.run.ids(n), calls[0].name, calls[0].command, ""), ToolOutput(m.run.ids(n), m.run.outs(n))]
    else m.others(n, calls)
  }

  ghost function ModelHistory(m: ModelRun, n: nat): seq<Item> {
    if n == 0 then m.run.start
    else
      var h := ModelHistory(m, n - 1);
      var p := Build(m.run.task, Collected(h), m.run.setting);
      h + Executed(m, n - 1, Rewritten(m.asks(n - 1), p, m.run.setting.execAvailable, m.run.setting.requiredTool).calls)
  }

  ghost function ModelPolicy(m: ModelRun, n: nat): Policy {
    Build(m.run.task, Collected(ModelHistory(m, n)), m.run.setting)
  }

  ghost predicate StrictRun(m: ModelRun) {
    L.EndingRun(m.run) && m.run.task.strictLoop && m.run.setting.execAvailable && L.NamesSomething(m.run.task)
  }

  lemma {:induction false} NextExecuted(m: ModelRun, n: nat, b: Batch, c: Command)
    requires RunsOnly(b, Some(c))
    ensures Executed(m, n, b.calls) == TurnItems(m.run.ids(n), c, m.run.outs(n))
  {
    hide IsExecTool;
  }

  /** Whatever the model asks for in any turn, the history is that of a client that runs the next commands. */
  lemma {:induction false} ModelFollows(m: ModelRun, n: nat)
    requires StrictRun(m)
    ensures ModelHistory(m, n) == RunHistory(m.run, n)
  {
    hide Build, Collected, Rewritten, RunsOnly, Executed, TurnItems, AfterRun, L.Answered, L.EndingRun, L.Proposed,
      L.NamesSomething;
    if n > 0 {
      ModelFollows(m, n - 1);
      TaskOf(m.run);
      var p := RunPolicy(m.run, n - 1);
      var b := Rewritten(m.asks(n - 1), p, true, "");
      StrictTurn(m.run, n - 1, m.asks(n - 1));
      if p.nextCommand.Some? {
        NextExecuted(m, n - 1, b, p.nextCommand.value);
      } else {
        L.RunProposes(m.run, n - 1);
        L.FinalAt(m.run, n - 1);
        NothingExecuted(m, n - 1, RunHistory(m.run, n - 1));
      }
    }
  }

  lemma {:induction false} NothingExecuted(m: ModelRun, n: nat, h: seq<Item>)
    ensures h + Executed(m, n, []) == h
  {
  }

  /**
   So nobody has to cooperate: a task that names something reaches the final stage, whatever the
   model asks for, if and only if from some turn on it is neither stuck nor repeats a failing command.
   */
  lemma {:induction false} ModelReachesFinalize(m: ModelRun)
    requires StrictRun(m)
    ensures (exists n: nat :: ModelPolicy(m, n).stage == Finalize) <==> exists n: nat :: L.Moves(m.run, n)
  {
    hide Build, Collected, ModelHistory, RunHistory, L.Moves, L.EndingRun, L.NamesSomething;
    L.ReachesFinalize(m.run);
    forall n: nat
      ensures ModelPolicy(m, n) == RunPolicy(m.run, n)
    {
      ModelFollows(m, n);
    }
  }

  lemma {:induction false} TaskOf(run: ClientRun)
    requires L.EndingRun(run)
    ensures L.ReadOnlyTask(run.task, run.setting)
  {
    hide RunPolicy;
  }

  /** The policy of a read-only task whose model is held to one call at a time. */
  lemma {:induction false} StrictPolicy(task: Task, s: Signals, e: Setting)
    requires L.ReadOnlyTask(task, e) && task.strictLoop && s.runningSession == ""
    ensures var p := Build(task, s, e);
            && p.enabled && p.forceSingle && p.requiredTool == ""
            && (p.nextCommand.Some? ==> Insists(task, p))
            && (p.stage == Finalize ==> !p.requireTool && p.syntheticCall == None)
  {
    hide FinalDemand, Polls, L.Proposed, MissingFiles, EmptyFiles, RepeatedScaffolds, AllFilesSeen, Deduped,
      RequiredFiles, NeedsWrite, ExecCall;
    NoPoll(s, e);
    L.DemandedReadOnly(task, s, e);
  }
}
