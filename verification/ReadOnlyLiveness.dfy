/** A read-only task whose next command is always run comes to an end. */
module ReadOnlyLiveness {
  import opened Text
  import opened PolicyModel
  import opened SignalsInvariant
  import opened CommandChooser
  import opened ExecutionPolicy
  import opened PolicyRuns

  /** Nothing has to be written, and no explicit tool is asked for. */
  predicate ReadOnlyTask(task: Task, e: Setting) {
    task.usesTools && !NeedsWrite(task) && e.requiredTool == ""
  }

  function Commands(task: Task): seq<Command> {
    Deduped(task.commands)
  }

  function Chosen(task: Task, s: Signals): Option<Command> {
    NextCommand(Commands(task), SequenceFiles(task), task.styles, s, false, RequiredFiles(task))
  }

  predicate Repairs(task: Task, s: Signals) {
    && TestFailedSinceWrite(s) && !(Chosen(task, s).Some? && Chosen(task, s).value.IsMutation())
    && RepairTarget(RequiredFiles(task), s).Some?
  }

  /** The next command of a read-only task. */
  function Proposed(task: Task, s: Signals): Option<Command> {
    if Repairs(task, s) then Read(RepairTarget(RequiredFiles(task), s)) else Chosen(task, s)
  }

  lemma {:induction false} BuiltReadOnly(task: Task, s: Signals, e: Setting)
    requires ReadOnlyTask(task, e) && s.runningSession == ""
    ensures var p := Build(task, s, e);
            && p.nextCommand == Proposed(task, s) && !p.pendingWrite
            && p.stage == if s.toolCalls == 0 then Explore else if Proposed(task, s).Some? then Verify else Finalize
  {
    hide FinalDemand, Proposed, Deduped, RequiredFiles, MissingFiles, EmptyFiles, RepeatedScaffolds, AllFilesSeen,
      NeedsWrite, ForcesNextCommand, ExecCall, Polls;
    NoPoll(s, e);
    DemandedReadOnly(task, s, e);
  }

  lemma {:induction false} DemandedReadOnly(task: Task, s: Signals, e: Setting)
    requires ReadOnlyTask(task, e)
    ensures FinalDemand(task, s, e) == Demand(Proposed(task, s), false, "")
  {
  }

  /** A required command other than a test has failed: it is proposed again. */
  predicate Wasted(task: Task, c: Command, o: Output) {
    c in Commands(task) && !c.IsTest() && !Succeeds(c, o)
  }

  /** The required command has neither succeeded nor is it a test that failed. */
  predicate Open(s: Signals, c: Command) {
    c !in s.successful && !(c.IsTest() && c in s.failed)
  }

  /** What is chosen is an unread file or an open command; if nothing is, nothing has to be run any more. */
  lemma {:induction false} ChosenCases(task: Task, s: Signals)
    ensures match Chosen(task, s)
            case Some(c) =>
              || (c.ReadFile? && c.path in SequenceFiles(task) && Unread(Commands(task), s, c.path))
              || (c in Commands(task) && Open(s, c))
            case None =>
              && (forall f :: f in SequenceFiles(task) ==> ExplicitlyRead(Commands(task), f) || SeenRead(s.commands, f))
              && forall c :: c in Commands(task) ==> Resolved(s, c) || (c.IsTest() && c in s.failed)
  {
    hide Deduped, SequenceFiles, RequiredFiles;
  }

  // The measure: what is unresolved first, then what is to be read again.

  function Unresolved(task: Task, s: Signals): nat {
    Count(SequenceFiles(task), f => Unread(Commands(task), s, f)) + Count(Commands(task), c => Open(s, c))
  }

  function Rereads(task: Task, s: Signals): nat {
    Count(RequiredFiles(task), f => ToReread(s, f))
  }

  function Weighted(unresolved: nat, files: nat, rereads: nat): nat {
    unresolved * (files + 1) + rereads
  }

  function Measure(task: Task, s: Signals): nat {
    Weighted(Unresolved(task, s), |RequiredFiles(task)|, Rereads(task, s))
  }

  lemma {:induction false} SeenStays(s: Signals, r: Signals, c: Command, f: Path)
    requires r.commands == s.commands + [c]
    ensures SeenRead(s.commands, f) ==> SeenRead(r.commands, f)
    ensures c.IsReadOnly() && c.Mentions(f) ==> SeenRead(r.commands, f)
  {
  }

  lemma {:induction false} ResultsStay(s: Signals, r: Signals, c: Command, o: Output)
    requires AfterRun(s, r, c, o)
    ensures forall d :: Open(r, d) ==> Open(s, d)
    ensures Succeeds(c, o) || c.IsTest() ==> !Open(r, c)
  {
  }

  /** Nothing resolved becomes unresolved again. */
  lemma {:induction false} UnresolvedShrinks(task: Task, s: Signals, r: Signals, c: Command, o: Output)
    requires AfterRun(s, r, c, o)
    ensures Unresolved(task, r) <= Unresolved(task, s)
    ensures c in Commands(task) && Open(s, c) && !Wasted(task, c, o) ==> Unresolved(task, r) < Unresolved(task, s)
    ensures c.ReadFile? && c.path in SequenceFiles(task) && Unread(Commands(task), s, c.path)
            ==> Unresolved(task, r) < Unresolved(task, s)
  {
    RunAppends(s, r, c, o);
    ResultsStay(s, r, c, o);
    hide Deduped, SequenceFiles, SeenRead, Count, AfterRun, Open, Succeeds;
    var commands, files := Commands(task), SequenceFiles(task);
    forall f
      ensures SeenRead(s.commands, f) ==> SeenRead(r.commands, f)
      ensures c.IsReadOnly() && c.Mentions(f) ==> SeenRead(r.commands, f)
    {
      SeenStays(s, r, c, f);
    }
    CountShrinks(files, f => Unread(commands, s, f), f => Unread(commands, r, f));
    CountShrinks(commands, d => Open(s, d), d => Open(r, d));
  }

  /** Reading a file again leaves one file fewer to be read again. */
  lemma {:induction false} RereadShrinks(task: Task, s: Signals, r: Signals, c: Command, o: Output, f: Path)
    requires Sound(s) && AfterRun(s, r, c, o) && c == ReadFile(f) && HasDirectory(f)
    requires f in RequiredFiles(task) && ToReread(s, f)
    ensures Rereads(task, r) < Rereads(task, s)
  {
    hide Count, RequiredFiles, ResultsSound, CountsSound, Succeeds, Gained;
    assert s.lastFailedTest <= |s.commands|;
    assert r.lastFailedTest == s.lastFailedTest && r.readPos == s.readPos[f := |s.commands| + 1];
    CountShrinks(RequiredFiles(task), g => ToReread(s, g), g => ToReread(r, g));
  }

  lemma {:induction false} Lexicographic(u: nat, v: nat, a: nat, b: nat, files: nat)
    requires b <= files && (v < u || (v <= u && b < a))
    ensures Weighted(v, files, b) < Weighted(u, files, a)
  {
    if v < u {
      assert v * (files + 1) + (files + 1) <= u * (files + 1) by {
        assert (v + 1) * (files + 1) == v * (files + 1) + (files + 1);
        Grows(v + 1, u, files + 1);
      }
    } else {
      assert v == u;
    }
  }

  lemma {:induction false} Grows(a: nat, b: nat, k: nat)
    requires a <= b
    ensures a * k <= b * k
  {
  }

  /**
   A test has failed, the file to be read again has no directory part, so that reading it is not
   recorded, and reading it is not what would be proposed anyway.
   */
  predicate Stuck(task: Task, s: Signals) {
    Repairs(task, s) && !HasDirectory(Proposed(task, s).value.path) && Chosen(task, s) != Proposed(task, s)
  }

  /** Every turn with a next command brings the measure down, unless it is stuck or wasted. */
  lemma {:induction false} MeasureDrops(task: Task, s: Signals, r: Signals, o: Output)
    requires Sound(s) && Proposed(task, s).Some? && AfterRun(s, r, Proposed(task, s).value, o)
    requires !Stuck(task, s) && !Wasted(task, Proposed(task, s).value, o)
    ensures Measure(task, r) < Measure(task, s)
  {
    hide AfterRun, Chosen, RequiredFiles, SequenceFiles, Commands, Count, ToReread, Unread, Sound, Wasted, Open;
    var c := Proposed(task, s).value;
    var files := RequiredFiles(task);
    UnresolvedShrinks(task, s, r, c, o);
    ChosenCases(task, s);
    if Repairs(task, s) && HasDirectory(c.path) {
      RepairCase(task, s, r, o);
    }
    assert Rereads(task, r) <= |files|;
    Lexicographic(Unresolved(task, s), Unresolved(task, r), Rereads(task, s), Rereads(task, r), |files|);
  }

  lemma {:induction false} RepairCase(task: Task, s: Signals, r: Signals, o: Output)
    requires Sound(s) && Repairs(task, s) && HasDirectory(Proposed(task, s).value.path)
    requires AfterRun(s, r, Proposed(task, s).value, o)
    ensures Rereads(task, r) < Rereads(task, s)
  {
    hide Sound, AfterRun, Chosen, RequiredFiles, Commands, Count;
    var f := RepairTarget(RequiredFiles(task), s).value;
    RereadShrinks(task, s, r, ReadFile(f), o, f);
  }

  // Runs.

  /** A run of a read-only task from an empty history in which every command ends, well or not. */
  ghost predicate EndingRun(run: ClientRun) {
    ReadOnlyTask(run.task, run.setting) && run.start == [] && CommandsEnd(run)
  }

  /** There are such runs of every read-only task. */
  lemma {:induction false} RunsEnding(task: Task, e: Setting)
    requires ReadOnlyTask(task, e)
    ensures EndingRun(QuietRun(task, e, [])) && EndingRun(FailingRun(task, e, []))
  {
  }

  /** No command is still running, and every command that was run has a result. */
  ghost predicate Answered(s: Signals) {
    Sound(s) && s.runningSession == "" && forall c :: c in s.commands ==> c in s.successful || c in s.failed
  }

  lemma {:induction false} AnsweredAfter(s: Signals, r: Signals, c: Command, o: Output)
    requires Answered(s) && AfterRun(s, r, c, o) && Sound(r) && r.runningSession == ""
    ensures Answered(r)
  {
    hide Sound;
  }

  lemma {:induction false} RunAnswered(run: ClientRun, n: nat)
    requires EndingRun(run)
    ensures Answered(RunSignals(run, n))
  {
    hide RunSignals, RunPolicy, AfterRun, Sound, ReadOnlyTask;
    if n == 0 {
      RunStarts(run);
      NothingSound();
    } else {
      RunAnswered(run, n - 1);
      RunTurn(run, n - 1);
      var next := RunPolicy(run, n - 1).nextCommand;
      if next.Some? {
        AnsweredAfter(RunSignals(run, n - 1), RunSignals(run, n), next.value, run.outs(n - 1));
      }
    }
  }

  /** What the policy proposes in a run, and what one turn does. */
  lemma {:induction false} RunProposes(run: ClientRun, n: nat)
    requires EndingRun(run)
    ensures var s, r, p := RunSignals(run, n), RunSignals(run, n + 1), RunPolicy(run, n);
            && CommandsEnd(run) && Answered(s) && p.nextCommand == Proposed(run.task, s)
            && (p.stage == Finalize <==> Proposed(run.task, s) == None && s.toolCalls > 0)
            && if p.nextCommand == None then r == s else AfterRun(s, r, p.nextCommand.value, run.outs(n))
  {
    hide RunSignals, Build, AfterRun, Sound, Proposed, ReadOnlyTask;
    RunAnswered(run, n);
    BuiltReadOnly(run.task, RunSignals(run, n), run.setting);
    RunTurn(run, n);
  }

  ghost predicate StuckAt(run: ClientRun, n: nat) {
    Stuck(run.task, RunSignals(run, n))
  }

  ghost predicate WastedAt(run: ClientRun, n: nat) {
    var next := RunPolicy(run, n).nextCommand;
    next.Some? && Wasted(run.task, next.value, run.outs(n))
  }

  /** From a turn on, no turn is stuck or wasted. */
  ghost predicate Moves(run: ClientRun, n: nat) {
    forall m :: m >= n ==> !StuckAt(run, m) && !WastedAt(run, m)
  }

  /** From a turn on, no required command but a test fails. */
  ghost predicate NoWasteFrom(run: ClientRun, n: nat) {
    forall m :: m >= n ==> !WastedAt(run, m)
  }

  /** A run that moves comes to a turn without a next command, after as many turns as the measure says. */
  lemma {:induction false} RunEnds(run: ClientRun, n: nat) returns (m: nat)
    requires EndingRun(run) && Moves(run, n)
    ensures n <= m <= n + Measure(run.task, RunSignals(run, n)) && Proposed(run.task, RunSignals(run, m)) == None
    decreases Measure(run.task, RunSignals(run, n))
  {
    hide RunPolicy, RunSignals, EndingRun, AfterRun, Proposed, Stuck, Wasted, Measure, Sound;
    var s := RunSignals(run, n);
    RunProposes(run, n);
    if Proposed(run.task, s) == None {
      m := n;
    } else {
      assert !StuckAt(run, n) && !WastedAt(run, n);
      MeasureDrops(run.task, s, RunSignals(run, n + 1), run.outs(n));
      m := RunEnds(run, n + 1);
    }
  }

  lemma {:induction false} IdleMoves(run: ClientRun, n: nat)
    requires EndingRun(run) && RunPolicy(run, n).nextCommand == None
    ensures Moves(run, n)
  {
    hide RunSignals, Build, EndingRun, Answered, Proposed, Stuck, Wasted, AfterRun;
    RunProposes(run, n);
    StuckProposes(run.task, RunSignals(run, n));
    forall m | m >= n
      ensures !StuckAt(run, m) && !WastedAt(run, m)
    {
      IdleFrom(run, n, m);
    }
  }

  lemma {:induction false} StuckProposes(task: Task, s: Signals)
    ensures Stuck(task, s) ==> Proposed(task, s).Some?
  {
  }

  /** When nothing is proposed every file has been read and every command run, and what has not succeeded is named. */
  lemma {:induction false} NothingLeft(task: Task, s: Signals)
    requires Answered(s) && Proposed(task, s) == None
    ensures forall f :: f in SequenceFiles(task) ==> SeenRead(s.commands, f)
    ensures forall c :: c in Commands(task) ==>
              || c in s.successful || (c.IsTest() && c in s.failed)
              || (s.successful == [] && !c.IsReadOnly() && c in s.failed)
    ensures TestFailedSinceWrite(s) ==> forall f :: f in RequiredFiles(task) ==> !ToReread(s, f)
  {
    hide PositionsSound, CountsSound, NextCommand, RequiredFiles, SequenceFiles, Commands;
    ChosenCases(task, s);
  }

  /** The most turns a task can take if no turn is stuck or wasted. */
  function TurnBound(task: Task): nat {
    Weighted(|SequenceFiles(task)| + |Commands(task)|, |RequiredFiles(task)|, |RequiredFiles(task)|)
  }

  lemma {:induction false} StartMeasure(task: Task)
    ensures Measure(task, NO_SIGNALS) <= TurnBound(task)
  {
    hide Deduped, RequiredFiles, SequenceFiles, Unread, ToReread, Open;
    Grows(Unresolved(task, NO_SIGNALS), |SequenceFiles(task)| + |Commands(task)|, |RequiredFiles(task)| + 1);
  }

  /** The task names a file or a command. */
  predicate NamesSomething(task: Task) {
    SequenceFiles(task) != [] || Commands(task) != []
  }

  /**
   For all outcomes: from an empty history a read-only task reaches the final stage if and only if it
   names a file or a command and, from some turn on, is neither stuck nor repeating a failing command.
   */
  lemma {:induction false} ReachesFinalize(run: ClientRun)
    requires EndingRun(run)
    ensures (exists n: nat :: RunPolicy(run, n).stage == Finalize)
            <==> NamesSomething(run.task) && exists n: nat :: Moves(run, n)
  {
    hide RunSignals, RunPolicy, EndingRun, Answered, Proposed, Moves, Measure, NamesSomething;
    if !NamesSomething(run.task) {
      forall n
        ensures RunPolicy(run, n).stage != Finalize
      {
        NothingFinal(run, n);
      }
    } else if n: nat :| Moves(run, n) {
      var m := RunEnds(run, n);
      FinalAt(run, m);
    } else if n: nat :| RunPolicy(run, n).stage == Finalize {
      RunProposes(run, n);
      IdleMoves(run, n);
    }
  }

  /** A run that never is stuck nor repeats a failing command ends within the bound. */
  lemma {:induction false} EndsInTime(run: ClientRun)
    requires EndingRun(run) && NamesSomething(run.task) && Moves(run, 0)
    ensures exists n: nat :: n <= TurnBound(run.task) && RunPolicy(run, n).stage == Finalize
  {
    hide RunSignals, RunPolicy, EndingRun, Proposed, Moves, Measure, NamesSomething, TurnBound;
    StartsEmpty(run);
    StartMeasure(run.task);
    var m := RunEnds(run, 0);
    FinalAt(run, m);
  }

  lemma {:induction false} FinalAt(run: ClientRun, n: nat)
    requires EndingRun(run) && NamesSomething(run.task) && Proposed(run.task, RunSignals(run, n)) == None
    ensures RunPolicy(run, n).stage == Finalize
  {
    hide RunSignals, RunPolicy, EndingRun, Answered, Proposed, NamesSomething;
    RunProposes(run, n);
    SomethingRun(run.task, RunSignals(run, n));
  }

  /** If the task names something, something was run by the time nothing is left. */
  lemma {:induction false} SomethingRun(task: Task, s: Signals)
    requires Answered(s) && Proposed(task, s) == None && NamesSomething(task)
    ensures s.toolCalls > 0
  {
    hide Proposed, SequenceFiles, Commands, PositionsSound, RequiredFiles;
    NothingLeft(task, s);
    if SequenceFiles(task) != [] {
      assert SeenRead(s.commands, SequenceFiles(task)[0]);
    } else {
      assert Commands(task)[0] in s.commands;
    }
  }

  lemma {:induction false} NothingEver(run: ClientRun, n: nat)
    requires EndingRun(run) && !NamesSomething(run.task)
    ensures RunSignals(run, n) == NO_SIGNALS
  {
    hide RunSignals, RunPolicy, AfterRun, Answered, Proposed, NamesSomething, EndingRun;
    StartsEmpty(run);
    if n > 0 {
      NothingEver(run, n - 1);
      RunProposes(run, n - 1);
      NothingProposed(run.task);
    }
  }

  lemma {:induction false} NothingFinal(run: ClientRun, n: nat)
    requires EndingRun(run) && !NamesSomething(run.task)
    ensures RunPolicy(run, n).stage != Finalize
  {
    hide RunSignals, RunPolicy, EndingRun, Proposed;
    RunProposes(run, n);
    NothingEver(run, n);
  }

  lemma {:induction false} StartsEmpty(run: ClientRun)
    requires EndingRun(run)
    ensures RunSignals(run, 0) == NO_SIGNALS
  {
    hide RunPolicy, RunSignals, ReadOnlyTask;
    RunStarts(run);
  }

  lemma {:induction false} NothingProposed(task: Task)
    requires !NamesSomething(task)
    ensures Proposed(task, NO_SIGNALS) == None
  {
  }

  /**
   In the final stage every file has been read, and every required command has succeeded or is a
   failed test; only where nothing has succeeded at all another command may have failed.
   */
  lemma {:induction false} FinalizeMeansDone(run: ClientRun, n: nat)
    requires EndingRun(run) && RunPolicy(run, n).stage == Finalize
    ensures var s := RunSignals(run, n);
            && (forall f :: f in SequenceFiles(run.task) ==> SeenRead(s.commands, f))
            && (forall c :: c in Commands(run.task) ==>
                  || c in s.successful || (c.IsTest() && c in s.failed)
                  || (s.successful == [] && !c.IsReadOnly() && c in s.failed))
            && (TestFailedSinceWrite(s) ==> forall f :: f in RequiredFiles(run.task) ==> !ToReread(s, f))
  {
    hide RunSignals, RunPolicy, EndingRun, Answered, Proposed, SequenceFiles, Commands, RequiredFiles, ToReread,
      SeenRead;
    RunProposes(run, n);
    NothingLeft(run.task, RunSignals(run, n));
  }
}
