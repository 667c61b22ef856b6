/** When a read-only task is stuck. */
module BareFiles {
  import opened Text
  import opened PolicyModel
  import opened SignalsInvariant
  import opened CommandChooser
  import opened ExecutionPolicy
  import opened PolicyRuns
  import opened ReadOnlyLiveness

  /** A run in which every command ends and no required command but a test fails. */
  ghost predicate AllowedRun(run: ClientRun) {
    EndingRun(run) && forall n :: n >= 0 ==> !WastedAt(run, n)
  }

  /** There are such runs of every read-only task: those in which every command ends well, or every test fails. */
  lemma {:induction false} RunsAllowed(task: Task, e: Setting)
    requires ReadOnlyTask(task, e)
    ensures AllowedRun(QuietRun(task, e, [])) && AllowedRun(FailingRun(task, e, []))
  {
    hide RunPolicy, ReadOnlyTask;
  }

  /** Only reads and required commands were run, and all have a result. */
  ghost predicate Known(task: Task, s: Signals) {
    Answered(s) && forall c :: c in s.commands ==> c.ReadFile? || c in Commands(task)
  }

  lemma {:induction false} KnownAfter(task: Task, s: Signals, r: Signals, c: Command, o: Output)
    requires Known(task, s) && AfterRun(s, r, c, o) && Answered(r) && (c.ReadFile? || c in Commands(task))
    ensures Known(task, r)
  {
    hide Answered;
  }

  lemma {:induction false} RunKnown(run: ClientRun, n: nat)
    requires EndingRun(run)
    ensures Known(run.task, RunSignals(run, n))
  {
    hide RunSignals, RunPolicy, EndingRun, AfterRun, Answered, Proposed;
    RunProposes(run, n);
    if n == 0 {
      StartsEmpty(run);
    } else {
      RunKnown(run, n - 1);
      RunProposes(run, n - 1);
      ProposedKind(run.task, RunSignals(run, n - 1));
      if RunPolicy(run, n - 1).nextCommand.Some? {
        KnownAfter(run.task, RunSignals(run, n - 1), RunSignals(run, n), RunPolicy(run, n - 1).nextCommand.value,
            run.outs(n - 1));
      }
    }
  }

  /** Moreover a required command has succeeded or is a failed test. */
  ghost predicate Settled(task: Task, s: Signals) {
    Known(task, s) && forall c :: c in s.failed && c in Commands(task) ==> c.IsTest()
  }

  lemma {:induction false} SettledAfter(task: Task, s: Signals, r: Signals, c: Command, o: Output)
    requires Settled(task, s) && AfterRun(s, r, c, o) && !Wasted(task, c, o) && Known(task, r)
    ensures Settled(task, r)
  {
    hide Known;
  }

  lemma {:induction false} ProposedKind(task: Task, s: Signals)
    ensures var next := Proposed(task, s); next.Some? ==> next.value.ReadFile? || next.value in Commands(task)
  {
    hide Unread, SequenceFiles, RequiredFiles, Deduped;
    ChosenCases(task, s);
  }

  lemma {:induction false} RunSettled(run: ClientRun, n: nat)
    requires AllowedRun(run)
    ensures Settled(run.task, RunSignals(run, n))
  {
    hide RunSignals, RunPolicy, EndingRun, AfterRun, Known, Proposed, Wasted;
    RunKnown(run, n);
    if n == 0 {
      StartsEmpty(run);
    } else {
      RunSettled(run, n - 1);
      RunProposes(run, n - 1);
      assert !WastedAt(run, n - 1);
      if RunPolicy(run, n - 1).nextCommand.Some? {
        SettledAfter(run.task, RunSignals(run, n - 1), RunSignals(run, n), RunPolicy(run, n - 1).nextCommand.value,
            run.outs(n - 1));
      }
    }
  }

  /** In a settled state a required command is still to be run exactly if it has not been run. */
  lemma {:induction false} UnmetIsNew(task: Task, s: Signals, c: Command)
    requires Settled(task, s) && c in Commands(task)
    ensures Unmet(s, false, c) <==> c !in s.commands
  {
  }

  /** Reading a file that is not chosen leaves the choice as it is. */
  lemma {:induction false} ChoiceStays(task: Task, s: Signals, r: Signals, g: Path)
    requires Settled(task, s) && Settled(task, r) && r.commands == s.commands + [ReadFile(g)]
    requires Chosen(task, s) != Some(ReadFile(g))
    ensures Chosen(task, r) == Chosen(task, s)
  {
    var commands, files := Commands(task), SequenceFiles(task);
    forall f
      ensures SeenRead(r.commands, f) <==> SeenRead(s.commands, f) || f == g
    {
      SeenStays(s, r, ReadFile(g), f);
    }
    forall c | c in commands
      ensures Unmet(s, false, c) <==> c !in s.commands
      ensures Unmet(r, false, c) <==> c !in s.commands && c != ReadFile(g)
    {
      UnmetIsNew(task, s, c);
      UnmetIsNew(task, r, c);
    }
    hide Settled, Commands, SequenceFiles, SeenRead, Unmet, First;
    FirstSame(files, f => Unread(commands, s, f), f => Unread(commands, r, f));
    if FirstUnread(commands, s, files) == None {
      FirstSame(commands, c => Unmet(s, false, c), c => Unmet(r, false, c));
      if FirstUnmet(commands, s, false) == None && commands == [] {
        FirstSame(files, f => !SeenRead(s.commands, f), f => !SeenRead(r.commands, f));
      }
    }
  }

  lemma {:induction false} StuckStays(task: Task, s: Signals, r: Signals, o: Output)
    requires Settled(task, s) && Settled(task, r) && Stuck(task, s)
    requires AfterRun(s, r, Proposed(task, s).value, o)
    ensures Stuck(task, r)
  {
    hide Settled, Chosen, RequiredFiles, Gained, Succeeds, ToReread;
    var g, files := Proposed(task, s).value.path, RequiredFiles(task);
    ChoiceStays(task, s, r, g);
    assert r.readPos == s.readPos && r.lastFailedTest == s.lastFailedTest && r.lastWrite == s.lastWrite;
    SameTarget(files, s, r);
  }

  /** A run that is stuck once is stuck for ever. */
  lemma {:induction false} StuckForEver(run: ClientRun, n: nat, m: nat)
    requires AllowedRun(run) && StuckAt(run, n) && n <= m
    ensures StuckAt(run, m)
  {
    hide Settled, RunPolicy, RunSignals, AfterRun, Answered, Proposed, Stuck, EndingRun, Wasted;
    if n < m {
      StuckForEver(run, n, m - 1);
      RunProposes(run, m - 1);
      RunSettled(run, m - 1);
      RunSettled(run, m);
      StuckProposes(run.task, RunSignals(run, m - 1));
      StuckStays(run.task, RunSignals(run, m - 1), RunSignals(run, m), run.outs(m - 1));
    }
  }

  lemma {:induction false} StuckNeverFinalizes(run: ClientRun, n: nat, m: nat)
    requires AllowedRun(run) && StuckAt(run, n)
    ensures RunPolicy(run, m).stage != Finalize
  {
    hide RunSignals, RunPolicy, AllowedRun, Answered, Proposed, Stuck;
    NoWaste(run);
    RunProposes(run, m);
    if RunPolicy(run, m).stage == Finalize {
      if m <= n {
        IdleFrom(run, m, n);
      } else {
        StuckForEver(run, n, m);
      }
      StuckProposes(run.task, RunSignals(run, m));
    }
  }

  lemma {:induction false} NoWaste(run: ClientRun)
    requires AllowedRun(run)
    ensures EndingRun(run)
    ensures (forall n: nat :: !StuckAt(run, n)) ==> Moves(run, 0)
  {
    hide EndingRun, StuckAt, WastedAt;
  }

  /**
   A task that names something reaches the final stage, and within the bound, if and only if the run
   is never stuck.
   */
  lemma {:induction false} FinalizesUnlessStuck(run: ClientRun)
    requires AllowedRun(run) && NamesSomething(run.task)
    ensures (exists n: nat :: n <= TurnBound(run.task) && RunPolicy(run, n).stage == Finalize)
            <==> forall n: nat :: !StuckAt(run, n)
    ensures (exists n: nat :: RunPolicy(run, n).stage == Finalize)
            <==> forall n: nat :: !StuckAt(run, n)
  {
    hide RunSignals, RunPolicy, AllowedRun, Stuck, TurnBound, NamesSomething, Moves;
    NoWaste(run);
    if n: nat :| StuckAt(run, n) {
      forall m
        ensures RunPolicy(run, m).stage != Finalize
      {
        StuckNeverFinalizes(run, n, m);
      }
    } else {
      EndsInTime(run);
    }
  }

  // Which tasks can be stuck.

  /** No required command writes. */
  predicate OnlyReadsAndTests(task: Task) {
    forall c :: c in Commands(task) ==> !c.IsMutation()
  }

  /** No write is recorded, and no read position of a file without a directory part. */
  lemma {:induction false} BareFileUnread(task: Task, s: Signals, f: Path)
    requires Known(task, s) && OnlyReadsAndTests(task)
    ensures s.lastWrite == 0 && (!HasDirectory(f) ==> f !in s.readPos)
  {
    hide CountsSound;
  }

  lemma {:induction false} BareFileProposed(task: Task, s: Signals, f: Path)
    requires OnlyReadsAndTests(task) && f in RequiredFiles(task) && f !in s.readPos && TestFailedSinceWrite(s)
    ensures Proposed(task, s).Some?
  {
    hide RequiredFiles, SequenceFiles, Deduped;
    ChosenCases(task, s);
  }

  /**
   After one failed test a required file without a directory part is proposed for reading for
   ever: its reads are not recorded, so the task never reaches the final stage.
   */
  lemma {:induction false} BareFileNeverFinalizes(run: ClientRun, f: Path, n: nat, m: nat)
    requires EndingRun(run) && OnlyReadsAndTests(run.task) && f in RequiredFiles(run.task) && !HasDirectory(f)
    requires RunSignals(run, n).lastFailedTest > 0
    ensures RunPolicy(run, m).stage != Finalize
  {
    hide RunSignals, RunPolicy, EndingRun, Answered, RequiredFiles, OnlyReadsAndTests, Proposed, Known;
    RunProposes(run, m);
    if RunPolicy(run, m).stage == Finalize {
      if m <= n {
        IdleFrom(run, m, n);
      } else {
        FailedTestStays(run, n, m);
      }
      RunKnown(run, m);
      BareFileUnread(run.task, RunSignals(run, m), f);
      BareFileProposed(run.task, RunSignals(run, m), f);
    }
  }

  lemma {:induction false} FailedTestStays(run: ClientRun, n: nat, m: nat)
    requires EndingRun(run) && RunSignals(run, n).lastFailedTest > 0 && n <= m
    ensures RunSignals(run, m).lastFailedTest > 0
  {
    hide RunPolicy, RunSignals, EndingRun, Answered, Proposed, AfterRun;
    if n < m {
      FailedTestStays(run, n, m - 1);
      RunProposes(run, m - 1);
      if RunPolicy(run, m - 1).nextCommand.Some? {
        StillFailed(RunSignals(run, m - 1), RunSignals(run, m), RunPolicy(run, m - 1).nextCommand.value,
            run.outs(m - 1));
      }
    }
  }

  lemma {:induction false} StillFailed(s: Signals, r: Signals, c: Command, o: Output)
    requires AfterRun(s, r, c, o) && s.lastFailedTest > 0
    ensures r.lastFailedTest > 0
  {
  }

  /**
   For all outcomes, the exact condition for a task that names something and only reads and tests: it
   reaches the final stage if and only if all its required files have a directory part or no test ever
   fails, and from some turn on no required command but a test fails.
   */
  lemma {:induction false} FinalizesExactly(run: ClientRun)
    requires EndingRun(run) && OnlyReadsAndTests(run.task) && NamesSomething(run.task)
    ensures (exists n: nat :: RunPolicy(run, n).stage == Finalize)
            <==> && (|| (forall f :: f in RequiredFiles(run.task) ==> HasDirectory(f))
                     || forall n: nat :: RunSignals(run, n).lastFailedTest == 0)
                 && exists n: nat :: NoWasteFrom(run, n)
  {
    hide RunSignals, RunPolicy, EndingRun, RequiredFiles, OnlyReadsAndTests, NamesSomething, Stuck, WastedAt;
    ReachesFinalize(run);
    if f, n: nat :| f in RequiredFiles(run.task) && !HasDirectory(f) && RunSignals(run, n).lastFailedTest > 0 {
      forall m
        ensures RunPolicy(run, m).stage != Finalize
      {
        BareFileNeverFinalizes(run, f, n, m);
      }
    } else {
      forall n: nat
        ensures !StuckAt(run, n)
      {
        NeverStuck(run.task, RunSignals(run, n));
      }
      forall n: nat
        ensures Moves(run, n) <==> NoWasteFrom(run, n)
      {
      }
    }
  }

  lemma {:induction false} NeverStuck(task: Task, s: Signals)
    requires (forall f :: f in RequiredFiles(task) ==> HasDirectory(f)) || s.lastFailedTest == 0
    ensures !Stuck(task, s)
  {
    hide RequiredFiles, Chosen;
  }

  /** Where no test is required none fails. */
  lemma {:induction false} NoTestFails(run: ClientRun, n: nat)
    requires EndingRun(run) && forall c :: c in Commands(run.task) ==> !c.IsTest()
    ensures RunSignals(run, n).lastFailedTest == 0
  {
    hide RunSignals, EndingRun, ResultsSound, CountsSound, Commands;
    RunKnown(run, n);
  }

  // A task that never ends.

  const BARE_FILE := "README.md"
  const BARE_TASK := Task(true, false, false, [GO_TEST], [BARE_FILE], [], [], false)
  const PLAIN_SETTING := Setting("", None, true, false, false, None, None, false, false)

  /** A task that names README.md and requires a test: if the test fails, README.md is read for ever. */
  lemma {:induction false} BareFileExample(n: nat)
    ensures RunPolicy(FailingRun(BARE_TASK, PLAIN_SETTING, []), n).stage != Finalize
  {
    hide RunSignals, RunPolicy;
    var run := FailingRun(BARE_TASK, PLAIN_SETTING, []);
    RunsEnding(BARE_TASK, PLAIN_SETTING);
    BareTask();
    BareTestFails(run);
    BareFileNeverFinalizes(run, BARE_FILE, 2, n);
  }

  lemma {:induction false} BareTask()
    ensures Commands(BARE_TASK) == [GO_TEST] && SequenceFiles(BARE_TASK) == [BARE_FILE] == RequiredFiles(BARE_TASK)
    ensures OnlyReadsAndTests(BARE_TASK) && !HasDirectory(BARE_FILE)
  {
    var front := BARE_TASK.commands[..0];
    assert Deduped(front) == [];
  }

  /** The file is read first, then the test is run. */
  lemma {:induction false} BareTestFails(run: ClientRun)
    requires run == FailingRun(BARE_TASK, PLAIN_SETTING, []) && EndingRun(run)
    ensures RunSignals(run, 2).lastFailedTest > 0
  {
    hide RunSignals, RunPolicy, EndingRun, AfterRun, Proposed, PositionsSound, WastedAt;
    var s0, s1, s2 := RunSignals(run, 0), RunSignals(run, 1), RunSignals(run, 2);
    StartsEmpty(run);
    RunProposes(run, 0);
    FirstBareChoice(s0);
    RunAppends(s0, s1, ReadFile(BARE_FILE), DONE_FAILING);
    RunProposes(run, 1);
    ReadFailsNoTest(s0, s1);
    assert GO_TEST !in s1.commands;
    SecondBareChoice(s1);
    TestFails(s1, s2);
  }

  lemma {:induction false} FirstBareChoice(s: Signals)
    requires s.lastFailedTest == 0 && s.commands == []
    ensures Proposed(BARE_TASK, s) == Some(ReadFile(BARE_FILE))
  {
    BareTask();
    hide Deduped, RequiredFiles, SequenceFiles;
    assert Unread(Commands(BARE_TASK), s, BARE_FILE);
  }

  lemma {:induction false} SecondBareChoice(s: Signals)
    requires s.lastFailedTest == 0 && s.commands == [ReadFile(BARE_FILE)]
    requires GO_TEST !in s.successful && GO_TEST !in s.failed
    ensures Proposed(BARE_TASK, s) == Some(GO_TEST)
  {
    BareTask();
    hide Deduped, RequiredFiles, SequenceFiles;
    assert ReadFile(BARE_FILE) in s.commands;
    assert !Unread(Commands(BARE_TASK), s, BARE_FILE);
    assert !GO_TEST.IsReadOnly() && GO_TEST !in s.commands;
    assert GO_TEST in Commands(BARE_TASK) && Unmet(s, false, GO_TEST);
  }

  lemma {:induction false} ReadFailsNoTest(s: Signals, r: Signals)
    requires AfterRun(s, r, ReadFile(BARE_FILE), DONE_FAILING) && s == NO_SIGNALS
    ensures r.lastFailedTest == 0
  {
  }

  lemma {:induction false} TestFails(s: Signals, r: Signals)
    requires AfterRun(s, r, GO_TEST, DONE_FAILING)
    ensures r.lastFailedTest > 0
  {
  }
}
