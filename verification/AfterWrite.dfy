/** After the first write a task runs its required commands; a failed test makes it read its targets again. */
module AfterWrite {
  import opened Text
  import opened PolicyModel
  import opened HistorySignals
  import opened SignalsInvariant
  import opened CommandChooser
  import opened ExecutionPolicy
  import opened PolicyRuns
  import L = ReadOnlyLiveness

  /** Something has been written, and no command is still running. */
  predicate Written(s: Signals) {
    s.writeCalls > 0 && s.runningSession == ""
  }

  /** What is still to be done: the required commands in order, or the files if there are none. */
  function Remaining(task: Task, s: Signals): Option<Command> {
    if FirstUnmet(L.Commands(task), s, true).Some? then FirstUnmet(L.Commands(task), s, true)
    else if L.Commands(task) != [] then None
    else Read(FirstUnseen(s, SequenceFiles(task)))
  }

  /** The next command: after a failed test only the targets are read again. */
  function Proposed(task: Task, s: Signals): Option<Command> {
    if TestFailedSinceWrite(s) then Read(RepairTarget(RequiredFiles(task), s)) else Remaining(task, s)
  }

  lemma {:induction false} BuiltWritten(task: Task, s: Signals, e: Setting)
    requires WriteTask(task, e) && s.writeCalls > 0 && s.toolCalls > 0 && s.runningSession == ""
    ensures var p := Build(task, s, e);
            && p.nextCommand == Proposed(task, s)
            && (p.stage == Finalize <==> Proposed(task, s) == None)
            && (p.stage == Finalize ==> !p.pendingWrite && !p.requireTool)
  {
    hide FinalDemand, Proposed, Polls, NeedsWrite, MissingFiles, EmptyFiles, RepeatedScaffolds, AllFilesSeen, Deduped,
      RequiredFiles, ForcesNextCommand, ExecCall;
    NoPoll(s, e);
    DemandedWritten(task, s, e);
  }

  lemma {:induction false} DemandedWritten(task: Task, s: Signals, e: Setting)
    requires WriteTask(task, e) && s.writeCalls > 0
    ensures var d := FinalDemand(task, s, e);
            d.nextCommand == Proposed(task, s) && d.requiredTool == ""
              && (Proposed(task, s) == None ==> !d.pendingWrite)
  {
    hide ToReread, Deduped, RequiredFiles, SequenceFiles, NeedsWrite, IsMutationTool, NextInspection, FirstUnread,
      FirstUnmet, FirstUnseen, GuardFailureSeen, First;
  }

  /**
   After a write and a test that failed since, a write task is over exactly when all its targets have
   been read again: whatever is still required and although nothing was repaired.
   */
  lemma {:induction false} GivesUpAfterRepair(task: Task, s: Signals, e: Setting)
    requires WriteTask(task, e) && s.runningSession == ""
    requires s.toolCalls > 0 && s.writeCalls > 0 && TestFailedSinceWrite(s)
    ensures var p := Build(task, s, e);
            && (p.stage == Finalize <==> forall f :: f in RequiredFiles(task) ==> !ToReread(s, f))
            && (p.stage == Finalize ==> !p.pendingWrite && p.nextCommand == None && !p.requireTool)
  {
    hide Build, RequiredFiles, ToReread, WriteTask;
    BuiltWritten(task, s, e);
  }

  // The measure.

  /** The required commands without a success, and the files not seen. */
  function Unfinished(task: Task, s: Signals): nat {
    Count(L.Commands(task), c => c !in s.successful) + Count(SequenceFiles(task), f => !SeenRead(s.commands, f))
  }

  /** What is left before a test fails, with `reserve` turns for what a failed test can cost. */
  function Left(task: Task, s: Signals, reserve: nat): nat {
    if TestFailedSinceWrite(s) then L.Rereads(task, s)
    else Unfinished(task, s) + reserve
  }

  /** A test has failed, and the target to be read again has no directory part: reading it is not recorded. */
  predicate Stuck(task: Task, s: Signals) {
    TestFailedSinceWrite(s) && Proposed(task, s).Some? && !HasDirectory(Proposed(task, s).value.path)
  }

  lemma {:induction false} RemainingCases(task: Task, s: Signals)
    ensures match Remaining(task, s)
            case Some(c) =>
              || (c in L.Commands(task) && c !in s.successful)
              || (L.Commands(task) == [] && c.ReadFile? && c.path in SequenceFiles(task)
                 && !SeenRead(s.commands, c.path))
            case None =>
              && (forall c :: c in L.Commands(task) ==> Resolved(s, c))
              && (L.Commands(task) == [] ==> forall f :: f in SequenceFiles(task) ==> SeenRead(s.commands, f))
  {
    hide Deduped, SequenceFiles, SeenRead;
  }

  /** A command that remained is done, or it is a test that has failed. */
  lemma {:induction false} UnfinishedDrops(task: Task, s: Signals, r: Signals, c: Command, o: Output)
    requires Sound(s) && Remaining(task, s) == Some(c) && AfterRun(s, r, c, o) && !L.Wasted(task, c, o)
    ensures Unfinished(task, s) > 0
    ensures Unfinished(task, r) < Unfinished(task, s)
            || (TestFailedSinceWrite(r) && Unfinished(task, r) <= Unfinished(task, s))
  {
    RemainingCases(task, s);
    RunDone(s, r, c, o);
    hide Sound, AfterRun, Remaining, SequenceFiles, L.Commands, Count, SeenRead, Succeeds;
    var commands, files := L.Commands(task), SequenceFiles(task);
    forall f
      ensures SeenRead(s.commands, f) ==> SeenRead(r.commands, f)
      ensures c.IsReadOnly() && c.Mentions(f) ==> SeenRead(r.commands, f)
    {
      L.SeenStays(s, r, c, f);
    }
    CountShrinks(commands, d => d !in s.successful, d => d !in r.successful);
    CountShrinks(files, f => !SeenRead(s.commands, f), f => !SeenRead(r.commands, f));
    CountShrinks(commands, d => d !in s.successful, d => false);
  }

  lemma {:induction false} RunDone(s: Signals, r: Signals, c: Command, o: Output)
    requires Sound(s) && AfterRun(s, r, c, o)
    ensures r.commands == s.commands + [c]
    ensures forall d :: d in s.successful ==> d in r.successful
    ensures Succeeds(c, o) ==> c in r.successful
    ensures !Succeeds(c, o) && c.IsTest() ==> TestFailedSinceWrite(r)
  {
  }

  /** Every turn with a next command leaves less, unless it is stuck or wasted. */
  lemma {:induction false} LeftDrops(task: Task, s: Signals, r: Signals, o: Output, reserve: nat)
    requires Sound(s) && Proposed(task, s).Some? && AfterRun(s, r, Proposed(task, s).value, o)
    requires !Stuck(task, s) && !L.Wasted(task, Proposed(task, s).value, o)
    requires reserve >= |RequiredFiles(task)| || !TestFailedSinceWrite(r)
    ensures Left(task, r, reserve) < Left(task, s, reserve)
  {
    hide Sound, AfterRun, Remaining, RequiredFiles, SequenceFiles, L.Commands, Count, ToReread, SeenRead, Succeeds;
    var c := Proposed(task, s).value;
    if TestFailedSinceWrite(s) {
      ReadKeepsFailure(s, r, c, o);
      L.RereadShrinks(task, s, r, c, o, c.path);
    } else {
      UnfinishedDrops(task, s, r, c, o);
    }
  }

  lemma {:induction false} ReadKeepsFailure(s: Signals, r: Signals, c: Command, o: Output)
    requires TestFailedSinceWrite(s) && AfterRun(s, r, c, o) && c.ReadFile?
    ensures TestFailedSinceWrite(r) && (!HasDirectory(c.path) ==> r.readPos == s.readPos)
    ensures r.lastFailedTest == s.lastFailedTest
  {
  }

  // Runs.

  /** A run that goes on from a history with a write, and in which every command ends, well or not. */
  ghost predicate EndingRun(run: ClientRun) {
    && WriteTask(run.task, run.setting) && Written(Collected(run.start))
    && CommandsEnd(run)
  }

  /** There are such runs from every history with a write. */
  lemma {:induction false} RunsEnding(task: Task, e: Setting, start: seq<Item>)
    requires WriteTask(task, e) && Written(Collected(start))
    ensures EndingRun(QuietRun(task, e, start)) && EndingRun(FailingRun(task, e, start))
  {
    hide Collected;
  }

  lemma {:induction false} StillWritten(s: Signals, r: Signals, c: Command, o: Output)
    requires Written(s) && AfterRun(s, r, c, o) && r.runningSession == s.runningSession
    ensures Written(r)
  {
  }

  lemma {:induction false} RunWritten(run: ClientRun, n: nat)
    requires EndingRun(run)
    ensures Written(RunSignals(run, n))
  {
    hide Collected, Build, AfterRun, Sound, Written, WriteTask;
    if n > 0 {
      RunWritten(run, n - 1);
      RunTurn(run, n - 1);
      var next := RunPolicy(run, n - 1).nextCommand;
      if next.Some? {
        StillWritten(RunSignals(run, n - 1), RunSignals(run, n), next.value, run.outs(n - 1));
      }
    }
  }

  /** What the policy proposes in a run, and what one turn does. */
  lemma {:induction false} RunProposes(run: ClientRun, n: nat)
    requires EndingRun(run)
    ensures var s, r, p := RunSignals(run, n), RunSignals(run, n + 1), RunPolicy(run, n);
            && CommandsEnd(run) && Sound(s) && p.nextCommand == Proposed(run.task, s)
               && (p.stage == Finalize <==> Proposed(run.task, s) == None)
            && if p.nextCommand == None then r == s else AfterRun(s, r, p.nextCommand.value, run.outs(n))
  {
    hide Build, RunSignals, Proposed, AfterRun, ResultsSound, PositionsSound, WriteTask;
    RunWritten(run, n);
    RunTurn(run, n);
    BuiltWritten(run.task, RunSignals(run, n), run.setting);
  }

  ghost predicate StuckAt(run: ClientRun, n: nat) {
    Stuck(run.task, RunSignals(run, n))
  }

  ghost predicate FailedAt(run: ClientRun, n: nat) {
    TestFailedSinceWrite(RunSignals(run, n))
  }

  /** What one turn leaves of a run. */
  lemma {:induction false} TurnLeaves(run: ClientRun, n: nat, reserve: nat)
    requires EndingRun(run) && Proposed(run.task, RunSignals(run, n)).Some? && !StuckAt(run, n) && !L.WastedAt(run, n)
    requires reserve >= |RequiredFiles(run.task)| || !FailedAt(run, n + 1)
    ensures Left(run.task, RunSignals(run, n + 1), reserve) < Left(run.task, RunSignals(run, n), reserve)
  {
    hide RunPolicy, RunSignals, EndingRun, AfterRun, Sound, Proposed, RequiredFiles, Left, Stuck, L.Wasted,
      TestFailedSinceWrite;
    RunProposes(run, n);
    LeftDrops(run.task, RunSignals(run, n), RunSignals(run, n + 1), run.outs(n), reserve);
  }

  lemma {:induction false} RunEnds(run: ClientRun, n: nat, reserve: nat) returns (m: nat)
    requires EndingRun(run) && L.NoWasteFrom(run, n) && forall k: nat :: !StuckAt(run, k)
    requires reserve >= |RequiredFiles(run.task)| || forall k: nat :: !FailedAt(run, k)
    ensures n <= m <= n + Left(run.task, RunSignals(run, n), reserve) && RunPolicy(run, m).stage == Finalize
    decreases Left(run.task, RunSignals(run, n), reserve)
  {
    hide RunPolicy, RunSignals, EndingRun, Sound, Proposed, RequiredFiles, Left, StuckAt, FailedAt, L.WastedAt;
    RunProposes(run, n);
    if Proposed(run.task, RunSignals(run, n)) == None {
      m := n;
    } else {
      TurnLeaves(run, n, reserve);
      m := RunEnds(run, n + 1, reserve);
    }
  }

  lemma {:induction false} IdleWastesNothing(run: ClientRun, n: nat)
    requires CommandsEnd(run) && RunPolicy(run, n).nextCommand == None
    ensures L.NoWasteFrom(run, n)
  {
    hide RunSignals, Build, L.Wasted;
    forall m | m >= n
      ensures !L.WastedAt(run, m)
    {
      IdleFrom(run, n, m);
    }
  }

  /** After a failed test there are only reads, so it stays failed. */
  lemma {:induction false} FailureStays(run: ClientRun, n: nat, m: nat)
    requires EndingRun(run) && FailedAt(run, n) && n <= m
    ensures FailedAt(run, m)
  {
    hide RunSignals, RunPolicy, EndingRun, AfterRun, Sound, RequiredFiles, Remaining;
    if n < m {
      FailureStays(run, n, m - 1);
      RunProposes(run, m - 1);
      var s := RunSignals(run, m - 1);
      if Proposed(run.task, s).Some? {
        ReadKeepsFailure(s, RunSignals(run, m), Proposed(run.task, s).value, run.outs(m - 1));
      }
    }
  }

  lemma {:induction false} LeftAtMost(task: Task, s: Signals, reserve: nat)
    ensures Left(task, s, reserve)
            <= |L.Commands(task)| + |SequenceFiles(task)| + if TestFailedSinceWrite(s) then |RequiredFiles(task)|
              else reserve
  {
  }

  /**
   After a write, if targets have a directory part and no required command but a test fails, the final
   stage is reached within one turn per required command, file and target, and if no test fails either
   within one turn per required command and file.
   */
  lemma {:induction false} EndsInTime(run: ClientRun)
    requires EndingRun(run) && L.NoWasteFrom(run, 0)
    ensures var turns := |L.Commands(run.task)| + |SequenceFiles(run.task)|;
            && ((forall f :: f in RequiredFiles(run.task) ==> HasDirectory(f)) ==>
                  exists n: nat :: n <= turns + |RequiredFiles(run.task)| && RunPolicy(run, n).stage == Finalize)
            && ((forall n: nat :: !FailedAt(run, n)) ==>
                  exists n: nat :: n <= turns && RunPolicy(run, n).stage == Finalize)
  {
    hide RunPolicy, RunSignals, EndingRun, Left, L.Commands, SequenceFiles, RequiredFiles, Stuck, TestFailedSinceWrite,
      L.WastedAt;
    if (forall f :: f in RequiredFiles(run.task) ==> HasDirectory(f)) || forall n: nat :: !FailedAt(run, n) {
      NeverStuck(run);
      LeftAtMost(run.task, RunSignals(run, 0), |RequiredFiles(run.task)|);
      var m := RunEnds(run, 0, |RequiredFiles(run.task)|);
      if forall n: nat :: !FailedAt(run, n) {
        assert !FailedAt(run, 0);
        LeftAtMost(run.task, RunSignals(run, 0), 0);
        var k := RunEnds(run, 0, 0);
      }
    }
  }

  lemma {:induction false} NeverStuck(run: ClientRun)
    requires (forall f :: f in RequiredFiles(run.task) ==> HasDirectory(f)) || forall n: nat :: !FailedAt(run, n)
    ensures forall n: nat :: !StuckAt(run, n)
  {
    hide RunSignals, RequiredFiles, Remaining;
    forall n: nat
      ensures !StuckAt(run, n)
    {
      assert (forall f :: f in RequiredFiles(run.task) ==> HasDirectory(f)) || !FailedAt(run, n);
    }
  }

  /**
   The exact condition, for all outcomes: after a write a task reaches the final stage if and only if
   all its targets have a directory part or at no turn a test has failed since the last write, and
   from some turn on no required command but a test fails.
   */
  lemma {:induction false} FinalizesExactly(run: ClientRun)
    requires EndingRun(run)
    ensures (exists n: nat :: RunPolicy(run, n).stage == Finalize)
            <==> && (|| (forall f :: f in RequiredFiles(run.task) ==> HasDirectory(f))
                     || forall n: nat :: !FailedAt(run, n))
                 && exists n: nat :: L.NoWasteFrom(run, n)
  {
    hide RunPolicy, RunSignals, EndingRun, RequiredFiles, Proposed, Left, StuckAt, FailedAt,
      L.NoWasteFrom;
    if n: nat :| RunPolicy(run, n).stage == Finalize {
      RunProposes(run, n);
      IdleWastesNothing(run, n);
    }
    if f, n: nat :| f in RequiredFiles(run.task) && !HasDirectory(f) && FailedAt(run, n) {
      forall m
        ensures RunPolicy(run, m).stage != Finalize
      {
        BareTargetNeverFinalizes(run, f, n, m);
      }
    } else if n: nat :| L.NoWasteFrom(run, n) {
      NeverStuck(run);
      var m := RunEnds(run, n, |RequiredFiles(run.task)|);
    }
  }

  /** Only paths with a directory part have a read position. */
  lemma {:induction false} RecordedHasDirectory(s: Signals, f: Path)
    requires Sound(s) && f in s.readPos
    ensures HasDirectory(f)
  {
    hide ResultsSound, CountsSound;
    assert ReadsFirst(s.commands[s.readPos[f] - 1], f);
  }

  /** A target without a directory part is read for ever once a test has failed. */
  lemma {:induction false} BareTargetNeverFinalizes(run: ClientRun, f: Path, n: nat, m: nat)
    requires EndingRun(run) && f in RequiredFiles(run.task) && !HasDirectory(f) && FailedAt(run, n)
    ensures RunPolicy(run, m).stage != Finalize
  {
    hide RunSignals, RunPolicy, EndingRun, RequiredFiles, Remaining, Sound, AfterRun;
    RunProposes(run, m);
    if RunPolicy(run, m).stage == Finalize {
      if m <= n {
        IdleFrom(run, m, n);
      } else {
        FailureStays(run, n, m);
      }
      if f in RunSignals(run, m).readPos {
        RecordedHasDirectory(RunSignals(run, m), f);
      }
    }
  }

  /**
   In the final stage every required command is resolved and, if there is none, every file seen;
   after a failed test only the targets have been read again.
   */
  lemma {:induction false} FinalizeMeansDone(run: ClientRun, n: nat)
    requires EndingRun(run) && RunPolicy(run, n).stage == Finalize
    ensures var s := RunSignals(run, n);
            if FailedAt(run, n) then forall f :: f in RequiredFiles(run.task) ==> !ToReread(s, f)
            else && (forall c :: c in L.Commands(run.task) ==> Resolved(s, c))
                 && (L.Commands(run.task) == [] ==>
                       forall f :: f in SequenceFiles(run.task) ==> SeenRead(s.commands, f))
  {
    hide RunSignals, RunPolicy, EndingRun, L.Commands, SequenceFiles, RequiredFiles, Remaining, Sound, SeenRead,
      Resolved, ToReread, AfterRun;
    RunProposes(run, n);
    RemainingCases(run.task, RunSignals(run, n));
  }

  // A write, a test that fails, and the target read again.

  const WRITE := Shell("apply_patch", Traits(false, false, true, false, false, false, {}, []))

  function WriteHistory(): seq<Item> {
    TurnItems("1", WRITE, DONE_WELL)
  }

  function FailedHistory(): seq<Item> {
    WriteHistory() + TurnItems("2", GO_TEST, DONE_FAILING)
  }

  function RereadHistory(target: Path): seq<Item> {
    FailedHistory() + TurnItems("3", ReadFile(target), DONE_WELL)
  }

  lemma {:induction false} NothingCollected()
    ensures Collected([]) == NO_SIGNALS
  {
  }

  lemma {:induction false} WriteCollected()
    ensures var s := Collected(WriteHistory());
            s.writeCalls > 0 && s.lastWrite == 1 && |s.commands| == 1 && s.toolCalls == 1 && !TestFailedSinceWrite(s)
    ensures Collected(WriteHistory()).runningSession == ""
  {
    hide Collected;
    NothingCollected();
    assert [] + WriteHistory() == WriteHistory();
    TurnCollected([], "1", WRITE, DONE_WELL);
  }

  lemma {:induction false} FailureCollected()
    ensures var s := Collected(FailedHistory());
            s.writeCalls > 0 && |s.commands| == 2 && s.toolCalls == 2 && s.lastFailedTest == 2 && s.lastWrite == 1
    ensures Collected(FailedHistory()).runningSession == ""
  {
    hide Collected;
    WriteCollected();
    TurnCollected(WriteHistory(), "2", GO_TEST, DONE_FAILING);
  }

  /** The task is over for every target with a directory part, although the test has failed. */
  lemma {:induction false} GivesUpExample(task: Task, e: Setting, target: Path)
    requires WriteTask(task, e) && HasDirectory(target) && forall f :: f in RequiredFiles(task) ==> f == target
    ensures TestFailedSinceWrite(Collected(RereadHistory(target)))
    ensures Build(task, Collected(RereadHistory(target)), e).stage == Finalize
  {
    hide Collected, Build, RequiredFiles;
    FailureCollected();
    TurnCollected(FailedHistory(), "3", ReadFile(target), DONE_WELL);
    GivesUpAfterRepair(task, Collected(RereadHistory(target)), e);
  }

  /** It is never over for a target without a directory part: the target is read for ever. */
  lemma {:induction false} BareTargetExample(task: Task, e: Setting, target: Path, n: nat)
    requires WriteTask(task, e) && !HasDirectory(target) && target in RequiredFiles(task)
    ensures RunPolicy(QuietRun(task, e, FailedHistory()), n).stage != Finalize
  {
    hide Collected, RunPolicy, RequiredFiles;
    var run := QuietRun(task, e, FailedHistory());
    FailureCollected();
    RunsEnding(task, e, FailedHistory());
    BareTargetNeverFinalizes(run, target, 0, n);
  }
}
