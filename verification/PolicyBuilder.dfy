/** The policy of one turn, built step by step. */
module PolicyBuilder {
  import opened Text
  import opened Deduplication
  import opened PolicyModel
  import opened CommandChooser
  import opened ExecutionPolicy

  method MergeExecutionSequenceFiles(files: seq<Path>, targets: seq<Path>) returns (sequence: seq<Path>)
    ensures sequence == if files == [] then targets else MergeFiles(files, targets)
  {
    if files == [] {
      return targets;
    }
    sequence := files;
    var seen := set f | f in files;
    for i := 0 to |targets|
      invariant sequence == MergeFiles(files, targets[..i])
      invariant forall f :: f in seen <==> f in sequence
    {
      assert targets[..i + 1][..i] == targets[..i];
      if targets[i] !in seen {
        sequence := sequence + [targets[i]];
        seen := seen + {targets[i]};
      }
    }
    assert targets[..|targets|] == targets;
  }

  method CountScaffoldCreateForFile(seen: seq<Command>, p: Path) returns (count: nat)
    ensures count == ScaffoldCount(seen, p)
  {
    count := 0;
    for i := 0 to |seen|
      invariant count + ScaffoldCount(seen[i..], p) == ScaffoldCount(seen, p)
    {
      assert seen[i..][1..] == seen[i + 1..];
      if seen[i].IsScaffold() && seen[i].Mentions(p) {
        count := count + 1;
      }
    }
  }

  lemma {:induction false} MissingFrom(s: Signals, files: seq<Path>, i: nat)
    requires i <= |files|
    ensures i < |files| ==>
              MissingFiles(s, files[i..]) == (if IsMissing(s, files[i]) then [files[i]] else [])
                + MissingFiles(s, files[i + 1..])
    ensures i == |files| ==> MissingFiles(s, files[i..]) == []
  {
    hide IsMissing;
    if i < |files| {
      assert files[i..][1..] == files[i + 1..];
    }
  }

  method CollectMissingRequiredFiles(s: Signals, files: seq<Path>) returns (missing: seq<Path>)
    ensures missing == MissingFiles(s, files)
  {
    hide IsMissing, MissingFiles;
    missing := [];
    assert files[0..] == files;
    for i := 0 to |files|
      invariant missing + MissingFiles(s, files[i..]) == MissingFiles(s, files)
    {
      MissingFrom(s, files, i);
      if IsMissing(s, files[i]) {
        missing := missing + [files[i]];
      }
    }
    MissingFrom(s, files, |files|);
  }

  lemma {:induction false} EmptyFrom(s: Signals, files: seq<Path>, i: nat)
    requires i <= |files|
    ensures i < |files| ==>
              EmptyFiles(s, files[i..]) == (if IsEmpty(s, files[i]) then [files[i]] else [])
                + EmptyFiles(s, files[i + 1..])
    ensures i == |files| ==> EmptyFiles(s, files[i..]) == []
  {
    hide IsEmpty;
    if i < |files| {
      assert files[i..][1..] == files[i + 1..];
    }
  }

  method CollectEmptyRequiredFiles(s: Signals, files: seq<Path>) returns (empty: seq<Path>)
    ensures empty == EmptyFiles(s, files)
  {
    hide IsEmpty, EmptyFiles;
    empty := [];
    assert files[0..] == files;
    for i := 0 to |files|
      invariant empty + EmptyFiles(s, files[i..]) == EmptyFiles(s, files)
    {
      EmptyFrom(s, files, i);
      if IsEmpty(s, files[i]) {
        empty := empty + [files[i]];
      }
    }
    EmptyFrom(s, files, |files|);
  }

  lemma {:induction false} RepeatedFrom(s: Signals, files: seq<Path>, i: nat)
    requires i <= |files|
    ensures i < |files| ==>
              RepeatedScaffolds(s, files[i..]) ==
              (if ScaffoldCount(s.commands, files[i]) >= 2 then [files[i]] else [])
                + RepeatedScaffolds(s, files[i + 1..])
    ensures i == |files| ==> RepeatedScaffolds(s, files[i..]) == []
  {
    hide ScaffoldCount;
    if i < |files| {
      assert files[i..][1..] == files[i + 1..];
    }
  }

  method CollectRepeatedScaffoldFiles(s: Signals, files: seq<Path>) returns (repeated: seq<Path>)
    ensures repeated == RepeatedScaffolds(s, files)
  {
    hide ScaffoldCount, RepeatedScaffolds;
    repeated := [];
    assert files[0..] == files;
    for i := 0 to |files|
      invariant repeated + RepeatedScaffolds(s, files[i..]) == RepeatedScaffolds(s, files)
    {
      RepeatedFrom(s, files, i);
      var count := CountScaffoldCreateForFile(s.commands, files[i]);
      if count >= 2 {
        repeated := repeated + [files[i]];
      }
    }
    RepeatedFrom(s, files, |files|);
  }

  /** The command, the pending write and the explicit tool, revised one after the other. */
  method DecideDemand(task: Task, s: Signals, e: Setting, sequenceFiles: seq<Path>) returns (d: Demand)
    requires sequenceFiles == SequenceFiles(task)
    ensures d == FinalDemand(task, s, e)
  {
    hide NextCommand, PrefersSeed, GuardFailureSeen, RepairTarget, IsMutationTool, Deduped, RequiredFiles,
      SequenceFiles, NeedsWrite;
    var files, needsWrite := RequiredFiles(task), NeedsWrite(task);
    var nextRequiredTool := e.requiredTool;
    var nextCommand := NextCommand(Deduped(task.commands), sequenceFiles, task.styles, s, needsWrite, files);
    if needsWrite && PrefersSeed(files, s, e.seed) {
      nextCommand := e.seed;
    }
    var pendingWrite := needsWrite && (s.writeCalls == 0 || s.lastFailedTest > s.lastWrite);
    var guardBlockedWrite := pendingWrite && GuardFailureSeen(s);
    if guardBlockedWrite {
      pendingWrite, nextCommand, nextRequiredTool := false, None, "";
    }
    if s.lastFailedTest > s.lastWrite && !(nextCommand.Some? && nextCommand.value.IsMutation()) {
      var repairTarget := RepairTarget(files, s);
      if repairTarget.Some? {
        nextCommand := Some(ReadFile(repairTarget.value));
      } else if pendingWrite {
        pendingWrite, nextCommand := false, None;
      }
    }
    if nextRequiredTool != "" && IsMutationTool(nextRequiredTool) && s.writeCalls == 0
       && nextCommand.Some? && nextCommand.value.IsReadOnly() {
      nextRequiredTool := "";
    }
    d := Demand(nextCommand, pendingWrite, nextRequiredTool);
  }

  /** The stage and what goes with it. */
  method Stage(known: Policy, task: Task, s: Signals, d: Demand, e: Setting) returns (policy: Policy)
    requires known.stage == NoStage && !known.requireTool && !known.readLoop && known.syntheticCall == None
    ensures policy == Staged(known, task, s, d, e)
  {
    hide NeedsWrite, ExecCall, ForcesNextCommand;
    var stage, requireTool, readLoop, syntheticCall := NoStage, false, false, None;
    if s.toolCalls == 0 {
      stage, requireTool := Explore, true;
    } else if d.pendingWrite {
      stage, requireTool, readLoop := Execute, true, s.readCalls >= 2;
    } else if d.nextCommand.Some? {
      stage, requireTool, readLoop := Verify, true, s.readCalls >= 2;
    } else {
      stage := Finalize;
    }
    if e.autoRequire && s.toolCalls == 0 {
      requireTool := true;
    }
    if d.requiredTool != "" {
      requireTool := true;
      if stage == NoStage || stage == Finalize {
        stage := Execute;
      }
      syntheticCall := e.explicitCall;
    } else if ForcesNextCommand(stage, "", d.nextCommand, known.forceSingle)
        && (stage != Explore || !NeedsWrite(task)) {
      var synthetic := ExecCall(d.nextCommand, e.execAvailable, "");
      if synthetic.Some? {
        syntheticCall := synthetic;
      }
    }
    policy := known.(stage := stage, requireTool := requireTool, readLoop := readLoop, syntheticCall := syntheticCall);
  }

  method BuildExecutionPolicyWithCatalog(task: Task, s: Signals, e: Setting) returns (policy: Policy)
    ensures policy == Build(task, s, e)
  {
    hide FinalDemand, Polls, Polling, Staged, Deduped, MissingFiles, EmptyFiles, RepeatedScaffolds, AllFilesSeen,
      RequiredFiles, SequenceFiles;
    policy := NO_POLICY.(forceSingle := task.strictLoop);
    if !task.usesTools {
      return;
    }
    if e.manyTools {
      policy := policy.(forceSingle := true);
    }
    var requiredFiles := RequiredFiles(task);
    var sequenceFiles := DecideSequence(task);
    var requiredCommands := DedupeValues(task.commands);
    var seenCommands := DedupeValues(s.commands);
    policy := policy.(enabled := true, requiredCommands := requiredCommands, requiredFiles := requiredFiles,
                      seenCommands := seenCommands);
    if Polls(s, e) {
      return Polling(policy, e);
    }
    var d := DecideDemand(task, s, e, sequenceFiles);
    var missingFiles := CollectMissingRequiredFiles(s, requiredFiles);
    var emptyFiles := CollectEmptyRequiredFiles(s, requiredFiles);
    var repeatedScaffold := CollectRepeatedScaffoldFiles(s, requiredFiles);
    policy := policy.(nextCommand := d.nextCommand, missingFiles := missingFiles, emptyFiles := emptyFiles,
                      repeatedScaffold := repeatedScaffold, requiredTool := d.requiredTool,
                      allFilesSeen := AllFilesSeen(s, requiredFiles), writeObserved := s.writeCalls > 0,
                      pendingWrite := d.pendingWrite);
    policy := Stage(policy, task, s, d, e);
  }

  /** The files in inspection order: those the task names, then the targets it does not. */
  method DecideSequence(task: Task) returns (sequence: seq<Path>)
    ensures sequence == SequenceFiles(task)
  {
    hide MergeFiles;
    sequence := task.files;
    if task.asksForWrite {
      var targets := DedupeValues(task.writeTargets);
      DedupedSame(task.writeTargets);
      if |targets| > 0 {
        sequence := MergeExecutionSequenceFiles(task.files, targets);
      }
    }
  }
}
