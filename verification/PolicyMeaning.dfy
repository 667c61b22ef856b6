/**
 The policy of one turn, said of the task, the signals and the setting: when a write is pending,
 which stage it is, what is required, and what the next command is, the seed command included.
 */
module PolicyMeaning {
  import opened Text
  import opened PolicyModel
  import opened Deduplication
  import opened HistorySignals
  import opened SignalsInvariant
  import opened CommandChooser
  import opened ExecutionPolicy
  import opened PolicyRewrite
  import G = PolicyGuard

  // The first of a list.

  ghost predicate FirstOf<T(!new)>(xs: seq<T>, x: T, p: T -> bool) {
    p(x) && exists i :: 0 <= i < |xs| && xs[i] == x && forall j :: 0 <= j < i ==> !p(xs[j])
  }

  lemma {:induction false} FirstExactly<T(!new)>(xs: seq<T>, p: T -> bool)
    ensures First(xs, p) == None <==> forall x :: x in xs ==> !p(x)
    ensures First(xs, p).Some? ==> FirstOf(xs, First(xs, p).value, p)
  {
    if xs != [] && !p(xs[0]) {
      FirstExactly(xs[1..], p);
      if First(xs, p).Some? {
        var i :| 0 <= i < |xs| - 1 && xs[1..][i] == First(xs, p).value && forall j :: 0 <= j < i ==> !p(xs[1..][j]);
        assert xs[i + 1] == First(xs, p).value;
        forall j | 0 <= j < i + 1
          ensures !p(xs[j])
        {
          assert j > 0 ==> xs[j] == xs[1..][j - 1];
        }
      }
    }
  }

  // Polling, the pending write and the stage.

  /** A running session is asked for its output before anything else. */
  ghost predicate AsksSession(task: Task, s: Signals, e: Setting) {
    && task.usesTools && !Blank(s.runningSession) && e.stdinAvailable && e.pollCall.Some?
    && !(e.requiredTool == WRITE_STDIN && e.asksForStdin)
  }

  /** Then the poll is all that is left of any batch, unless it is that already. */
  lemma {:induction false} PollingEnforced(task: Task, s: Signals, e: Setting, b: Batch)
    requires AsksSession(task, s, e)
    ensures var p := Build(task, s, e);
            && p.enabled && p.stage == Verify && p.requireTool && p.requiredTool == WRITE_STDIN
            && p.syntheticCall == e.pollCall && p.nextCommand == None && !p.pendingWrite
            && Rewritten(b, p, true, "") ==
               if |b.calls| == 1 && G.DoesSame(b.calls[0], e.pollCall.value) then b else Only(e.pollCall.value)
  {
    hide RequiredFiles, Deduped, Rewritten, G.GivesWay, G.DoesSame;
    var p := Build(task, s, e);
    G.RewriteExactly(b, p);
    G.WayNeedsNext(b.calls, p);
  }

  /** A task that uses no tools has no policy, and its batches are left alone. */
  lemma {:induction false} NoPolicy(task: Task, s: Signals, e: Setting, b: Batch, execAvailable: bool, tool: string)
    requires !task.usesTools
    ensures !Build(task, s, e).enabled && Rewritten(b, Build(task, s, e), execAvailable, tool) == b
  {
  }

  ghost predicate GuardAnswered(s: Signals) {
    exists c :: (c in s.commands || c in s.failed) && c.IsPendingWriteGuard()
  }

  /** Some target has not been read since the last failed test. */
  ghost predicate SomeToReread(files: seq<Path>, s: Signals) {
    exists f :: f in files && !(f in s.readPos && s.readPos[f] > s.lastFailedTest)
  }

  /** The demand of a turn that does not poll. */
  lemma {:induction false} BuiltFrom(task: Task, s: Signals, e: Setting)
    requires task.usesTools && !AsksSession(task, s, e)
    ensures var p, d := Build(task, s, e), FinalDemand(task, s, e);
            && p.enabled && p.nextCommand == d.nextCommand && p.pendingWrite == d.pendingWrite
            && p.requiredTool == d.requiredTool && p.stage == StageOf(s, d)
            && (var bare := p.(stage := NoStage, requireTool := false, readLoop := false, syntheticCall := None);
                p == Staged(bare, task, s, d, e))
            && p.forceSingle == (task.strictLoop || e.manyTools) && p.seenCommands == Deduped(s.commands)
            && p.requiredCommands == Deduped(task.commands)
  {
    hide FinalDemand, RequiredFiles, Deduped, StageOf, ForcesNextCommand, ExecCall, NeedsWrite, MissingFiles,
      EmptyFiles, RepeatedScaffolds, AllFilesSeen;
  }

  /** When a write is pending. */
  lemma {:induction false} PendingExactly(task: Task, s: Signals, e: Setting)
    requires task.usesTools && !AsksSession(task, s, e)
    ensures var p, failed := Build(task, s, e), s.lastFailedTest > s.lastWrite;
            p.pendingWrite <==>
              && task.asksForWrite && !task.asksForDiagnosis && (s.writeCalls == 0 || failed) && !GuardAnswered(s)
              && (failed && !SomeToReread(RequiredFiles(task), s) ==>
                    p.nextCommand.Some? && p.nextCommand.value.IsMutation())
  {
    hide Build, FinalDemand, FirstDemand, Wanted, Staged, StageOf, SomeToReread, GuardAnswered;
    BuiltFrom(task, s, e);
    WantedFirst(task, s, e);
    PendingFinal(task, s, e);
  }

  /** After a failed test without anything to read again only a mutation keeps the write pending. */
  lemma {:induction false} PendingFinal(task: Task, s: Signals, e: Setting)
    ensures var first, d := FirstDemand(task, s, e), FinalDemand(task, s, e);
            var mutates := first.nextCommand.Some? && first.nextCommand.value.IsMutation();
            if s.lastFailedTest > s.lastWrite && !SomeToReread(RequiredFiles(task), s) && !mutates then
              !d.pendingWrite && (first.pendingWrite ==> d.nextCommand == None)
            else d.pendingWrite == first.pendingWrite && (mutates ==> d.nextCommand == first.nextCommand)
  {
    hide FirstDemand, RequiredFiles, IsMutationTool;
  }

  /** The stage, and whether a tool is required. */
  lemma {:induction false} StageExactly(task: Task, s: Signals, e: Setting)
    requires task.usesTools && !AsksSession(task, s, e)
    ensures var p := Build(task, s, e);
            && (p.stage == Explore <==> s.toolCalls == 0)
            && (p.stage == Finalize <==>
                s.toolCalls > 0 && !p.pendingWrite && p.nextCommand == None && p.requiredTool == "")
            && (p.stage == Verify <==> s.toolCalls > 0 && !p.pendingWrite && p.nextCommand.Some?)
            && p.stage != NoStage && (p.requireTool <==> p.stage != Finalize)
            && (p.readLoop <==> s.toolCalls > 0 && s.readCalls >= 2 && (p.pendingWrite || p.nextCommand.Some?))
  {
    BuiltFrom(task, s, e);
    hide Build, FinalDemand, ForcesNextCommand, ExecCall, NeedsWrite;
  }

  /** The policy's own call: the explicit one, or the next command where it is insisted on. */
  lemma {:induction false} OwnCallExactly(task: Task, s: Signals, e: Setting)
    requires task.usesTools && !AsksSession(task, s, e)
    ensures var p := Build(task, s, e);
            p.syntheticCall ==
            if p.requiredTool != "" then e.explicitCall
            else if p.nextCommand.Some? && e.execAvailable
                 && (|| p.stage == Verify
                     || (p.stage == Explore && (task.strictLoop || e.manyTools)
                         && !(task.asksForWrite && !task.asksForDiagnosis)))
              then Some(G.Exec(p.nextCommand.value))
            else None
  {
    BuiltFrom(task, s, e);
    hide Build, FinalDemand, StageOf;
  }

  /** When the explicit tool is dropped. */
  lemma {:induction false} ToolExactly(task: Task, s: Signals, e: Setting)
    requires task.usesTools && !AsksSession(task, s, e)
    ensures var p := Build(task, s, e);
            p.requiredTool ==
            if || (task.asksForWrite && !task.asksForDiagnosis && GuardAnswered(s)
                   && (s.writeCalls == 0 || s.lastFailedTest > s.lastWrite))
               || (IsMutationTool(e.requiredTool) && s.writeCalls == 0 && p.nextCommand.Some?
                   && p.nextCommand.value.IsReadOnly())
              then ""
            else e.requiredTool
  {
    hide Build, FinalDemand, Staged, StageOf, GuardAnswered, IsMutationTool;
    BuiltFrom(task, s, e);
    FirstTool(task, s, e);
    FinalTool(task, s, e);
  }

  lemma {:induction false} FinalTool(task: Task, s: Signals, e: Setting)
    ensures var first, d := FirstDemand(task, s, e), FinalDemand(task, s, e);
            d.requiredTool ==
            if IsMutationTool(first.requiredTool) && s.writeCalls == 0 && d.nextCommand.Some?
               && d.nextCommand.value.IsReadOnly() then ""
            else first.requiredTool
    ensures !IsMutationTool("")
  {
    hide FirstDemand, RepairTarget, RequiredFiles;
    NoTool();
    hide IsMutationTool;
  }

  lemma {:induction false} NoTool()
    ensures !IsMutationTool("")
  {
  }

  lemma {:induction false} FirstTool(task: Task, s: Signals, e: Setting)
    ensures FirstDemand(task, s, e).requiredTool ==
            if task.asksForWrite && !task.asksForDiagnosis && GuardAnswered(s)
               && (s.writeCalls == 0 || s.lastFailedTest > s.lastWrite) then ""
            else e.requiredTool
  {
    hide NextCommand, PrefersSeed, RequiredFiles, SequenceFiles, Deduped;
  }

  // The seed command.

  ghost predicate ReadBy(commands: seq<Command>, f: Path) {
    exists c :: c in commands && c.IsReadOnly() && c.Mentions(f)
  }

  /** The file was read, and as far as is known successfully. */
  ghost predicate ReadWell(s: Signals, f: Path) {
    || ReadBy(s.successful, f)
    || (!ReadBy(s.failed, f) && ReadBy(s.commands, f) && (s.withResult == [] || ReadBy(s.withResult, f)))
  }

  /** A command has scaffolded the file. */
  ghost predicate Created(s: Signals, f: Path) {
    exists c :: c in s.commands && G.Scaffolds(c, f)
  }

  /** Some target was read well, or some other file successfully. */
  ghost predicate SomethingRead(files: seq<Path>, s: Signals) {
    || (exists f :: f in files && ReadWell(s, f))
    || exists c :: c in s.successful && c.IsReadOnly() && c.Paths() != [] && c.Paths()[0] !in files
  }

  /** A target could not be read, was empty, or has been scaffolded. */
  ghost predicate TargetBare(files: seq<Path>, s: Signals) {
    exists f :: f in files
                && (ReadBy(s.failed, f) || ReadBy(s.empty, f) || Created(s, f))
  }

  /**
   The seed command is due: there are targets, something was read, no write is still good, and
   nothing was written yet or a target is missing, empty or only scaffolded.
   */
  ghost predicate SeedDue(task: Task, s: Signals, e: Setting) {
    && e.seed.Some? && RequiredFiles(task) != [] && task.asksForWrite && !task.asksForDiagnosis
    && SomethingRead(RequiredFiles(task), s)
    && (s.lastWrite == 0 || s.lastFailedTest > s.lastWrite)
    && (s.writeCalls == 0 || TargetBare(RequiredFiles(task), s))
  }

  /** The guard has already answered a write task that still waits for its write. */
  ghost predicate GuardBlocks(task: Task, s: Signals) {
    && task.asksForWrite && !task.asksForDiagnosis && (s.writeCalls == 0 || s.lastFailedTest > s.lastWrite)
    && GuardAnswered(s)
  }

  function Chosen(task: Task, s: Signals): Option<Command> {
    NextCommand(Deduped(task.commands), SequenceFiles(task), task.styles, s, NeedsWrite(task), RequiredFiles(task))
  }

  lemma {:induction false} SeedDueExactly(task: Task, s: Signals, e: Setting)
    ensures NeedsWrite(task) && PrefersSeed(RequiredFiles(task), s, e.seed) <==> SeedDue(task, s, e)
  {
    hide RequiredFiles, Created, HasScaffold;
    CreatedExactly(s);
  }

  lemma {:induction false} ScaffoldedBy(seen: seq<Command>, f: Path)
    ensures HasScaffold(seen, f) <==> exists c :: c in seen && G.Scaffolds(c, f)
  {
    ScaffoldSeen(seen, f);
    hide HasScaffold;
    if c :| c in seen && c.IsScaffold() && c.Mentions(f) {
      assert G.Scaffolds(c, f);
    }
  }

  /** What is asked for before the repair of a failed test. */
  ghost function Wanted(task: Task, s: Signals, e: Setting): Option<Command> {
    if GuardBlocks(task, s) then None else if SeedDue(task, s, e) then e.seed else Chosen(task, s)
  }

  /** The next command: the seed where it is due, else what is chosen; after a failed test a mutation, or a reread. */
  lemma {:induction false} NextExactly(task: Task, s: Signals, e: Setting)
    requires task.usesTools && !AsksSession(task, s, e)
    ensures var next, wanted := Build(task, s, e).nextCommand, Wanted(task, s, e);
            var files := RequiredFiles(task);
            if !(s.lastFailedTest > s.lastWrite) || (wanted.Some? && wanted.value.IsMutation()) then next == wanted
            else if SomeToReread(files, s) then
              next.Some? && next.value.ReadFile? && FirstOf(files, next.value.path, f => ToReread(s, f))
            else next == if NeedsWrite(task) then None else wanted
  {
    hide Build, FinalDemand, Staged, StageOf;
    BuiltFrom(task, s, e);
    WantedFirst(task, s, e);
    NextRepaired(task, s, e);
  }

  lemma {:induction false} WantedFirst(task: Task, s: Signals, e: Setting)
    ensures var d := FirstDemand(task, s, e);
            && d.nextCommand == Wanted(task, s, e)
            && (d.pendingWrite <==> NeedsWrite(task) && !GuardBlocks(task, s)
                                    && (s.writeCalls == 0 || s.lastFailedTest > s.lastWrite))
  {
    SeedDueExactly(task, s, e);
    hide SeedDue, PrefersSeed, NextCommand, Deduped, RequiredFiles, SequenceFiles;
  }

  lemma {:induction false} NextRepaired(task: Task, s: Signals, e: Setting)
    ensures var first, next := FirstDemand(task, s, e), FinalDemand(task, s, e).nextCommand;
            var files := RequiredFiles(task);
            if !(s.lastFailedTest > s.lastWrite)
               || (first.nextCommand.Some? && first.nextCommand.value.IsMutation()) then
              next == first.nextCommand
            else if SomeToReread(files, s) then
              next.Some? && next.value.ReadFile? && FirstOf(files, next.value.path, f => ToReread(s, f))
            else next == if first.pendingWrite then None else first.nextCommand
  {
    hide FirstDemand, RequiredFiles, IsMutationTool, FirstOf;
    var files := RequiredFiles(task);
    FirstExactly(files, f => ToReread(s, f));
  }

  /**
   Where the chooser would propose something else, the seed command, which is never the plain read of a
   file, is the next command if and only if it is due, the guard has not answered, and no test has
   failed since the last write unless it changes files.
   */
  lemma {:induction false} SeedExactly(task: Task, s: Signals, e: Setting)
    requires task.usesTools && !AsksSession(task, s, e)
    requires e.seed.Some? && !e.seed.value.ReadFile? && Chosen(task, s) != e.seed
    ensures Build(task, s, e).nextCommand == e.seed <==>
            && SeedDue(task, s, e) && !GuardBlocks(task, s)
            && (s.lastFailedTest > s.lastWrite ==> e.seed.value.IsMutation())
  {
    hide Build, FirstOf, GuardBlocks, SomeToReread, Chosen;
    NextExactly(task, s, e);
  }

  /** In every history of a write task without a write or a failed test, once a target is read the seed is next. */
  lemma {:induction false} SeedAfterRead(task: Task, items: seq<Item>, e: Setting, f: Path)
    requires var s := Collected(items);
             && task.usesTools && !AsksSession(task, s, e) && task.asksForWrite && !task.asksForDiagnosis
             && e.seed.Some? && s.writeCalls == 0 && s.lastFailedTest == 0 && !GuardAnswered(s)
             && f in RequiredFiles(task) && ReadWell(s, f)
    ensures Build(task, Collected(items), e).nextCommand == e.seed
  {
    hide Collected, Build, FirstOf, SomeToReread, Chosen, RequiredFiles, ReadWell, GuardAnswered, ResultsSound,
      CountsSound, AsksSession;
    CollectedSound(items);
    NextExactly(task, Collected(items), e);
  }

  // The files.

  lemma {:induction false} MergedFiles(files: seq<Path>, targets: seq<Path>)
    ensures var merged := MergeFiles(files, targets);
            && files <= merged && (forall f :: f in merged <==> f in files || f in targets)
            && forall i, j :: 0 <= i < j < |merged| && |files| <= j ==> merged[i] != merged[j]
  {
    if targets != [] {
      MergedFiles(files, targets[..|targets| - 1]);
    }
  }

  /** The targets, and the files in inspection order: those the task names, then the targets it does not, once each. */
  lemma {:induction false} FilesExactly(task: Task)
    ensures forall f :: f in RequiredFiles(task) <==>
              if task.asksForWrite && task.writeTargets != [] then f in task.writeTargets else f in task.files
    ensures var sequence := SequenceFiles(task);
            && task.files <= sequence
            && (forall f :: f in sequence <==> f in task.files || (task.asksForWrite && f in task.writeTargets))
            && forall i, j :: 0 <= i < j < |sequence| && |task.files| <= j ==> sequence[i] != sequence[j]
  {
    DedupedSame(task.writeTargets);
    DedupedKeepsFirst(task.writeTargets);
    MergedFiles(task.files, Deduped(task.writeTargets));
  }

  // What is chosen.

  /** A required command that is still to be run. */
  ghost predicate ToRun(s: Signals, needsWrite: bool, c: Command) {
    && c !in s.successful
    && !(c.IsReadOnly() && c !in s.failed && (c in s.withResult || c in s.commands))
    && !(s.successful == [] && c in s.commands && !(c.IsReadOnly() && c in s.failed))
    && !(!needsWrite && c.IsTest() && c in s.failed)
  }

  /** Outside write tasks: the first unread file, then the first required command to run, then nothing. */
  lemma {:induction false} ReadOnlyChoice(task: Task, s: Signals)
    requires !NeedsWrite(task)
    ensures var files, commands, c := SequenceFiles(task), Deduped(task.commands), Chosen(task, s);
            if exists f :: f in files && !ReadBy(commands, f) && !ReadBy(s.commands, f) then
              c.Some? && c.value.ReadFile?
              && FirstOf(files, c.value.path, f => Unread(commands, s, f))
            else if exists r :: r in commands && ToRun(s, false, r) then
              c.Some? && FirstOf(commands, c.value, r => Unmet(s, false, r))
            else if commands == [] then
              if exists f :: f in files && !ReadBy(s.commands, f) then
                c.Some? && c.value.ReadFile? && FirstOf(files, c.value.path, f => !SeenRead(s.commands, f))
              else c == None
            else c == None
  {
    hide Deduped, SequenceFiles, NeedsWrite, FirstOf, RequiredFiles;
    var files, commands := SequenceFiles(task), Deduped(task.commands);
    FirstExactly(files, f => Unread(commands, s, f));
    FirstExactly(commands, r => Unmet(s, false, r));
    FirstExactly(files, f => !SeenRead(s.commands, f));
  }

  /** After the first write: while a test has failed since, rereads; else as outside write tasks, tests repeated. */
  lemma {:induction false} AfterWriteChoice(task: Task, s: Signals)
    requires NeedsWrite(task) && s.writeCalls > 0
    ensures var files, commands, c := SequenceFiles(task), Deduped(task.commands), Chosen(task, s);
            if s.lastFailedTest > s.lastWrite then
              if SomeToReread(files, s) then
                c.Some? && c.value.ReadFile? && FirstOf(files, c.value.path, f => ToReread(s, f))
              else c == None
            else if exists r :: r in commands && ToRun(s, true, r) then
              c.Some? && FirstOf(commands, c.value, r => Unmet(s, true, r))
            else if commands == [] && exists f :: f in files && !ReadBy(s.commands, f) then
              c.Some? && c.value.ReadFile? && FirstOf(files, c.value.path, f => !SeenRead(s.commands, f))
            else c == None
  {
    hide Deduped, SequenceFiles, NeedsWrite, FirstOf, RequiredFiles;
    var files, commands := SequenceFiles(task), Deduped(task.commands);
    FirstExactly(files, f => ToReread(s, f));
    FirstExactly(commands, r => Unmet(s, true, r));
    FirstExactly(files, f => !SeenRead(s.commands, f));
  }

  /** A test file that may show the house style and is not among the task's own. */
  predicate IsReference(task: Task, p: Path) {
    && var name := Lower(p);
    && EndsIn(name, "_test.go") && !EndsIn(name, "_benchmark_test.go") && !Contains(name, "style_test.go")
    && p !in SequenceFiles(task)
  }

  predicate EndsIn(s: string, suffix: string) {
    exists i :: 0 <= i <= |s| && s[i..] == suffix
  }

  lemma {:induction false} EndsInSuffix(s: string, suffix: string)
    ensures EndsIn(s, suffix) <==> HasSuffix(s, suffix)
  {
    if HasSuffix(s, suffix) {
      assert s[|s| - |suffix|..] == suffix;
    }
  }

  lemma {:induction false} ReferenceIs(task: Task, p: Path)
    ensures IsReference(task, p) <==> IsStyleReference(p) && p !in SequenceFiles(task)
  {
    hide SequenceFiles, HasSuffix, EndsIn;
    EndsInSuffix(Lower(p), "_test.go");
    EndsInSuffix(Lower(p), "_benchmark_test.go");
  }

  function ListedPaths(s: Signals, style: Command): seq<Path> {
    if style in s.outputs then s.outputs[style].paths else []
  }

  /** The first reference that the listing names. */
  ghost predicate ReferenceOf(task: Task, s: Signals, style: Command, p: Path) {
    && IsReference(task, p)
    && var listed := ListedPaths(s, style);
    && exists i :: 0 <= i < |listed| && listed[i] == p && forall j :: 0 <= j < i ==> !IsReference(task, listed[j])
  }

  /** The style has no further use: its listing is resolved, and the reference it names, if any, has been read. */
  ghost predicate StyleDone(task: Task, s: Signals, style: Command) {
    !ToRun(s, true, style) && forall p :: ReferenceOf(task, s, style, p) ==> ReadBy(s.commands, p)
  }

  /** A file named by the task that is no target and has not been read well. */
  ghost predicate SourceLeft(task: Task, s: Signals, f: Path) {
    f !in RequiredFiles(task) && !ReadWell(s, f)
  }

  /** A read of the file failed, none found it empty, and it has not been both created and read. */
  ghost predicate Lacking(s: Signals, f: Path) {
    ReadBy(s.failed, f) && !ReadBy(s.empty, f)
    && !(Created(s, f) && ReadBy(s.commands, f))
  }

  /**
   Before the first write: the first source left to read; then the first style that is not done, its
   listing or its reference; then the first scaffolded file not read; then the first one lacking,
   which is created; then the first not read.
   */
  lemma {:induction false} InspectionChoice(task: Task, s: Signals)
    requires NeedsWrite(task) && s.writeCalls == 0
    ensures var files, c := SequenceFiles(task), Chosen(task, s);
            if exists f :: f in files && SourceLeft(task, s, f) then
              && c.Some? && c.value.ReadFile?
              && FirstOf(files, c.value.path, f => UnreadSource(s, RequiredFiles(task), f))
            else if exists style :: style in task.styles && !StyleDone(task, s, style) then
              c.Some? && StyleStep(task, s, c.value)
            else if exists f :: f in files && !ReadWell(s, f) && Created(s, f) then
              c.Some? && c.value.ReadFile? && FirstOf(files, c.value.path, f => UnreadScaffold(s, f))
            else if exists f :: f in files && Lacking(s, f) then
              c.Some? && c.value.CreateFile? && FirstOf(files, c.value.path, f => ToCreate(s, f))
            else if exists f :: f in files && !ReadWell(s, f) then
              c.Some? && c.value.ReadFile? && FirstOf(files, c.value.path, f => !SatisfiedRead(s, f))
            else c == None
  {
    hide Deduped, SequenceFiles, NeedsWrite, FirstOf, RequiredFiles, StyleDone, NextStyle, FirstSource, FirstScaffold,
      FirstToCreate, FirstUnsatisfied, SourceLeft, Lacking, ReadWell, Created;
    SourceChoice(task, s, SequenceFiles(task));
    StylesExactly(task, task.styles, s);
    ScaffoldChoice(s, SequenceFiles(task));
    CreateChoice(s, SequenceFiles(task));
    UnreadChoice(s, SequenceFiles(task));
  }

  lemma {:induction false} SourceChoice(task: Task, s: Signals, files: seq<Path>)
    ensures var r := FirstSource(s, RequiredFiles(task), files);
            && (r.Some? <==> exists f :: f in files && SourceLeft(task, s, f))
            && (r.Some? ==> FirstOf(files, r.value, f => UnreadSource(s, RequiredFiles(task), f)))
  {
    hide RequiredFiles, FirstOf;
    FirstExactly(files, f => UnreadSource(s, RequiredFiles(task), f));
  }

  lemma {:induction false} ScaffoldChoice(s: Signals, files: seq<Path>)
    ensures var r := FirstScaffold(s, files);
            && (r.Some? <==> exists f :: f in files && !ReadWell(s, f) && Created(s, f))
            && (r.Some? ==> FirstOf(files, r.value, f => UnreadScaffold(s, f)))
  {
    hide FirstOf, HasScaffold, Created;
    CreatedExactly(s);
    FirstExactly(files, f => UnreadScaffold(s, f));
  }

  lemma {:induction false} CreateChoice(s: Signals, files: seq<Path>)
    ensures var r := FirstToCreate(s, files);
            && (r.Some? <==> exists f :: f in files && Lacking(s, f))
            && (r.Some? ==> FirstOf(files, r.value, f => ToCreate(s, f)))
  {
    hide FirstOf, HasScaffold, Created;
    CreatedExactly(s);
    FirstExactly(files, f => ToCreate(s, f));
  }

  lemma {:induction false} UnreadChoice(s: Signals, files: seq<Path>)
    ensures var r := FirstUnsatisfied(s, files);
            && (r.Some? <==> exists f :: f in files && !ReadWell(s, f))
            && (r.Some? ==> FirstOf(files, r.value, f => !SatisfiedRead(s, f)))
  {
    hide FirstOf;
    FirstExactly(files, f => !SatisfiedRead(s, f));
  }

  lemma {:induction false} CreatedExactly(s: Signals)
    ensures forall f :: HasScaffold(s.commands, f) <==> Created(s, f)
  {
    forall f
      ensures HasScaffold(s.commands, f) <==> Created(s, f)
    {
      ScaffoldedBy(s.commands, f);
    }
  }

  /** The step of the first style that is not done: its listing if it is to be run, else the reference it names. */
  ghost predicate StyleStep(task: Task, s: Signals, c: Command) {
    exists i :: 0 <= i < |task.styles| && StyleStepOf(task, s, task.styles, i, c)
  }

  ghost predicate StyleStepOf(task: Task, s: Signals, styles: seq<Command>, i: nat, c: Command)
    requires i < |styles|
  {
    && !StyleDone(task, s, styles[i]) && (forall j :: 0 <= j < i ==> StyleDone(task, s, styles[j]))
    && if ToRun(s, true, styles[i]) then c == styles[i]
       else c.ReadFile? && ReferenceOf(task, s, styles[i], c.path)
  }

  lemma {:induction false} StylesExactly(task: Task, styles: seq<Command>, s: Signals)
    ensures var c := NextStyle(styles, SequenceFiles(task), s);
            if exists style :: style in styles && !StyleDone(task, s, style) then
              c.Some? && exists i :: 0 <= i < |styles| && StyleStepOf(task, s, styles, i, c.value)
            else c == None
  {
    hide SequenceFiles, StyleDone;
    if styles != [] {
      var c := NextStyle(styles, SequenceFiles(task), s);
      StyleExactly(task, s, styles[0]);
      StylesExactly(task, styles[1..], s);
      if StyleDone(task, s, styles[0]) {
        if i: nat :| i < |styles| - 1 && c.Some? && StyleStepOf(task, s, styles[1..], i, c.value) {
          assert StyleStepOf(task, s, styles, i + 1, c.value) by {
            forall j | 0 <= j < i + 1
              ensures StyleDone(task, s, styles[j])
            {
              assert j > 0 ==> styles[j] == styles[1..][j - 1];
            }
          }
        }
      } else {
        assert styles[0] in styles && StyleStepOf(task, s, styles, 0, c.value);
      }
    }
  }

  lemma {:induction false} StyleExactly(task: Task, s: Signals, style: Command)
    ensures var reference := UnreadReference(OutputOf(s, style), SequenceFiles(task), s.commands);
            && (Resolved(s, style) <==> !ToRun(s, true, style))
            && (StyleDone(task, s, style) <==> Resolved(s, style) && reference == None)
            && (reference.Some? ==> ReferenceOf(task, s, style, reference.value))
  {
    hide SequenceFiles, IsStyleReference, ReferenceOf, Resolved, ToRun;
    ResolvedExactly(s, style);
    ReferenceExactly(task, s, style);
  }

  lemma {:induction false} ResolvedExactly(s: Signals, c: Command)
    ensures Resolved(s, c) <==> !ToRun(s, true, c)
  {
  }

  /** The first candidate of a listing is the reference it names. */
  lemma {:induction false} ReferenceExactly(task: Task, s: Signals, style: Command)
    ensures var files := SequenceFiles(task);
            var first := First(Deduped(OutputOf(s, style).paths), (p: Path) => IsStyleReference(p) && p !in files);
            forall p :: ReferenceOf(task, s, style, p) <==> first == Some(p)
  {
    hide SequenceFiles, IsStyleReference, Deduped;
    forall p
      ensures IsReference(task, p) <==> IsStyleReference(p) && p !in SequenceFiles(task)
    {
      ReferenceIs(task, p);
    }
    hide IsReference;
    var files, listed := SequenceFiles(task), ListedPaths(s, style);
    assert listed == OutputOf(s, style).paths;
    FirstOfDeduped(listed, (p: Path) => IsStyleReference(p) && p !in files);
    forall p
      ensures FirstOf(listed, p, (q: Path) => IsStyleReference(q) && q !in files)
              <==> First(listed, (q: Path) => IsStyleReference(q) && q !in files) == Some(p)
    {
      FirstOfIs(listed, p, (q: Path) => IsStyleReference(q) && q !in files);
    }
  }

  lemma {:induction false} FirstOfDeduped<T(!new)>(xs: seq<T>, p: T -> bool)
    ensures First(Deduped(xs), p) == First(xs, p)
  {
    if xs != [] {
      var front := xs[..|xs| - 1];
      FirstOfDeduped(front, p);
      DedupedSame(front);
      FirstSnoc(front, xs[|xs| - 1], p);
      FirstSnoc(Deduped(front), xs[|xs| - 1], p);
      assert front + [xs[|xs| - 1]] == xs;
    }
  }

  lemma {:induction false} FirstOfIs<T(!new)>(xs: seq<T>, x: T, p: T -> bool)
    ensures FirstOf(xs, x, p) <==> First(xs, p) == Some(x)
  {
    hide First;
    FirstExactly(xs, p);
  }

  lemma {:induction false} FirstSnoc<T(!new)>(xs: seq<T>, x: T, p: T -> bool)
    ensures First(xs + [x], p) == if First(xs, p).Some? then First(xs, p) else if p(x) then Some(x) else None
  {
    if xs == [] {
      assert xs + [x] == [x];
    } else {
      assert (xs + [x])[1..] == xs[1..] + [x];
      FirstSnoc(xs[1..], x, p);
    }
  }
}
