/** The policy of one turn: what is still missing, the next command and the stage. */
module ExecutionPolicy {
  import opened Text
  import opened PolicyModel
  import opened CommandChooser

  /** Whether a call is a function call, a custom call or something else. */
  datatype CallKind = FunctionCall | CustomCall | OtherCall

  /**
   A call the model asks for. `extra` are the decoded arguments beside the command, `payload` the
   normalised arguments of any other call.
   */
  datatype Call =
    | Undecodable
    | Invoke(name: string, command: Option<Command>, kind: CallKind, extra: Option<map<string, string>>,
             payload: string)

  /** The command tool is called. */
  predicate IsExec(call: Call) {
    call.Invoke? && IsExecTool(call.name)
  }

  predicate RunsTest(call: Call) {
    IsExec(call) && call.command.Some? && call.command.value.IsTest()
  }

  /** What the extractors find in the task text. */
  datatype Task = Task(usesTools: bool, asksForWrite: bool, asksForDiagnosis: bool, commands: seq<Command>,
                       files: seq<Path>, writeTargets: seq<Path>, styles: seq<Command>, strictLoop: bool)

  /** What the policy is told beside the task and the signals. */
  datatype Setting = Setting(requiredTool: string, explicitCall: Option<Call>, execAvailable: bool,
                             stdinAvailable: bool, asksForStdin: bool, pollCall: Option<Call>, seed: Option<Command>,
                             manyTools: bool, autoRequire: bool)

  datatype Stage = NoStage | Explore | Execute | Verify | Finalize

  /** `executionPolicy`. */
  datatype Policy = Policy(enabled: bool, stage: Stage, requireTool: bool, requiredTool: string, readLoop: bool,
                           pendingWrite: bool, missingFiles: seq<Path>, emptyFiles: seq<Path>,
                           repeatedScaffold: seq<Path>, nextCommand: Option<Command>, requiredCommands: seq<Command>,
                           requiredFiles: seq<Path>, allFilesSeen: bool, writeObserved: bool,
                           seenCommands: seq<Command>, forceSingle: bool, syntheticCall: Option<Call>)

  const NO_POLICY := Policy(false, NoStage, false, "", false, false, [], [], [], None, [], [], false, false, [], false,
                            None)

  function MergeFiles(files: seq<Path>, targets: seq<Path>): seq<Path> {
    if targets == [] then files
    else
      var front := MergeFiles(files, targets[..|targets| - 1]);
      if targets[|targets| - 1] in front then front else front + [targets[|targets| - 1]]
  }

  function RequiredFiles(task: Task): seq<Path> {
    if task.asksForWrite && task.writeTargets != [] then Deduped(task.writeTargets) else task.files
  }

  /** The files in the order in which they are inspected. */
  function SequenceFiles(task: Task): seq<Path> {
    if task.asksForWrite && task.writeTargets != [] then
      if task.files == [] then Deduped(task.writeTargets) else MergeFiles(task.files, Deduped(task.writeTargets))
    else task.files
  }

  predicate NeedsWrite(task: Task) {
    task.asksForWrite && !task.asksForDiagnosis
  }

  predicate SuccessfulReferenceRead(files: seq<Path>, s: Signals) {
    exists c :: c in s.successful && c.IsReadOnly() && c.Paths() != [] && c.Paths()[0] !in files
  }

  predicate SuccessfulTargetRead(files: seq<Path>, s: Signals) {
    exists f :: f in files && SatisfiedRead(s, f)
  }

  /** `shouldPreferSeedWriteCommand`. */
  predicate PrefersSeed(files: seq<Path>, s: Signals, seed: Option<Command>) {
    && seed.Some? && files != []
    && (SuccessfulReferenceRead(files, s) || SuccessfulTargetRead(files, s))
    && !(s.lastWrite > 0 && s.lastFailedTest <= s.lastWrite)
    && (s.writeCalls == 0
        || exists f :: f in files && (SeenRead(s.failed, f) || SeenRead(s.empty, f) || HasScaffold(s.commands, f)))
  }

  /** The guard that ends a write task that only reads. */
  predicate GuardFailureSeen(s: Signals) {
    (exists c :: c in s.commands && c.IsPendingWriteGuard()) || exists c :: c in s.failed && c.IsPendingWriteGuard()
  }

  predicate TestFailedSinceWrite(s: Signals) {
    s.lastFailedTest > s.lastWrite
  }

  /** A read of the file failed, and nothing read or changed it successfully. */
  predicate IsMissing(s: Signals, f: Path) {
    SeenRead(s.failed, f) && !SeenRead(s.successful, f) && !MutationSeen(s.successful, f)
  }

  function MissingFiles(s: Signals, files: seq<Path>): seq<Path> {
    Filter(files, f => IsMissing(s, f))
  }

  /** A read of the file succeeded without output, and nothing changed it successfully. */
  predicate IsEmpty(s: Signals, f: Path) {
    SeenRead(s.empty, f) && !MutationSeen(s.successful, f)
  }

  function EmptyFiles(s: Signals, files: seq<Path>): seq<Path> {
    Filter(files, f => IsEmpty(s, f))
  }

  function RepeatedScaffolds(s: Signals, files: seq<Path>): seq<Path> {
    Filter(files, f => ScaffoldCount(s.commands, f) >= 2)
  }

  predicate AllFilesSeen(s: Signals, files: seq<Path>) {
    files != [] && forall f :: f in files ==> SeenRead(s.commands, f)
  }

  /** What the turn asks for: the next command, whether a write is pending, the explicit tool. */
  datatype Demand = Demand(nextCommand: Option<Command>, pendingWrite: bool, requiredTool: string)

  function FirstDemand(task: Task, s: Signals, e: Setting): Demand {
    var files, needsWrite := RequiredFiles(task), NeedsWrite(task);
    var chosen := NextCommand(Deduped(task.commands), SequenceFiles(task), task.styles, s, needsWrite, files);
    var next := if needsWrite && PrefersSeed(files, s, e.seed) then e.seed else chosen;
    var pending := needsWrite && (s.writeCalls == 0 || TestFailedSinceWrite(s));
    if pending && GuardFailureSeen(s) then Demand(None, false, "") else Demand(next, pending, e.requiredTool)
  }

  /** After a failed test the files are read again before anything but a mutation. */
  function Repaired(files: seq<Path>, s: Signals, d: Demand): Demand {
    if TestFailedSinceWrite(s) && !(d.nextCommand.Some? && d.nextCommand.value.IsMutation()) then
      var target := RepairTarget(files, s);
      if target.Some? then d.(nextCommand := Read(target))
      else if d.pendingWrite then d.(nextCommand := None, pendingWrite := false)
      else d
    else d
  }

  /** A mutation tool is not demanded while the next command still reads. */
  function FinalDemand(task: Task, s: Signals, e: Setting): Demand {
    var d := Repaired(RequiredFiles(task), s, FirstDemand(task, s, e));
    if d.requiredTool != "" && IsMutationTool(d.requiredTool) && s.writeCalls == 0
       && d.nextCommand.Some? && d.nextCommand.value.IsReadOnly()
    then d.(requiredTool := "")
    else d
  }

  function StageOf(s: Signals, d: Demand): Stage {
    var stage := if s.toolCalls == 0 then Explore
                 else if d.pendingWrite then Execute
                 else if d.nextCommand.Some? then Verify
                 else Finalize;
    if d.requiredTool != "" && stage == Finalize then Execute else stage
  }

  /** `buildSyntheticExecCommandCall`, on the required tool of the request's constraints. */
  function ExecCall(command: Option<Command>, execAvailable: bool, requiredTool: string): Option<Call> {
    if command == None || (requiredTool != "" && requiredTool != EXEC_COMMAND) || !execAvailable then None
    else Some(Invoke(EXEC_COMMAND, command, FunctionCall, Some(map[]), ""))
  }

  predicate ForcesNextCommand(stage: Stage, requiredTool: string, nextCommand: Option<Command>, forceSingle: bool) {
    requiredTool == "" && nextCommand.Some? && (stage == Verify || (stage == Explore && forceSingle))
  }

  /** A command still runs in a session with a name, and its output can be asked for. */
  predicate Polls(s: Signals, e: Setting) {
    && !Blank(s.runningSession) && e.stdinAvailable
    && !(e.requiredTool == WRITE_STDIN && e.asksForStdin)
    && e.pollCall.Some?
  }

  /** Without a running session nothing is polled. */
  lemma {:induction false} NoPoll(s: Signals, e: Setting)
    requires s.runningSession == ""
    ensures !Polls(s, e)
  {
  }

  /** A turn that only polls a running session. */
  function Polling(known: Policy, e: Setting): Policy {
    known.(stage := Verify, requireTool := true, requiredTool := WRITE_STDIN, syntheticCall := e.pollCall)
  }

  /** The demand, and what the prompt reports about the files. */
  function Reported(known: Policy, s: Signals, d: Demand): Policy {
    var files := known.requiredFiles;
    known.(requiredTool := d.requiredTool, pendingWrite := d.pendingWrite, nextCommand := d.nextCommand,
           missingFiles := MissingFiles(s, files), emptyFiles := EmptyFiles(s, files),
           repeatedScaffold := RepeatedScaffolds(s, files), allFilesSeen := AllFilesSeen(s, files),
           writeObserved := s.writeCalls > 0)
  }

  /** The stage, whether a tool is required, and the call the policy makes up. */
  function Staged(p: Policy, task: Task, s: Signals, d: Demand, e: Setting): Policy {
    var stage := StageOf(s, d);
    p.(stage := stage,
       requireTool := stage != Finalize || (e.autoRequire && s.toolCalls == 0) || d.requiredTool != "",
       readLoop := stage != Explore && (d.pendingWrite || d.nextCommand.Some?) && s.readCalls >= 2,
       syntheticCall :=
         if d.requiredTool != "" then e.explicitCall
         else if ForcesNextCommand(stage, "", d.nextCommand, p.forceSingle)
           && (stage != Explore || !NeedsWrite(task)) then
           ExecCall(d.nextCommand, e.execAvailable, "")
         else p.syntheticCall)
  }

  function Known(task: Task, s: Signals, e: Setting): Policy {
    NO_POLICY.(enabled := true, requiredCommands := Deduped(task.commands), requiredFiles := RequiredFiles(task),
               seenCommands := Deduped(s.commands), forceSingle := task.strictLoop || e.manyTools)
  }

  /** `buildExecutionPolicyWithCatalog`, from the signals on. */
  function Build(task: Task, s: Signals, e: Setting): Policy {
    if !task.usesTools then NO_POLICY.(forceSingle := task.strictLoop)
    else if Polls(s, e) then Polling(Known(task, s, e), e)
    else var d := FinalDemand(task, s, e); Staged(Reported(Known(task, s, e), s, d), task, s, d, e)
  }
}
