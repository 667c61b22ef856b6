/** Commands, history items and signals of the execution policy. */
module PolicyModel {
  import opened Text

  /** A trimmed file path; no path is part of the name of another. */
  type Path = string

  /** Only a path with a directory part is recognised inside a command. */
  predicate HasDirectory(p: Path) {
    '/' in p
  }

  /** What the classification of a command line finds in it. The classes may overlap. */
  datatype Traits = Traits(readOnly: bool, test: bool, mutation: bool, scaffold: bool, guardFailure: bool,
                           inspectedGuard: bool, mentions: set<Path>, paths: seq<Path>)

  /**
   A command up to normalisation: equal values are equal normalised texts. A guard is a command that
   only fails with a message, which names files.
   */
  datatype Command =
    | ReadFile(path: Path)
    | CreateFile(path: Path)
    | Guard(reason: GuardReason, files: seq<Path>)
    | Shell(text: string, traits: Traits)
  {
    predicate IsReadOnly() { ReadFile? || (Shell? && traits.readOnly) }

    predicate IsTest() { Shell? && traits.test }

    predicate IsMutation() { CreateFile? || (Shell? && traits.mutation && !traits.guardFailure) }

    /** The message against scaffolding again has the words of a scaffolding command. */
    predicate IsScaffold() { CreateFile? || (Guard? && reason == ScaffoldRepeated) || (Shell? && traits.scaffold) }

    predicate IsGuardFailure() { Guard? || (Shell? && traits.guardFailure) }

    predicate IsPendingWriteGuard() {
      (Guard? && reason == ContextInspected) || (Shell? && traits.guardFailure && traits.inspectedGuard)
    }

    /** Whether the command contains the path. */
    predicate Mentions(p: Path) {
      ((ReadFile? || CreateFile?) && path == p) || (Guard? && p in files) || (Shell? && p in traits.mentions)
    }

    /** The paths recognised in the command, in order; nothing asks for those in a message of the guard. */
    function Paths(): (r: seq<Path>)
      ensures forall p :: p in r ==> HasDirectory(p)
    {
      if ReadFile? || CreateFile? then if HasDirectory(path) then [path] else []
      else if Shell? then Filter(traits.paths, HasDirectory)
      else []
    }
  }

  /** A test command as the examples use it. */
  const GO_TEST := Shell("go test ./...", Traits(false, true, false, false, false, false, {}, []))

  datatype GuardReason = TestsFailedAlready | ContextInspected | ScaffoldRepeated | OutsideTargets

  predicate IsMutationTool(name: string) {
    Lower(TrimSpace(name)) in {"apply_patch", "write_file", "edit_file", "replace_in_file", "append_file",
        "create_file"}
  }

  const EXEC_COMMAND := "exec_command"
  const WRITE_STDIN := "write_stdin"

  predicate IsExecTool(tool: string) {
    tool == EXEC_COMMAND
  }

  predicate IsStdinTool(tool: string) {
    tool == WRITE_STDIN
  }

  /** The first element that passes. */
  function First<T(!new)>(s: seq<T>, pass: T -> bool): (r: Option<T>)
    ensures r == None ==> forall x :: x in s ==> !pass(x)
    ensures r.Some? ==> r.value in s && pass(r.value)
  {
    if s == [] then None else if pass(s[0]) then Some(s[0]) else First(s[1..], pass)
  }

  function Filter<T(!new)>(s: seq<T>, keep: T -> bool): (r: seq<T>)
    ensures forall x :: x in r <==> x in s && keep(x)
  {
    if s == [] then [] else (if keep(s[0]) then [s[0]] else []) + Filter(s[1..], keep)
  }

  /** A list without repetitions, in the order of the first occurrences. */
  function Deduped<T(==)>(s: seq<T>): seq<T> {
    if s == [] then []
    else
      var front := Deduped(s[..|s| - 1]);
      if s[|s| - 1] in front then front else front + [s[|s| - 1]]
  }

  lemma {:induction false} DedupedSame<T(!new)>(s: seq<T>)
    ensures forall x :: x in Deduped(s) <==> x in s
    ensures Deduped(s) == [] <==> s == []
  {
    if s != [] {
      DedupedSame(s[..|s| - 1]);
    }
  }

  /** The text of a tool output, as far as the policy looks at it. */
  datatype OutputText = OutputText(blank: bool, paths: seq<Path>)

  const NO_TEXT := OutputText(true, [])

  /**
   A decoded tool output: its text, the success flag it carries, the success its text suggests for
   a test and for other commands, the session it names, whether its status says that the process
   still runs, and the exit status it reports.
   */
  datatype Output = Output(text: OutputText, success: Option<bool>, inferredTest: Option<bool>,
                           inferredOther: Option<bool>, session: string, running: bool, exit: Option<bool>)

  /** A history item: a call of a tool, another tool use, an output, or something the policy skips. */
  datatype Item =
    | ToolCall(callID: string, tool: string, command: Option<Command>, stdinSession: string)
    | OtherToolUse
    | ToolOutput(callID: string, output: Output)
    | Skipped

  /** `executionHistorySignals`. */
  datatype Signals = Signals(toolCalls: nat, readCalls: nat, writeCalls: nat, testCalls: nat, commands: seq<Command>,
                             withResult: seq<Command>, successful: seq<Command>, failed: seq<Command>,
                             empty: seq<Command>, outputs: map<Command, OutputText>, runningSession: string,
                             lastWrite: nat, lastFailedTest: nat, readPos: map<Path, nat>)

  const NO_SIGNALS := Signals(0, 0, 0, 0, [], [], [], [], [], map[], "", 0, 0, map[])

  predicate SeenRead(seen: seq<Command>, p: Path) {
    exists c :: c in seen && c.IsReadOnly() && c.Mentions(p)
  }

  predicate SatisfiedRead(s: Signals, p: Path) {
    SeenRead(s.successful, p)
    || (!SeenRead(s.failed, p) && SeenRead(s.commands, p) && (s.withResult == [] || SeenRead(s.withResult, p)))
  }

  function ScaffoldCount(seen: seq<Command>, p: Path): nat {
    if seen == [] then 0
    else (if seen[0].IsScaffold() && seen[0].Mentions(p) then 1 else 0) + ScaffoldCount(seen[1..], p)
  }

  predicate HasScaffold(seen: seq<Command>, p: Path) {
    ScaffoldCount(seen, p) > 0
  }

  lemma {:induction false} ScaffoldSeen(seen: seq<Command>, p: Path)
    ensures HasScaffold(seen, p) <==> exists c :: c in seen && c.IsScaffold() && c.Mentions(p)
  {
    if seen != [] {
      ScaffoldSeen(seen[1..], p);
    }
  }

  predicate MutationSeen(seen: seq<Command>, p: Path) {
    exists c :: c in seen && c.IsMutation() && c.Mentions(p)
  }
}
