/** Folding the tool-call history into the signals the policy decides on. */
module HistorySignals {
  import opened Text
  import opened Deduplication
  import opened PolicyModel

  /** A command that has a result; a read also has its position recorded. */
  function Noted(s: Signals, c: Command, pos: nat): Signals {
    s.(withResult := s.withResult + [c],
       readPos := if c.IsReadOnly() && c.Paths() != [] && pos > 0 then s.readPos[c.Paths()[0] := pos] else s.readPos)
  }

  /** The output of a command is kept unless it is blank. */
  function WithOutput(s: Signals, c: Command, text: OutputText): Signals {
    s.(outputs := if text.blank then s.outputs else s.outputs[c := text])
  }

  function Passed(s: Signals, c: Command, text: OutputText): Signals {
    s.(successful := s.successful + [c],
       outputs := WithOutput(s, c, text).outputs,
       empty := if c.IsReadOnly() && text.blank then s.empty + [c] else s.empty)
  }

  function Failed(s: Signals, c: Command, pos: nat): Signals {
    s.(failed := s.failed + [c], lastFailedTest := if c.IsTest() && pos > 0 then pos else s.lastFailedTest)
  }

  /** A test succeeds only when it is known to; other commands unless they are known to fail. */
  predicate CountsAsSuccess(c: Command, success: Option<bool>) {
    if c.IsTest() then success == Some(true) else success != Some(false)
  }

  /** `recordCommandResult`. */
  function Recorded(s: Signals, c: Command, text: OutputText, success: Option<bool>, pos: nat): Signals {
    var s1 := Noted(s, c, pos);
    if CountsAsSuccess(c, success) then Passed(s1, c, text) else Failed(s1, c, pos)
  }

  /** A command that is run: it counts as a test, a write unless it only scaffolds, or a read. */
  function Called(s: Signals, c: Command, pos: nat): Signals {
    var s1 := s.(commands := s.commands + [c]);
    if c.IsTest() then s1.(testCalls := s.testCalls + 1)
    else if c.IsMutation() then
      if c.IsScaffold() then s1 else s1.(writeCalls := s.writeCalls + 1, lastWrite := pos)
    else if c.IsReadOnly() then s1.(readCalls := s.readCalls + 1)
    else s1
  }

  function Find<K, V>(m: map<K, V>, k: K, default: V): V {
    if k in m then m[k] else default
  }

  /** The signals so far, with what is known about the calls and the sessions. */
  datatype Tracking = Tracking(signals: Signals, callTool: map<string, string>, callSession: map<string, string>,
                               callCommand: map<string, Command>, callPos: map<string, nat>,
                               sessionCommand: map<string, Command>, sessionPos: map<string, nat>,
                               running: set<string>, runningOrder: seq<string>, pos: nat)

  const NOTHING_TRACKED := Tracking(NO_SIGNALS, map[], map[], map[], map[], map[], map[], {}, [], 0)

  /** A tool call is counted and, if it has an id, remembered with its tool and session. */
  function Registered(t: Tracking, callID: string, tool: string, stdinSession: string): Tracking {
    var t1 := t.(signals := t.signals.(toolCalls := t.signals.toolCalls + 1));
    if callID == "" then t1
    else t1.(callTool := t.callTool[callID := tool],
             callSession := if IsStdinTool(tool) then t.callSession[callID := stdinSession] else t.callSession)
  }

  /** A command takes the next position. */
  function CommandRun(t: Tracking, callID: string, c: Command): Tracking {
    var pos := t.pos + 1;
    var t1 := t.(signals := Called(t.signals, c, pos), pos := pos);
    if callID == "" then t1 else t1.(callCommand := t.callCommand[callID := c], callPos := t.callPos[callID := pos])
  }

  function WriteCounted(t: Tracking): Tracking {
    t.(signals := t.signals.(writeCalls := t.signals.writeCalls + 1))
  }

  function CallStep(t: Tracking, callID: string, tool: string, command: Option<Command>,
                    stdinSession: string): Tracking {
    if tool == "" then t
    else
      var t1 := Registered(t, callID, tool, stdinSession);
      if IsMutationTool(tool) then WriteCounted(t1)
      else if !IsExecTool(tool) || command == None then t1
      else CommandRun(t1, callID, command.value)
  }

  /** The output of a `write_stdin` call reports on the command that runs in its session. */
  function SessionOutputStep(t: Tracking, callID: string, o: Output): Tracking {
    var session := TrimSpace(Find(t.callSession, callID, ""));
    if session !in t.sessionCommand || o.exit == None then t
    else
      var success := if o.success == None then o.exit else o.success;
      t.(signals := Recorded(t.signals, t.sessionCommand[session], o.text, success, Find(t.sessionPos, session, 0)),
         running := t.running - {session})
  }

  /** A command goes on running in a session, for which its output so far is kept. */
  function SessionStarted(t: Tracking, c: Command, pos: nat, o: Output): Tracking {
    t.(sessionCommand := t.sessionCommand[o.session := c], sessionPos := t.sessionPos[o.session := pos],
       running := t.running + {o.session}, runningOrder := t.runningOrder + [o.session],
       signals := WithOutput(t.signals, c, o.text))
  }

  function CommandOutputStep(t: Tracking, callID: string, o: Output): Tracking {
    if callID !in t.callCommand then t
    else
      var c, pos := t.callCommand[callID], Find(t.callPos, callID, 0);
      if o.session != "" && o.running then SessionStarted(t, c, pos, o)
      else
        var success := if o.success != None then o.success else if c.IsTest() then o.inferredTest else o.inferredOther;
        t.(signals := Recorded(t.signals, c, o.text, success, pos))
  }

  function Step(t: Tracking, item: Item): Tracking {
    match item
    case ToolCall(callID, tool, command, stdinSession) => CallStep(t, callID, tool, command, stdinSession)
    case OtherToolUse => t.(signals := t.signals.(toolCalls := t.signals.toolCalls + 1))
    case ToolOutput(callID, o) =>
      if IsStdinTool(Find(t.callTool, callID, "")) then SessionOutputStep(t, callID, o)
        else CommandOutputStep(t, callID, o)
    case Skipped => t
  }

  function Track(items: seq<Item>): Tracking {
    if items == [] then NOTHING_TRACKED else Step(Track(items[..|items| - 1]), items[|items| - 1])
  }

  /** The session started last among those still running. */
  function LastRunning(order: seq<string>, running: set<string>): string {
    if order == [] then "" else if order[|order| - 1] in running then order[|order| - 1]
    else LastRunning(order[..|order| - 1], running)
  }

  /** No command is listed twice. */
  function Distinct(s: Signals): Signals {
    s.(successful := Deduped(s.successful), withResult := Deduped(s.withResult),
       failed := Deduped(s.failed), empty := Deduped(s.empty))
  }

  function Finished(s: Signals, runningOrder: seq<string>, running: set<string>): Signals {
    Distinct(s.(runningSession := LastRunning(runningOrder, running)))
  }

  /** `collectExecutionHistorySignals`. */
  function Collected(items: seq<Item>): Signals {
    var t := Track(items);
    Finished(t.signals, t.runningOrder, t.running)
  }

  method LatestRunningSession(order: seq<string>, running: set<string>) returns (session: string)
    ensures session == LastRunning(order, running)
  {
    var k := |order|;
    assert order[..k] == order;
    while k > 0 && order[k - 1] !in running
      invariant 0 <= k <= |order|
      invariant LastRunning(order[..k], running) == LastRunning(order, running)
    {
      assert order[..k][..k - 1] == order[..k - 1];
      k := k - 1;
    }
    session := if k > 0 then order[k - 1] else "";
  }

  /** The signals while they are collected. */
  class Collector {
    var toolCalls: nat
    var readCalls: nat
    var writeCalls: nat
    var testCalls: nat
    var commands: seq<Command>
    var commandsWithResult: seq<Command>
    var successfulCommands: seq<Command>
    var failedCommands: seq<Command>
    var emptyCommands: seq<Command>
    var commandOutputs: map<Command, OutputText>
    var runningSessionID: string
    var lastWritePos: nat
    var lastFailedTestPos: nat
    var readResultPosByFile: map<Path, nat>

    function Value(): Signals
      reads this
    {
      Signals(toolCalls, readCalls, writeCalls, testCalls, commands, commandsWithResult, successfulCommands,
              failedCommands, emptyCommands, commandOutputs, runningSessionID, lastWritePos, lastFailedTestPos,
              readResultPosByFile)
    }

    constructor ()
      ensures Value() == NO_SIGNALS
    {
      toolCalls, readCalls, writeCalls, testCalls := 0, 0, 0, 0;
      commands, commandsWithResult, successfulCommands, failedCommands, emptyCommands := [], [], [], [], [];
      commandOutputs, runningSessionID := map[], "";
      lastWritePos, lastFailedTestPos, readResultPosByFile := 0, 0, map[];
    }

    method NoteResult(command: Command, pos: nat)
      modifies this
      ensures Value() == Noted(old(Value()), command, pos)
    {
      commandsWithResult := commandsWithResult + [command];
      if command.IsReadOnly() {
        var paths := command.Paths();
        if paths != [] && pos > 0 {
          readResultPosByFile := readResultPosByFile[paths[0] := pos];
        }
      }
    }

    method NoteOutput(command: Command, text: OutputText)
      modifies this
      ensures Value() == WithOutput(old(Value()), command, text)
    {
      if !text.blank {
        commandOutputs := commandOutputs[command := text];
      }
    }

    method NoteSuccess(command: Command, text: OutputText)
      modifies this
      ensures Value() == Passed(old(Value()), command, text)
    {
      successfulCommands := successfulCommands + [command];
      NoteOutput(command, text);
      if command.IsReadOnly() && text.blank {
        emptyCommands := emptyCommands + [command];
      }
    }

    method RecordCommandResult(command: Command, text: OutputText, success: Option<bool>, pos: nat)
      modifies this
      ensures Value() == Recorded(old(Value()), command, text, success, pos)
    {
      hide Noted, Passed;
      NoteResult(command, pos);
      var successful := success == None || success.value;
      if command.IsTest() {
        successful := success != None && success.value;
      }
      if successful {
        NoteSuccess(command, text);
        return;
      }
      failedCommands := failedCommands + [command];
      if command.IsTest() && pos > 0 {
        lastFailedTestPos := pos;
      }
    }

    method CountCommand(command: Command, pos: nat)
      modifies this
      ensures Value() == Called(old(Value()), command, pos)
    {
      commands := commands + [command];
      if command.IsTest() {
        testCalls := testCalls + 1;
      } else if command.IsMutation() {
        if !command.IsScaffold() {
          writeCalls, lastWritePos := writeCalls + 1, pos;
        }
      } else if command.IsReadOnly() {
        readCalls := readCalls + 1;
      }
    }

    method DedupeCommands()
      modifies this
      ensures Value() == Distinct(old(Value()))
    {
      hide Deduped;
      var successful := DedupeValues(successfulCommands);
      var withResult := DedupeValues(commandsWithResult);
      var failed := DedupeValues(failedCommands);
      var empty := DedupeValues(emptyCommands);
      successfulCommands, commandsWithResult, failedCommands, emptyCommands := successful, withResult, failed, empty;
    }

    method FinishSignals(runningOrder: seq<string>, running: set<string>)
      modifies this
      ensures Value() == Finished(old(Value()), runningOrder, running)
    {
      hide Distinct, LastRunning;
      runningSessionID := LatestRunningSession(runningOrder, running);
      DedupeCommands();
    }
  }

  /** The signals with the tables of calls and sessions that are only needed while collecting. */
  class History {
    const signals: Collector
    var callTool: map<string, string>
    var callSession: map<string, string>
    var callCommand: map<string, Command>
    var callPos: map<string, nat>
    var sessionCommand: map<string, Command>
    var sessionPos: map<string, nat>
    var running: set<string>
    var runningOrder: seq<string>
    var pos: nat

    function Tracked(): Tracking
      reads this, signals
    {
      Tracking(signals.Value(), callTool, callSession, callCommand, callPos, sessionCommand, sessionPos, running,
               runningOrder, pos)
    }

    constructor ()
      ensures fresh(signals) && Tracked() == NOTHING_TRACKED
    {
      signals := new Collector();
      callTool, callSession, callCommand, callPos, sessionCommand, sessionPos := map[], map[], map[], map[], map[],
        map[];
      running, runningOrder, pos := {}, [], 0;
    }

    method Register(callID: string, tool: string, stdinSession: string)
      modifies this, signals
      ensures Tracked() == Registered(old(Tracked()), callID, tool, stdinSession)
    {
      hide IsStdinTool;
      signals.toolCalls := signals.toolCalls + 1;
      if callID != "" {
        callTool := callTool[callID := tool];
        if IsStdinTool(tool) {
          callSession := callSession[callID := stdinSession];
        }
      }
    }

    method RunCommand(callID: string, command: Command)
      modifies this, signals
      ensures Tracked() == CommandRun(old(Tracked()), callID, command)
    {
      hide Called;
      pos := pos + 1;
      if callID != "" {
        callCommand, callPos := callCommand[callID := command], callPos[callID := pos];
      }
      signals.CountCommand(command, pos);
    }

    method CountWrite()
      modifies signals
      ensures Tracked() == WriteCounted(old(Tracked()))
    {
      signals.writeCalls := signals.writeCalls + 1;
    }

    method ObserveCall(callID: string, tool: string, command: Option<Command>, stdinSession: string)
      modifies this, signals
      ensures Tracked() == CallStep(old(Tracked()), callID, tool, command, stdinSession)
    {
      hide Registered, CommandRun, WriteCounted, IsMutationTool, IsExecTool, Tracked;
      if tool == "" {
        return;
      }
      Register(callID, tool, stdinSession);
      if IsMutationTool(tool) {
        CountWrite();
        return;
      }
      if !IsExecTool(tool) || command == None {
        return;
      }
      RunCommand(callID, command.value);
    }

    method ObserveSessionOutput(callID: string, o: Output)
      modifies this, signals
      ensures Tracked() == SessionOutputStep(old(Tracked()), callID, o)
    {
      hide Recorded, TrimSpace;
      var session := TrimSpace(Find(callSession, callID, ""));
      if session !in sessionCommand || o.exit == None {
        return;
      }
      var success := o.success;
      if success == None {
        success := o.exit;
      }
      signals.RecordCommandResult(sessionCommand[session], o.text, success, Find(sessionPos, session, 0));
      running := running - {session};
    }

    method StartSession(command: Command, at: nat, o: Output)
      modifies this, signals
      ensures Tracked() == SessionStarted(old(Tracked()), command, at, o)
    {
      sessionCommand, sessionPos := sessionCommand[o.session := command], sessionPos[o.session := at];
      running, runningOrder := running + {o.session}, runningOrder + [o.session];
      signals.NoteOutput(command, o.text);
    }

    method ObserveCommandOutput(callID: string, o: Output)
      modifies this, signals
      ensures Tracked() == CommandOutputStep(old(Tracked()), callID, o)
    {
      hide Recorded, SessionStarted;
      if callID !in callCommand {
        return;
      }
      var command, at := callCommand[callID], Find(callPos, callID, 0);
      if o.session != "" && o.running {
        StartSession(command, at, o);
        return;
      }
      var success := o.success;
      if success == None {
        success := if command.IsTest() then o.inferredTest else o.inferredOther;
      }
      signals.RecordCommandResult(command, o.text, success, at);
    }
  }

  method CollectExecutionHistorySignals(items: seq<Item>) returns (signals: Collector)
    ensures fresh(signals) && signals.Value() == Collected(items)
  {
    hide CallStep, SessionOutputStep, CommandOutputStep, IsStdinTool, Finished;
    var history := new History();
    signals := history.signals;
    for i := 0 to |items|
      invariant fresh(history) && fresh(history.signals)
      invariant history.Tracked() == Track(items[..i])
    {
      assert items[..i + 1][..i] == items[..i];
      match items[i] {
        case ToolCall(callID, tool, command, stdinSession) =>
          history.ObserveCall(callID, tool, command, stdinSession);
        case OtherToolUse =>
          signals.toolCalls := signals.toolCalls + 1;
        case ToolOutput(callID, o) =>
          if IsStdinTool(Find(history.callTool, callID, "")) {
            history.ObserveSessionOutput(callID, o);
          } else {
            history.ObserveCommandOutput(callID, o);
          }
        case Skipped =>
      }
    }
    assert items[..|items|] == items;
    signals.FinishSignals(history.runningOrder, history.running);
  }
}
