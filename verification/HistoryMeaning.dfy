/**
 What the collected signals say about a history, by looking back over it: how many calls of each
 kind there are, which command every output reports on, and what has come of the commands.
 */
module HistoryMeaning {
  import opened Text
  import opened PolicyModel
  import opened HistorySignals
  import opened SignalsInvariant
  import opened PolicyRuns

  // Calls.

  predicate CallsTool(i: Item) {
    i.OtherToolUse? || (i.ToolCall? && i.tool != "")
  }

  predicate RunsCommand(i: Item) {
    i.ToolCall? && i.tool == EXEC_COMMAND && i.command.Some?
  }

  predicate RunsTest(i: Item) {
    RunsCommand(i) && i.command.value.IsTest()
  }

  /** A command that only reads: it is neither a test nor does it change anything. */
  predicate RunsRead(i: Item) {
    RunsCommand(i) && i.command.value.IsReadOnly() && !i.command.value.IsTest() && !i.command.value.IsMutation()
  }

  /** A mutation tool is called, or a command is run that writes. */
  predicate Writes(i: Item) {
    (i.ToolCall? && i.tool != "" && IsMutationTool(i.tool)) || (RunsCommand(i) && IsWrite(i.command.value))
  }

  /** The commands that were run, in order. */
  function Runs(items: seq<Item>): seq<Command> {
    if items == [] then []
    else
      var last := items[|items| - 1];
      Runs(items[..|items| - 1]) + if RunsCommand(last) then [last.command.value] else []
  }

  /** Which run was the last that writes, counted from one, or zero. */
  function LastWriteIn(commands: seq<Command>): (pos: nat)
    ensures pos <= |commands|
  {
    if commands == [] then 0
    else if IsWrite(commands[|commands| - 1]) then |commands| else LastWriteIn(commands[..|commands| - 1])
  }

  lemma {:induction false} CountSnoc<T>(xs: seq<T>, p: T -> bool)
    requires xs != []
    ensures Count(xs, p) == Count(xs[..|xs| - 1], p) + if p(xs[|xs| - 1]) then 1 else 0
  {
    if |xs| > 1 {
      CountSnoc(xs[1..], p);
      assert xs[1..][..|xs| - 2] == xs[..|xs| - 1][1..];
    }
  }

  ghost predicate Counted(items: seq<Item>, s: Signals) {
    && s.toolCalls == Count(items, CallsTool) && s.testCalls == Count(items, RunsTest)
    && s.readCalls == Count(items, RunsRead) && s.writeCalls == Count(items, Writes)
    && s.commands == Runs(items) && s.lastWrite == LastWriteIn(Runs(items))
  }

  /** What one item adds to the counts. */
  predicate CountedStep(t: Tracking, t1: Tracking, i: Item) {
    && var s, r, c := t.signals, t1.signals, RunsCommand(i);
    && r.toolCalls == s.toolCalls + (if CallsTool(i) then 1 else 0)
    && r.testCalls == s.testCalls + (if RunsTest(i) then 1 else 0)
    && r.readCalls == s.readCalls + (if RunsRead(i) then 1 else 0)
    && r.writeCalls == s.writeCalls + (if Writes(i) then 1 else 0)
    && r.commands == s.commands + (if c then [i.command.value] else [])
    && r.lastWrite == (if c && IsWrite(i.command.value) then t.pos + 1 else s.lastWrite)
    && t1.pos == t.pos + if c then 1 else 0
  }

  lemma {:induction false} CallCounted(t: Tracking, i: Item)
    ensures CountedStep(t, Step(t, i), i)
  {
    hide CallStep, SessionOutputStep, CommandOutputStep, CallsTool, RunsCommand, RunsTest, RunsRead, Writes;
    match i {
      case ToolCall(_, _, _, _) => ToolCallCounted(t, i);
      case ToolOutput(id, o) => OutputCounted(t, id, o); NoCall(i);
      case _ => NoCall(i);
    }
  }

  lemma {:induction false} NoCall(i: Item)
    requires !i.ToolCall?
    ensures CallsTool(i) == i.OtherToolUse? && !RunsCommand(i) && !RunsTest(i) && !RunsRead(i) && !Writes(i)
  {
  }

  /** The fields that only calls change. */
  predicate SameCalls(s: Signals, r: Signals) {
    && r.toolCalls == s.toolCalls && r.testCalls == s.testCalls && r.readCalls == s.readCalls
    && r.writeCalls == s.writeCalls && r.commands == s.commands && r.lastWrite == s.lastWrite
  }

  lemma {:induction false} RecordedKeepsCalls(s: Signals, c: Command, text: OutputText, success: Option<bool>, pos: nat)
    ensures SameCalls(s, Recorded(s, c, text, success, pos))
  {
  }

  lemma {:induction false} OutputCounted(t: Tracking, id: string, o: Output)
    ensures SameCalls(t.signals, Step(t, ToolOutput(id, o)).signals) && Step(t, ToolOutput(id, o)).pos == t.pos
  {
    hide Recorded, SameCalls, TrimSpace;
    forall c, success, pos
      ensures SameCalls(t.signals, Recorded(t.signals, c, o.text, success, pos))
    {
      RecordedKeepsCalls(t.signals, c, o.text, success, pos);
    }
    assert forall outputs :: SameCalls(t.signals, t.signals.(outputs := outputs)) by {
      forall outputs
        ensures SameCalls(t.signals, t.signals.(outputs := outputs))
      {
        OutputsKeepCalls(t.signals, outputs);
      }
    }
    OutputsKeepCalls(t.signals, t.signals.outputs);
  }

  lemma {:induction false} OutputsKeepCalls(s: Signals, outputs: map<Command, OutputText>)
    ensures SameCalls(s, s.(outputs := outputs)) && SameCalls(s, s)
  {
  }

  lemma {:induction false} CalledCounts(s: Signals, c: Command, pos: nat)
    ensures var r := Called(s, c, pos);
            && r.toolCalls == s.toolCalls && r.commands == s.commands + [c]
            && r.testCalls == s.testCalls + (if c.IsTest() then 1 else 0)
            && r.readCalls == s.readCalls + (if c.IsReadOnly() && !c.IsTest() && !c.IsMutation() then 1 else 0)
            && r.writeCalls == s.writeCalls + (if IsWrite(c) then 1 else 0)
            && r.lastWrite == if IsWrite(c) then pos else s.lastWrite
  {
  }

  lemma {:induction false} ToolCallCounted(t: Tracking, i: Item)
    requires i.ToolCall?
    ensures CountedStep(t, Step(t, i), i)
  {
    hide IsMutationTool, Registered, CommandRun, WriteCounted;
    ExecMutatesNothing();
    RegisteredOnly(t, i.callID, i.tool, i.stdinSession);
    if i.tool != "" {
      var t1 := Registered(t, i.callID, i.tool, i.stdinSession);
      if RunsCommand(i) {
        CommandCounted(t1, i.callID, i.command.value);
      }
      WriteOnly(t1);
    }
  }

  lemma {:induction false} RegisteredOnly(t: Tracking, id: string, tool: string, session: string)
    ensures var r := Registered(t, id, tool, session);
            r == t.(signals := t.signals.(toolCalls := t.signals.toolCalls + 1),
                    callTool := if id == "" then t.callTool else t.callTool[id := tool],
                    callSession :=
                      if id == "" || !IsStdinTool(tool) then t.callSession else t.callSession[id := session])
  {
    hide IsStdinTool;
  }

  lemma {:induction false} WriteOnly(t: Tracking)
    ensures WriteCounted(t) == t.(signals := t.signals.(writeCalls := t.signals.writeCalls + 1))
  {
  }

  lemma {:induction false} CommandOnly(t: Tracking, id: string, c: Command)
    ensures CommandRun(t, id, c) ==
            t.(signals := Called(t.signals, c, t.pos + 1), pos := t.pos + 1,
               callCommand := if id == "" then t.callCommand else t.callCommand[id := c],
               callPos := if id == "" then t.callPos else t.callPos[id := t.pos + 1])
  {
    hide Called;
  }

  lemma {:induction false} CommandCounted(t: Tracking, id: string, c: Command)
    ensures var s, t1 := t.signals, CommandRun(t, id, c);
            && t1.pos == t.pos + 1 && t1.signals.toolCalls == s.toolCalls && t1.signals.commands == s.commands + [c]
            && t1.signals.testCalls == s.testCalls + (if c.IsTest() then 1 else 0)
            && t1.signals.readCalls == s.readCalls + (if c.IsReadOnly() && !c.IsTest() && !c.IsMutation() then 1 else 0)
            && t1.signals.writeCalls == s.writeCalls + (if IsWrite(c) then 1 else 0)
            && t1.signals.lastWrite == if IsWrite(c) then t.pos + 1 else s.lastWrite
  {
    hide Called, CommandRun;
    CommandOnly(t, id, c);
    CalledCounts(t.signals, c, t.pos + 1);
  }

  lemma {:induction false} TrackCounted(items: seq<Item>)
    ensures Counted(items, Track(items).signals) && Track(items).pos == |Runs(items)|
  {
    hide Step, CallsTool, RunsCommand, RunsTest, RunsRead, Writes, IsWrite;
    if items != [] {
      var front, last := items[..|items| - 1], items[|items| - 1];
      TrackCounted(front);
      TrackLast(items);
      CallCounted(Track(front), last);
      CountSnoc(items, CallsTool);
      CountSnoc(items, RunsTest);
      CountSnoc(items, RunsRead);
      CountSnoc(items, Writes);
      assert RunsCommand(last) ==> Runs(items)[..|Runs(items)| - 1] == Runs(front);
      assert !RunsCommand(last) ==> Runs(items) == Runs(front);
    }
  }

  /** The counters of every history are counts of its items, and the commands those that were run. */
  lemma {:induction false} CountsExactly(items: seq<Item>)
    ensures Counted(items, Collected(items))
  {
    hide Track, Deduped, LastRunning, Counted;
    TrackCounted(items);
    SameCounts(items, Track(items).signals, Collected(items));
  }

  lemma {:induction false} SameCounts(items: seq<Item>, s: Signals, r: Signals)
    requires Counted(items, s)
    requires r == s.(runningSession := r.runningSession, successful := r.successful, withResult := r.withResult,
                     failed := r.failed, empty := r.empty)
    ensures Counted(items, r)
  {
  }

  // Results.

  /** The last call of a tool with the id. */
  function CallWithId(items: seq<Item>, id: string): (r: Option<Item>)
    ensures r.Some? ==> r.value.ToolCall?
  {
    if items == [] then None
    else
      var last := items[|items| - 1];
      if last.ToolCall? && last.tool != "" && id != "" && last.callID == id then Some(last)
      else CallWithId(items[..|items| - 1], id)
  }

  /** Which run the id belongs to, counted from one, or zero. */
  function RunWithId(items: seq<Item>, id: string): (pos: nat)
    ensures pos <= |Runs(items)|
  {
    if items == [] then 0
    else if RunsCommand(items[|items| - 1]) && id != "" && items[|items| - 1].callID == id then |Runs(items)|
    else RunWithId(items[..|items| - 1], id)
  }

  /** The output is that of a call that asks for more output of a session. */
  predicate Asks(items: seq<Item>, id: string) {
    var call := CallWithId(items, id); call.Some? && call.value.tool == WRITE_STDIN
  }

  /** The output says that its command goes on in a session. */
  predicate GoesOn(items: seq<Item>, i: Item) {
    && i.ToolOutput? && !Asks(items, i.callID) && RunWithId(items, i.callID) > 0
    && i.output.session != "" && i.output.running
  }

  /** Which run goes on in the session, counted from one, or zero. */
  function RunInSession(items: seq<Item>, session: string): (pos: nat)
    ensures pos <= |Runs(items)|
  {
    if items == [] then 0
    else
      var front, last := items[..|items| - 1], items[|items| - 1];
      if GoesOn(front, last) && last.output.session == session then RunWithId(front, last.callID)
      else RunInSession(front, session)
  }

  /** What an output reports: the command, which run it was, its output and whether it succeeded, if that is said. */
  datatype Result = Result(command: Command, pos: nat, text: OutputText, success: Option<bool>)

  /** An asked-for output reports only an exit, on the command of its session; others report on their own run. */
  function ResultOf(items: seq<Item>, i: Item): (r: Option<Result>)
    ensures r.Some? ==> r.value.pos > 0
  {
    if !i.ToolOutput? then None
    else
      var o := i.output;
      if Asks(items, i.callID) then
        var pos := RunInSession(items, TrimSpace(CallWithId(items, i.callID).value.stdinSession));
        if pos == 0 || o.exit == None then None
        else Some(Result(Runs(items)[pos - 1], pos, o.text, if o.success.Some? then o.success else o.exit))
      else
        var pos := RunWithId(items, i.callID);
        if pos == 0 || (o.session != "" && o.running) then None
        else Some(Result(Runs(items)[pos - 1], pos, o.text, SuccessOf(Runs(items)[pos - 1], o)))
  }

  function Results(items: seq<Item>): (rs: seq<Result>)
    ensures forall r :: r in rs ==> r.pos > 0
  {
    if items == [] then []
    else
      var front, r := items[..|items| - 1], ResultOf(items[..|items| - 1], items[|items| - 1]);
      Results(front) + if r.Some? then [r.value] else []
  }

  // The tables hold what looking back finds.

  ghost predicate CallsKnown(items: seq<Item>, t: Tracking) {
    && (forall id :: id in t.callTool <==> CallWithId(items, id).Some?)
    && (forall id :: id in t.callTool ==> t.callTool[id] == CallWithId(items, id).value.tool)
    && forall id :: Asks(items, id) ==>
                      id in t.callSession && t.callSession[id] == CallWithId(items, id).value.stdinSession
  }

  predicate RunKnown(items: seq<Item>, t: Tracking, id: string) {
    var pos := RunWithId(items, id);
    && (id in t.callCommand <==> pos > 0) && (id in t.callPos <==> pos > 0)
    && (pos > 0 ==> t.callPos[id] == pos && t.callCommand[id] == Runs(items)[pos - 1])
  }

  ghost predicate RunsKnown(items: seq<Item>, t: Tracking) {
    t.pos == |Runs(items)| && forall id :: RunKnown(items, t, id)
  }

  predicate SessionKnown(items: seq<Item>, t: Tracking, x: string) {
    var pos := RunInSession(items, x);
    && (x in t.sessionCommand <==> pos > 0) && (x in t.sessionPos <==> pos > 0)
    && (pos > 0 ==> t.sessionPos[x] == pos && t.sessionCommand[x] == Runs(items)[pos - 1])
  }

  ghost predicate SessionsKnown(items: seq<Item>, t: Tracking) {
    forall x :: SessionKnown(items, t, x)
  }

  lemma {:induction false} CallsStep(items: seq<Item>, t: Tracking, i: Item)
    requires CallsKnown(items, t)
    ensures CallsKnown(items + [i], Step(t, i))
  {
    hide Step, CallWithId;
    var items1 := items + [i];
    CallsOnly(t, i);
    forall id
      ensures CallWithId(items1, id)
              == if i.ToolCall? && i.tool != "" && id != "" && i.callID == id then Some(i) else CallWithId(items, id)
    {
      CallSnoc(items, i, id);
    }
  }

  lemma {:induction false} CallSnoc(items: seq<Item>, i: Item, id: string)
    ensures CallWithId(items + [i], id)
            == if i.ToolCall? && i.tool != "" && id != "" && i.callID == id then Some(i) else CallWithId(items, id)
  {
    assert (items + [i])[..|items + [i]| - 1] == items;
  }

  /** Only the call of a tool changes the tables of calls. */
  lemma {:induction false} CallsOnly(t: Tracking, i: Item)
    ensures var t1 := Step(t, i);
            if i.ToolCall? && i.tool != "" && i.callID != "" then
              && t1.callTool == t.callTool[i.callID := i.tool]
              && t1.callSession == if IsStdinTool(i.tool) then t.callSession[i.callID := i.stdinSession]
                 else t.callSession
            else t1.callTool == t.callTool && t1.callSession == t.callSession
  {
    hide CallStep, SessionOutputStep, CommandOutputStep, IsStdinTool;
    if i.ToolCall? {
      ToolCallKnown(t, i);
    } else if i.ToolOutput? {
      OutputTables(t, i.callID, i.output);
    }
  }

  lemma {:induction false} ToolCallKnown(t: Tracking, i: Item)
    requires i.ToolCall?
    ensures var t1 := CallStep(t, i.callID, i.tool, i.command, i.stdinSession);
            && t1.callTool == (if i.tool == "" || i.callID == "" then t.callTool else t.callTool[i.callID := i.tool])
            && t1.callSession == if i.tool == "" || i.callID == "" || !IsStdinTool(i.tool) then t.callSession
               else t.callSession[i.callID := i.stdinSession]
  {
    hide IsMutationTool, IsExecTool, IsStdinTool, Registered, CommandRun, WriteCounted, Called;
    RegisteredOnly(t, i.callID, i.tool, i.stdinSession);
    var t1 := Registered(t, i.callID, i.tool, i.stdinSession);
    WriteOnly(t1);
    if i.command.Some? {
      CommandOnly(t1, i.callID, i.command.value);
    }
  }

  lemma {:induction false} RunsStep(items: seq<Item>, t: Tracking, i: Item)
    requires RunsKnown(items, t)
    ensures RunsKnown(items + [i], Step(t, i))
  {
    hide Step, RunsCommand, Runs, RunKnown;
    RunsOnly(t, i);
    RunsSnoc(items, i);
    forall id
      ensures RunKnown(items + [i], Step(t, i), id)
    {
      RunStep(items, t, i, id);
    }
  }

  lemma {:induction false} RunStep(items: seq<Item>, t: Tracking, i: Item, id: string)
    requires RunKnown(items, t, id) && t.pos == |Runs(items)|
    ensures RunKnown(items + [i], Step(t, i), id)
  {
    hide Step, RunsCommand, Runs, RunWithId;
    RunsOnly(t, i);
    RunsSnoc(items, i);
    RunSnoc(items, i, id);
  }

  predicate RunsFor(i: Item, id: string) {
    RunsCommand(i) && id != "" && i.callID == id
  }

  lemma {:induction false} RunsSnoc(items: seq<Item>, i: Item)
    ensures Runs(items + [i]) == if RunsCommand(i) then Runs(items) + [i.command.value] else Runs(items)
  {
    assert (items + [i])[..|items + [i]| - 1] == items;
  }

  lemma {:induction false} RunSnoc(items: seq<Item>, i: Item, id: string)
    ensures RunWithId(items + [i], id) == if RunsFor(i, id) then |Runs(items)| + 1 else RunWithId(items, id)
  {
    hide RunsCommand;
    assert (items + [i])[..|items + [i]| - 1] == items;
    RunsSnoc(items, i);
  }

  /** Only running a command changes the tables of runs. */
  lemma {:induction false} RunsOnly(t: Tracking, i: Item)
    ensures var t1 := Step(t, i);
            && t1.pos == t.pos + (if RunsCommand(i) then 1 else 0)
            && if RunsCommand(i) && i.callID != "" then
                 && t1.callCommand == t.callCommand[i.callID := i.command.value]
                 && t1.callPos == t.callPos[i.callID := t.pos + 1]
               else t1.callCommand == t.callCommand && t1.callPos == t.callPos
  {
    hide CallStep, SessionOutputStep, CommandOutputStep;
    if i.ToolCall? {
      ToolCallTables(t, i);
    } else if i.ToolOutput? {
      OutputTables(t, i.callID, i.output);
    }
  }

  /** What a call does to the tables of runs and sessions. */
  lemma {:induction false} ToolCallTables(t: Tracking, i: Item)
    requires i.ToolCall?
    ensures var t1 := CallStep(t, i.callID, i.tool, i.command, i.stdinSession);
            && t1.sessionCommand == t.sessionCommand && t1.sessionPos == t.sessionPos
            && t1.running == t.running && t1.runningOrder == t.runningOrder
            && t1.pos == t.pos + (if RunsCommand(i) then 1 else 0)
            && if RunsCommand(i) && i.callID != "" then
                 && t1.callCommand == t.callCommand[i.callID := i.command.value]
                 && t1.callPos == t.callPos[i.callID := t.pos + 1]
               else t1.callCommand == t.callCommand && t1.callPos == t.callPos
  {
    hide IsMutationTool, IsStdinTool, Registered, CommandRun, WriteCounted, Called;
    ExecMutatesNothing();
    RegisteredOnly(t, i.callID, i.tool, i.stdinSession);
    var t1 := Registered(t, i.callID, i.tool, i.stdinSession);
    WriteOnly(t1);
    if RunsCommand(i) {
      CommandOnly(t1, i.callID, i.command.value);
    }
  }

  lemma {:induction false} OutputTables(t: Tracking, id: string, o: Output)
    ensures var t1 := Step(t, ToolOutput(id, o));
            && t1.callCommand == t.callCommand && t1.callPos == t.callPos && t1.pos == t.pos
            && t1.callTool == t.callTool && t1.callSession == t.callSession
  {
    hide SessionOutputStep, CommandOutputStep, IsStdinTool;
    AnsweredTables(t, id, o);
    ReportedTables(t, id, o);
  }

  lemma {:induction false} AnsweredTables(t: Tracking, id: string, o: Output)
    ensures var r := SessionOutputStep(t, id, o); r == t.(signals := r.signals, running := r.running)
  {
    hide Recorded, TrimSpace;
  }

  lemma {:induction false} ReportedTables(t: Tracking, id: string, o: Output)
    ensures var r := CommandOutputStep(t, id, o);
            r == t.(signals := r.signals, sessionCommand := r.sessionCommand, sessionPos := r.sessionPos,
                    running := r.running, runningOrder := r.runningOrder)
  {
    hide Recorded;
  }

  lemma {:induction false} SessionsStep(items: seq<Item>, t: Tracking, i: Item)
    requires SessionsKnown(items, t) && CallsKnown(items, t) && RunsKnown(items, t)
    ensures SessionsKnown(items + [i], Step(t, i))
  {
    hide Step, CallsKnown, RunsKnown, SessionKnown;
    forall x
      ensures SessionKnown(items + [i], Step(t, i), x)
    {
      SessionStep(items, t, i, x);
    }
  }

  lemma {:induction false} SessionStep(items: seq<Item>, t: Tracking, i: Item, x: string)
    requires SessionsKnown(items, t) && CallsKnown(items, t) && RunsKnown(items, t)
    ensures SessionKnown(items + [i], Step(t, i), x)
  {
    hide Step, CallsKnown, RunsKnown, GoesOn, Runs, RunWithId, RunInSession;
    assert SessionKnown(items, t, x);
    SessionsOnly(items, t, i);
    RunsPrefix(items, i);
    SessionSnoc(items, i, x);
    if GoesOn(items, i) {
      GoingOn(items, i);
    }
  }

  predicate GoesOnIn(items: seq<Item>, i: Item, x: string) {
    i.ToolOutput? && i.output.session == x && GoesOn(items, i)
  }

  lemma {:induction false} SessionSnoc(items: seq<Item>, i: Item, x: string)
    ensures RunInSession(items + [i], x) == if GoesOnIn(items, i, x) then RunWithId(items, i.callID)
              else RunInSession(items, x)
  {
    hide GoesOn, RunWithId;
    var items1 := items + [i];
    assert items1[..|items1| - 1] == items && items1[|items1| - 1] == i;
    if GoesOn(items, i) {
      GoingOn(items, i);
    }
  }

  lemma {:induction false} GoingOn(items: seq<Item>, i: Item)
    requires GoesOn(items, i)
    ensures i.ToolOutput? && RunWithId(items, i.callID) > 0 && i.output.session != ""
  {
  }

  lemma {:induction false} RunsPrefix(items: seq<Item>, i: Item)
    ensures |Runs(items)| <= |Runs(items + [i])|
    ensures forall k :: 0 <= k < |Runs(items)| ==> Runs(items + [i])[k] == Runs(items)[k]
  {
    assert (items + [i])[..|items + [i]| - 1] == items;
  }

  /** Only an output that goes on changes the tables of sessions. */
  lemma {:induction false} SessionsOnly(items: seq<Item>, t: Tracking, i: Item)
    requires CallsKnown(items, t) && RunsKnown(items, t) && SessionsKnown(items, t)
    ensures var t1 := Step(t, i);
            if GoesOn(items, i) then
              && var pos := RunWithId(items, i.callID);
              && t1.sessionCommand == t.sessionCommand[i.output.session := Runs(items)[pos - 1]]
              && t1.sessionPos == t.sessionPos[i.output.session := pos]
            else t1.sessionCommand == t.sessionCommand && t1.sessionPos == t.sessionPos
  {
    hide CallStep, Recorded, TrimSpace, RunWithId, CallWithId;
    if i.ToolCall? {
      ToolCallTables(t, i);
    } else if i.ToolOutput? {
      AsksTable(items, t, i.callID);
      assert RunKnown(items, t, i.callID);
      assert SessionKnown(items, t, TrimSpace(HistorySignals.Find(t.callSession, i.callID, "")));
    }
  }

  lemma {:induction false} AsksTable(items: seq<Item>, t: Tracking, id: string)
    requires CallsKnown(items, t)
    ensures Asks(items, id) <==> IsStdinTool(HistorySignals.Find(t.callTool, id, ""))
    ensures Asks(items, id) ==>
              HistorySignals.Find(t.callSession, id, "") == CallWithId(items, id).value.stdinSession
  {
    hide CallWithId;
  }

  // What the results amount to.

  /** A test has passed only if that is said; another command unless it is said to have failed. */
  predicate Good(r: Result) {
    if r.command.IsTest() then r.success == Some(true) else r.success != Some(false)
  }

  predicate Bad(r: Result) {
    !Good(r)
  }

  predicate EmptyRead(r: Result) {
    Good(r) && r.command.IsReadOnly() && r.text.blank
  }

  function Commands(rs: seq<Result>): seq<Command> {
    seq(|rs|, i requires 0 <= i < |rs| => rs[i].command)
  }

  function CommandsWith(rs: seq<Result>, keep: Result -> bool): seq<Command> {
    if rs == [] then []
    else
      var last := rs[|rs| - 1];
      CommandsWith(rs[..|rs| - 1], keep) + if keep(last) then [last.command] else []
  }

  /** Which run was the last test that failed, or zero. */
  function LastFailed(rs: seq<Result>): nat {
    if rs == [] then 0
    else
      var last := rs[|rs| - 1];
      if Bad(last) && last.command.IsTest() then last.pos else LastFailed(rs[..|rs| - 1])
  }

  predicate ReadsPath(r: Result, p: Path) {
    r.command.IsReadOnly() && r.command.Paths() != [] && r.command.Paths()[0] == p
  }

  /** Which run was the last read of the file that has a result, or zero. */
  function LastRead(rs: seq<Result>, p: Path): nat {
    if rs == [] then 0
    else if ReadsPath(rs[|rs| - 1], p) then rs[|rs| - 1].pos
    else LastRead(rs[..|rs| - 1], p)
  }

  /** The last text that a run of the command printed: when it succeeded, or when it went on in a session. */
  function LastText(items: seq<Item>, c: Command): Option<OutputText> {
    if items == [] then None
    else
      var front, last := items[..|items| - 1], items[|items| - 1];
      if Prints(front, last, c) then Some(last.output.text) else LastText(front, c)
  }

  predicate Prints(items: seq<Item>, i: Item, c: Command) {
    && i.ToolOutput? && !i.output.text.blank
    && match ResultOf(items, i)
       case Some(r) => Good(r) && r.command == c
       case None => GoesOn(items, i) && Runs(items)[RunWithId(items, i.callID) - 1] == c
  }

  /** The session whose end the output reports. */
  function EndedSession(items: seq<Item>, i: Item): Option<string> {
    if i.ToolOutput? && Asks(items, i.callID) && ResultOf(items, i).Some? then
      Some(TrimSpace(CallWithId(items, i.callID).value.stdinSession))
    else None
  }

  /** The session started last that is not among those that end later. */
  function LatestRunning(items: seq<Item>, ended: set<string>): string {
    if items == [] then ""
    else
      var front, last := items[..|items| - 1], items[|items| - 1];
      if GoesOn(front, last) && last.output.session !in ended then last.output.session
      else
        match EndedSession(front, last)
        case Some(x) => LatestRunning(front, ended + {x})
        case None => LatestRunning(front, ended)
  }

  ghost predicate ResultsReflected(rs: seq<Result>, s: Signals) {
    && s.withResult == Commands(rs) && s.successful == CommandsWith(rs, Good) && s.failed == CommandsWith(rs, Bad)
    && s.empty == CommandsWith(rs, EmptyRead) && s.lastFailedTest == LastFailed(rs) && ReadsReflected(rs, s)
  }

  ghost predicate ReadsReflected(rs: seq<Result>, s: Signals) {
    forall p :: (p in s.readPos <==> LastRead(rs, p) > 0) && (p in s.readPos ==> s.readPos[p] == LastRead(rs, p))
  }

  ghost predicate TextsReflected(items: seq<Item>, s: Signals) {
    forall c :: (c in s.outputs <==> LastText(items, c).Some?)
                && (c in s.outputs ==> s.outputs[c] == LastText(items, c).value)
  }

  ghost predicate RunningReflected(items: seq<Item>, t: Tracking) {
    forall ended :: LastRunning(t.runningOrder, t.running - ended) == LatestRunning(items, ended)
  }

  lemma {:induction false} RecordedReflected(rs: seq<Result>, s: Signals, r: Result)
    requires ResultsReflected(rs, s) && r.pos > 0 && forall q :: q in rs ==> q.pos > 0
    ensures ResultsReflected(rs + [r], Recorded(s, r.command, r.text, r.success, r.pos))
  {
    hide LastRead, ReadsReflected;
    var rs1, s1 := rs + [r], Recorded(s, r.command, r.text, r.success, r.pos);
    assert rs1[..|rs1| - 1] == rs;
    assert Commands(rs1) == Commands(rs) + [r.command];
    RecordedReads(rs, s, r);
  }

  lemma {:induction false} RecordedReads(rs: seq<Result>, s: Signals, r: Result)
    requires ReadsReflected(rs, s) && r.pos > 0
    ensures ReadsReflected(rs + [r], Recorded(s, r.command, r.text, r.success, r.pos))
  {
    hide LastRead, Passed, Failed;
    var rs1 := rs + [r];
    assert rs1[..|rs1| - 1] == rs;
    forall p
      ensures LastRead(rs1, p) == if ReadsPath(r, p) then r.pos else LastRead(rs, p)
    {
      ReadSnoc(rs, r, p);
    }
    ResultKeepsReads(Noted(s, r.command, r.pos), r);
  }

  lemma {:induction false} ReadSnoc(rs: seq<Result>, r: Result, p: Path)
    ensures LastRead(rs + [r], p) == if ReadsPath(r, p) then r.pos else LastRead(rs, p)
  {
    assert (rs + [r])[..|rs + [r]| - 1] == rs;
  }

  lemma {:induction false} ResultKeepsReads(s: Signals, r: Result)
    ensures HistorySignals.Passed(s, r.command, r.text).readPos == s.readPos
    ensures HistorySignals.Failed(s, r.command, r.pos).readPos == s.readPos
  {
  }

  /** The result fields are the same. */
  predicate SameResults(s: Signals, s1: Signals) {
    && s1.withResult == s.withResult && s1.successful == s.successful && s1.failed == s.failed && s1.empty == s.empty
    && s1.lastFailedTest == s.lastFailedTest && s1.readPos == s.readPos
  }

  /** What an item does to the result fields. */
  lemma {:induction false} ResultsStep(items: seq<Item>, t: Tracking, i: Item)
    requires CallsKnown(items, t) && RunsKnown(items, t) && SessionsKnown(items, t)
    ensures var r, s1 := ResultOf(items, i), Step(t, i).signals;
            if r.Some? then s1 == Recorded(t.signals, r.value.command, r.value.text, r.value.success, r.value.pos)
            else
              && SameResults(t.signals, s1)
              && s1.outputs ==
                 if GoesOn(items, i) then
                   WithOutput(t.signals, Runs(items)[RunWithId(items, i.callID) - 1], i.output.text).outputs
                 else t.signals.outputs
  {
    hide CallStep, Recorded, TrimSpace, RunWithId, RunInSession, CallWithId, Runs;
    if i.ToolCall? {
      CallKeepsResults(t, i);
    } else if i.ToolOutput? {
      AsksTable(items, t, i.callID);
      assert RunKnown(items, t, i.callID);
      assert SessionKnown(items, t, TrimSpace(HistorySignals.Find(t.callSession, i.callID, "")));
    }
  }

  lemma {:induction false} CallKeepsResults(t: Tracking, i: Item)
    requires i.ToolCall?
    ensures var s1 := CallStep(t, i.callID, i.tool, i.command, i.stdinSession).signals;
            SameResults(t.signals, s1) && s1.outputs == t.signals.outputs
  {
    hide IsMutationTool, Registered, CommandRun, WriteCounted;
    RegisteredOnly(t, i.callID, i.tool, i.stdinSession);
    var t1 := Registered(t, i.callID, i.tool, i.stdinSession);
    WriteOnly(t1);
    if i.command.Some? {
      CommandKeepsResults(t1, i.callID, i.command.value);
    }
  }

  lemma {:induction false} CommandKeepsResults(t: Tracking, id: string, c: Command)
    ensures var s1 := CommandRun(t, id, c).signals; SameResults(t.signals, s1) && s1.outputs == t.signals.outputs
  {
    hide Called, CommandRun;
    CommandOnly(t, id, c);
    CalledExactly(t.signals, c, t.pos + 1);
  }

  lemma {:induction false} TextsStep(items: seq<Item>, t: Tracking, i: Item)
    requires CallsKnown(items, t) && RunsKnown(items, t) && SessionsKnown(items, t) && TextsReflected(items, t.signals)
    ensures TextsReflected(items + [i], Step(t, i).signals)
  {
    hide CallsKnown, RunsKnown, SessionsKnown, Step, ResultOf, RunWithId, Runs, LastText, GoesOn;
    var items1 := items + [i];
    ResultsStep(items, t, i);
    forall c
      ensures LastText(items1, c) == if Prints(items, i, c) then Some(i.output.text) else LastText(items, c)
    {
      TextSnoc(items, i, c);
    }
    if ResultOf(items, i).Some? {
      ResultIsOutput(items, i);
      RecordedText(t.signals, ResultOf(items, i).value);
    } else if GoesOn(items, i) {
      GoingOn(items, i);
    }
  }

  lemma {:induction false} TextSnoc(items: seq<Item>, i: Item, c: Command)
    ensures LastText(items + [i], c) == if Prints(items, i, c) then Some(i.output.text) else LastText(items, c)
  {
    hide ResultOf, GoesOn;
    assert (items + [i])[..|items + [i]| - 1] == items;
  }

  lemma {:induction false} ResultIsOutput(items: seq<Item>, i: Item)
    requires ResultOf(items, i).Some?
    ensures i.ToolOutput? && ResultOf(items, i).value.text == i.output.text && ResultOf(items, i).value.pos > 0
  {
  }

  lemma {:induction false} RecordedText(s: Signals, r: Result)
    ensures Recorded(s, r.command, r.text, r.success, r.pos).outputs
            == if Good(r) && !r.text.blank then s.outputs[r.command := r.text] else s.outputs
  {
  }

  lemma {:induction false} RunningStep(items: seq<Item>, t: Tracking, i: Item)
    requires CallsKnown(items, t) && RunsKnown(items, t) && SessionsKnown(items, t) && RunningReflected(items, t)
    ensures RunningReflected(items + [i], Step(t, i))
  {
    hide CallsKnown, RunsKnown, SessionsKnown, Step, ResultOf, RunWithId, Runs, GoesOn, CallWithId, LatestRunning,
      EndedSession;
    var items1, t1 := items + [i], Step(t, i);
    RunningOnly(items, t, i);
    forall ended
      ensures LastRunning(t1.runningOrder, t1.running - ended) == LatestRunning(items1, ended)
    {
      LatestSnoc(items, i, ended);
      var x := EndedSession(items, i);
      if GoesOn(items, i) {
        GoingOn(items, i);
        assert t1.runningOrder[..|t1.runningOrder| - 1] == t.runningOrder;
        if i.output.session in ended {
          assert t1.running - ended == t.running - ended;
        }
      } else if x.Some? {
        assert t1.running - ended == t.running - (ended + {x.value});
      }
    }
  }

  lemma {:induction false} LatestSnoc(items: seq<Item>, i: Item, ended: set<string>)
    ensures LatestRunning(items + [i], ended) ==
            if i.ToolOutput? && GoesOn(items, i) && i.output.session !in ended then i.output.session
            else if EndedSession(items, i).Some? then LatestRunning(items, ended + {EndedSession(items, i).value})
            else LatestRunning(items, ended)
  {
    hide EndedSession, GoesOn;
    assert (items + [i])[..|items + [i]| - 1] == items;
    if GoesOn(items, i) {
      GoingOn(items, i);
    }
    assert ended + {} == ended;
  }

  /** What an item does to the running sessions. */
  lemma {:induction false} RunningOnly(items: seq<Item>, t: Tracking, i: Item)
    requires CallsKnown(items, t) && RunsKnown(items, t) && SessionsKnown(items, t)
    ensures var t1, x := Step(t, i), EndedSession(items, i);
            if GoesOn(items, i) then
              && t1.running == t.running + {i.output.session} && t1.runningOrder == t.runningOrder + [i.output.session]
              && x == None
            else
              && t1.running == (if x.Some? then t.running - {x.value} else t.running)
              && t1.runningOrder == t.runningOrder
  {
    hide CallStep, Recorded, TrimSpace, RunWithId, RunInSession, CallWithId, Runs;
    if i.ToolCall? {
      ToolCallTables(t, i);
    } else if i.ToolOutput? {
      AsksTable(items, t, i.callID);
      assert RunKnown(items, t, i.callID);
      assert SessionKnown(items, t, TrimSpace(HistorySignals.Find(t.callSession, i.callID, "")));
    }
  }

  ghost predicate Reflected(items: seq<Item>, t: Tracking) {
    && CallsKnown(items, t) && RunsKnown(items, t) && SessionsKnown(items, t)
    && ResultsReflected(Results(items), t.signals) && TextsReflected(items, t.signals) && RunningReflected(items, t)
  }

  lemma {:induction false} NothingReflected()
    ensures Reflected([], NOTHING_TRACKED)
  {
  }

  lemma {:induction false} TrackReflected(items: seq<Item>)
    ensures Reflected(items, Track(items))
  {
    hide CallsKnown, RunsKnown, SessionsKnown, ResultsReflected, TextsReflected, RunningReflected, Step, ResultOf;
    if items == [] {
      NothingReflected();
    } else {
      var front, last := items[..|items| - 1], items[|items| - 1];
      var t := Track(front);
      TrackReflected(front);
      TrackLast(items);
      assert items == front + [last];
      CallsStep(front, t, last);
      RunsStep(front, t, last);
      SessionsStep(front, t, last);
      TextsStep(front, t, last);
      RunningStep(front, t, last);
      ResultsReflectedStep(front, t, last);
    }
  }

  lemma {:induction false} ResultsReflectedStep(items: seq<Item>, t: Tracking, i: Item)
    requires CallsKnown(items, t) && RunsKnown(items, t) && SessionsKnown(items, t)
    requires ResultsReflected(Results(items), t.signals)
    ensures ResultsReflected(Results(items + [i]), Step(t, i).signals)
  {
    hide CallsKnown, RunsKnown, SessionsKnown, Step, ResultOf, RunWithId, Runs, Recorded, GoesOn;
    var items1 := items + [i];
    assert items1[..|items1| - 1] == items;
    ResultsStep(items, t, i);
    if ResultOf(items, i).Some? {
      ResultIsOutput(items, i);
      RecordedReflected(Results(items), t.signals, ResultOf(items, i).value);
    } else {
      assert Results(items1) == Results(items);
    }
  }

  /**
   For every history: the commands with a result are exactly those that some output reports on, the
   successful, failed and empty ones those with such a report, each once in the order of the reports;
   the last failed test, the last reads, the last texts and the running session are those found by
   looking back.
   */
  lemma {:induction false} ResultsExactly(items: seq<Item>)
    ensures var s, rs := Collected(items), Results(items);
            && s.withResult == Deduped(Commands(rs)) && s.successful == Deduped(CommandsWith(rs, Good))
            && s.failed == Deduped(CommandsWith(rs, Bad)) && s.empty == Deduped(CommandsWith(rs, EmptyRead))
            && s.lastFailedTest == LastFailed(rs)
            && ReadsReflected(rs, s) && TextsReflected(items, s) && s.runningSession == LatestRunning(items, {})
  {
    hide Track, Deduped, LastRunning, LatestRunning, CallsKnown, RunsKnown, SessionsKnown, LastText, LastRead;
    TrackReflected(items);
    var t := Track(items);
    assert t.running - {} == t.running;
  }
}
