/** What the signals of every history satisfy. */
module SignalsInvariant {
  import opened Text
  import opened PolicyModel
  import opened HistorySignals

  /** Position `pos` (counted from one) is that of a run of the command. */
  predicate RanAt(commands: seq<Command>, c: Command, pos: nat) {
    0 < pos <= |commands| && commands[pos - 1] == c
  }

  /** Results belong to commands that were run. */
  ghost predicate ResultsSound(s: Signals) {
    && (forall c :: c in s.withResult <==> c in s.successful || c in s.failed)
    && (forall c :: c in s.withResult ==> c in s.commands)
    && (forall c :: c in s.empty ==> c in s.successful && c.IsReadOnly())
    && (forall c :: c in s.outputs ==> c in s.commands && !s.outputs[c].blank)
  }

  predicate CountsSound(s: Signals) {
    s.readCalls + s.testCalls <= |s.commands| <= s.toolCalls && s.readCalls + s.testCalls + s.writeCalls <= s.toolCalls
  }

  /** A call more than those that are counted as a read, a test or a write, or as a command. */
  predicate CallOpen(s: Signals) {
    |s.commands| < s.toolCalls && s.readCalls + s.testCalls + s.writeCalls < s.toolCalls
  }

  ghost predicate Sound(s: Signals) {
    ResultsSound(s) && PositionsSound(s) && CountsSound(s)
  }

  predicate IsWrite(c: Command) {
    c.IsMutation() && !c.IsScaffold() && !c.IsTest()
  }

  predicate ReadsFirst(c: Command, p: Path) {
    c.IsReadOnly() && c.Paths() != [] && c.Paths()[0] == p
  }

  /** The last write is a mutation, the last failed test a failed test, a read position a read of the file. */
  ghost predicate PositionsSound(s: Signals) {
    && s.lastWrite <= |s.commands|
    && (s.lastWrite > 0 ==> s.writeCalls > 0 && IsWrite(s.commands[s.lastWrite - 1]))
    && s.lastFailedTest <= |s.commands|
    && (s.lastFailedTest > 0 ==> var c := s.commands[s.lastFailedTest - 1]; c.IsTest() && c in s.failed)
    && forall p :: p in s.readPos ==> 0 < s.readPos[p] <= |s.commands| && ReadsFirst(s.commands[s.readPos[p] - 1], p)
  }

  ghost predicate TrackingSound(t: Tracking) {
    && Sound(t.signals) && t.pos == |t.signals.commands|
    && t.callCommand.Keys == t.callPos.Keys
    && (forall id :: id in t.callCommand ==> RanAt(t.signals.commands, t.callCommand[id], t.callPos[id]))
    && t.sessionCommand.Keys == t.sessionPos.Keys
    && (forall id :: id in t.sessionCommand ==> RanAt(t.signals.commands, t.sessionCommand[id], t.sessionPos[id]))
  }

  lemma {:induction false} RecordedSound(s: Signals, c: Command, text: OutputText, success: Option<bool>, pos: nat)
    requires Sound(s) && RanAt(s.commands, c, pos)
    ensures Sound(Recorded(s, c, text, success, pos))
  {
    hide ResultsSound, PositionsSound;
    assert c in s.commands;
    RecordedResults(s, c, text, success, pos);
    RecordedPositions(s, c, text, success, pos);
  }

  lemma {:induction false} RecordedResults(s: Signals, c: Command, text: OutputText, success: Option<bool>, pos: nat)
    requires ResultsSound(s) && c in s.commands
    ensures ResultsSound(Recorded(s, c, text, success, pos))
  {
  }

  lemma {:induction false} RecordedPositions(s: Signals, c: Command, text: OutputText, success: Option<bool>, pos: nat)
    requires PositionsSound(s) && RanAt(s.commands, c, pos)
    ensures PositionsSound(Recorded(s, c, text, success, pos))
  {
    hide Recorded, ReadsFirst, IsWrite;
    RecordedEffect(s, c, text, success, pos);
    RecordedReads(s, c, text, success, pos);
  }

  lemma {:induction false} RecordedReads(s: Signals, c: Command, text: OutputText, success: Option<bool>, pos: nat)
    requires PositionsSound(s) && RanAt(s.commands, c, pos)
    ensures var r := Recorded(s, c, text, success, pos);
            forall p :: p in r.readPos ==>
                          0 < r.readPos[p] <= |s.commands| && ReadsFirst(s.commands[r.readPos[p] - 1], p)
  {
    hide Recorded, ReadsFirst, IsWrite;
    RecordedEffect(s, c, text, success, pos);
  }

  lemma {:induction false} RecordedEffect(s: Signals, c: Command, text: OutputText, success: Option<bool>, pos: nat)
    requires 0 < pos
    ensures var r := Recorded(s, c, text, success, pos);
            && r.commands == s.commands && r.lastWrite == s.lastWrite && r.writeCalls == s.writeCalls
            && (forall d :: d in s.failed ==> d in r.failed)
            && (r.lastFailedTest == s.lastFailedTest || (c.IsTest() && r.lastFailedTest == pos && c in r.failed))
            && (r.readPos == s.readPos || (ReadsFirst(c, c.Paths()[0]) && r.readPos == s.readPos[c.Paths()[0] := pos]))
  {
  }

  lemma {:induction false} CalledSound(s: Signals, c: Command)
    requires Sound(s) && CallOpen(s)
    ensures Sound(Called(s, c, |s.commands| + 1))
  {
    hide PositionsSound;
    CalledPositions(s, c);
  }

  lemma {:induction false} CalledPositions(s: Signals, c: Command)
    requires PositionsSound(s)
    ensures PositionsSound(Called(s, c, |s.commands| + 1))
  {
    hide Called, ReadsFirst, IsWrite;
    var r := Called(s, c, |s.commands| + 1);
    CalledEffect(s, c, |s.commands| + 1);
    assert forall k :: 0 <= k < |s.commands| ==> r.commands[k] == s.commands[k];
    assert r.commands[|s.commands|] == c;
  }

  lemma {:induction false} CalledEffect(s: Signals, c: Command, pos: nat)
    ensures var r := Called(s, c, pos);
            && r.commands == s.commands + [c] && r.failed == s.failed && r.readPos == s.readPos
            && r.lastFailedTest == s.lastFailedTest
            && ((r.lastWrite == s.lastWrite && r.writeCalls == s.writeCalls)
                || (r.lastWrite == pos && r.writeCalls > 0 && IsWrite(c)))
  {
  }

  lemma {:induction false} CallStepSound(t: Tracking, callID: string, tool: string, command: Option<Command>,
                                         session: string)
    requires TrackingSound(t)
    ensures TrackingSound(CallStep(t, callID, tool, command, session))
  {
    hide TrackingSound, IsMutationTool, IsExecTool, Registered, CommandRun, WriteCounted;
    var t1 := Registered(t, callID, tool, session);
    RegisteredSound(t, callID, tool, session);
    if IsExecTool(tool) && command.Some? && !IsMutationTool(tool) {
      CommandRunSound(t1, callID, command.value);
    }
  }

  lemma {:induction false} RegisteredSound(t: Tracking, callID: string, tool: string, session: string)
    requires TrackingSound(t)
    ensures var t1 := Registered(t, callID, tool, session);
            TrackingSound(t1) && TrackingSound(WriteCounted(t1)) && CallOpen(t1.signals)
  {
    hide Sound, IsStdinTool, RanAt;
    CountSound(t.signals);
  }

  lemma {:induction false} CommandRunSound(t: Tracking, callID: string, c: Command)
    requires TrackingSound(t) && CallOpen(t.signals)
    ensures TrackingSound(CommandRun(t, callID, c))
  {
    hide Sound, Called, RanAt, CallOpen;
    CalledSound(t.signals, c);
    CalledEffect(t.signals, c, t.pos + 1);
    StillRan(t.signals.commands, c, t.callCommand, t.callPos);
    StillRan(t.signals.commands, c, t.sessionCommand, t.sessionPos);
  }

  lemma {:induction false} StillRan(commands: seq<Command>, c: Command, command: map<string, Command>,
                                    pos: map<string, nat>)
    requires command.Keys == pos.Keys && forall id :: id in command ==> RanAt(commands, command[id], pos[id])
    ensures forall id :: id in command ==> RanAt(commands + [c], command[id], pos[id])
    ensures RanAt(commands + [c], c, |commands| + 1)
  {
  }

  /** Another tool call, or another write call, does not touch the commands. */
  lemma {:induction false} CountSound(s: Signals)
    requires Sound(s)
    ensures var s1 := s.(toolCalls := s.toolCalls + 1);
            Sound(s1) && Sound(s1.(writeCalls := s1.writeCalls + 1)) && CallOpen(s1)
  {
    hide ResultsSound, PositionsSound;
    var s1 := s.(toolCalls := s.toolCalls + 1);
    SameSound(s, s1);
    SameSound(s, s1.(writeCalls := s1.writeCalls + 1));
  }

  lemma {:induction false} SameSound(s: Signals, r: Signals)
    requires Sound(s) && CountsSound(r)
    requires r.commands == s.commands && r.withResult == s.withResult && r.successful == s.successful
             && r.failed == s.failed
    requires r.empty == s.empty && r.outputs == s.outputs && r.lastWrite == s.lastWrite
             && r.lastFailedTest == s.lastFailedTest
    requires r.readPos == s.readPos && s.writeCalls <= r.writeCalls
    ensures Sound(r)
  {
    hide ReadsFirst, IsWrite;
  }

  lemma {:induction false} SamePositions(s: Signals, r: Signals)
    requires PositionsSound(s)
    requires r.commands == s.commands && r.lastWrite == s.lastWrite && r.lastFailedTest == s.lastFailedTest
    requires r.readPos == s.readPos && s.writeCalls <= r.writeCalls && forall c :: c in s.failed ==> c in r.failed
    ensures PositionsSound(r)
  {
    hide ReadsFirst, IsWrite;
  }

  lemma {:induction false} SessionOutputSound(t: Tracking, callID: string, o: Output)
    requires TrackingSound(t)
    ensures TrackingSound(SessionOutputStep(t, callID, o))
  {
    hide Sound, Recorded, TrimSpace, RanAt;
    var session := TrimSpace(Find(t.callSession, callID, ""));
    if session in t.sessionCommand && o.exit.Some? {
      var success := if o.success == None then o.exit else o.success;
      RecordedSound(t.signals, t.sessionCommand[session], o.text, success, t.sessionPos[session]);
      RecordedCommands(t.signals, t.sessionCommand[session], o.text, success, t.sessionPos[session]);
    }
  }

  lemma {:induction false} CommandOutputSound(t: Tracking, callID: string, o: Output)
    requires TrackingSound(t)
    ensures TrackingSound(CommandOutputStep(t, callID, o))
  {
    hide Sound, Recorded, RanAt;
    if callID in t.callCommand {
      var c := t.callCommand[callID];
      var success := if o.success != None then o.success else if c.IsTest() then o.inferredTest else o.inferredOther;
      RecordedSound(t.signals, c, o.text, success, t.callPos[callID]);
      RecordedCommands(t.signals, c, o.text, success, t.callPos[callID]);
      RanIn(t.signals.commands, c, t.callPos[callID]);
      OutputKept(t.signals, c, o.text);
    }
  }

  lemma {:induction false} RanIn(commands: seq<Command>, c: Command, pos: nat)
    requires RanAt(commands, c, pos)
    ensures c in commands
  {
  }

  lemma {:induction false} RecordedCommands(s: Signals, c: Command, text: OutputText, success: Option<bool>, pos: nat)
    ensures Recorded(s, c, text, success, pos).commands == s.commands
  {
  }

  lemma {:induction false} OutputKept(s: Signals, c: Command, text: OutputText)
    requires Sound(s) && c in s.commands
    ensures Sound(s.(outputs := if text.blank then s.outputs else s.outputs[c := text]))
  {
    hide PositionsSound, CountsSound;
    var r := s.(outputs := if text.blank then s.outputs else s.outputs[c := text]);
    SamePositions(s, r);
    SameCounts(s, r);
  }

  lemma {:induction false} SameCounts(s: Signals, r: Signals)
    requires CountsSound(s) && r == s.(outputs := r.outputs)
    ensures CountsSound(r)
  {
  }

  lemma {:induction false} TrackSound(items: seq<Item>)
    ensures TrackingSound(Track(items))
  {
    hide CallStep, SessionOutputStep, CommandOutputStep, Sound;
    if items == [] {
      NothingSound();
    } else {
      var t := Track(items[..|items| - 1]);
      TrackSound(items[..|items| - 1]);
      match items[|items| - 1]
      case ToolCall(callID, tool, command, session) => CallStepSound(t, callID, tool, command, session);
      case OtherToolUse => CountSound(t.signals);
      case ToolOutput(callID, o) =>
        SessionOutputSound(t, callID, o);
        CommandOutputSound(t, callID, o);
      case Skipped =>
    }
  }

  lemma {:induction false} NothingSound()
    ensures Sound(NO_SIGNALS)
  {
  }

  /** The signals of every history are sound. */
  lemma {:induction false} CollectedSound(items: seq<Item>)
    ensures Sound(Collected(items))
  {
    TrackSound(items);
    var t := Track(items).signals;
    var s := Collected(items);
    FinishedFields(items);
    hide Track, Collected;
    DedupedSame(t.withResult);
    DedupedSame(t.successful);
    DedupedSame(t.failed);
    DedupedSame(t.empty);
    hide Deduped;
    SamePositions(t, s);
    hide PositionsSound;
  }

  lemma {:induction false} FinishedFields(items: seq<Item>)
    ensures var t, s := Track(items).signals, Collected(items);
            && s.(runningSession := t.runningSession, withResult := t.withResult, successful := t.successful,
                  failed := t.failed, empty := t.empty) == t
            && s.withResult == Deduped(t.withResult) && s.successful == Deduped(t.successful)
            && s.failed == Deduped(t.failed) && s.empty == Deduped(t.empty)
  {
  }
}
