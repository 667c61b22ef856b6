/** Runs in which the client always executes the next command. */
module PolicyRuns {
  import opened Text
  import opened PolicyModel
  import opened HistorySignals
  import opened SignalsInvariant
  import opened ExecutionPolicy

  /** What the output says about the success of the command. */
  function SuccessOf(c: Command, o: Output): Option<bool> {
    if o.success != None then o.success else if c.IsTest() then o.inferredTest else o.inferredOther
  }

  /** Whether the command counts as successful. */
  predicate Succeeds(c: Command, o: Output) {
    if c.IsTest() then SuccessOf(c, o) == Some(true) else SuccessOf(c, o) != Some(false)
  }

  /** The command has ended; it does not go on in a session. */
  predicate Ended(o: Output) {
    o.session == "" || !o.running
  }

  function CallItem(id: string, c: Command): Item {
    ToolCall(id, EXEC_COMMAND, Some(c), "")
  }

  function TurnItems(id: string, c: Command, o: Output): seq<Item> {
    [CallItem(id, c), ToolOutput(id, o)]
  }

  /** `after` has the elements of `before` and, under the condition, one more. */
  ghost predicate Gained<T(!new)>(before: seq<T>, after: seq<T>, condition: bool, x: T) {
    forall y :: y in after <==> y in before || (condition && y == x)
  }

  /** The signals `r` after a command has run to its end in a history with the signals `s`. */
  ghost predicate AfterRun(s: Signals, r: Signals, c: Command, o: Output) {
    && var ok, pos := Succeeds(c, o), |s.commands| + 1;
    && r.commands == s.commands + [c] && r.toolCalls == s.toolCalls + 1
    && Gained(s.successful, r.successful, ok, c) && Gained(s.failed, r.failed, !ok, c)
    && Gained(s.withResult, r.withResult, true, c)
    && Gained(s.empty, r.empty, ok && c.IsReadOnly() && o.text.blank, c)
    && r.outputs == (if ok && !o.text.blank then s.outputs[c := o.text] else s.outputs)
    && r.readPos == (if c.IsReadOnly() && c.Paths() != [] then s.readPos[c.Paths()[0] := pos] else s.readPos)
    && r.lastFailedTest == (if !ok && c.IsTest() then pos else s.lastFailedTest)
    && r.lastWrite == (if IsWrite(c) then pos else s.lastWrite)
    && r.writeCalls == s.writeCalls + (if IsWrite(c) then 1 else 0)
  }

  /** One turn adds one command with its result. */
  lemma {:induction false} TurnTracked(items: seq<Item>, id: string, c: Command, o: Output)
    requires id != "" && Ended(o)
    ensures var t, t1 := Track(items), Track(items + TurnItems(id, c, o));
            && t1.signals == Recorded(Called(t.signals.(toolCalls := t.signals.toolCalls + 1), c, t.pos + 1),
                                      c, o.text, SuccessOf(c, o), t.pos + 1)
            && t1.running == t.running && t1.runningOrder == t.runningOrder
  {
    hide Recorded, Called, Track, Step, CallItem;
    var items1 := items + [CallItem(id, c)];
    var items2 := items1 + [ToolOutput(id, o)];
    assert items + TurnItems(id, c, o) == items2;
    assert items1[..|items1| - 1] == items && items2[..|items2| - 1] == items1;
    TrackLast(items1);
    TrackLast(items2);
    ExecCallStep(Track(items), id, c);
    ExecOutputStep(Track(items1), id, o);
  }

  lemma {:induction false} TrackLast(items: seq<Item>)
    requires items != []
    ensures Track(items) == Step(Track(items[..|items| - 1]), items[|items| - 1])
  {
  }

  lemma {:induction false} ExecCallStep(t: Tracking, id: string, c: Command)
    requires id != ""
    ensures var t1 := Step(t, CallItem(id, c));
            && t1.signals == Called(t.signals.(toolCalls := t.signals.toolCalls + 1), c, t.pos + 1)
            && id in t1.callTool && IsExecTool(t1.callTool[id]) && id in t1.callCommand && t1.callCommand[id] == c
            && id in t1.callPos && t1.callPos[id] == t.pos + 1
            && t1.running == t.running && t1.runningOrder == t.runningOrder
  {
    hide Called, IsMutationTool, IsStdinTool;
    ExecMutatesNothing();
  }

  lemma {:induction false} ExecMutatesNothing()
    ensures !IsMutationTool(EXEC_COMMAND)
  {
    hide TrimSpace, Lower;
    assert Trimmed(EXEC_COMMAND) && TrimSpace(EXEC_COMMAND) == EXEC_COMMAND by {
      ExecTrimmed();
    }
    var lower := Lower(EXEC_COMMAND);
    assert |lower| == 12 && lower[0] == 'e' && lower[1] == 'x' by {
      ExecLower();
    }
  }

  lemma {:induction false} ExecTrimmed()
    ensures TrimSpace(EXEC_COMMAND) == EXEC_COMMAND
  {
    hide TrimSpace;
    assert Trimmed(EXEC_COMMAND);
  }

  lemma {:induction false} ExecLower()
    ensures |Lower(EXEC_COMMAND)| == 12 && Lower(EXEC_COMMAND)[0] == 'e' && Lower(EXEC_COMMAND)[1] == 'x'
  {
  }

  lemma {:induction false} ExecOutputStep(t: Tracking, id: string, o: Output)
    requires id in t.callTool && IsExecTool(t.callTool[id]) && id in t.callCommand && id in t.callPos && Ended(o)
    ensures var t1 := Step(t, ToolOutput(id, o));
            && t1.signals == Recorded(t.signals, t.callCommand[id], o.text, SuccessOf(t.callCommand[id], o),
               t.callPos[id])
            && t1.running == t.running && t1.runningOrder == t.runningOrder
  {
  }

  /** The collected signals before and after a turn. */
  lemma {:induction false} TurnCollected(items: seq<Item>, id: string, c: Command, o: Output)
    requires id != "" && Ended(o)
    ensures AfterRun(Collected(items), Collected(items + TurnItems(id, c, o)), c, o)
    ensures Collected(items + TurnItems(id, c, o)).runningSession == Collected(items).runningSession
  {
    hide Recorded, Called, Track, AfterRun, Collected, TurnItems;
    var items1 := items + TurnItems(id, c, o);
    var t, t1 := Track(items).signals, Track(items1).signals;
    TurnTracked(items, id, c, o);
    TrackSound(items);
    RunRecorded(t, c, o);
    DedupedRun(items, items1, c, o);
  }

  lemma {:induction false} RunRecorded(s: Signals, c: Command, o: Output)
    ensures AfterRun(s, Recorded(Called(s.(toolCalls := s.toolCalls + 1), c, |s.commands| + 1), c, o.text,
            SuccessOf(c, o), |s.commands| + 1), c, o)
  {
    hide Recorded, Called, Succeeds, IsWrite, Gained;
    var s1 := s.(toolCalls := s.toolCalls + 1);
    var s2 := Called(s1, c, |s.commands| + 1);
    CalledExactly(s1, c, |s.commands| + 1);
    RecordedExactly(s2, c, o, |s.commands| + 1);
  }

  lemma {:induction false} CalledExactly(s: Signals, c: Command, pos: nat)
    ensures var r := Called(s, c, pos);
            r == s.(commands := s.commands + [c], testCalls := r.testCalls, readCalls := r.readCalls,
                    lastWrite := if IsWrite(c) then pos else s.lastWrite,
                    writeCalls := s.writeCalls + if IsWrite(c) then 1 else 0)
  {
  }

  lemma {:induction false} RecordedExactly(s: Signals, c: Command, o: Output, pos: nat)
    requires pos > 0
    ensures var r, ok := Recorded(s, c, o.text, SuccessOf(c, o), pos), Succeeds(c, o);
            && Gained(s.successful, r.successful, ok, c) && Gained(s.failed, r.failed, !ok, c)
            && Gained(s.withResult, r.withResult, true, c)
            && Gained(s.empty, r.empty, ok && c.IsReadOnly() && o.text.blank, c)
            && r == s.(successful := r.successful, failed := r.failed, withResult := r.withResult, empty := r.empty,
                       outputs := if ok && !o.text.blank then s.outputs[c := o.text] else s.outputs,
                       readPos :=
                         if c.IsReadOnly() && c.Paths() != [] then s.readPos[c.Paths()[0] := pos] else s.readPos,
                       lastFailedTest := if !ok && c.IsTest() then pos else s.lastFailedTest)
  {
  }

  lemma {:induction false} DedupedGained<T(!new)>(before: seq<T>, after: seq<T>, condition: bool, x: T)
    requires Gained(before, after, condition, x)
    ensures Gained(Deduped(before), Deduped(after), condition, x)
  {
    hide Deduped;
    DedupedSame(before);
    DedupedSame(after);
  }

  lemma {:induction false} DedupedRun(items: seq<Item>, items1: seq<Item>, c: Command, o: Output)
    requires AfterRun(Track(items).signals, Track(items1).signals, c, o)
    requires Track(items).running == Track(items1).running && Track(items).runningOrder == Track(items1).runningOrder
    ensures AfterRun(Collected(items), Collected(items1), c, o)
    ensures Collected(items).runningSession == Collected(items1).runningSession
  {
    hide Track, Collected, Deduped, Succeeds, IsWrite, Gained;
    var t, t1 := Track(items).signals, Track(items1).signals;
    FinishedFields(items);
    FinishedFields(items1);
    SameSession(items, items1);
    var ok := Succeeds(c, o);
    DedupedGained(t.successful, t1.successful, ok, c);
    DedupedGained(t.failed, t1.failed, !ok, c);
    DedupedGained(t.withResult, t1.withResult, true, c);
    DedupedGained(t.empty, t1.empty, ok && c.IsReadOnly() && o.text.blank, c);
  }

  lemma {:induction false} SameSession(items: seq<Item>, items1: seq<Item>)
    requires Track(items).running == Track(items1).running && Track(items).runningOrder == Track(items1).runningOrder
    ensures Collected(items).runningSession == Collected(items1).runningSession
  {
    hide Track, Deduped, LastRunning;
  }

  /** The history at the start, the ids the client gives its calls, and the outputs of the commands it runs. */
  datatype ClientRun = ClientRun(task: Task, setting: Setting, start: seq<Item>, ids: nat -> string,
      outs: nat -> Output)

  /** The history after `n` turns in which the client ran the next command whenever there was one. */
  ghost function RunHistory(run: ClientRun, n: nat): seq<Item> {
    if n == 0 then run.start
    else
      var h := RunHistory(run, n - 1);
      var next := Build(run.task, Collected(h), run.setting).nextCommand;
      if next == None then h else h + TurnItems(run.ids(n - 1), next.value, run.outs(n - 1))
  }

  ghost function RunSignals(run: ClientRun, n: nat): Signals {
    Collected(RunHistory(run, n))
  }

  ghost function RunPolicy(run: ClientRun, n: nat): Policy {
    Build(run.task, RunSignals(run, n), run.setting)
  }

  lemma {:induction false} RunStarts(run: ClientRun)
    requires run.start == []
    ensures RunSignals(run, 0) == NO_SIGNALS
  {
  }

  /** Every call has an id, and every command ends, well or not. */
  ghost predicate CommandsEnd(run: ClientRun) {
    forall n :: run.ids(n) != "" && Ended(run.outs(n))
  }

  /** Each turn either leaves the signals as they are or runs the next command. */
  lemma {:induction false} RunTurn(run: ClientRun, n: nat)
    requires CommandsEnd(run)
    ensures var s, r, next := RunSignals(run, n), RunSignals(run, n + 1), RunPolicy(run, n).nextCommand;
            && Sound(s) && Sound(r)
            && r.runningSession == s.runningSession
            && if next == None then r == s else AfterRun(s, r, next.value, run.outs(n))
  {
    hide Build, Collected, AfterRun, Sound, TurnItems;
    var h := RunHistory(run, n);
    CollectedSound(h);
    CollectedSound(RunHistory(run, n + 1));
    var next := Build(run.task, Collected(h), run.setting).nextCommand;
    if next.Some? {
      TurnCollected(h, run.ids(n), next.value, run.outs(n));
    }
  }

  /** Once nothing is proposed the signals stay as they are. */
  lemma {:induction false} IdleFrom(run: ClientRun, n: nat, m: nat)
    requires CommandsEnd(run) && RunPolicy(run, n).nextCommand == None && n <= m
    ensures RunSignals(run, m) == RunSignals(run, n)
  {
    hide RunSignals, Build, AfterRun, Sound, CommandsEnd;
    if n < m {
      IdleFrom(run, n, m - 1);
      RunTurn(run, m - 1);
    }
  }

  lemma {:induction false} RunAppends(s: Signals, r: Signals, c: Command, o: Output)
    requires AfterRun(s, r, c, o)
    ensures r.commands == s.commands + [c]
  {
  }

  /** The output of a command that ends well and prints nothing. */
  const DONE_WELL := Output(NO_TEXT, Some(true), None, None, "", false, None)

  /** The run of a client all of whose commands end well. */
  function QuietRun(task: Task, e: Setting, start: seq<Item>): ClientRun {
    ClientRun(task, e, start, n => "call", n => DONE_WELL)
  }

  /** The output of a command that reports no success: a test is taken to have failed, anything else not. */
  const DONE_FAILING := Output(NO_TEXT, None, Some(false), None, "", false, None)

  /** The run of a client all of whose tests fail. */
  function FailingRun(task: Task, e: Setting, start: seq<Item>): ClientRun {
    ClientRun(task, e, start, n => "call", n => DONE_FAILING)
  }

  /** Something has to be written, with no explicit tool and no seed command. */
  predicate WriteTask(task: Task, e: Setting) {
    task.usesTools && NeedsWrite(task) && e.requiredTool == "" && e.seed == None
  }

  // Counting.

  function Count<T>(xs: seq<T>, p: T -> bool): (n: nat)
    ensures n <= |xs|
  {
    if xs == [] then 0 else (if p(xs[0]) then 1 else 0) + Count(xs[1..], p)
  }

  lemma {:induction false} CountShrinks<T(!new)>(xs: seq<T>, p: T -> bool, q: T -> bool)
    requires forall x :: x in xs && q(x) ==> p(x)
    ensures Count(xs, q) <= Count(xs, p)
    ensures (exists x :: x in xs && p(x) && !q(x)) ==> Count(xs, q) < Count(xs, p)
  {
    if xs != [] {
      CountShrinks(xs[1..], p, q);
      assert xs[0] in xs;
    }
  }
}
