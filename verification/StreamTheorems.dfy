/**
 The lifecycle theorem: every complete stream runs through one lifecycle automaton, and all its
 text comes from a single upstream attempt.
 */
module StreamTheorems {
  import opened Text
  import opened ThinkingFilter
  import opened StreamLifecycle

  /** The protocol a Responses client expects, as an automaton over the events it is sent. */
  datatype Phase =
    | Fresh
    | Streaming(added: seq<Item>, done: seq<Item>, partOpen: bool, deltas: string, textDone: Option<string>)
    | Finished(output: seq<Item>, streamed: string)
    | Broken

  /** A done item matches its announcement: the same call, or the message with its final text. */
  predicate Closes(added: Item, item: Item, textDone: Option<string>) {
    match added
    case ToolCall(_) => item == added
    case Message(_) => item.Message? && textDone == Some(item.text)
  }

  function Next(p: Phase, e: ClientEvent): Phase {
    match (p, e)
    case (Fresh, Created) => Streaming([], [], false, "", None)
    case (Streaming(added, done, part, deltas, text), ItemAdded(i, item)) =>
      if i == |added| then p.(added := added + [item]) else Broken
    case (Streaming(added, done, part, deltas, text), PartAdded) =>
      if added == [Message("")] && done == [] && !part then p.(partOpen := true) else Broken
    case (Streaming(added, done, part, deltas, text), TextDelta(d)) =>
      if part && text.None? && d != "" then p.(deltas := deltas + d) else Broken
    case (Streaming(added, done, part, deltas, text), TextDone(t)) =>
      if part && text.None? then p.(textDone := Some(t)) else Broken
    case (Streaming(added, done, part, deltas, text), ItemDone(i, item)) =>
      if i == |done| < |added| && Closes(added[i], item, text) then p.(done := done + [item]) else Broken
    case (Streaming(added, done, part, deltas, text), Completed(output)) =>
      if output == done && |done| == |added| > 0 then Finished(output, deltas) else Broken
    case _ => Broken
  }

  function RunTrace(p: Phase, trace: seq<ClientEvent>): Phase
    decreases |trace|
  {
    if trace == [] then p else RunTrace(Next(p, trace[0]), trace[1..])
  }

  lemma {:induction false} RunConcat(p: Phase, a: seq<ClientEvent>, b: seq<ClientEvent>)
    ensures RunTrace(p, a + b) == RunTrace(RunTrace(p, a), b)
    decreases |a|
  {
    if a == [] {
      assert a + b == b;
    } else {
      assert (a + b)[1..] == a[1..] + b;
      RunConcat(Next(p, a[0]), a[1..], b);
    }
  }

  lemma {:induction false} RunNone(p: Phase)
    ensures RunTrace(p, []) == p
  {
  }

  lemma {:induction false} RunOne(p: Phase, e: ClientEvent)
    ensures RunTrace(p, [e]) == Next(p, e)
  {
  }

  /** The phase after the prelude and `deltas`. */
  function Opened(req: Request, deltas: string): Phase {
    if req.bufferForToolCalls then Streaming([], [], false, deltas, None)
    else Streaming([Message("")], [], true, deltas, None)
  }

  lemma {:induction false} RunPrelude(req: Request)
    ensures RunTrace(Fresh, Prelude(req)) == Opened(req, "")
  {
  }

  lemma {:induction false} RunMessageAdded(deltas: string)
    ensures RunTrace(Streaming([], [], false, deltas, None), MessageAdded())
            == Streaming([Message("")], [], true, deltas, None)
  {
  }

  lemma {:induction false} RunWholeMessage(req: Request, deltas: string, text: string)
    ensures RunTrace(Opened(req, deltas), WholeMessage(req, text))
            == Finished([Message(text)], if req.Delayed() then deltas + text else deltas)
  {
    var announce := if req.bufferForToolCalls then MessageAdded() else [];
    var delta := if req.Delayed() && text != "" then [TextDelta(text)] else [];
    var late := if req.Delayed() then deltas + text else deltas;
    var p0, p1, p2 := Opened(req, deltas), Streaming([Message("")], [], true, deltas, None),
      Streaming([Message("")], [], true, late, None);
    assert WholeMessage(req, text) == announce + (delta + (MessageDone(text) + [Completed([Message(text)])]));
    RunConcat(p0, announce, delta + (MessageDone(text) + [Completed([Message(text)])]));
    RunMessageAdded(deltas);
    RunConcat(p1, delta, MessageDone(text) + [Completed([Message(text)])]);
    RunOne(p1, TextDelta(text));
    assert RunTrace(p0, announce) == p1 && deltas + "" == deltas;
    assert RunTrace(p1, delta) == p2;
    RunMessageDone(late, text);
  }

  lemma {:induction false} RunMessageDone(deltas: string, text: string)
    ensures RunTrace(Streaming([Message("")], [], true, deltas, None), MessageDone(text) + [Completed([Message(text)])])
            == Finished([Message(text)], deltas)
  {
    var p := Streaming([Message("")], [], true, deltas, None);
    var q := p.(textDone := Some(text));
    var r := q.(done := [Message(text)]);
    assert MessageDone(text) + [Completed([Message(text)])]
        == [TextDone(text)] + ([ItemDone(0, Message(text))] + [Completed([Message(text)])]);
    RunConcat(p, [TextDone(text)], [ItemDone(0, Message(text))] + [Completed([Message(text)])]);
    RunConcat(q, [ItemDone(0, Message(text))], [Completed([Message(text)])]);
    RunOne(p, TextDone(text));
    RunOne(q, ItemDone(0, Message(text)));
    RunOne(r, Completed([Message(text)]));
  }

  predicate AllCalls(items: seq<Item>) {
    forall i :: 0 <= i < |items| ==> items[i].ToolCall?
  }

  lemma {:induction false} RunAllAdded(items: seq<Item>, from: nat)
    requires from <= |items|
    ensures RunTrace(Streaming(items[..from], [], false, "", None), AllAdded(items, from))
            == Streaming(items, [], false, "", None)
    decreases |items| - from
  {
    if from == |items| {
      assert items[..from] == items;
    } else {
      var p := Streaming(items[..from], [], false, "", None);
      RunConcat(p, [ItemAdded(from, items[from])], AllAdded(items, from + 1));
      RunOne(p, ItemAdded(from, items[from]));
      assert items[..from] + [items[from]] == items[..from + 1];
      RunAllAdded(items, from + 1);
    }
  }

  lemma {:induction false} RunAllDone(items: seq<Item>, from: nat)
    requires from <= |items| && AllCalls(items)
    ensures RunTrace(Streaming(items, items[..from], false, "", None), AllDone(items, from))
            == Streaming(items, items, false, "", None)
    decreases |items| - from
  {
    if from == |items| {
      assert items[..from] == items;
    } else {
      var p := Streaming(items, items[..from], false, "", None);
      RunConcat(p, [ItemDone(from, items[from])], AllDone(items, from + 1));
      RunOne(p, ItemDone(from, items[from]));
      assert items[..from] + [items[from]] == items[..from + 1];
      RunAllDone(items, from + 1);
    }
  }

  lemma {:induction false} RunAddedAndDone(items: seq<Item>, from: nat)
    requires from <= |items| && AllCalls(items)
    ensures RunTrace(Streaming(items[..from], items[..from], false, "", None), AddedAndDone(items, from))
            == Streaming(items, items, false, "", None)
    decreases |items| - from
  {
    hide RunTrace;
    if from == |items| {
      assert items[..from] == items;
      RunNone(Streaming(items, items, false, "", None));
    } else {
      var p := Streaming(items[..from], items[..from], false, "", None);
      var q := p.(added := items[..from + 1]);
      assert AddedAndDone(items, from)
          == [ItemAdded(from, items[from])] + ([ItemDone(from, items[from])] + AddedAndDone(items, from + 1));
      RunConcat(p, [ItemAdded(from, items[from])], [ItemDone(from, items[from])] + AddedAndDone(items, from + 1));
      RunConcat(q, [ItemDone(from, items[from])], AddedAndDone(items, from + 1));
      assert items[..from] + [items[from]] == items[..from + 1];
      RunOne(p, ItemAdded(from, items[from]));
      RunOne(q, ItemDone(from, items[from]));
      RunAddedAndDone(items, from + 1);
    }
  }

  /** Both ways of sending tool calls complete the lifecycle with exactly those calls. */
  lemma {:induction false} RunCalls(items: seq<Item>)
    requires AllCalls(items) && items != []
    ensures RunTrace(Streaming([], [], false, "", None), AllAdded(items, 0) + AllDone(items, 0) + [Completed(items)])
            == Finished(items, "")
    ensures RunTrace(Streaming([], [], false, "", None), AddedAndDone(items, 0) + [Completed(items)])
            == Finished(items, "")
  {
    var p := Streaming([], [], false, "", None);
    assert items[..0] == [];
    RunAllAdded(items, 0);
    RunAllDone(items, 0);
    RunAddedAndDone(items, 0);
    RunConcat(p, AllAdded(items, 0), AllDone(items, 0));
    RunConcat(p, AllAdded(items, 0) + AllDone(items, 0), [Completed(items)]);
    RunConcat(p, AddedAndDone(items, 0), [Completed(items)]);
    RunOne(Streaming(items, items, false, "", None), Completed(items));
  }

  /** The raw deltas a request passes on. */
  function Passed(req: Request, text: string): string {
    if req.bufferForToolCalls || req.Delayed() then "" else text
  }

  /** The deltas of a completed message: the raw text as received, or the final text if delayed. */
  function Deltas(req: Request, received: string, output: seq<Item>): string {
    if req.Delayed() && |output| == 1 && output[0].Message? then output[0].text else Passed(req, received)
  }

  lemma {:induction false} RunCompletions(req: Request, text: string)
    ensures var d := RunTrace(Opened(req, Passed(req, text)), OnDone(req, text));
            d.Finished? && d.streamed == Deltas(req, text, d.output)
    ensures var c := RunTrace(Opened(req, Passed(req, text)), OnCutOff(req, text));
            c == RunTrace(Opened(req, Passed(req, text)), OnDone(req, text))
  {
    if req.bufferForToolCalls {
      var parsed := req.parse(text);
      match parsed {
        case Calls(items) => RunCalls(items);
        case Reply(reply) => RunWholeMessage(req, "", req.constrain(reply));
      }
    } else {
      RunWholeMessage(req, Passed(req, text), req.constrain(text));
    }
  }

  lemma {:induction false} RunEmpty(req: Request, scanErr: Option<StreamError>)
    ensures var e := RunTrace(Opened(req, ""), OnEmpty(req, scanErr));
            e.Finished? && e.streamed == Deltas(req, "", e.output)
  {
    hide RunTrace, AddedAndDone, AllAdded, AllDone, WholeMessage, EmptyText;
    if req.bufferForToolCalls && req.synthetic.Some? {
      RunCalls([ToolCall(req.synthetic.value)]);
    } else {
      RunWholeMessage(req, "", EmptyText(req, scanErr));
    }
  }

  /** Scanning passes the text on, or holds it back, until the done event. */
  lemma {:induction false} RunSent(req: Request, outs: seq<Out>)
    requires NoDone(outs) && NoEmptyText(outs)
    ensures RunTrace(Opened(req, ""), Sent(req, outs)) == Opened(req, Passed(req, Received(outs)))
  {
    if outs != [] {
      var before, e := outs[..|outs| - 1], outs[|outs| - 1].event;
      RunSent(req, before);
      var p := Opened(req, Passed(req, Received(before)));
      if req.bufferForToolCalls || req.Delayed() {
        assert Sent(req, outs) == Sent(req, before);
      } else {
        RunConcat(Opened(req, ""), Sent(req, before), [TextDelta(DeltaOf(e))]);
        RunOne(p, TextDelta(DeltaOf(e)));
      }
    }
  }

  /** Nothing received, nothing sent. */
  lemma {:induction false} EmptySendsNothing(req: Request, a: Attempt)
    requires var r := ReportOf(req, a); r.text == "" && !r.contentEmitted && !r.doneReceived
    ensures ScanOf(req, a).outs == [] && Sent(req, ScanOf(req, a).outs) == []
  {
    HasContentIsSomeContent(a.events, req.isThinking, req.showThinking, a.readErr);
    assert |ANSWER| > 0;
  }

  /** The policy either uses one scan whole, or gives up waiting or reconnecting after empty ones. */
  predicate UsesOneAttempt(req: Request, upstream: nat -> Attempt, s: Scans) {
    || (s.sent == Sent(req, ScanOf(req, upstream(s.last)).outs) && s.report == ReportOf(req, upstream(s.last)))
    || (s.sent == [] && s.last > 0 && s.report.text == "" && !s.report.doneReceived && !s.report.contentEmitted
        && s.report.scanErr.Some?
        && s.report.scanErr in {upstream(s.last).sleepErr, upstream(s.last).openErr})
  }

  /**
   All text of a stream comes from a single attempt: at most `retryCount` retries are made, and
   every attempt before the last brought neither text nor a done event, and sent nothing.
   */
  lemma {:induction false} SingleAttempt(req: Request, upstream: nat -> Attempt, n: nat)
    ensures var s := ScansFrom(req, upstream, n);
            && n <= s.last && (s.last > n ==> s.last <= req.retryCount)
            && UsesOneAttempt(req, upstream, s)
            && forall m :: n <= m < s.last ==> ScanOf(req, upstream(m)).outs == []
    decreases req.retryCount - n
  {
    hide ReportOf, Sent, ScanOf;
    var r := ReportOf(req, upstream(n));
    if ShouldRetry(n, req.retryCount, r) {
      EmptySendsNothing(req, upstream(n));
      if upstream(n + 1).sleepErr.None? && upstream(n + 1).openErr.None? {
        SingleAttempt(req, upstream, n + 1);
      }
    }
  }

  /**
   For every sequence of upstream attempts, what a staying client is sent is one whole lifecycle
   exactly when the stream is answered: created first, each item announced before it is done,
   completed last with the done items in order, and the deltas equal to the text they claim to be.
   Otherwise only the prelude was sent.
   */
  lemma {:induction false} WellFormedTrace(req: Request, upstream: nat -> Attempt)
    ensures var s := ScansFrom(req, upstream, 0);
            var end := RunTrace(Fresh, FullTrace(req, upstream));
            && (end.Finished? <==> Answered(s.report))
            && (end.Finished? ==> end.streamed == Deltas(req, s.report.text, end.output))
            && (!end.Finished? ==> FullTrace(req, upstream) == Prelude(req) && end == Opened(req, ""))
  {
    hide RunTrace, ScansFrom, ScanOf, ReportOf, Sent, Prelude, OnEmpty, OnCutOff, Deltas;
    var s := ScansFrom(req, upstream, 0);
    RunNone(Opened(req, ""));
    SingleAttempt(req, upstream, 0);
    RunPrelude(req);
    RunConcat(Fresh, Prelude(req), s.sent);
    RunConcat(Fresh, Prelude(req) + s.sent, Epilogue(req, s.report));
    if s.sent == Sent(req, ScanOf(req, upstream(s.last)).outs) && s.report == ReportOf(req, upstream(s.last)) {
      RunScanned(req, upstream(s.last));
    } else {
      RunEmpty(req, s.report.scanErr);
    }
    if !Answered(s.report) {
      assert Prelude(req) + [] + [] == Prelude(req);
    }
  }

  /** The scan of an attempt emits nothing. */
  predicate Silent(req: Request, a: Attempt) {
    ScanOf(req, a).outs == []
  }

  /** Why the attempt is not made: the wait before it or opening it has failed. */
  function GaveUp(a: Attempt): Option<StreamError> {
    if a.sleepErr.Some? then a.sleepErr else a.openErr
  }

  /** A silent attempt is followed by another one. */
  predicate TriesAgain(req: Request, upstream: nat -> Attempt, n: nat) {
    && n < req.retryCount && Silent(req, upstream(n))
    && ScanOf(req, upstream(n)).err !in {Some(Canceled), Some(DeadlineExceeded)}
  }

  predicate Continues(req: Request, upstream: nat -> Attempt, n: nat) {
    TriesAgain(req, upstream, n) && GaveUp(upstream(n + 1)) == None
  }

  /** From attempt `n` on all are silent up to `k`, and then its scan or the step to the next is cancelled. */
  predicate CancelledAt(req: Request, upstream: nat -> Attempt, n: nat, k: nat) {
    && n <= k && (forall m :: n <= m < k ==> Continues(req, upstream, m))
    && (|| (Silent(req, upstream(k)) && ScanOf(req, upstream(k)).err == Some(Canceled))
        || (TriesAgain(req, upstream, k) && GaveUp(upstream(k + 1)) == Some(Canceled)))
  }

  ghost predicate Cancelled(req: Request, upstream: nat -> Attempt, n: nat) {
    exists k: nat :: CancelledAt(req, upstream, n, k)
  }

  lemma {:induction false} SilentReport(req: Request, a: Attempt)
    ensures var r := ReportOf(req, a);
            Silent(req, a) <==> r.text == "" && !r.contentEmitted && !r.doneReceived
  {
    HasContentIsSomeContent(a.events, req.isThinking, req.showThinking, a.readErr);
    if !Silent(req, a) && ReportOf(req, a).text == "" && !ReportOf(req, a).contentEmitted
       && !ReportOf(req, a).doneReceived {
      EmptySendsNothing(req, a);
    }
  }

  lemma {:induction false} CancelledLater(req: Request, upstream: nat -> Attempt, n: nat)
    requires Continues(req, upstream, n)
    ensures Cancelled(req, upstream, n) <==> Cancelled(req, upstream, n + 1)
  {
    hide Silent, ScanOf;
    if Cancelled(req, upstream, n) {
      var k: nat :| CancelledAt(req, upstream, n, k);
      assert CancelledAt(req, upstream, n + 1, k);
    }
    if Cancelled(req, upstream, n + 1) {
      var next := n + 1;
      var k: nat :| CancelledAt(req, upstream, next, k);
      assert CancelledAt(req, upstream, n, k);
    }
  }

  lemma {:induction false} AnsweredFrom(req: Request, upstream: nat -> Attempt, n: nat)
    ensures Answered(ScansFrom(req, upstream, n).report) <==> !Cancelled(req, upstream, n)
    decreases req.retryCount - n
  {
    hide ScanOf, Received, HasDone, Sent, Silent;
    SilentReport(req, upstream(n));
    if Continues(req, upstream, n) {
      AnsweredFrom(req, upstream, n + 1);
      CancelledLater(req, upstream, n);
    } else {
      forall k: nat
        ensures CancelledAt(req, upstream, n, k) ==> k == n
      {
      }
      assert CancelledAt(req, upstream, n, n) <==> !Answered(ScansFrom(req, upstream, n).report);
    }
  }

  /**
   Said of the attempts: a stream is left without an answer exactly when all attempts that were
   made stayed silent and the last one, or the step to the next, was cancelled.
   */
  lemma {:induction false} AnsweredExactly(req: Request, upstream: nat -> Attempt)
    ensures RunTrace(Fresh, FullTrace(req, upstream)).Finished?
            <==> !exists k: nat :: CancelledAt(req, upstream, 0, k)
  {
    hide RunTrace, FullTrace, ScansFrom, CancelledAt;
    WellFormedTrace(req, upstream);
    AnsweredFrom(req, upstream, 0);
  }

  /** One scan and what follows it. */
  lemma {:induction false} RunScanned(req: Request, a: Attempt)
    ensures var r, sent := ReportOf(req, a), Sent(req, ScanOf(req, a).outs);
            var end := RunTrace(RunTrace(Opened(req, ""), sent), Epilogue(req, r));
            && (Answered(r) ==> end.Finished? && end.streamed == Deltas(req, r.text, end.output))
            && (!Answered(r) ==> sent == [] && Epilogue(req, r) == [])
  {
    hide RunTrace, ScanOf, Sent, Opened, Deltas, OnDone, OnCutOff, OnEmpty, Received;
    var r, outs := ReportOf(req, a), ScanOf(req, a).outs;
    DoneIsLast(req, a);
    ScanTexts(req, a);
    RunCompletions(req, r.text);
    RunNone(RunTrace(Opened(req, ""), Sent(req, outs)));
    if r.doneReceived {
      RunDone(req, outs);
    } else {
      assert NoDone(outs);
      RunSent(req, outs);
      RunEmpty(req, r.scanErr);
      if !r.contentEmitted && r.text == "" {
        EmptySendsNothing(req, a);
      }
    }
  }

  lemma {:induction false} RunDone(req: Request, outs: seq<Out>)
    requires outs != [] && outs[|outs| - 1].event.Done? && NoDone(outs[..|outs| - 1]) && NoEmptyText(outs)
    ensures Received(outs) == Received(outs[..|outs| - 1])
    ensures RunTrace(Opened(req, ""), Sent(req, outs))
            == RunTrace(Opened(req, Passed(req, Received(outs))), OnDone(req, Received(outs)))
  {
    var before := outs[..|outs| - 1];
    RunSent(req, before);
    RunConcat(Opened(req, ""), Sent(req, before), OnDone(req, Received(before)));
    assert Received(outs) == Received(before);
  }
}
