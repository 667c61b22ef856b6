/** What a completed stream answers, said of the text that its attempts have delivered. */
module StreamAnswers {
  import opened Text
  import opened StreamLifecycle
  import opened StreamDelivery

  /** What a text is answered with: parsed calls, or the constrained text. */
  function AnswerTo(req: Request, text: string): seq<Item> {
    if !req.bufferForToolCalls then [Message(req.constrain(text))]
    else if req.parse(text).Calls? then req.parse(text).items
    else [Message(req.constrain(req.parse(text).text))]
  }

  /** What stands in for a missing answer: the required call if calls are waited for, or a text that says so. */
  function StandIn(req: Request, failed: bool): seq<Item> {
    if req.bufferForToolCalls && req.synthetic.Some? then [ToolCall(req.synthetic.value)]
    else if failed then [Message("Codex adapter error: upstream stream failed before content")]
    else if req.fallback.Some? then [Message(req.fallback.value)]
    else [Message("Codex adapter error: upstream response ended without a completion signal")]
  }

  lemma {:induction false} EndsWith(a: seq<ClientEvent>, items: seq<Item>)
    ensures OutputOf(a + [Completed(items)]) == items
  {
  }

  lemma {:induction false} WholeOutput(req: Request, text: string)
    ensures OutputOf(WholeMessage(req, text)) == [Message(text)]
  {
    var announce := if req.bufferForToolCalls then MessageAdded() else [];
    var delta := if req.Delayed() && text != "" then [TextDelta(text)] else [];
    EndsWith(announce + delta + MessageDone(text), [Message(text)]);
  }

  lemma {:induction false} CompletionOutputs(req: Request, text: string)
    ensures OutputOf(OnDone(req, text)) == AnswerTo(req, text) == OutputOf(OnCutOff(req, text))
  {
    hide OutputOf, WholeMessage, AllAdded, AllDone, AddedAndDone;
    if req.bufferForToolCalls {
      match req.parse(text) {
        case Calls(items) =>
          EndsWith(AllAdded(items, 0) + AllDone(items, 0), items);
          EndsWith(AddedAndDone(items, 0), items);
        case Reply(reply) => WholeOutput(req, req.constrain(reply));
      }
    } else {
      WholeOutput(req, req.constrain(text));
    }
  }

  lemma {:induction false} EmptyOutput(req: Request, scanErr: Option<StreamError>)
    ensures OutputOf(OnEmpty(req, scanErr)) == StandIn(req, scanErr.Some?)
  {
    hide OutputOf, WholeMessage, AddedAndDone;
    if req.bufferForToolCalls && req.synthetic.Some? {
      EndsWith(AddedAndDone([ToolCall(req.synthetic.value)], 0), [ToolCall(req.synthetic.value)]);
    } else {
      WholeOutput(req, EmptyText(req, scanErr));
    }
  }

  // The order of tool calls.

  lemma {:induction false} AllAddedAt(items: seq<Item>, from: nat, k: nat)
    requires from <= |items|
    ensures |AllAdded(items, from)| == |items| - from == |AllDone(items, from)|
    ensures from + k < |items| ==>
              && AllAdded(items, from)[k] == ItemAdded(from + k, items[from + k])
              && AllDone(items, from)[k] == ItemDone(from + k, items[from + k])
    decreases |items| - from
  {
    if from < |items| {
      AllAddedAt(items, from + 1, if k > 0 then k - 1 else 0);
    }
  }

  lemma {:induction false} InTurnAt(items: seq<Item>, from: nat, k: nat)
    requires from <= |items|
    ensures |AddedAndDone(items, from)| == 2 * (|items| - from)
    ensures from + k < |items| ==>
              && AddedAndDone(items, from)[2 * k] == ItemAdded(from + k, items[from + k])
              && AddedAndDone(items, from)[2 * k + 1] == ItemDone(from + k, items[from + k])
    decreases |items| - from
  {
    if from < |items| {
      InTurnAt(items, from + 1, if k > 0 then k - 1 else 0);
    }
  }

  /** Calls parsed on the done event are all announced before the first is done; after a cut they go one by one. */
  lemma {:induction false} CallOrder(req: Request, text: string, k: nat)
    requires req.bufferForToolCalls && req.parse(text).Calls? && k < |req.parse(text).items|
    ensures var items, done, cut := req.parse(text).items, OnDone(req, text), OnCutOff(req, text);
            && |done| == 2 * |items| + 1 == |cut| && done[|done| - 1] == Completed(items) == cut[|cut| - 1]
            && done[k] == ItemAdded(k, items[k]) && done[|items| + k] == ItemDone(k, items[k])
            && cut[2 * k] == ItemAdded(k, items[k]) && cut[2 * k + 1] == ItemDone(k, items[k])
  {
    hide AllAdded, AllDone, AddedAndDone;
    var items := req.parse(text).items;
    AllAddedAt(items, 0, k);
    InTurnAt(items, 0, k);
  }

  /** The text that the last attempt delivers. */
  function LastText(req: Request, upstream: nat -> Attempt): string {
    Received(ScanOf(req, upstream(LastScan(req, upstream, 0))).outs)
  }

  /** The last attempt ends with the done event. */
  predicate LastDone(req: Request, upstream: nat -> Attempt) {
    HasDone(ScanOf(req, upstream(LastScan(req, upstream, 0))).outs)
  }

  /**
   What is stored for a client that leaves: nothing if it left during the prelude, at the done event, or
   without text; otherwise the answer to the text up to the write that failed.
   */
  lemma {:induction false} LeavingStored(req: Request, upstream: nat -> Attempt, capacity: Option<nat>)
    requires Leaves(req, upstream, capacity)
    ensures var box := Receive(capacity, Inbox([], false), Prelude(req));
            StoredFor(req, upstream, capacity) ==
            if box.gone then None
            else
              var heard := HeardOf(req, upstream, capacity, box);
              if (exists i :: 0 <= i < |heard| && heard[i].event.Done?) || Received(heard) == "" then None
              else Some(AnswerTo(req, Received(heard)))
  {
    hide Leaves, Receive, Prelude, HeardOf, OnDone, OnCutOff, OnEmpty, OutputOf, AnswerTo, Received;
    var box := Receive(capacity, Inbox([], false), Prelude(req));
    if !box.gone {
      CompletionOutputs(req, Received(HeardOf(req, upstream, capacity, box)));
    }
  }

  /**
   The output of an answered stream: the answer to the text of its last attempt if that brought text or
   came to its end, and otherwise what stands in for it.
   */
  lemma {:induction false} CompletedOutput(req: Request, upstream: nat -> Attempt)
    requires Answered(ScansFrom(req, upstream, 0).report)
    ensures OutputOf(FullTrace(req, upstream)) ==
            if LastDone(req, upstream) || LastText(req, upstream) != "" then AnswerTo(req, LastText(req, upstream))
            else StandIn(req, ScansFrom(req, upstream, 0).report.scanErr.Some?)
  {
    hide ScansFrom, ScanOf, Received, HasDone, OnDone, OnCutOff, OnEmpty, OutputOf, FullTrace, AnswerTo, StandIn;
    var r := ScansFrom(req, upstream, 0).report;
    FinalOutput(req, upstream);
    ReportOfLast(req, upstream, 0);
    ReportedIsText(req, upstream);
    CompletionOutputs(req, r.text);
    EmptyOutput(req, r.scanErr);
  }
}
