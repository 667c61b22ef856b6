/**
 The Responses stream: what a client is sent for one request, over every sequence of upstream
 attempts. An attempt that yields nothing is retried; the client always sees one well-formed
 lifecycle, or a prefix of it when it leaves early.
 */
module StreamLifecycle {
  import opened Text
  import opened ThinkingFilter

  /** An output item: the assistant's message, or a tool call as parsed from the model's text. */
  datatype Item = Message(text: string) | ToolCall(payload: string)

  datatype ClientEvent =
    | Created
    | ItemAdded(index: nat, item: Item)
    | PartAdded
    | TextDelta(delta: string)
    | TextDone(text: string)
    | ItemDone(index: nat, item: Item)
    | Completed(output: seq<Item>)

  /** What the model's buffered text amounts to: tool calls, or a text to show. */
  datatype Parsed = Calls(items: seq<Item>) | Reply(text: string)

  type ParsedText = p: Parsed | p.Calls? ==> p.items != [] && forall i :: 0 <= i < |p.items| ==> p.items[i].ToolCall?
    witness Reply("")

  /**
   One request. `parse` stands for the tool protocol and the policy rewrite, `constrain` for the
   output constraints, `synthetic` for a required call the policy injects into an empty stream and
   `fallback` for the text that may replace an empty answer.
   */
  datatype Request = Request(
    bufferForToolCalls: bool, hasRequiredLabels: bool, isThinking: bool, showThinking: bool, retryCount: int,
    parse: string -> ParsedText, constrain: string -> string, synthetic: Option<string>, fallback: Option<string>)
  {
    predicate Delayed() {
      !bufferForToolCalls && hasRequiredLabels
    }
  }

  /** One upstream attempt: the wait before it, opening it, its decoded events, the reader's error. */
  datatype Attempt = Attempt(
    sleepErr: Option<StreamError>, openErr: Option<StreamError>, events: seq<SSEEvent>, readErr: Option<StreamError>)

  /** What the scan of one attempt reported. */
  datatype Report = Report(text: string, doneReceived: bool, contentEmitted: bool, scanErr: Option<StreamError>)

  const ANSWER := "\n\n--- Answer ---\n\n"

  function MessageAdded(): seq<ClientEvent> {
    [ItemAdded(0, Message("")), PartAdded]
  }

  function MessageDone(text: string): seq<ClientEvent> {
    [TextDone(text), ItemDone(0, Message(text))]
  }

  function AllAdded(items: seq<Item>, from: nat): seq<ClientEvent>
    requires from <= |items|
    decreases |items| - from
  {
    if from == |items| then [] else [ItemAdded(from, items[from])] + AllAdded(items, from + 1)
  }

  function AllDone(items: seq<Item>, from: nat): seq<ClientEvent>
    requires from <= |items|
    decreases |items| - from
  {
    if from == |items| then [] else [ItemDone(from, items[from])] + AllDone(items, from + 1)
  }

  function AddedAndDone(items: seq<Item>, from: nat): seq<ClientEvent>
    requires from <= |items|
    decreases |items| - from
  {
    if from == |items| then []
    else [ItemAdded(from, items[from]), ItemDone(from, items[from])] + AddedAndDone(items, from + 1)
  }

  function Prelude(req: Request): seq<ClientEvent> {
    [Created] + if req.bufferForToolCalls then [] else MessageAdded()
  }

  /** A message that was not announced yet when the stream was buffered. */
  function WholeMessage(req: Request, text: string): seq<ClientEvent> {
    (if req.bufferForToolCalls then MessageAdded() else [])
    + (if req.Delayed() && text != "" then [TextDelta(text)] else [])
    + MessageDone(text) + [Completed([Message(text)])]
  }

  /** The completion sent from within the scan, when the done event arrives. */
  function OnDone(req: Request, text: string): seq<ClientEvent> {
    if req.bufferForToolCalls then
      match req.parse(text)
      case Calls(items) => AllAdded(items, 0) + AllDone(items, 0) + [Completed(items)]
      case Reply(reply) => WholeMessage(req, req.constrain(reply))
    else WholeMessage(req, req.constrain(text))
  }

  /** The completion sent after a scan that brought text but no done event. */
  function OnCutOff(req: Request, text: string): seq<ClientEvent> {
    if req.bufferForToolCalls then
      match req.parse(text)
      case Calls(items) => AddedAndDone(items, 0) + [Completed(items)]
      case Reply(reply) => WholeMessage(req, req.constrain(reply))
    else WholeMessage(req, req.constrain(text))
  }

  /** The text that stands in for an answer that never came. */
  function EmptyText(req: Request, scanErr: Option<StreamError>): string {
    if scanErr.Some? then "Codex adapter error: upstream stream failed before content"
    else req.fallback.GetOr("Codex adapter error: upstream response ended without a completion signal")
  }

  function OnEmpty(req: Request, scanErr: Option<StreamError>): seq<ClientEvent> {
    if req.bufferForToolCalls && req.synthetic.Some? then
      AddedAndDone([ToolCall(req.synthetic.value)], 0) + [Completed([ToolCall(req.synthetic.value)])]
    else WholeMessage(req, EmptyText(req, scanErr))
  }

  function DeltaOf(e: Event): string {
    match e
    case Content(t) => t
    case Separator => ANSWER
    case Done => ""
  }

  /** The text an attempt adds to the result. */
  function Received(outs: seq<Out>): string {
    if outs == [] then "" else Received(outs[..|outs| - 1]) + DeltaOf(outs[|outs| - 1].event)
  }

  /** The client events sent while scanning, one by one as the callback sends them. */
  function Sent(req: Request, outs: seq<Out>): seq<ClientEvent> {
    if outs == [] then []
    else
      var before := outs[..|outs| - 1];
      Sent(req, before) +
      match outs[|outs| - 1].event
      case Done => OnDone(req, Received(before))
      case e => if req.bufferForToolCalls || req.Delayed() then [] else [TextDelta(DeltaOf(e))]
  }

  function ScanOf(req: Request, a: Attempt): Outcome {
    Scan(a.events, req.isThinking, req.showThinking, a.readErr)
  }

  predicate HasDone(outs: seq<Out>) {
    !NoDone(outs)
  }

  function ReportOf(req: Request, a: Attempt): Report {
    var r := ScanOf(req, a);
    Report(Received(r.outs), HasDone(r.outs), r.state.visibleEmitted, r.err)
  }

  /** `shouldRetry` of the retry policy, for a client that is still there. */
  predicate ShouldRetry(attempt: nat, retryCount: int, r: Report) {
    attempt < retryCount && r.scanErr != Some(Canceled) && r.scanErr != Some(DeadlineExceeded)
    && !r.doneReceived && !r.contentEmitted && r.text == ""
  }

  /** The scans from attempt `n` on: the events sent while scanning, and the report of the last scan. */
  datatype Scans = Scans(sent: seq<ClientEvent>, last: nat, report: Report)

  function ScansFrom(req: Request, upstream: nat -> Attempt, n: nat): Scans
    decreases req.retryCount - n
  {
    var r := ReportOf(req, upstream(n));
    var sent := Sent(req, ScanOf(req, upstream(n)).outs);
    if !ShouldRetry(n, req.retryCount, r) then Scans(sent, n, r)
    else
      var next := upstream(n + 1);
      if next.sleepErr.Some? then Scans(sent, n + 1, r.(scanErr := next.sleepErr))
      else if next.openErr.Some? then Scans(sent, n + 1, r.(scanErr := next.openErr))
      else
        var more := ScansFrom(req, upstream, n + 1);
        more.(sent := sent + more.sent)
  }

  /** What follows the last scan. */
  function Epilogue(req: Request, r: Report): seq<ClientEvent> {
    if r.doneReceived then []
    else if r.contentEmitted || r.text != "" then OnCutOff(req, r.text)
    else if r.scanErr != Some(Canceled) then OnEmpty(req, r.scanErr)
    else []
  }

  /** Everything sent to a client that stays. */
  function FullTrace(req: Request, upstream: nat -> Attempt): seq<ClientEvent> {
    var s := ScansFrom(req, upstream, 0);
    Prelude(req) + s.sent + Epilogue(req, s.report)
  }

  /** No done event among these. */
  predicate NoDone(outs: seq<Out>) {
    forall i :: 0 <= i < |outs| ==> !outs[i].event.Done?
  }

  lemma {:induction false} TaggedNoDone(text: string, show: bool, st: ScanState)
    ensures NoDone(Tagged(text, show, st).outs)
    decreases |text|
  {
    var t := TagTurn(text, show, st);
    assert NoDone(t.outs);
    if t.rest.Some? {
      TaggedNoDone(t.rest.value, show, t.state);
    }
  }

  lemma {:induction false} BodyNoDone(events: seq<SSEEvent>, isThinking: bool, show: bool)
    ensures NoDone(ScanBody(events, isThinking, show).outs)
  {
    if events != [] {
      var before := ScanBody(events[..|events| - 1], isThinking, show);
      BodyNoDone(events[..|events| - 1], isThinking, show);
      TaggedNoDone(events[|events| - 1].content, show, before.state.(tagSeen := true));
    }
  }

  predicate NoEmptyText(outs: seq<Out>) {
    forall i :: 0 <= i < |outs| && IsContent(outs[i]) ==> outs[i].event.text != ""
  }

  lemma {:induction false} TaggedTexts(text: string, show: bool, st: ScanState)
    ensures NoEmptyText(Tagged(text, show, st).outs)
    decreases |text|
  {
    hide FirstTag;
    var t := TagTurn(text, show, st);
    assert NoEmptyText(t.outs);
    if t.rest.Some? {
      TaggedTexts(t.rest.value, show, t.state);
    }
  }

  lemma {:induction false} BodyTexts(events: seq<SSEEvent>, isThinking: bool, show: bool)
    ensures NoEmptyText(ScanBody(events, isThinking, show).outs)
  {
    hide Tagged;
    if events != [] {
      var before := ScanBody(events[..|events| - 1], isThinking, show);
      BodyTexts(events[..|events| - 1], isThinking, show);
      TaggedTexts(events[|events| - 1].content, show, before.state.(tagSeen := true));
    }
  }

  lemma {:induction false} ScanTexts(req: Request, a: Attempt)
    ensures NoEmptyText(ScanOf(req, a).outs)
  {
    hide ScanBody;
    ScanIsBodyThenEnd(a.events, req.isThinking, req.showThinking, a.readErr);
    BodyTexts(a.events[..BodyLength(a.events)], req.isThinking, req.showThinking);
  }

  predicate DoneOnlyLast(outs: seq<Out>) {
    outs != [] ==> NoDone(outs[..|outs| - 1])
  }

  lemma {:induction false} EndingShape(isThinking: bool, show: bool, st: ScanState)
    ensures var outs := Ending(isThinking, show, st).outs;
            outs != [] && outs[|outs| - 1].event.Done? && NoDone(outs[..|outs| - 1])
  {
  }

  lemma {:induction false} DoneAppended(body: seq<Out>, end: seq<Out>)
    requires NoDone(body) && end != [] && end[|end| - 1].event.Done? && NoDone(end[..|end| - 1])
    ensures DoneOnlyLast(body + end) && (body + end)[|body + end| - 1].event.Done?
  {
    assert (body + end)[..|body + end| - 1] == body + end[..|end| - 1];
  }

  /** A scan reports the done event only as its last. */
  lemma {:induction false} DoneIsLast(req: Request, a: Attempt)
    ensures var outs := ScanOf(req, a).outs;
            DoneOnlyLast(outs) && (HasDone(outs) ==> outs[|outs| - 1].event.Done?)
  {
    hide ScanBody, Scan, Ending;
    ScanIsBodyThenEnd(a.events, req.isThinking, req.showThinking, a.readErr);
    BodyNoDone(a.events[..BodyLength(a.events)], req.isThinking, req.showThinking);
    var body := ScanBody(a.events[..BodyLength(a.events)], req.isThinking, req.showThinking);
    EndingShape(req.isThinking, req.showThinking, body.state);
    DoneAppended(body.outs, Ending(req.isThinking, req.showThinking, body.state).outs);
  }

  /** A stream is answered unless it stayed empty and its context was cancelled. */
  predicate Answered(r: Report) {
    r.doneReceived || r.contentEmitted || r.text != "" || r.scanErr != Some(Canceled)
  }
}
