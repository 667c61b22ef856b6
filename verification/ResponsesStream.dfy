/**
 The stream handler as the source runs it: a retry loop around the scan, a callback that writes
 to a client whose connection may break at any write, and the completions that follow. Its
 contract says what the client has received whenever it leaves.
 */
module ResponsesStream {
  import opened Text
  import opened ThinkingFilter
  import opened StreamLifecycle
  import opened StreamDelivery

  class Client {
    const capacity: Option<nat>
    var received: seq<ClientEvent>
    var gone: bool

    constructor (capacity: Option<nat>)
      ensures Valid() && this.capacity == capacity && Box() == Inbox([], false)
    {
      this.capacity := capacity;
      received, gone := [], false;
    }

    ghost predicate Valid()
      reads this
    {
      capacity.Some? ==> |received| <= capacity.value
    }

    ghost function Box(): Inbox
      reads this
    {
      Inbox(received, gone)
    }

    method Write(e: ClientEvent) returns (ok: bool)
      requires Valid()
      modifies this
      ensures Valid() && ok == !gone && Box() == Receive(capacity, old(Box()), [e])
    {
      if gone {
        return false;
      }
      if capacity.Some? && |received| == capacity.value {
        gone := true;
        return false;
      }
      received := received + [e];
      ok := true;
    }

    method WriteMessageAdded() returns (ok: bool)
      requires Valid()
      modifies this
      ensures Valid() && ok == !gone && Box() == Receive(capacity, old(Box()), MessageAdded())
    {
      ReceiveConcat(capacity, Box(), [ItemAdded(0, Message(""))], [PartAdded]);
      ok := Write(ItemAdded(0, Message("")));
      if !ok {
        return;
      }
      ok := Write(PartAdded);
    }

    method WriteMessageDone(text: string) returns (ok: bool)
      requires Valid()
      modifies this
      ensures Valid() && ok == !gone && Box() == Receive(capacity, old(Box()), MessageDone(text))
    {
      ReceiveConcat(capacity, Box(), [TextDone(text)], [ItemDone(0, Message(text))]);
      ok := Write(TextDone(text));
      if !ok {
        return;
      }
      ok := Write(ItemDone(0, Message(text)));
    }

    /** A message, announced now if it was not before, and the completion. */
    method WriteWholeMessage(req: Request, text: string) returns (ok: bool)
      requires Valid()
      modifies this
      ensures Valid() && ok == !gone && Box() == Receive(capacity, old(Box()), WholeMessage(req, text))
    {
      hide Receive;
      ghost var announce := if req.bufferForToolCalls then MessageAdded() else [];
      ghost var delta := if req.Delayed() && text != "" then [TextDelta(text)] else [];
      ghost var close := MessageDone(text) + [Completed([Message(text)])];
      assert WholeMessage(req, text) == announce + (delta + close);
      ok := !gone;
      ReceiveThen(capacity, Box(), announce, delta + close);
      if req.bufferForToolCalls {
        ok := WriteMessageAdded();
        if !ok {
          return;
        }
      }
      ReceiveThen(capacity, Box(), delta, close);
      if req.Delayed() && text != "" {
        ok := Write(TextDelta(text));
        if !ok {
          return;
        }
      }
      ReceiveThen(capacity, Box(), MessageDone(text), [Completed([Message(text)])]);
      ok := WriteMessageDone(text);
      if !ok {
        return;
      }
      ok := Write(Completed([Message(text)]));
    }

    /** Announce every item. */
    method WriteAdded(items: seq<Item>) returns (ok: bool)
      requires Valid()
      modifies this
      ensures Valid() && ok == !gone && Box() == Receive(capacity, old(Box()), AllAdded(items, 0))
    {
      hide Receive;
      ok := !gone;
      ReceiveThen(capacity, Box(), [], []);
      for i := 0 to |items|
        invariant Valid() && ok == !gone
        invariant Receive(capacity, Box(), AllAdded(items, i)) == Receive(capacity, old(Box()), AllAdded(items, 0))
        invariant Receive(capacity, Box(), []) == Box()
      {
        ReceiveThen(capacity, Box(), [ItemAdded(i, items[i])], AllAdded(items, i + 1));
        ok := Write(ItemAdded(i, items[i]));
        ReceiveThen(capacity, Box(), [], []);
        if !ok {
          return;
        }
      }
    }

    /** Finish every item. */
    method WriteDone(items: seq<Item>) returns (ok: bool)
      requires Valid()
      modifies this
      ensures Valid() && ok == !gone && Box() == Receive(capacity, old(Box()), AllDone(items, 0))
    {
      hide Receive;
      ok := !gone;
      ReceiveThen(capacity, Box(), [], []);
      for i := 0 to |items|
        invariant Valid() && ok == !gone
        invariant Receive(capacity, Box(), AllDone(items, i)) == Receive(capacity, old(Box()), AllDone(items, 0))
        invariant Receive(capacity, Box(), []) == Box()
      {
        ReceiveThen(capacity, Box(), [ItemDone(i, items[i])], AllDone(items, i + 1));
        ok := Write(ItemDone(i, items[i]));
        ReceiveThen(capacity, Box(), [], []);
        if !ok {
          return;
        }
      }
    }

    /** Every item announced, then every item done, then the completion. */
    method WriteCalls(items: seq<Item>) returns (ok: bool)
      requires Valid()
      modifies this
      ensures Valid() && ok == !gone
      ensures Box() == Receive(capacity, old(Box()), AllAdded(items, 0) + AllDone(items, 0) + [Completed(items)])
    {
      hide Receive;
      ghost var completed := [Completed(items)];
      assert AllAdded(items, 0) + AllDone(items, 0) + completed == AllAdded(items, 0) + (AllDone(items, 0) + completed);
      ReceiveThen(capacity, Box(), AllAdded(items, 0), AllDone(items, 0) + completed);
      ok := WriteAdded(items);
      if !ok {
        return;
      }
      ReceiveThen(capacity, Box(), AllDone(items, 0), completed);
      ok := WriteDone(items);
      if !ok {
        return;
      }
      ok := Write(Completed(items));
    }

    /** Each item announced and done in turn, then the completion; a failed write stops nothing. */
    method WriteCallsInTurn(items: seq<Item>)
      requires Valid()
      modifies this
      ensures Valid() && Box() == Receive(capacity, old(Box()), AddedAndDone(items, 0) + [Completed(items)])
    {
      hide Receive;
      ReceiveThen(capacity, Box(), AddedAndDone(items, 0), [Completed(items)]);
      ghost var target := Receive(capacity, Box(), AddedAndDone(items, 0));
      ReceiveThen(capacity, Box(), [], []);
      for i := 0 to |items|
        invariant Valid()
        invariant Receive(capacity, Box(), AddedAndDone(items, i)) == target
        invariant Receive(capacity, Box(), []) == Box()
      {
        ghost var added, done := [ItemAdded(i, items[i])], [ItemDone(i, items[i])];
        assert AddedAndDone(items, i) == added + (done + AddedAndDone(items, i + 1));
        ReceiveThen(capacity, Box(), added, done + AddedAndDone(items, i + 1));
        var _ := Write(ItemAdded(i, items[i]));
        ReceiveThen(capacity, Box(), done, AddedAndDone(items, i + 1));
        var _ := Write(ItemDone(i, items[i]));
        ReceiveThen(capacity, Box(), [], []);
      }
      var _ := Write(Completed(items));
    }
  }

  /** The done event: parse what was buffered or close the open message, and store the response. */
  method HandleDone(req: Request, text: string, client: Client) returns (ok: bool, stored: Option<seq<Item>>)
    requires client.Valid()
    modifies client
    ensures client.Valid() && ok == !client.gone
    ensures client.Box() == Receive(client.capacity, old(client.Box()), OnDone(req, text))
    ensures stored == if ok then Some(OutputOf(OnDone(req, text))) else None
  {
    stored := None;
    if req.bufferForToolCalls {
      var parsed := req.parse(text);
      match parsed {
        case Calls(items) =>
          ok := client.WriteCalls(items);
          stored := if ok then Some(items) else None;
        case Reply(reply) =>
          var finalText := req.constrain(reply);
          ok := client.WriteWholeMessage(req, finalText);
          stored := if ok then Some([Message(finalText)]) else None;
      }
      return;
    }
    var finalText := req.constrain(text);
    ok := client.WriteWholeMessage(req, finalText);
    stored := if ok then Some([Message(finalText)]) else None;
  }

  /** Text without a done event: complete with what there is, whether or not the client still listens. */
  method HandleCutOff(req: Request, text: string, client: Client) returns (stored: Option<seq<Item>>)
    requires client.Valid()
    modifies client
    ensures client.Valid() && client.Box() == Receive(client.capacity, old(client.Box()), OnCutOff(req, text))
    ensures stored == Some(OutputOf(OnCutOff(req, text)))
  {
    if req.bufferForToolCalls {
      var parsed := req.parse(text);
      match parsed {
        case Calls(items) =>
          client.WriteCallsInTurn(items);
          stored := Some(items);
        case Reply(reply) =>
          var finalText := req.constrain(reply);
          var _ := client.WriteWholeMessage(req, finalText);
          stored := Some([Message(finalText)]);
      }
      return;
    }
    var finalText := req.constrain(text);
    var _ := client.WriteWholeMessage(req, finalText);
    stored := Some([Message(finalText)]);
  }

  lemma {:induction false} EmptyCases(req: Request, scanErr: Option<StreamError>)
    ensures if req.bufferForToolCalls && req.synthetic.Some? then
              var items := [ToolCall(req.synthetic.value)];
              OnEmpty(req, scanErr) == AddedAndDone(items, 0) + [Completed(items)]
                && OutputOf(OnEmpty(req, scanErr)) == items
            else
              var text := EmptyText(req, scanErr);
              OnEmpty(req, scanErr) == WholeMessage(req, text) && OutputOf(OnEmpty(req, scanErr)) == [Message(text)]
  {
    hide EmptyText, AddedAndDone;
  }

  /** Neither text nor a done event: a required call, a fallback answer, or an error text. */
  method HandleEmpty(req: Request, scanErr: Option<StreamError>, client: Client) returns (stored: Option<seq<Item>>)
    requires client.Valid()
    modifies client
    ensures client.Valid() && client.Box() == Receive(client.capacity, old(client.Box()), OnEmpty(req, scanErr))
    ensures stored == if client.gone then None else Some(OutputOf(OnEmpty(req, scanErr)))
  {
    hide OnEmpty, OutputOf, EmptyText, WholeMessage, Receive, AddedAndDone;
    EmptyCases(req, scanErr);
    if req.bufferForToolCalls && req.synthetic.Some? {
      var items := [ToolCall(req.synthetic.value)];
      client.WriteCallsInTurn(items);
      stored := if client.gone then None else Some(items);
      return;
    }
    var finalText := EmptyText(req, scanErr);
    var ok := client.WriteWholeMessage(req, finalText);
    stored := if ok then Some([Message(finalText)]) else None;
  }

  /** The callback for one event. */
  method OnEvent(req: Request, before: seq<Out>, e: Event, client: Client)
    returns (ok: bool, stored: Option<seq<Item>>)
    requires client.Valid()
    modifies client
    ensures client.Valid() && ok == (!client.gone || SentFor(req, before, e) == [])
    ensures client.Box() == Receive(client.capacity, old(client.Box()), SentFor(req, before, e))
    ensures stored == if e.Done? && !client.gone then Some(OutputOf(OnDone(req, Received(before)))) else None
  {
    ok, stored := true, None;
    ReceiveThen(client.capacity, client.Box(), [], []);
    if e.Done? {
      ok, stored := HandleDone(req, Received(before), client);
    } else if !req.bufferForToolCalls && !req.Delayed() {
      ok := client.Write(TextDelta(DeltaOf(e)));
    }
  }

  /** The callback run over the events of one scan, until a write fails. */
  method DeliverScan(req: Request, outs: seq<Out>, client: Client)
    returns (result: string, doneReceived: bool, stored: Option<seq<Item>>)
    requires client.Valid() && DoneOnlyLast(outs)
    modifies client
    ensures client.Valid() && client.Box() == Receive(client.capacity, old(client.Box()), Sent(req, outs))
    ensures var heard := Heard(req, outs, client.capacity, old(client.Box()));
            && result == Received(heard) && doneReceived == HasDone(heard)
            && (!client.gone ==> heard == outs)
    ensures stored == if doneReceived && !client.gone then Some(OutputOf(OnDone(req, result))) else None
  {
    hide Receive, OnDone, Sent, SentFor, NoDone, HeardFrom;
    result, doneReceived, stored := "", false, None;
    ghost var box := client.Box();
    StartOfScan(req, outs, client.capacity, box);
    var i := 0;
    while i < |outs|
      invariant 0 <= i <= |outs| && client.Valid()
      invariant client.Box() == Receive(client.capacity, box, Sent(req, outs[..i]))
      invariant HeardFrom(req, outs, i, client.capacity, box) == HeardFrom(req, outs, 0, client.capacity, box)
      invariant result == Received(outs[..i]) && doneReceived == HasDone(outs[..i])
      invariant stored == if doneReceived && !client.gone then Some(OutputOf(OnDone(req, result))) else None
    {
      SentSnoc(req, outs, i);
      ReceiveThen(client.capacity, box, Sent(req, outs[..i]), SentFor(req, outs[..i], outs[i].event));
      NotDoneYet(outs, i);
      var ok;
      ok, stored := OnEvent(req, outs[..i], outs[i].event, client);
      HeardNext(req, outs, i, client.capacity, box, client.Box());
      assert result + "" == result;
      result, doneReceived := result + DeltaOf(outs[i].event), outs[i].event.Done?;
      if !ok {
        GoneForGood(req, outs, i + 1, client.capacity, box);
        return;
      }
      i := i + 1;
    }
    HeardAll(req, outs, client.capacity, box);
  }

  /**
   The retry loop: scan, and scan the next attempt while one brought nothing. A client that was there
   at the start has the text and the done flag of the events it was still called for.
   */
  method ScanAttempts(req: Request, upstream: nat -> Attempt, client: Client)
    returns (report: Report, stored: Option<seq<Item>>)
    requires client.Valid()
    modifies client
    ensures var s := ScansFrom(req, upstream, 0);
            && client.Valid() && client.Box() == Receive(client.capacity, old(client.Box()), s.sent)
            && (!client.gone ==> report == s.report)
    ensures var heard := HeardOf(req, upstream, client.capacity, old(client.Box()));
            !old(client.gone) ==>
              && report.text == Received(heard) && report.doneReceived == HasDone(heard)
              && (!client.gone ==> heard == ScanOf(req, upstream(LastScan(req, upstream, 0))).outs)
    ensures stored == if report.doneReceived && !client.gone then Some(OutputOf(OnDone(req, report.text))) else None
  {
    hide Receive, Sent, OnDone, NoDone, Heard, ScanOf, Received;
    ghost var box, all := client.Box(), ScansFrom(req, upstream, 0);
    var attempt := 0;
    while true
      invariant client.Valid()
      invariant Receive(client.capacity, client.Box(), ScansFrom(req, upstream, attempt).sent)
                == Receive(client.capacity, box, all.sent)
      invariant ScansFrom(req, upstream, attempt).report == all.report
      invariant LastScan(req, upstream, attempt) == LastScan(req, upstream, 0) && client.Box() == box
      decreases req.retryCount - attempt
    {
      var scan := ScanOf(req, upstream(attempt));
      DoneIsLast(req, upstream(attempt));
      SentFirst(req, upstream, attempt, client.capacity, client.Box());
      if ShouldRetry(attempt, req.retryCount, ReportOf(req, upstream(attempt))) {
        RetriedIsEmpty(req, upstream, attempt, client.capacity, box);
      }
      var result, doneReceived;
      result, doneReceived, stored := DeliverScan(req, scan.outs, client);
      report := Report(result, doneReceived, scan.state.visibleEmitted, scan.err);
      if client.gone || !ShouldRetry(attempt, req.retryCount, report) {
        return;
      }
      attempt := attempt + 1;
      if upstream(attempt).sleepErr.Some? {
        report := report.(scanErr := upstream(attempt).sleepErr);
        return;
      }
      if upstream(attempt).openErr.Some? {
        report := report.(scanErr := upstream(attempt).openErr);
        return;
      }
    }
  }

  /** The scans, and what follows the last of them. */
  method FinishStream(req: Request, upstream: nat -> Attempt, client: Client) returns (stored: Option<seq<Item>>)
    requires client.Valid()
    modifies client
    ensures var s := ScansFrom(req, upstream, 0);
            && client.Valid()
            && client.Box() == Receive(client.capacity, old(client.Box()), s.sent + Epilogue(req, s.report))
            && (!client.gone && Answered(s.report) ==>
                 stored == Some(OutputOf(
                   if s.report.doneReceived then OnDone(req, s.report.text) else Epilogue(req, s.report))))
    ensures !old(client.gone) ==>
              stored == StoredOutput(req, HeardOf(req, upstream, client.capacity, old(client.Box())),
                                     ScansFrom(req, upstream, 0).report.scanErr, client.gone)
  {
    hide Receive, ScansFrom, OnCutOff, OnEmpty, OnDone, HeardOf, HasDone, Received;
    ghost var s := ScansFrom(req, upstream, 0);
    ghost var box := client.Box();
    ReceiveThen(client.capacity, client.Box(), s.sent, Epilogue(req, s.report));
    ReportedIsText(req, upstream);
    var report;
    report, stored := ScanAttempts(req, upstream, client);
    if !box.gone && client.gone {
      LeftWithText(req, upstream, client.capacity, box);
    }
    ReceiveThen(client.capacity, client.Box(), OnCutOff(req, report.text), []);
    ReceiveThen(client.capacity, client.Box(), [], []);
    if !report.doneReceived && (report.contentEmitted || report.text != "") {
      stored := HandleCutOff(req, report.text, client);
    } else if !report.doneReceived && !client.gone && report.scanErr != Some(Canceled) {
      stored := HandleEmpty(req, report.scanErr, client);
    }
  }

  /** The created event, and the open message unless the text is buffered for tool calls. */
  method SendPrelude(req: Request, client: Client) returns (ok: bool)
    requires client.Valid()
    modifies client
    ensures client.Valid() && ok == !client.gone
            && client.Box() == Receive(client.capacity, old(client.Box()), Prelude(req))
  {
    hide Receive;
    ghost var announce := if req.bufferForToolCalls then [] else MessageAdded();
    ReceiveThen(client.capacity, client.Box(), [Created], announce);
    ok := client.Write(Created);
    if !ok {
      return;
    }
    ReceiveThen(client.capacity, client.Box(), [], []);
    if !req.bufferForToolCalls {
      ok := client.WriteMessageAdded();
    }
  }

  /**
   The whole handler. A client that accepts `capacity` writes has received that many events of the
   full trace, or all of it. What is stored is stated for every client: for one that stays it is the
   completed output. If the first attempt cannot be opened nothing is sent or stored.
   */
  method HandleResponsesStream(req: Request, upstream: nat -> Attempt, capacity: Option<nat>)
    returns (reached: bool, client: Client, stored: Option<seq<Item>>)
    ensures reached == upstream(0).openErr.None?
    ensures client.Valid() && client.capacity == capacity
    ensures client.Box() == Receive(capacity, Inbox([], false), if reached then FullTrace(req, upstream) else [])
    ensures reached && !client.gone && Answered(ScansFrom(req, upstream, 0).report)
            ==> stored == Some(OutputOf(FullTrace(req, upstream)))
    ensures stored == if reached then StoredFor(req, upstream, capacity) else None
  {
    client := new Client(capacity);
    stored := None;
    reached := upstream(0).openErr.None?;
    if !reached {
      return;
    }
    hide Receive, ScansFrom, Epilogue, Prelude, OnDone, HeardOf, StoredOutput;
    ghost var s := ScansFrom(req, upstream, 0);
    ghost var rest := s.sent + Epilogue(req, s.report);
    assert FullTrace(req, upstream) == Prelude(req) + rest;
    ReceiveThen(capacity, client.Box(), Prelude(req), rest);
    var ok := SendPrelude(req, client);
    if !ok {
      return;
    }
    stored := FinishStream(req, upstream, client);
    if Answered(s.report) {
      FinalOutput(req, upstream);
    }
  }
}
