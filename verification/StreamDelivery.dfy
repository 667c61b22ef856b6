/** What reaches a client whose connection may break at any write, and what is stored for it. */
module StreamDelivery {
  import opened Text
  import opened ThinkingFilter
  import opened StreamLifecycle
  import opened StreamTheorems

  /** What has reached a client, and whether a write to it has failed. */
  datatype Inbox = Inbox(received: seq<ClientEvent>, gone: bool)

  /** The inbox after offering events to a connection that takes only `capacity` writes. */
  function Receive(capacity: Option<nat>, box: Inbox, events: seq<ClientEvent>): (r: Inbox)
    requires capacity.Some? ==> |box.received| <= capacity.value
    ensures capacity.Some? ==> |r.received| <= capacity.value
  {
    if box.gone then box
    else if capacity.Some? && |box.received| + |events| > capacity.value then
      Inbox(box.received + events[..capacity.value - |box.received|], true)
    else Inbox(box.received + events, false)
  }

  lemma {:induction false} ReceiveConcat(capacity: Option<nat>, box: Inbox, a: seq<ClientEvent>, b: seq<ClientEvent>)
    requires capacity.Some? ==> |box.received| <= capacity.value
    ensures Receive(capacity, Receive(capacity, box, a), b) == Receive(capacity, box, a + b)
  {
  }

  /** Offering in two steps; a client that is gone takes nothing more. */
  lemma {:induction false} ReceiveThen(capacity: Option<nat>, box: Inbox, a: seq<ClientEvent>, b: seq<ClientEvent>)
    requires capacity.Some? ==> |box.received| <= capacity.value
    ensures var mid := Receive(capacity, box, a);
            && (capacity.Some? ==> |mid.received| <= capacity.value)
            && Receive(capacity, box, a + b) == Receive(capacity, mid, b)
            && (mid.gone ==> Receive(capacity, mid, b) == mid)
            && Receive(capacity, box, []) == box
            && (box.gone ==> mid == box)
  {
  }

  /** The output of the completion that ends a trace. */
  function OutputOf(trace: seq<ClientEvent>): seq<Item> {
    if trace != [] && trace[|trace| - 1].Completed? then trace[|trace| - 1].output else []
  }

  /** Once the client is gone, what would have been sent later does not matter. */
  lemma {:induction false} GoneForGood(req: Request, outs: seq<Out>, j: nat, capacity: Option<nat>, box: Inbox)
    requires j <= |outs| && (capacity.Some? ==> |box.received| <= capacity.value)
    requires Receive(capacity, box, Sent(req, outs[..j])).gone
    ensures Receive(capacity, box, Sent(req, outs)) == Receive(capacity, box, Sent(req, outs[..j]))
    decreases |outs| - j
  {
    if j == |outs| {
      assert outs[..j] == outs;
    } else {
      assert outs[..j + 1][..j] == outs[..j];
      var now := Sent(req, outs[..j + 1])[|Sent(req, outs[..j])|..];
      assert Sent(req, outs[..j + 1]) == Sent(req, outs[..j]) + now;
      ReceiveConcat(capacity, box, Sent(req, outs[..j]), now);
      GoneForGood(req, outs, j + 1, capacity, box);
    }
  }

  /** What one event of a scan sends. */
  function SentFor(req: Request, before: seq<Out>, e: Event): seq<ClientEvent> {
    if e.Done? then OnDone(req, Received(before))
    else if req.bufferForToolCalls || req.Delayed() then [] else [TextDelta(DeltaOf(e))]
  }

  lemma {:induction false} SentSnoc(req: Request, outs: seq<Out>, i: nat)
    requires i < |outs|
    ensures Sent(req, outs[..i + 1]) == Sent(req, outs[..i]) + SentFor(req, outs[..i], outs[i].event)
    ensures Received(outs[..i + 1]) == Received(outs[..i]) + DeltaOf(outs[i].event)
    ensures NoDone(outs[..i + 1]) <==> NoDone(outs[..i]) && !outs[i].event.Done?
  {
    assert outs[..i + 1][..i] == outs[..i];
    assert outs[..i + 1] == outs[..i] + [outs[i]];
  }

  /** The callback for event `j` of a scan writes something, and the client is gone by then. */
  predicate FailsAt(req: Request, outs: seq<Out>, j: nat, capacity: Option<nat>, box: Inbox)
    requires j < |outs| && (capacity.Some? ==> |box.received| <= capacity.value)
  {
    SentFor(req, outs[..j], outs[j].event) != [] && Receive(capacity, box, Sent(req, outs[..j + 1])).gone
  }

  /** How many events the callback is called for: up to and including the first that fails. */
  function HeardFrom(req: Request, outs: seq<Out>, i: nat, capacity: Option<nat>, box: Inbox): (n: nat)
    requires i <= |outs| && (capacity.Some? ==> |box.received| <= capacity.value)
    ensures i <= n <= |outs|
    decreases |outs| - i
  {
    if i == |outs| then i else if FailsAt(req, outs, i, capacity, box) then i + 1
      else HeardFrom(req, outs, i + 1, capacity, box)
  }

  /** It is the first failure that ends the calls, and nothing else. */
  lemma {:induction false} HeardUpToFailure(req: Request, outs: seq<Out>, i: nat, capacity: Option<nat>, box: Inbox)
    requires i <= |outs| && (capacity.Some? ==> |box.received| <= capacity.value)
    ensures var n := HeardFrom(req, outs, i, capacity, box);
            && (forall j :: i <= j < n - 1 ==> !FailsAt(req, outs, j, capacity, box))
            && (n < |outs| ==> i < n && FailsAt(req, outs, n - 1, capacity, box))
    decreases |outs| - i
  {
    hide FailsAt;
    if i < |outs| && !FailsAt(req, outs, i, capacity, box) {
      HeardUpToFailure(req, outs, i + 1, capacity, box);
    }
  }

  /** One step of the count. */
  lemma {:induction false} HeardNext(req: Request, outs: seq<Out>, i: nat, capacity: Option<nat>, box: Inbox,
                                     after: Inbox)
    requires i < |outs| && (capacity.Some? ==> |box.received| <= capacity.value)
    requires after == Receive(capacity, box, Sent(req, outs[..i + 1]))
    ensures HeardFrom(req, outs, i, capacity, box)
            == if after.gone && SentFor(req, outs[..i], outs[i].event) != [] then i + 1
              else HeardFrom(req, outs, i + 1, capacity, box)
  {
    hide Receive, Sent, SentFor;
  }

  /** The events of a scan that the callback is called for. */
  function Heard(req: Request, outs: seq<Out>, capacity: Option<nat>, box: Inbox): seq<Out>
    requires capacity.Some? ==> |box.received| <= capacity.value
  {
    outs[..HeardFrom(req, outs, 0, capacity, box)]
  }

  lemma {:induction false} HeardAll(req: Request, outs: seq<Out>, capacity: Option<nat>, box: Inbox)
    requires capacity.Some? ==> |box.received| <= capacity.value
    ensures HeardFrom(req, outs, |outs|, capacity, box) == |outs| && outs[..|outs|] == outs
  {
  }

  lemma {:induction false} StartOfScan(req: Request, outs: seq<Out>, capacity: Option<nat>, box: Inbox)
    requires capacity.Some? ==> |box.received| <= capacity.value
    ensures box == Receive(capacity, box, Sent(req, outs[..0])) && Received(outs[..0]) == "" && NoDone(outs[..0])
  {
  }

  lemma {:induction false} NotDoneYet(outs: seq<Out>, i: nat)
    requires i < |outs| && DoneOnlyLast(outs)
    ensures NoDone(outs[..i])
  {
  }

  /** The last attempt that is scanned. */
  function LastScan(req: Request, upstream: nat -> Attempt, n: nat): nat
    decreases req.retryCount - n
  {
    if !ShouldRetry(n, req.retryCount, ReportOf(req, upstream(n))) then n
    else if upstream(n + 1).sleepErr.Some? || upstream(n + 1).openErr.Some? then n
    else LastScan(req, upstream, n + 1)
  }

  /**
   The events of the stream that the callback is called for: those of the last scan, as the earlier ones
   were empty.
   */
  function HeardOf(req: Request, upstream: nat -> Attempt, capacity: Option<nat>, box: Inbox): seq<Out>
    requires capacity.Some? ==> |box.received| <= capacity.value
  {
    Heard(req, ScanOf(req, upstream(LastScan(req, upstream, 0))).outs, capacity, box)
  }

  lemma {:induction false} RetriedIsEmpty(req: Request, upstream: nat -> Attempt, n: nat, capacity: Option<nat>,
                                          box: Inbox)
    requires capacity.Some? ==> |box.received| <= capacity.value
    requires ShouldRetry(n, req.retryCount, ReportOf(req, upstream(n)))
    ensures ScanOf(req, upstream(n)).outs == []
            && Receive(capacity, box, Sent(req, ScanOf(req, upstream(n)).outs)) == box
  {
    EmptySendsNothing(req, upstream(n));
  }

  lemma {:induction false} SentFirst(req: Request, upstream: nat -> Attempt, n: nat, capacity: Option<nat>, box: Inbox)
    requires capacity.Some? ==> |box.received| <= capacity.value
    ensures var sent, s := Sent(req, ScanOf(req, upstream(n)).outs), ScansFrom(req, upstream, n);
            && sent <= s.sent
            && (capacity.Some? ==> |Receive(capacity, box, sent).received| <= capacity.value)
            && Receive(capacity, box, s.sent) == Receive(capacity, Receive(capacity, box, sent), s.sent[|sent|..])
            && (Receive(capacity, box, sent).gone ==> Receive(capacity, box, s.sent) == Receive(capacity, box, sent))
  {
    var sent, s := Sent(req, ScanOf(req, upstream(n)).outs), ScansFrom(req, upstream, n);
    assert s.sent == sent + s.sent[|sent|..];
    ReceiveThen(capacity, box, sent, s.sent[|sent|..]);
  }

  predicate EndsCompleted(trace: seq<ClientEvent>) {
    trace != [] && trace[|trace| - 1].Completed?
  }

  lemma {:induction false} LastWins(a: seq<ClientEvent>, b: seq<ClientEvent>)
    requires EndsCompleted(b)
    ensures EndsCompleted(a + b) && OutputOf(a + b) == OutputOf(b)
  {
  }

  /** The trace ends with the completion that its last scan, or what follows it, sent. */
  lemma {:induction false} FinalOutput(req: Request, upstream: nat -> Attempt)
    requires Answered(ScansFrom(req, upstream, 0).report)
    ensures var s := ScansFrom(req, upstream, 0);
            OutputOf(FullTrace(req, upstream))
              == OutputOf(if s.report.doneReceived then OnDone(req, s.report.text) else Epilogue(req, s.report))
  {
    hide ScansFrom, ScanOf, OnDone, OnCutOff, OnEmpty, OutputOf, Sent, Received, EndsCompleted, DoneOnlyLast, NoDone,
      Prelude;
    var s := ScansFrom(req, upstream, 0);
    SingleAttempt(req, upstream, 0);
    if s.report.doneReceived {
      DoneIsLast(req, upstream(s.last));
      SomeDone(ScanOf(req, upstream(s.last)).outs);
      SentEndsDone(req, ScanOf(req, upstream(s.last)).outs);
      LastWins(Prelude(req), s.sent);
      assert Prelude(req) + s.sent + [] == Prelude(req) + s.sent;
    } else {
      EpilogueCompletes(req, s.report);
      LastWins(Prelude(req) + s.sent, Epilogue(req, s.report));
    }
  }

  lemma {:induction false} SomeDone(outs: seq<Out>)
    ensures outs == [] ==> NoDone(outs)
  {
  }

  lemma {:induction false} EpilogueCompletes(req: Request, r: Report)
    requires Answered(r) && !r.doneReceived
    ensures EndsCompleted(Epilogue(req, r))
  {
  }

  lemma {:induction false} SentEndsDone(req: Request, outs: seq<Out>)
    requires outs != [] && outs[|outs| - 1].event.Done?
    ensures EndsCompleted(Sent(req, outs)) && OutputOf(Sent(req, outs)) == OutputOf(OnDone(req, Received(outs)))
  {
    var before := outs[..|outs| - 1];
    assert Received(outs) == Received(before) + "" == Received(before);
    LastWins(Sent(req, before), OnDone(req, Received(before)));
  }

  // A client that leaves while a scan is delivered has been sent some of its text, or the completion.

  lemma {:induction false} ReceivedKeeps(outs: seq<Out>, i: nat)
    requires i < |outs| && DeltaOf(outs[i].event) != ""
    ensures Received(outs) != ""
  {
    if i < |outs| - 1 {
      ReceivedKeeps(outs[..|outs| - 1], i);
    }
  }

  /** The event with which the client leaves fails. */
  lemma {:induction false} LeavingFails(req: Request, outs: seq<Out>, i: nat, capacity: Option<nat>, box: Inbox)
    requires i < |outs| && (capacity.Some? ==> |box.received| <= capacity.value)
    requires !Receive(capacity, box, Sent(req, outs[..i])).gone && Receive(capacity, box, Sent(req, outs[..i + 1])).gone
    ensures FailsAt(req, outs, i, capacity, box)
  {
    hide SentFor, Receive, Sent;
    SentSnoc(req, outs, i);
    assert Sent(req, outs[..i]) + [] == Sent(req, outs[..i]);
  }

  lemma {:induction false} SomeFailure(req: Request, outs: seq<Out>, i: nat, capacity: Option<nat>, box: Inbox)
    requires i <= |outs| && (capacity.Some? ==> |box.received| <= capacity.value)
    requires !Receive(capacity, box, Sent(req, outs[..i])).gone && Receive(capacity, box, Sent(req, outs)).gone
    ensures exists j :: i <= j < |outs| && FailsAt(req, outs, j, capacity, box)
    decreases |outs| - i
  {
    hide Receive, Sent, FailsAt;
    assert outs[..|outs|] == outs;
    if i < |outs| {
      if Receive(capacity, box, Sent(req, outs[..i + 1])).gone {
        LeavingFails(req, outs, i, capacity, box);
      } else {
        SomeFailure(req, outs, i + 1, capacity, box);
      }
    }
  }

  /** If there is a failure, the last event that the callback is called for is one. */
  lemma {:induction false} LastHeardFails(req: Request, outs: seq<Out>, capacity: Option<nat>, box: Inbox)
    requires (capacity.Some? ==> |box.received| <= capacity.value) && !box.gone
             && Receive(capacity, box, Sent(req, outs)).gone
    ensures var n := HeardFrom(req, outs, 0, capacity, box); n > 0 && FailsAt(req, outs, n - 1, capacity, box)
  {
    hide FailsAt, Received, Sent, Receive;
    StartOfScan(req, outs, capacity, box);
    SomeFailure(req, outs, 0, capacity, box);
    HeardUpToFailure(req, outs, 0, capacity, box);
  }

  /** An event whose sending fails carries text, unless it is the done event. */
  lemma {:induction false} FailureHasText(req: Request, outs: seq<Out>, j: nat, capacity: Option<nat>, box: Inbox)
    requires j < |outs| && (capacity.Some? ==> |box.received| <= capacity.value) && FailsAt(req, outs, j, capacity, box)
    requires NoEmptyText(outs)
    ensures outs[j].event.Done? || DeltaOf(outs[j].event) != ""
  {
    hide Receive, Sent;
    assert |ANSWER| > 0;
  }

  lemma {:induction false} LeavesWithText(req: Request, a: Attempt, capacity: Option<nat>, box: Inbox)
    requires (capacity.Some? ==> |box.received| <= capacity.value) && !box.gone
    requires Receive(capacity, box, Sent(req, ScanOf(req, a).outs)).gone
    ensures var heard := Heard(req, ScanOf(req, a).outs, capacity, box); HasDone(heard) || Received(heard) != ""
  {
    hide FailsAt, ScanOf, Received, Receive, Sent, HeardFrom;
    var outs := ScanOf(req, a).outs;
    var n := HeardFrom(req, outs, 0, capacity, box);
    ScanTexts(req, a);
    LastHeardFails(req, outs, capacity, box);
    FailureHasText(req, outs, n - 1, capacity, box);
    var heard := outs[..n];
    assert heard[n - 1] == outs[n - 1];
    if !heard[n - 1].event.Done? {
      ReceivedKeeps(heard, n - 1);
    }
  }

  lemma {:induction false} EmittedIsText(req: Request, a: Attempt)
    ensures ReportOf(req, a).contentEmitted ==> ReportOf(req, a).text != ""
  {
    hide Scan, Received;
    HasContentIsSomeContent(a.events, req.isThinking, req.showThinking, a.readErr);
    ScanTexts(req, a);
    var outs := ScanOf(req, a).outs;
    if i :| 0 <= i < |outs| && IsContent(outs[i]) {
      ReceivedKeeps(outs, i);
    }
  }

  /** In the report of the last attempt as well, content means text. */
  lemma {:induction false} ReportedIsText(req: Request, upstream: nat -> Attempt)
    ensures var r := ScansFrom(req, upstream, 0).report; r.contentEmitted ==> r.text != ""
  {
    hide ScansFrom, ReportOf, Sent, ScanOf;
    SingleAttempt(req, upstream, 0);
    EmittedIsText(req, upstream(ScansFrom(req, upstream, 0).last));
  }

  /**
   What is stored of a stream whose client was called for the events `heard` and is gone, or not, at the end:
   a completion on done only if it was delivered, a cut-off answer always, and with the text received
   up to the write that failed, and a stand-in for an empty answer only if it was delivered.
   */
  function StoredOutput(req: Request, heard: seq<Out>, scanErr: Option<StreamError>, gone: bool): Option<seq<Item>> {
    if HasDone(heard) then if gone then None else Some(OutputOf(OnDone(req, Received(heard))))
    else if Received(heard) != "" then Some(OutputOf(OnCutOff(req, Received(heard))))
    else if gone || scanErr == Some(Canceled) then None
    else Some(OutputOf(OnEmpty(req, scanErr)))
  }

  lemma {:induction false} LeftWithText(req: Request, upstream: nat -> Attempt, capacity: Option<nat>, box: Inbox)
    requires (capacity.Some? ==> |box.received| <= capacity.value) && !box.gone
    requires Receive(capacity, box, ScansFrom(req, upstream, 0).sent).gone
    ensures var heard := HeardOf(req, upstream, capacity, box); HasDone(heard) || Received(heard) != ""
  {
    hide ScanOf, Received, Sent, HasDone, Heard, Receive;
    ReceiveThen(capacity, box, [], []);
    SentByLast(req, upstream, 0);
    LeavesWithText(req, upstream(LastScan(req, upstream, 0)), capacity, box);
  }

  /** All that is sent while scanning is sent by the last scan. */
  lemma {:induction false} SentByLast(req: Request, upstream: nat -> Attempt, n: nat)
    ensures ScansFrom(req, upstream, n).sent == Sent(req, ScanOf(req, upstream(LastScan(req, upstream, n))).outs)
    decreases req.retryCount - n
  {
    hide ScanOf, Sent, ReportOf;
    if ShouldRetry(n, req.retryCount, ReportOf(req, upstream(n))) {
      EmptySendsNothing(req, upstream(n));
      if upstream(n + 1).sleepErr.None? && upstream(n + 1).openErr.None? {
        SentByLast(req, upstream, n + 1);
      }
    }
  }

  /** Whether a client that takes `capacity` writes is gone in the end. */
  predicate Leaves(req: Request, upstream: nat -> Attempt, capacity: Option<nat>) {
    Receive(capacity, Inbox([], false), FullTrace(req, upstream)).gone
  }

  /** What is stored for a client that takes `capacity` writes: nothing if it leaves during the prelude. */
  function StoredFor(req: Request, upstream: nat -> Attempt, capacity: Option<nat>): Option<seq<Item>> {
    var box := Receive(capacity, Inbox([], false), Prelude(req));
    if box.gone then None
    else
      StoredOutput(req, HeardOf(req, upstream, capacity, box), ScansFrom(req, upstream, 0).report.scanErr,
                   Leaves(req, upstream, capacity))
  }

  /** The report's text is that of the last scan. */
  lemma {:induction false} ReportOfLast(req: Request, upstream: nat -> Attempt, n: nat)
    ensures var r, outs := ScansFrom(req, upstream, n).report, ScanOf(req, upstream(LastScan(req, upstream, n))).outs;
            r.text == Received(outs) && r.doneReceived == HasDone(outs)
    decreases req.retryCount - n
  {
    hide ScanOf, Sent, Received, HasDone;
    if ShouldRetry(n, req.retryCount, ReportOf(req, upstream(n))) {
      EmptySendsNothing(req, upstream(n));
      if upstream(n + 1).sleepErr.None? && upstream(n + 1).openErr.None? {
        ReportOfLast(req, upstream, n + 1);
      }
    }
  }

  /** A client that leaves while the scans are delivered is gone in the end. */
  lemma {:induction false} LeftEarly(req: Request, upstream: nat -> Attempt, capacity: Option<nat>)
    ensures var box := Receive(capacity, Inbox([], false), Prelude(req));
            Receive(capacity, box, ScansFrom(req, upstream, 0).sent).gone ==> Leaves(req, upstream, capacity)
  {
    hide Receive, ScansFrom, Prelude, Epilogue;
    var start := Inbox([], false);
    var s := ScansFrom(req, upstream, 0);
    assert FullTrace(req, upstream) == Prelude(req) + (s.sent + Epilogue(req, s.report));
    ReceiveThen(capacity, start, Prelude(req), s.sent + Epilogue(req, s.report));
    ReceiveThen(capacity, Receive(capacity, start, Prelude(req)), s.sent, Epilogue(req, s.report));
  }

  /** The callback is called for all events of the last scan unless the client leaves. */
  lemma {:induction false} HeardUnlessLeft(req: Request, upstream: nat -> Attempt, capacity: Option<nat>)
    requires !Receive(capacity, Inbox([], false), Prelude(req)).gone
    ensures var outs := ScanOf(req, upstream(LastScan(req, upstream, 0))).outs;
            var heard := HeardOf(req, upstream, capacity, Receive(capacity, Inbox([], false), Prelude(req)));
            && |heard| <= |outs| && heard == outs[..|heard|]
            && (|heard| < |outs| ==> Leaves(req, upstream, capacity) && (HasDone(heard) || Received(heard) != ""))
  {
    hide Receive, ScansFrom, Prelude, Heard, Sent, ScanOf, Received, HasDone, Leaves, LastScan;
    var outs := ScanOf(req, upstream(LastScan(req, upstream, 0))).outs;
    var box := Receive(capacity, Inbox([], false), Prelude(req));
    SentByLast(req, upstream, 0);
    HeardIsPrefix(req, outs, capacity, box);
    if |HeardOf(req, upstream, capacity, box)| < |outs| {
      LeftEarly(req, upstream, capacity);
      LeftWithText(req, upstream, capacity, box);
    }
  }

  lemma {:induction false} HeardIsPrefix(req: Request, outs: seq<Out>, capacity: Option<nat>, box: Inbox)
    requires capacity.Some? ==> |box.received| <= capacity.value
    ensures var heard := Heard(req, outs, capacity, box);
            && |heard| <= |outs| && heard == outs[..|heard|]
            && (|heard| < |outs| ==> Receive(capacity, box, Sent(req, outs)).gone)
  {
    hide Receive, FailsAt, Sent, HeardFrom;
    var k := HeardFrom(req, outs, 0, capacity, box);
    HeardUpToFailure(req, outs, 0, capacity, box);
    if k < |outs| {
      FailureIsLeaving(req, outs, k - 1, capacity, box);
    }
  }

  lemma {:induction false} FailureIsLeaving(req: Request, outs: seq<Out>, j: nat, capacity: Option<nat>, box: Inbox)
    requires j < |outs| && (capacity.Some? ==> |box.received| <= capacity.value) && FailsAt(req, outs, j, capacity, box)
    ensures Receive(capacity, box, Sent(req, outs)).gone
  {
    hide Receive, Sent, SentFor;
    GoneForGood(req, outs, j + 1, capacity, box);
  }

  /**
   An answer that is cut off is stored for every client that did not leave during the prelude, built
   from the text up to the write that failed: for a client that leaves in between, from a beginning of
   what the upstream sent.
   */
  lemma {:induction false} CutOffStored(req: Request, upstream: nat -> Attempt, capacity: Option<nat>)
    requires var r := ScansFrom(req, upstream, 0).report; !r.doneReceived && r.text != ""
    ensures var outs := ScanOf(req, upstream(LastScan(req, upstream, 0))).outs;
            if Receive(capacity, Inbox([], false), Prelude(req)).gone then StoredFor(req, upstream, capacity) == None
            else exists k: nat ::
              && k <= |outs| && (k < |outs| ==> Leaves(req, upstream, capacity)) && Received(outs[..k]) != ""
              && StoredFor(req, upstream, capacity) == Some(OutputOf(OnCutOff(req, Received(outs[..k]))))
  {
    hide ScanOf, Sent, Received, Heard, OnDone, OnCutOff, OnEmpty, OutputOf, Prelude, Receive, Leaves, HeardOf;
    var outs := ScanOf(req, upstream(LastScan(req, upstream, 0))).outs;
    ReportOfLast(req, upstream, 0);
    if !Receive(capacity, Inbox([], false), Prelude(req)).gone {
      HeardUnlessLeft(req, upstream, capacity);
      var heard := HeardOf(req, upstream, capacity, Receive(capacity, Inbox([], false), Prelude(req)));
      assert outs[..|outs|] == outs;
      assert NoDone(heard);
      assert Received(outs[..|heard|]) != "";
    }
  }
}
