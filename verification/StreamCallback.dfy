/**
 The stream handler's callback as a consumer of the scanner: with it the scanner delivers exactly
 the events that the handler is said to be called for.
 */
module StreamCallback {
  import opened Text
  import opened ThinkingFilter
  import opened ThinkingScanner
  import opened StreamLifecycle
  import opened StreamDelivery

  /** Events as a scan reports them; the phase plays no part in what is sent. */
  function Reported(es: seq<Event>): (outs: seq<Out>)
    ensures |outs| == |es| && Events(outs) == es
  {
    seq(|es|, i requires 0 <= i < |es| => Out(es[i], false))
  }

  /** The callback refuses an event when writing to the client has failed for it. */
  function Callback(req: Request, capacity: Option<nat>, box: Inbox): (seq<Event>, Event) -> bool
    requires capacity.Some? ==> |box.received| <= capacity.value
  {
    (seen: seq<Event>, e: Event) => !FailsAt(req, Reported(seen + [e]), |seen|, capacity, box)
  }

  /** What is sent depends on the events alone. */
  lemma {:induction false} SentAlike(req: Request, a: seq<Out>, b: seq<Out>)
    requires Events(a) == Events(b)
    ensures Sent(req, a) == Sent(req, b) && Received(a) == Received(b)
  {
    hide OnDone;
    if a != [] {
      EventsFront(a);
      EventsFront(b);
      assert a[|a| - 1].event == Events(a)[|a| - 1] == b[|b| - 1].event;
      SentAlike(req, a[..|a| - 1], b[..|b| - 1]);
    }
  }

  lemma {:induction false} EventsFront(a: seq<Out>)
    requires a != []
    ensures Events(a[..|a| - 1]) == Events(a)[..|a| - 1]
  {
  }

  lemma {:induction false} EventsPart(a: seq<Out>, i: nat)
    requires i <= |a|
    ensures Events(a[..i]) == Events(a)[..i] && Events(a[i..]) == Events(a)[i..]
  {
  }

  /** The callback refuses event `i` of a scan exactly if sending it fails. */
  lemma {:induction false} RefusesFailure(req: Request, outs: seq<Out>, i: nat, capacity: Option<nat>, box: Inbox)
    requires i < |outs| && (capacity.Some? ==> |box.received| <= capacity.value)
    ensures Callback(req, capacity, box)(Events(outs[..i]), outs[i].event) <==> !FailsAt(req, outs, i, capacity, box)
  {
    hide Sent, Received, Receive, OnDone;
    var seen := Events(outs[..i]) + [outs[i].event];
    var again := Reported(seen);
    EventsPart(outs, i);
    EventsPart(outs, i + 1);
    EventsPart(again, i);
    EventsPart(again, i + 1);
    assert Events(outs[..i + 1]) == seen == Events(again[..i + 1]);
    assert Events(outs[..i]) == Events(again[..i]);
    SentAlike(req, outs[..i + 1], again[..i + 1]);
    SentAlike(req, outs[..i], again[..i]);
    assert Events(again)[i] == outs[i].event;
  }

  /** The scanner delivers the events up to and including the first whose sending fails. */
  lemma {:induction false} CallbackSees(req: Request, outs: seq<Out>, i: nat, capacity: Option<nat>, box: Inbox)
    requires i <= |outs| && (capacity.Some? ==> |box.received| <= capacity.value)
    ensures var d := Deliver(Callback(req, capacity, box), Events(outs[..i]), Events(outs[i..]));
            && d.seen == Events(outs[..HeardFrom(req, outs, i, capacity, box)])
            && (d.accepted <==> forall j :: i <= j < |outs| ==> !FailsAt(req, outs, j, capacity, box))
    decreases |outs| - i
  {
    hide FailsAt, Callback;
    if i < |outs| {
      RefusesFailure(req, outs, i, capacity, box);
      assert Events(outs[i..])[0] == outs[i].event;
      assert Events(outs[i..])[1..] == Events(outs[i + 1..]);
      assert Events(outs[..i]) + [outs[i].event] == Events(outs[..i + 1]);
      if !FailsAt(req, outs, i, capacity, box) {
        CallbackSees(req, outs, i + 1, capacity, box);
      }
    }
  }

  /** Scanning one attempt with the handler's callback: the events it is called for, and what the scan reports. */
  method ScanAttempt(req: Request, a: Attempt, capacity: Option<nat>, box: Inbox)
    returns (seen: seq<Event>, contentEmitted: bool, scanErr: Option<StreamError>)
    requires capacity.Some? ==> |box.received| <= capacity.value
    ensures seen == Events(Heard(req, ScanOf(req, a).outs, capacity, box))
    ensures (forall j :: 0 <= j < |ScanOf(req, a).outs| ==> !FailsAt(req, ScanOf(req, a).outs, j, capacity, box)) ==>
              contentEmitted == ReportOf(req, a).contentEmitted && scanErr == ReportOf(req, a).scanErr
  {
    hide Callback, FailsAt, Scan, HeardFrom, Received, Deliver;
    var consumer := new Consumer(Callback(req, capacity, box));
    contentEmitted, scanErr := ScanSSEEvents(a.events, req.isThinking, req.showThinking, a.readErr, consumer);
    ghost var outs := ScanOf(req, a).outs;
    CallbackSees(req, outs, 0, capacity, box);
    assert outs[0..] == outs && Events(outs[..0]) == [];
    seen := consumer.seen;
  }
}
