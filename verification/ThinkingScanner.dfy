/**
 The SSE scanner as the source runs it: a mutable scan state, a consumer that may refuse an
 event, and loops over the events and over the tags of one event. Each method is tied to the
 value-level functions of ThinkingFilter.
 */
module ThinkingScanner {
  import opened Text
  import opened ThinkingFilter

  /** The consumer's view after offering it events in order until it refuses one. */
  datatype Delivery = Delivery(seen: seq<Event>, accepted: bool)

  function Deliver(accept: (seq<Event>, Event) -> bool, seen: seq<Event>, events: seq<Event>): Delivery
    decreases |events|
  {
    if events == [] then Delivery(seen, true)
    else if accept(seen, events[0]) then Deliver(accept, seen + [events[0]], events[1..])
    else Delivery(seen + [events[0]], false)
  }

  /** Offering two batches is offering the first, then the second unless something was refused. */
  lemma {:induction false} DeliverConcat(accept: (seq<Event>, Event) -> bool, seen: seq<Event>, a: seq<Event>,
                                         b: seq<Event>)
    ensures var first := Deliver(accept, seen, a);
            Deliver(accept, seen, a + b) == if first.accepted then Deliver(accept, first.seen, b) else first
    decreases |a|
  {
    if a == [] {
      assert a + b == b;
    } else {
      assert (a + b)[1..] == a[1..] + b;
      DeliverConcat(accept, seen + [a[0]], a[1..], b);
    }
  }

  /** Whatever it refuses, a consumer has seen a prefix of what an accepting one sees. */
  lemma {:induction false} DeliverIsPrefix(accept: (seq<Event>, Event) -> bool, seen: seq<Event>, events: seq<Event>)
    ensures var d := Deliver(accept, seen, events);
            d.seen <= seen + events && (d.accepted ==> d.seen == seen + events) && (!d.accepted ==> |seen| < |d.seen|)
    decreases |events|
  {
    if events != [] && accept(seen, events[0]) {
      DeliverIsPrefix(accept, seen + [events[0]], events[1..]);
      assert seen + [events[0]] + events[1..] == seen + events;
    }
  }

  lemma {:induction false} EventsConcat(a: seq<Out>, b: seq<Out>)
    ensures Events(a + b) == Events(a) + Events(b)
  {
  }

  class Consumer {
    const accept: (seq<Event>, Event) -> bool
    var seen: seq<Event>

    constructor (accept: (seq<Event>, Event) -> bool)
      ensures this.accept == accept && seen == []
    {
      this.accept := accept;
      seen := [];
    }

    method OnEvent(e: Event) returns (ok: bool)
      modifies this
      ensures seen == old(seen) + [e] && ok == accept(old(seen), e)
    {
      ok := accept(seen, e);
      seen := seen + [e];
    }
  }

  class ThinkingScanState {
    var inThinking: bool
    var separatorSeen: bool
    var tagSeen: bool
    var visibleEmitted: bool
    var inThinkTag: bool
    var hiddenBuffer: string

    constructor (isThinking: bool)
      ensures State() == Start(isThinking)
    {
      inThinking, separatorSeen, tagSeen, visibleEmitted, inThinkTag := isThinking, false, false, false, false;
      hiddenBuffer := "";
    }

    ghost function State(): ScanState
      reads this
    {
      ScanState(inThinking, separatorSeen, tagSeen, visibleEmitted, inThinkTag, hiddenBuffer)
    }

    method EmitVisible(content: string, consumer: Consumer) returns (ok: bool)
      modifies this, consumer
      ensures State() == Emit(content, old(State())).state
      ensures Delivery(consumer.seen, ok)
           == Deliver(consumer.accept, old(consumer.seen), Events(Emit(content, old(State())).outs))
    {
      if content == "" {
        return true;
      }
      visibleEmitted := true;
      ok := consumer.OnEvent(Content(content));
    }

    /** The text before the tag that ends a thinking phase, then the separator. */
    method LeaveThinking(before: string, show: bool, consumer: Consumer) returns (ok: bool)
      requires inThinking || inThinkTag
      modifies this, consumer
      ensures var s := Act(CloseTag, before, show, old(State()));
              && Delivery(consumer.seen, ok) == Deliver(consumer.accept, old(consumer.seen), Events(s.outs))
              && (ok ==> State() == s.state)
    {
      ghost var st, seen := State(), consumer.seen;
      DeliverOuts(consumer.accept, seen, EmitIf(show, before, st).outs, SeparatorIf(show));
      ok := true;
      if show {
        ok := EmitVisible(before, consumer);
        if !ok {
          return;
        }
      }
      inThinkTag, inThinking, separatorSeen := false, false, true;
      if show {
        ok := consumer.OnEvent(Separator);
      }
    }

    /** One round of the tag loop; `rest` is the text still to be looked at. */
    method HandleTagTurn(content: string, show: bool, consumer: Consumer) returns (ok: bool, rest: Option<string>)
      modifies this, consumer
      ensures var t := TagTurn(content, show, old(State()));
              && Delivery(consumer.seen, ok) == Deliver(consumer.accept, old(consumer.seen), Events(t.outs))
              && (ok ==> State() == t.state && rest == t.rest)
    {
      ok, rest := true, None;
      var closeIdx := Index(content, CLOSE_TAG);
      if inThinkTag {
        if closeIdx < 0 {
          if show {
            ok := EmitVisible(content, consumer);
          }
          return;
        }
        ok := LeaveThinking(content[..closeIdx], show, consumer);
        rest := Some(content[closeIdx + |CLOSE_TAG|..]);
        return;
      }
      var openIdx := Index(content, OPEN_TAG);
      if closeIdx >= 0 && (openIdx < 0 || closeIdx < openIdx) {
        if inThinking {
          ok := LeaveThinking(content[..closeIdx], show, consumer);
        } else if content[..closeIdx] != "" {
          ok := EmitVisible(content[..closeIdx], consumer);
        }
        rest := Some(content[closeIdx + |CLOSE_TAG|..]);
        return;
      }
      if openIdx < 0 {
        ok := EmitVisible(content, consumer);
        return;
      }
      if content[..openIdx] != "" {
        ok := EmitVisible(content[..openIdx], consumer);
        if !ok {
          return;
        }
      }
      rest := Some(content[openIdx + |OPEN_TAG|..]);
      inThinkTag, inThinking := true, true;
    }

    method HandleTagged(content: string, show: bool, consumer: Consumer) returns (ok: bool)
      modifies this, consumer
      ensures var s := Tagged(content, show, old(State()).(tagSeen := true));
              && Delivery(consumer.seen, ok) == Deliver(consumer.accept, old(consumer.seen), Events(s.outs))
              && (ok ==> State() == s.state)
    {
      tagSeen := true;
      var remaining := content;
      ghost var seen, st := consumer.seen, State();
      while true
        invariant Deliver(consumer.accept, consumer.seen, Events(Tagged(remaining, show, State()).outs))
               == Deliver(consumer.accept, seen, Events(Tagged(content, show, st).outs))
        invariant Tagged(remaining, show, State()).state == Tagged(content, show, st).state
        decreases |remaining|
      {
        TaggedDeliver(consumer.accept, consumer.seen, remaining, show, State());
        var rest;
        ok, rest := HandleTagTurn(remaining, show, consumer);
        if !ok || rest.None? {
          return;
        }
        remaining := rest.value;
      }
    }
  }

  /** The tag loop seen by a consumer: one round, then the rest unless the round was refused. */
  lemma {:induction false} TaggedDeliver(accept: (seq<Event>, Event) -> bool, seen: seq<Event>, text: string,
                                         show: bool, st: ScanState)
    ensures var t, s := TagTurn(text, show, st), Tagged(text, show, st);
            var first := Deliver(accept, seen, Events(t.outs));
            && Deliver(accept, seen, Events(s.outs))
               == (if t.rest.None? || !first.accepted then first
                   else Deliver(accept, first.seen, Events(Tagged(t.rest.value, show, t.state).outs)))
            && s.state == if t.rest.None? then t.state else Tagged(t.rest.value, show, t.state).state
  {
    var t := TagTurn(text, show, st);
    if t.rest.Some? {
      DeliverOuts(accept, seen, t.outs, Tagged(t.rest.value, show, t.state).outs);
    }
  }

  lemma {:induction false} DeliverOuts(accept: (seq<Event>, Event) -> bool, seen: seq<Event>, a: seq<Out>, b: seq<Out>)
    ensures var first := Deliver(accept, seen, Events(a));
            Deliver(accept, seen, Events(a + b)) == if first.accepted then Deliver(accept, first.seen, Events(b))
              else first
  {
    EventsConcat(a, b);
    DeliverConcat(accept, seen, Events(a), Events(b));
  }

  /** Scanning one content event: what the consumer sees, and the next state unless it refuses. */
  method ScanContentEvent(content: string, isThinking: bool, show: bool, state: ThinkingScanState, consumer: Consumer)
    returns (ok: bool, emitted: bool)
    modifies state, consumer
    ensures var s := ScanContent(content, isThinking, show, old(state.State()));
            && Delivery(consumer.seen, ok) == Deliver(consumer.accept, old(consumer.seen), Events(s.outs))
            && (ok ==> state.State() == s.state)
            && (ok ==> emitted ==> s.state.visibleEmitted)
            && (ok ==> !emitted ==> s.state.visibleEmitted == old(state.visibleEmitted))
  {
    ok, emitted := true, false;
    if content == "" {
      return;
    }
    if content == SEPARATOR {
      if isThinking {
        state.inThinking, state.separatorSeen, state.hiddenBuffer := false, true, "";
        if show {
          ok := consumer.OnEvent(Separator);
        }
      }
      return;
    }
    if isThinking && (state.inThinkTag || Contains(content, OPEN_TAG) || Contains(content, CLOSE_TAG)) {
      ok := state.HandleTagged(content, show, consumer);
      emitted := state.visibleEmitted;
      TaggedFlag(content, show, old(state.State()).(tagSeen := true));
      return;
    }
    if isThinking && state.inThinking {
      if show {
        ok := state.EmitVisible(content, consumer);
        emitted := true;
      } else {
        state.hiddenBuffer := state.hiddenBuffer + content;
      }
      return;
    }
    ok := state.EmitVisible(content, consumer);
    emitted := true;
  }

  /** The done event: release the hidden buffer if nothing else was visible, then report the end. */
  method FinishScan(isThinking: bool, show: bool, readErr: Option<StreamError>, state: ThinkingScanState,
                    consumer: Consumer)
    returns (hasContent: bool, err: Option<StreamError>)
    modifies state, consumer
    ensures var end := Ending(isThinking, show, old(state.State()));
            var d := Deliver(consumer.accept, old(consumer.seen), Events(end.outs));
            && consumer.seen == d.seen && err == (if d.accepted then readErr else None)
            && hasContent == (end.state.visibleEmitted && |consumer.seen| == |old(consumer.seen)| + |end.outs|)
  {
    ghost var st, seen := state.State(), consumer.seen;
    hasContent := state.visibleEmitted;
    if isThinking && !show && !state.separatorSeen && !state.tagSeen && !state.visibleEmitted
      && state.hiddenBuffer != "" {
      ghost var flush := Emit(st.hidden, st);
      DeliverOuts(consumer.accept, seen, flush.outs, [Out(Done, flush.state.Thinking())]);
      var ok := state.EmitVisible(state.hiddenBuffer, consumer);
      if !ok {
        return hasContent, None;
      }
      hasContent := hasContent || state.visibleEmitted;
    }
    var ok := consumer.OnEvent(Done);
    err := if ok then readErr else None;
  }

  /** What the consumer makes of the events before position `i`. */
  function DeliveredBody(accept: (seq<Event>, Event) -> bool, seen: seq<Event>, events: seq<SSEEvent>, i: nat,
                         isThinking: bool, show: bool): Delivery
    requires i <= |events|
  {
    Deliver(accept, seen, Events(ScanBody(events[..i], isThinking, show).outs))
  }

  /** The consumer takes all that comes of the events before position `j` and refuses something of the next. */
  predicate RefusedAt(accept: (seq<Event>, Event) -> bool, seen: seq<Event>, events: seq<SSEEvent>, j: nat,
                      isThinking: bool, show: bool) {
    && j < BodyLength(events)
    && DeliveredBody(accept, seen, events, j, isThinking, show).accepted
    && !DeliveredBody(accept, seen, events, j + 1, isThinking, show).accepted
  }

  lemma {:induction false} DeliveredSnoc(accept: (seq<Event>, Event) -> bool, seen: seq<Event>, events: seq<SSEEvent>,
                                         i: nat,
                                         isThinking: bool, show: bool)
    requires i < |events|
    ensures var first := DeliveredBody(accept, seen, events, i, isThinking, show);
            var s := ScanContent(events[i].content, isThinking, show, ScanBody(events[..i], isThinking, show).state);
            DeliveredBody(accept, seen, events, i + 1, isThinking, show)
            == if first.accepted then Deliver(accept, first.seen, Events(s.outs)) else first
  {
    hide ScanBody, ScanContent, Deliver;
    var b := ScanBody(events[..i], isThinking, show);
    BodySnoc(events, i, isThinking, show);
    DeliverOuts(accept, seen, b.outs, ScanContent(events[i].content, isThinking, show, b.state).outs);
  }

  /** What is refused stays refused. */
  lemma {:induction false} RefusedStays(accept: (seq<Event>, Event) -> bool, seen: seq<Event>, events: seq<SSEEvent>,
                                        j: nat, k: nat,
                                        isThinking: bool, show: bool)
    requires j <= k <= |events| && !DeliveredBody(accept, seen, events, j, isThinking, show).accepted
    ensures DeliveredBody(accept, seen, events, k, isThinking, show)
            == DeliveredBody(accept, seen, events, j, isThinking, show)
  {
    hide DeliveredBody, ScanContent, Deliver;
    if j < k {
      RefusedStays(accept, seen, events, j, k - 1, isThinking, show);
      DeliveredSnoc(accept, seen, events, k - 1, isThinking, show);
    }
  }

  /** So there is at most one event of which something is refused. */
  lemma {:induction false} RefusedOnce(accept: (seq<Event>, Event) -> bool, seen: seq<Event>, events: seq<SSEEvent>,
                                       j: nat, k: nat,
                                       isThinking: bool, show: bool)
    requires RefusedAt(accept, seen, events, j, isThinking, show)
             && RefusedAt(accept, seen, events, k, isThinking, show)
    ensures j == k
  {
    hide DeliveredBody;
    if j < k {
      RefusedStays(accept, seen, events, j + 1, k, isThinking, show);
    } else if k < j {
      RefusedStays(accept, seen, events, k + 1, j, isThinking, show);
    }
  }

  /** The consumer's view of a whole scan: that of the events before the end, then the end. */
  lemma {:induction false} ScanDelivered(accept: (seq<Event>, Event) -> bool, seen: seq<Event>, events: seq<SSEEvent>,
                                         isThinking: bool, show: bool, readErr: Option<StreamError>)
    ensures var n := BodyLength(events);
            var r, b := Scan(events, isThinking, show, readErr),
              DeliveredBody(accept, seen, events, n, isThinking, show);
            var body := ScanBody(events[..n], isThinking, show);
            if n < |events| && events[n].kind == "done" then
              var end := Ending(isThinking, show, body.state);
              && Deliver(accept, seen, Events(r.outs))
                 == (if b.accepted then Deliver(accept, b.seen, Events(end.outs)) else b)
              && |r.outs| == |body.outs| + |end.outs| && r.state == end.state && r.err == readErr
            else
              && Deliver(accept, seen, Events(r.outs)) == b && r.outs == body.outs && r.state == body.state
              && r.err == if n < |events| then Some(UpstreamError(events[n])) else readErr
  {
    hide ScanBody, Deliver, Ending;
    ScanIsBodyThenEnd(events, isThinking, show, readErr);
    var body := ScanBody(events[..BodyLength(events)], isThinking, show);
    DeliverOuts(accept, seen, body.outs, Ending(isThinking, show, body.state).outs);
  }

  /**
   The content flag of a scan: that of the events before the one of which something is refused, or of
   the whole scan unless something of its end but the last event is refused.
   */
  ghost predicate FlagOfScan(accept: (seq<Event>, Event) -> bool, seen: seq<Event>, events: seq<SSEEvent>,
                             isThinking: bool, show: bool, readErr: Option<StreamError>, flag: bool) {
    if DeliveredBody(accept, seen, events, BodyLength(events), isThinking, show).accepted then
      var r := Scan(events, isThinking, show, readErr);
      flag == (r.state.visibleEmitted && |Deliver(accept, seen, Events(r.outs)).seen| == |seen| + |r.outs|)
    else
      exists j: nat :: RefusedAt(accept, seen, events, j, isThinking, show)
                  && flag == ScanBody(events[..j], isThinking, show).state.visibleEmitted
  }

  lemma {:induction false} FlagWhenRefused(accept: (seq<Event>, Event) -> bool, seen: seq<Event>, events: seq<SSEEvent>,
                                           j: nat,
                                           isThinking: bool, show: bool, readErr: Option<StreamError>)
    requires RefusedAt(accept, seen, events, j, isThinking, show)
    ensures FlagOfScan(accept, seen, events, isThinking, show, readErr,
            ScanBody(events[..j], isThinking, show).state.visibleEmitted)
    ensures Deliver(accept, seen, Events(Scan(events, isThinking, show, readErr).outs))
            == DeliveredBody(accept, seen, events, j + 1, isThinking, show)
  {
    hide ScanBody, Deliver, Scan, Ending;
    RefusedStays(accept, seen, events, j + 1, BodyLength(events), isThinking, show);
    ScanDelivered(accept, seen, events, isThinking, show, readErr);
    hide DeliveredBody;
  }

  lemma {:induction false} FlagWhenTaken(accept: (seq<Event>, Event) -> bool, seen: seq<Event>, events: seq<SSEEvent>,
                                         isThinking: bool, show: bool, readErr: Option<StreamError>)
    requires DeliveredBody(accept, seen, events, BodyLength(events), isThinking, show).accepted
    ensures var n := BodyLength(events);
            var body := ScanBody(events[..n], isThinking, show);
            DeliveredBody(accept, seen, events, n, isThinking, show).seen == seen + Events(body.outs)
    ensures var r := Scan(events, isThinking, show, readErr);
            var d := Deliver(accept, seen, Events(r.outs));
            d.accepted ==> FlagOfScan(accept, seen, events, isThinking, show, readErr, r.state.visibleEmitted)
  {
    hide ScanBody, Deliver, Scan;
    DeliverIsPrefix(accept, seen, Events(ScanBody(events[..BodyLength(events)], isThinking, show).outs));
    DeliverIsPrefix(accept, seen, Events(Scan(events, isThinking, show, readErr).outs));
  }

  lemma {:induction false} FlagAtEnd(accept: (seq<Event>, Event) -> bool, seen: seq<Event>, events: seq<SSEEvent>,
                                     isThinking: bool, show: bool, readErr: Option<StreamError>)
    requires BodyLength(events) < |events| && events[BodyLength(events)].kind == "done"
    requires DeliveredBody(accept, seen, events, BodyLength(events), isThinking, show).accepted
    ensures var n := BodyLength(events);
            var b := DeliveredBody(accept, seen, events, n, isThinking, show);
            var end := Ending(isThinking, show, ScanBody(events[..n], isThinking, show).state);
            var d := Deliver(accept, b.seen, Events(end.outs));
            var flag := end.state.visibleEmitted && |d.seen| == |b.seen| + |end.outs|;
            && FlagOfScan(accept, seen, events, isThinking, show, readErr, flag)
            && (d.accepted ==> flag == Scan(events, isThinking, show, readErr).state.visibleEmitted)
  {
    hide ScanBody, Deliver, Scan, Ending;
    var n := BodyLength(events);
    var b := DeliveredBody(accept, seen, events, n, isThinking, show);
    var end := Ending(isThinking, show, ScanBody(events[..n], isThinking, show).state);
    ScanDelivered(accept, seen, events, isThinking, show, readErr);
    FlagWhenTaken(accept, seen, events, isThinking, show, readErr);
    DeliverIsPrefix(accept, b.seen, Events(end.outs));
  }

  /**
   The scanner from decoded events on. Whatever the consumer accepts, it sees the events of the
   unrefused scan up to and including the first it refuses; the content flag tells what was emitted
   before the upstream event at which it refused, and there is an error only if it refused nothing.
   */
  method ScanSSEEvents(events: seq<SSEEvent>, isThinking: bool, show: bool, readErr: Option<StreamError>,
                       consumer: Consumer)
    returns (hasContent: bool, err: Option<StreamError>)
    modifies consumer
    ensures var r := Scan(events, isThinking, show, readErr);
            var d := Deliver(consumer.accept, old(consumer.seen), Events(r.outs));
            && consumer.seen == d.seen && err == (if d.accepted then r.err else None)
            && (d.accepted ==> hasContent == r.state.visibleEmitted)
    ensures FlagOfScan(consumer.accept, old(consumer.seen), events, isThinking, show, readErr, hasContent)
  {
    hide ScanBody, Deliver, Scan, Ending, ScanContent, FlagOfScan, DeliveredBody, Events;
    var state := new ThinkingScanState(isThinking);
    hasContent := false;
    ghost var seen := consumer.seen;
    NothingDelivered(consumer.accept, seen, events, isThinking, show);
    ScanDelivered(consumer.accept, seen, events, isThinking, show, readErr);
    var i := 0;
    while i < |events|
      invariant 0 <= i <= BodyLength(events)
      invariant state.State() == ScanBody(events[..i], isThinking, show).state && hasContent == state.visibleEmitted
      invariant DeliveredBody(consumer.accept, seen, events, i, isThinking, show) == Delivery(consumer.seen, true)
    {
      if events[i].kind == "error" {
        FlagWhenTaken(consumer.accept, seen, events, isThinking, show, readErr);
        return hasContent, Some(UpstreamError(events[i]));
      }
      if events[i].kind == "done" {
        FlagAtEnd(consumer.accept, seen, events, isThinking, show, readErr);
        hasContent, err := FinishScan(isThinking, show, readErr, state, consumer);
        return;
      }
      BodySnoc(events, i, isThinking, show);
      DeliveredSnoc(consumer.accept, seen, events, i, isThinking, show);
      var ok, emitted := ScanContentEvent(events[i].content, isThinking, show, state, consumer);
      if !ok {
        FlagWhenRefused(consumer.accept, seen, events, i, isThinking, show, readErr);
        return hasContent, None;
      }
      hasContent := hasContent || emitted;
      i := i + 1;
    }
    FlagWhenTaken(consumer.accept, seen, events, isThinking, show, readErr);
    err := readErr;
  }

  lemma {:induction false} NothingDelivered(accept: (seq<Event>, Event) -> bool, seen: seq<Event>,
                                            events: seq<SSEEvent>,
                                            isThinking: bool, show: bool)
    ensures ScanBody(events[..0], isThinking, show) == Step(Start(isThinking), [])
    ensures DeliveredBody(accept, seen, events, 0, isThinking, show) == Delivery(seen, true)
  {
  }
}
