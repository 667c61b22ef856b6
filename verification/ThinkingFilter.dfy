/**
 What the proxy's SSE scanner (internal/proxy/hotpath.go) lets through, as functions on values.
 Each emitted event carries a mark saying whether the model was thinking when it was emitted.
 */
module ThinkingFilter {
  import opened Text

  const OPEN_TAG := "<think>"
  const CLOSE_TAG := "</think>"
  const SEPARATOR := "\U{1F4AF}"

  /** A decoded upstream event. */
  datatype SSEEvent = SSEEvent(kind: string, content: string, error: string)

  /** A filtered event handed to the consumer. */
  datatype Event = Content(text: string) | Separator | Done

  datatype Out = Out(event: Event, thinking: bool)

  datatype ScanState = ScanState(
    inThinking: bool, separatorSeen: bool, tagSeen: bool, visibleEmitted: bool, inThinkTag: bool, hidden: string)
  {
    predicate Thinking() {
      inThinking || inThinkTag
    }
  }

  datatype Step = Step(state: ScanState, outs: seq<Out>)

  /** One round of the tag loop: what it emits, and the text still to be looked at, if any. */
  datatype Turn = Turn(state: ScanState, outs: seq<Out>, rest: Option<string>)

  datatype Outcome = Outcome(outs: seq<Out>, state: ScanState, err: Option<StreamError>)

  function Start(isThinking: bool): ScanState {
    ScanState(isThinking, false, false, false, false, "")
  }

  function Events(outs: seq<Out>): (es: seq<Event>)
    ensures |es| == |outs| && forall i :: 0 <= i < |es| ==> es[i] == outs[i].event
  {
    seq(|outs|, i requires 0 <= i < |outs| => outs[i].event)
  }

  function Emit(text: string, st: ScanState): Step {
    if text == "" then Step(st, [])
    else Step(st.(visibleEmitted := true), [Out(Content(text), st.Thinking())])
  }

  function EmitIf(shown: bool, text: string, st: ScanState): Step {
    if shown then Emit(text, st) else Step(st, [])
  }

  function SeparatorIf(shown: bool): seq<Out> {
    if shown then [Out(Separator, false)] else []
  }

  datatype TagKind = NoTag | CloseTag | OpenTag

  /** The text around the first tag that counts; without one, all of it lies before. */
  datatype Cut = Cut(kind: TagKind, before: string, after: string)

  /** Inside a tagged phase only a closing tag counts; outside, the earlier of the two. */
  function FirstTag(text: string, inThinkTag: bool): (c: Cut)
    ensures c.kind != NoTag ==> |c.before| + |c.after| < |text|
    ensures c.kind == OpenTag ==> !inThinkTag
  {
    var open, close := Index(text, OPEN_TAG), Index(text, CLOSE_TAG);
    if close >= 0 && (inThinkTag || open < 0 || close < open)
      then Cut(CloseTag, text[..close], text[close + |CLOSE_TAG|..])
    else if open >= 0 && !inThinkTag then Cut(OpenTag, text[..open], text[open + |OPEN_TAG|..])
    else Cut(NoTag, text, "")
  }

  /** Text before a closing tag belongs to the phase the tag ends; other text is hidden only inside a tagged phase. */
  predicate ShownBefore(kind: TagKind, show: bool, st: ScanState) {
    match kind
    case NoTag => show || !st.inThinkTag
    case CloseTag => show || !st.Thinking()
    case OpenTag => true
  }

  /** Emit the text before a tag and enter or leave thinking. */
  function Act(kind: TagKind, before: string, show: bool, st: ScanState): Step {
    var e := EmitIf(ShownBefore(kind, show, st), before, st);
    match kind
    case NoTag => e
    case CloseTag =>
      if st.Thinking() then
        Step(e.state.(inThinkTag := false, inThinking := false, separatorSeen := true), e.outs + SeparatorIf(show))
      else e
    case OpenTag => Step(e.state.(inThinkTag := true, inThinking := true), e.outs)
  }

  function TagTurn(text: string, show: bool, st: ScanState): (t: Turn)
    ensures t.rest.Some? ==> |t.rest.value| < |text|
  {
    var c := FirstTag(text, st.inThinkTag);
    var s := Act(c.kind, c.before, show, st);
    Turn(s.state, s.outs, if c.kind == NoTag then None else Some(c.after))
  }

  /** The tag loop: rounds until one of them consumes the rest of the text. */
  function Tagged(text: string, show: bool, st: ScanState): Step
    decreases |text|
  {
    var t := TagTurn(text, show, st);
    if t.rest.None? then Step(t.state, t.outs)
    else
      var more := Tagged(t.rest.value, show, t.state);
      Step(more.state, t.outs + more.outs)
  }

  /** Whether the content goes through the tag loop. */
  predicate HasTagWork(content: string, st: ScanState) {
    st.inThinkTag || Contains(content, OPEN_TAG) || Contains(content, CLOSE_TAG)
  }

  /** One event that is neither an error nor the end of the stream. */
  function ScanContent(content: string, isThinking: bool, show: bool, st: ScanState): Step {
    if content == "" then Step(st, [])
    else if content == SEPARATOR then
      if isThinking then
        Step(st.(inThinking := false, separatorSeen := true, hidden := ""), SeparatorIf(show))
      else Step(st, [])
    else if isThinking && HasTagWork(content, st) then Tagged(content, show, st.(tagSeen := true))
    else if isThinking && st.inThinking then
      if show then Emit(content, st) else Step(st.(hidden := st.hidden + content), [])
    else Emit(content, st)
  }

  /** Whether a done event releases the hidden buffer. */
  predicate Flushes(isThinking: bool, show: bool, st: ScanState) {
    isThinking && !show && !st.separatorSeen && !st.tagSeen && !st.visibleEmitted && st.hidden != ""
  }

  function UpstreamError(e: SSEEvent): StreamError {
    Failure("upstream error: " +
      (if e.error != "" then e.error else if e.content != "" then e.content else "unknown upstream error"))
  }

  /** All events of a list in turn, none of them an error or the end. */
  function ScanBody(events: seq<SSEEvent>, isThinking: bool, show: bool): Step {
    if events == [] then Step(Start(isThinking), [])
    else
      var before := ScanBody(events[..|events| - 1], isThinking, show);
      var s := ScanContent(events[|events| - 1].content, isThinking, show, before.state);
      Step(s.state, before.outs + s.outs)
  }

  predicate Terminal(e: SSEEvent) {
    e.kind == "error" || e.kind == "done"
  }

  /** How many events come before the first error or done event. */
  function BodyLength(events: seq<SSEEvent>): (n: nat)
    ensures n <= |events| && (forall i :: 0 <= i < n ==> !Terminal(events[i]))
    ensures n < |events| ==> Terminal(events[n])
  {
    if events == [] || Terminal(events[0]) then 0 else 1 + BodyLength(events[1..])
  }

  /** What the end of the body adds: the flush and the done event. */
  function Ending(isThinking: bool, show: bool, st: ScanState): Step {
    var flush := if Flushes(isThinking, show, st) then Emit(st.hidden, st) else Step(st, []);
    Step(flush.state, flush.outs + [Out(Done, flush.state.Thinking())])
  }

  /** The scan from position `i` on, event by event as the loop takes them. */
  function ScanFrom(events: seq<SSEEvent>, i: nat, isThinking: bool, show: bool, readErr: Option<StreamError>,
                    st: ScanState): Outcome
    requires i <= |events|
    decreases |events| - i
  {
    if i == |events| then Outcome([], st, readErr)
    else if events[i].kind == "error" then Outcome([], st, Some(UpstreamError(events[i])))
    else if events[i].kind == "done" then
      var end := Ending(isThinking, show, st);
      Outcome(end.outs, end.state, readErr)
    else
      var s := ScanContent(events[i].content, isThinking, show, st);
      var more := ScanFrom(events, i + 1, isThinking, show, readErr, s.state);
      Outcome(s.outs + more.outs, more.state, more.err)
  }

  /** A whole scan with a consumer that refuses nothing; `readErr` is the reader's own error. */
  function Scan(events: seq<SSEEvent>, isThinking: bool, show: bool, readErr: Option<StreamError>): Outcome {
    ScanFrom(events, 0, isThinking, show, readErr, Start(isThinking))
  }

  /** The same scan taken apart: the events before the first error or done event, then the end. */
  function BodyThenEnd(events: seq<SSEEvent>, isThinking: bool, show: bool, readErr: Option<StreamError>): Outcome {
    var n := BodyLength(events);
    var body := ScanBody(events[..n], isThinking, show);
    if n == |events| then Outcome(body.outs, body.state, readErr)
    else if events[n].kind == "error" then Outcome(body.outs, body.state, Some(UpstreamError(events[n])))
    else
      var end := Ending(isThinking, show, body.state);
      Outcome(body.outs + end.outs, end.state, readErr)
  }

  /** Scanning event by event gives the body of the stream, then its end. */
  lemma {:induction false} ScanFromIsBody(events: seq<SSEEvent>, i: nat, isThinking: bool, show: bool,
                                          readErr: Option<StreamError>)
    requires i <= BodyLength(events)
    ensures var b := ScanBody(events[..i], isThinking, show);
            var f := ScanFrom(events, i, isThinking, show, readErr, b.state);
            BodyThenEnd(events, isThinking, show, readErr) == Outcome(b.outs + f.outs, f.state, f.err)
    decreases |events| - i
  {
    var b := ScanBody(events[..i], isThinking, show);
    if i < BodyLength(events) {
      BodySnoc(events, i, isThinking, show);
      var s := ScanContent(events[i].content, isThinking, show, b.state);
      ScanFromIsBody(events, i + 1, isThinking, show, readErr);
      OutsAssociative(b.outs, s.outs, ScanFrom(events, i + 1, isThinking, show, readErr, s.state).outs);
    } else if i == |events| || events[i].kind == "error" {
      assert b.outs + [] == b.outs;
    }
  }

  lemma {:induction false} BodySnoc(events: seq<SSEEvent>, i: nat, isThinking: bool, show: bool)
    requires i < |events|
    ensures var b := ScanBody(events[..i], isThinking, show);
            var s := ScanContent(events[i].content, isThinking, show, b.state);
            ScanBody(events[..i + 1], isThinking, show) == Step(s.state, b.outs + s.outs)
  {
    assert events[..i + 1][..i] == events[..i];
  }

  lemma {:induction false} OutsAssociative(a: seq<Out>, b: seq<Out>, c: seq<Out>)
    ensures a + b + c == a + (b + c)
  {
  }

  lemma {:induction false} ScanIsBodyThenEnd(events: seq<SSEEvent>, isThinking: bool, show: bool,
                                             readErr: Option<StreamError>)
    ensures Scan(events, isThinking, show, readErr) == BodyThenEnd(events, isThinking, show, readErr)
  {
    ScanFromIsBody(events, 0, isThinking, show, readErr);
    assert events[..0] == [];
  }

  predicate IsContent(o: Out) {
    o.event.Content?
  }

  /** The texts of the content events, in order. */
  function Contents(outs: seq<Out>): seq<string> {
    if outs == [] then []
    else (if IsContent(outs[0]) then [outs[0].event.text] else []) + Contents(outs[1..])
  }

  lemma {:induction false} ContentsConcat(a: seq<Out>, b: seq<Out>)
    ensures Contents(a + b) == Contents(a) + Contents(b)
  {
    if a == [] {
      assert a + b == b;
    } else {
      assert (a + b)[1..] == a[1..] + b;
      ContentsConcat(a[1..], b);
    }
  }

  function Join(texts: seq<string>): string {
    if texts == [] then "" else Join(texts[..|texts| - 1]) + texts[|texts| - 1]
  }

  lemma {:induction false} JoinConcat(a: seq<string>, b: seq<string>)
    ensures Join(a + b) == Join(a) + Join(b)
  {
    if b == [] {
      assert a + b == a;
    } else {
      var front, last := b[..|b| - 1], b[|b| - 1];
      assert (a + b)[..|a + b| - 1] == a + front;
      JoinConcat(a, front);
      assert Join(a) + (Join(front) + last) == Join(a) + Join(front) + last;
    }
  }

  /** The client's view of events as a stream of characters and marks. */
  datatype Sym = Ch(c: char) | Mark(event: Event)

  function Syms(e: Event): seq<Sym> {
    match e
    case Content(t) => seq(|t|, i requires 0 <= i < |t| => Ch(t[i]))
    case _ => [Mark(e)]
  }

  function Flatten(outs: seq<Out>): seq<Sym> {
    if outs == [] then [] else Syms(outs[0].event) + Flatten(outs[1..])
  }

  lemma {:induction false} FlattenConcat(a: seq<Out>, b: seq<Out>)
    ensures Flatten(a + b) == Flatten(a) + Flatten(b)
  {
    if a == [] {
      assert a + b == b;
    } else {
      assert (a + b)[1..] == a[1..] + b;
      FlattenConcat(a[1..], b);
    }
  }

  lemma {:induction false} EmitFlat(text: string, st: ScanState)
    ensures Flatten(Emit(text, st).outs) == Syms(Content(text))
  {
  }

  /** The scanner's content flag is set exactly when a content event was emitted. */
  predicate FlagTells(before: bool, after: bool, outs: seq<Out>) {
    after == (before || exists i :: 0 <= i < |outs| && IsContent(outs[i]))
  }

  lemma {:induction false} TaggedFlag(text: string, show: bool, st: ScanState)
    ensures var s := Tagged(text, show, st); FlagTells(st.visibleEmitted, s.state.visibleEmitted, s.outs)
    decreases |text|
  {
    var t := TagTurn(text, show, st);
    TurnFlag(text, show, st);
    if t.rest.Some? {
      var more := Tagged(t.rest.value, show, t.state);
      TaggedFlag(t.rest.value, show, t.state);
      FlagConcat(st.visibleEmitted, t.state.visibleEmitted, more.state.visibleEmitted, t.outs, more.outs);
    }
  }

  lemma {:induction false} TurnFlag(text: string, show: bool, st: ScanState)
    ensures var t := TagTurn(text, show, st); FlagTells(st.visibleEmitted, t.state.visibleEmitted, t.outs)
  {
    hide FirstTag;
    var t := TagTurn(text, show, st);
    if t.outs != [] {
      assert IsContent(t.outs[0]) || t.outs == [Out(Separator, false)];
    }
  }

  lemma {:induction false} FlagConcat(x: bool, y: bool, z: bool, a: seq<Out>, b: seq<Out>)
    requires FlagTells(x, y, a) && FlagTells(y, z, b)
    ensures FlagTells(x, z, a + b)
  {
    if i :| 0 <= i < |a| && IsContent(a[i]) {
      assert IsContent((a + b)[i]);
    }
    if i :| 0 <= i < |b| && IsContent(b[i]) {
      assert IsContent((a + b)[|a| + i]);
    }
  }

  lemma {:induction false} BodyFlag(events: seq<SSEEvent>, isThinking: bool, show: bool)
    ensures var s := ScanBody(events, isThinking, show); FlagTells(false, s.state.visibleEmitted, s.outs)
  {
    if events != [] {
      var before := ScanBody(events[..|events| - 1], isThinking, show);
      var content := events[|events| - 1].content;
      var s := ScanContent(content, isThinking, show, before.state);
      BodyFlag(events[..|events| - 1], isThinking, show);
      TaggedFlag(content, show, before.state.(tagSeen := true));
      if s.outs != [] && !(isThinking && HasTagWork(content, before.state)) {
        assert IsContent(s.outs[0]) || s.outs == [Out(Separator, false)];
      }
      FlagConcat(false, before.state.visibleEmitted, s.state.visibleEmitted, before.outs, s.outs);
    }
  }

  /** `hasContent` as returned by an unrefused scan: some content event was emitted. */
  lemma {:induction false} HasContentIsSomeContent(events: seq<SSEEvent>, isThinking: bool, show: bool,
                                                   readErr: Option<StreamError>)
    ensures var r := Scan(events, isThinking, show, readErr);
            r.state.visibleEmitted <==> exists i :: 0 <= i < |r.outs| && IsContent(r.outs[i])
  {
    ScanIsBodyThenEnd(events, isThinking, show, readErr);
    var n := BodyLength(events);
    var body := ScanBody(events[..n], isThinking, show);
    BodyFlag(events[..n], isThinking, show);
    var end := Ending(isThinking, show, body.state);
    assert Flushes(isThinking, show, body.state) ==> IsContent(end.outs[0]);
    FlagConcat(false, body.state.visibleEmitted, end.state.visibleEmitted, body.outs, end.outs);
  }
}
