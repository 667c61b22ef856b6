/**
 The same upstream stream scanned twice, once hiding and once showing the model's thinking.
 The runs stay in step; the hidden run shows what the other shows outside thinking, except for
 text before an opening tag that arrives while an untagged thinking phase is still open.
 */
module ThinkingLockstep {
  import opened Text
  import opened ThinkingFilter
  import opened ThinkingPhase

  /** The flags that both runs share. */
  predicate Related(h: ScanState, s: ScanState) {
    h.inThinking == s.inThinking && h.inThinkTag == s.inThinkTag
    && h.separatorSeen == s.separatorSeen && h.tagSeen == s.tagSeen
  }

  /** The texts of the content events emitted outside thinking, in order. */
  function Outside(outs: seq<Out>): seq<string> {
    if outs == [] then []
    else (if IsContent(outs[0]) && !outs[0].thinking then [outs[0].event.text] else []) + Outside(outs[1..])
  }

  predicate AllOutside(outs: seq<Out>) {
    forall i :: 0 <= i < |outs| && IsContent(outs[i]) ==> !outs[i].thinking
  }

  lemma {:induction false} OutsideConcat(a: seq<Out>, b: seq<Out>)
    ensures Outside(a + b) == Outside(a) + Outside(b)
  {
    if a == [] {
      assert a + b == b;
    } else {
      assert (a + b)[1..] == a[1..] + b;
      OutsideConcat(a[1..], b);
    }
  }

  lemma {:induction false} AllOutsideConcat(a: seq<Out>, b: seq<Out>)
    ensures AllOutside(a + b) <==> AllOutside(a) && AllOutside(b)
  {
    if AllOutside(a + b) {
      forall i | 0 <= i < |a| && IsContent(a[i]) ensures !a[i].thinking {
        assert (a + b)[i] == a[i];
      }
      forall i | 0 <= i < |b| && IsContent(b[i]) ensures !b[i].thinking {
        assert (a + b)[|a| + i] == b[i];
      }
    }
  }

  /** Dropping the thinking events leaves everything exactly when there are none. */
  lemma {:induction false} OutsideIsAll(outs: seq<Out>)
    ensures |Outside(outs)| <= |Contents(outs)|
    ensures Outside(outs) == Contents(outs) <==> AllOutside(outs)
  {
    if outs != [] {
      var head, tail := outs[..1], outs[1..];
      OutsideIsAll(tail);
      AllOutsideConcat(head, tail);
      assert head + tail == outs && AllOutside(head) == (IsContent(outs[0]) ==> !outs[0].thinking);
      if !IsContent(outs[0]) {
        assert Outside(outs) == Outside(tail) && Contents(outs) == Contents(tail);
      } else if outs[0].thinking {
        assert Outside(outs) == Outside(tail) && |Contents(outs)| == 1 + |Contents(tail)|;
      } else {
        assert Outside(outs)[1..] == Outside(tail) && Contents(outs)[1..] == Contents(tail);
      }
    }
  }

  /**
   Text in front of an opening tag while an untagged thinking phase is open: the scanner lets it
   through although it hides the rest of that phase.
   */
  predicate LeaksAt(content: string, isThinking: bool, st: ScanState) {
    isThinking && !Settled(st) && Opens(content)
  }

  /** The first event with a marker opens a tagged phase behind some text. */
  predicate Leaks(events: seq<SSEEvent>, isThinking: bool) {
    isThinking && exists i :: 0 <= i < |events| && NoMarkers(events[..i]) && Opens(events[i].content)
  }

  /**
   The last event of a list leaks exactly if it arrives in the untagged phase and opens a tagged one
   behind some text.
   */
  lemma {:induction false} LeaksSnoc(events: seq<SSEEvent>, isThinking: bool)
    requires events != []
    ensures var before := events[..|events| - 1];
            Leaks(events, isThinking) <==>
            || Leaks(before, isThinking)
            || (isThinking && LeaksAt(events[|events| - 1].content, isThinking,
               ScanBody(before, isThinking, false).state))
  {
    hide NoMarkers, Opens, Settled;
    var before := events[..|events| - 1];
    if isThinking {
      UntaggedPhase(before, false);
      forall i | 0 <= i <= |before|
        ensures events[..i] == before[..i]
      {
      }
      assert before[..|before|] == before;
    }
  }

  lemma {:induction false} TurnLockstep(text: string, h: ScanState, s: ScanState)
    requires Related(h, s)
    requires !Settled(h) ==> HasTagWork(text, h)
    ensures var th, ts := TagTurn(text, false, h), TagTurn(text, true, s);
            && Related(th.state, ts.state) && th.rest == ts.rest
            && Outside(th.outs) == Outside(ts.outs)
            && (AllOutside(th.outs) <==> !LeaksAt(text, true, h))
            && (th.rest.Some? ==> Settled(th.state))
  {
    hide Act, FirstTag, LeaksAt, Outside, AllOutside, HasTagWork;
    var c := FirstTag(text, h.inThinkTag);
    LeakIsOpenTag(text, h);
    ActLockstep(c.kind, c.before, h, s);
  }

  /** What is leaked is the text in front of an opening tag. */
  lemma {:induction false} LeakIsOpenTag(text: string, h: ScanState)
    requires !Settled(h) ==> HasTagWork(text, h)
    ensures var c := FirstTag(text, h.inThinkTag);
            && (LeaksAt(text, true, h) <==> !Settled(h) && c.kind == OpenTag && c.before != "")
            && (!Settled(h) ==> c.kind != NoTag)
            && (c.kind == OpenTag ==> !h.inThinkTag)
  {
  }

  lemma {:induction false} ActLockstep(kind: TagKind, before: string, h: ScanState, s: ScanState)
    requires Related(h, s) && (!Settled(h) ==> kind != NoTag) && (kind == OpenTag ==> !h.inThinkTag)
    ensures var th, ts := Act(kind, before, false, h), Act(kind, before, true, s);
            && Related(th.state, ts.state) && Outside(th.outs) == Outside(ts.outs)
            && (AllOutside(th.outs) <==> !(!Settled(h) && kind == OpenTag && before != ""))
            && (kind != NoTag ==> Settled(th.state))
  {
    SingleOuts(h.Thinking());
    assert Outside([] + SeparatorIf(true)) == [] by {
      OutsideConcat([], SeparatorIf(true));
    }
    OutsideConcat([Out(Content(before), true)], SeparatorIf(true));
    hide Outside;
    var outs := Act(kind, before, false, h).outs;
    if outs != [] && IsContent(outs[0]) && outs[0].thinking {
      assert !AllOutside(outs);
    } else {
      assert AllOutside(outs);
    }
  }

  /** The outs of a single emission. */
  lemma {:induction false} SingleOuts(thinking: bool)
    ensures Outside([]) == [] && Outside([Out(Separator, false)]) == []
    ensures forall t: string :: Outside([Out(Content(t), thinking)]) == if thinking then [] else [t]
  {
  }

  lemma {:induction false} TaggedLockstep(text: string, h: ScanState, s: ScanState)
    requires Related(h, s)
    requires !Settled(h) ==> HasTagWork(text, h)
    ensures var oh, os := Tagged(text, false, h), Tagged(text, true, s);
            && Related(oh.state, os.state) && Outside(oh.outs) == Outside(os.outs)
            && (AllOutside(oh.outs) <==> !LeaksAt(text, true, h))
    decreases |text|
  {
    var th, ts := TagTurn(text, false, h), TagTurn(text, true, s);
    TurnLockstep(text, h, s);
    if th.rest.Some? {
      var mh, ms := Tagged(th.rest.value, false, th.state), Tagged(ts.rest.value, true, ts.state);
      TaggedLockstep(th.rest.value, th.state, ts.state);
      OutsideConcat(th.outs, mh.outs);
      OutsideConcat(ts.outs, ms.outs);
      AllOutsideConcat(th.outs, mh.outs);
    }
  }

  lemma {:induction false} ContentLockstep(content: string, isThinking: bool, h: ScanState, s: ScanState)
    requires Related(h, s)
    requires !isThinking ==> !h.inThinking && !h.inThinkTag
    ensures var oh, os := ScanContent(content, isThinking, false, h), ScanContent(content, isThinking, true, s);
            && Related(oh.state, os.state) && Outside(oh.outs) == Outside(os.outs)
            && (AllOutside(oh.outs) <==> !LeaksAt(content, isThinking, h))
            && (!isThinking ==> !oh.state.inThinking && !oh.state.inThinkTag)
  {
    hide Tagged, Index;
    ShortTextOpensNothing();
    if content != "" && content != SEPARATOR && isThinking && HasTagWork(content, h) {
      TaggedLockstep(content, h.(tagSeen := true), s.(tagSeen := true));
    }
  }

  lemma {:induction false} ShortTextOpensNothing()
    ensures !Opens("") && !Opens(SEPARATOR)
  {
  }

  /**
   Over any list of events both runs pass through the same thinking states and the hidden run's
   events outside thinking are exactly the other's; it emits nothing else unless an event leaks.
   */
  lemma {:induction false} BodyLockstep(events: seq<SSEEvent>, isThinking: bool)
    ensures var h, s := ScanBody(events, isThinking, false), ScanBody(events, isThinking, true);
            && Related(h.state, s.state) && Outside(h.outs) == Outside(s.outs)
            && (AllOutside(h.outs) <==> !Leaks(events, isThinking))
            && (!isThinking ==> !h.state.inThinking && !h.state.inThinkTag)
  {
    if events != [] {
      var before, content := events[..|events| - 1], events[|events| - 1].content;
      BodyLockstep(before, isThinking);
      LeaksSnoc(events, isThinking);
      var h, s := ScanBody(before, isThinking, false), ScanBody(before, isThinking, true);
      ContentLockstep(content, isThinking, h.state, s.state);
      var oh, os := ScanContent(content, isThinking, false, h.state), ScanContent(content, isThinking, true, s.state);
      OutsideConcat(h.outs, oh.outs);
      OutsideConcat(s.outs, os.outs);
      AllOutsideConcat(h.outs, oh.outs);
    }
  }

  /** The hidden run of a list of events is the shown run without its thinking events iff nothing leaks. */
  lemma {:induction false} HiddenIsOutside(events: seq<SSEEvent>, isThinking: bool)
    ensures Contents(ScanBody(events, isThinking, false).outs) == Outside(ScanBody(events, isThinking, true).outs)
            <==> !Leaks(events, isThinking)
  {
    BodyLockstep(events, isThinking);
    OutsideIsAll(ScanBody(events, isThinking, false).outs);
  }

  function AllText(events: seq<SSEEvent>): string {
    if events == [] then "" else AllText(events[..|events| - 1]) + events[|events| - 1].content
  }

  /** With no marker a thinking model's text is all withheld, or all shown; a marker is never forgotten. */
  lemma {:induction false} UnmarkedThinking(events: seq<SSEEvent>)
    ensures var h, s := ScanBody(events, true, false), ScanBody(events, true, true);
            && (NoMarkers(events) ==>
                 && h == Step(Start(true).(hidden := AllText(events)), [])
                 && s.state.inThinking && !s.state.inThinkTag
                 && Join(Contents(s.outs)) == AllText(events))
            && (!NoMarkers(events) ==> h.state.separatorSeen || h.state.tagSeen)
  {
    hide ScanContent, Join, Contents, HasTagWork;
    if events != [] {
      var before, content := events[..|events| - 1], events[|events| - 1].content;
      UnmarkedThinking(before);
      var h, s := ScanBody(before, true, false), ScanBody(before, true, true);
      assert NoMarkers(events) ==> NoMarkers(before);
      if NoMarkers(events) {
        UnmarkedContent(content, h.state, s.state);
        var os := ScanContent(content, true, true, s.state);
        ContentsConcat(s.outs, os.outs);
        JoinConcat(Contents(s.outs), Contents(os.outs));
      } else {
        MarkedContent(content, h.state, NoMarkers(before));
      }
    } else {
      NothingJoined();
    }
  }

  lemma {:induction false} NothingJoined()
    ensures Join(Contents([])) == ""
  {
  }

  /** Text without a marker is kept in the hidden run and emitted in the other. */
  lemma {:induction false} UnmarkedContent(content: string, h: ScanState, s: ScanState)
    requires content != SEPARATOR && !Contains(content, OPEN_TAG) && !Contains(content, CLOSE_TAG)
    requires h.inThinking && !h.inThinkTag && s.inThinking && !s.inThinkTag
    ensures ScanContent(content, true, false, h) == Step(h.(hidden := h.hidden + content), [])
    ensures var os := ScanContent(content, true, true, s);
            os.state.inThinking && !os.state.inThinkTag && Join(Contents(os.outs)) == content
  {
  }

  lemma {:induction false} MarkedContent(content: string, h: ScanState, unmarked: bool)
    requires unmarked ==> content == SEPARATOR || Contains(content, OPEN_TAG) || Contains(content, CLOSE_TAG)
    requires !unmarked ==> h.separatorSeen || h.tagSeen
    ensures var r := ScanContent(content, true, false, h).state; r.separatorSeen || r.tagSeen
  {
    hide Tagged;
    assert !Contains("", OPEN_TAG) && !Contains("", CLOSE_TAG);
    MarkersStay(content, false, h.(tagSeen := true));
  }

  /** The tag loop never clears what it has recorded. */
  lemma {:induction false} MarkersStay(text: string, show: bool, st: ScanState)
    ensures Tagged(text, show, st).state.tagSeen == st.tagSeen
    ensures st.separatorSeen ==> Tagged(text, show, st).state.separatorSeen
    decreases |text|
  {
    var t := TagTurn(text, show, st);
    if t.rest.Some? {
      MarkersStay(t.rest.value, show, t.state);
    }
  }

  /** A model without thinking is scanned the same way in both modes. */
  lemma {:induction false} PlainModel(events: seq<SSEEvent>)
    ensures ScanBody(events, false, false) == ScanBody(events, false, true)
    ensures !ScanBody(events, false, false).state.inThinking
  {
    if events != [] {
      PlainModel(events[..|events| - 1]);
    }
  }

  /**
   Whole scans. The hidden run's content events are exactly the shown run's events outside
   thinking iff nothing leaks and nothing is flushed at the end; the flush happens exactly when a
   thinking model's stream reaches its done event with text but without any marker.
   */
  lemma {:induction false} Lockstep(events: seq<SSEEvent>, isThinking: bool, readErr: Option<StreamError>)
    ensures var body := events[..BodyLength(events)];
            var h, s := Scan(events, isThinking, false, readErr), Scan(events, isThinking, true, readErr);
            && h.state.inThinking == s.state.inThinking && h.state.inThinkTag == s.state.inThinkTag && h.err == s.err
            && (Contents(h.outs) == Outside(s.outs)
                <==>
                  && !Leaks(body, isThinking)
                  && !(Ended(events) && isThinking && NoMarkers(body) && AllText(body) != ""))
  {
    var body := events[..BodyLength(events)];
    ScanIsBodyThenEnd(events, isThinking, false, readErr);
    ScanIsBodyThenEnd(events, isThinking, true, readErr);
    BodyLockstep(body, isThinking);
    HiddenIsOutside(body, isThinking);
    if Ended(events) {
      var h, s := ScanBody(body, isThinking, false), ScanBody(body, isThinking, true);
      FlushIffUnmarked(body, isThinking);
      EndingContents(isThinking, h.outs, h.state);
      EndingOutside(isThinking, s.outs, s.state);
      OutsideIsAll(h.outs);
    }
  }

  /** The stream reaches a done event before any error event. */
  predicate Ended(events: seq<SSEEvent>) {
    BodyLength(events) < |events| && events[BodyLength(events)].kind == "done"
  }

  /** The hidden buffer is released exactly for a thinking model's unmarked, non-empty stream. */
  lemma {:induction false} FlushIffUnmarked(events: seq<SSEEvent>, isThinking: bool)
    ensures Flushes(isThinking, false, ScanBody(events, isThinking, false).state)
            <==> isThinking && NoMarkers(events) && AllText(events) != ""
  {
    if isThinking {
      UnmarkedThinking(events);
    }
  }

  /** The end adds the flushed text to the hidden run. */
  lemma {:induction false} EndingContents(isThinking: bool, outs: seq<Out>, st: ScanState)
    ensures Contents(outs + Ending(isThinking, false, st).outs)
            == Contents(outs) + if Flushes(isThinking, false, st) then [st.hidden] else []
  {
    var end := Ending(isThinking, false, st);
    var done := end.outs[|end.outs| - 1..];
    ContentsConcat(outs, end.outs);
    ContentsConcat(Emit(st.hidden, st).outs, done);
    assert Contents(done) == [];
  }

  /** The end adds nothing but the done event to the shown run. */
  lemma {:induction false} EndingOutside(isThinking: bool, outs: seq<Out>, st: ScanState)
    ensures Outside(outs + Ending(isThinking, true, st).outs) == Outside(outs)
    ensures Contents(outs + Ending(isThinking, true, st).outs) == Contents(outs)
  {
    var end := Ending(isThinking, true, st);
    OutsideConcat(outs, end.outs);
    ContentsConcat(outs, end.outs);
    assert end.outs == [Out(Done, st.Thinking())];
    assert Outside(end.outs) == [] && Contents(end.outs) == [];
  }

  /** Without any marker, a stream that reaches its done event delivers the same text in both modes. */
  lemma {:induction false} UnmarkedTextsAgree(events: seq<SSEEvent>, isThinking: bool, readErr: Option<StreamError>)
    requires Ended(events) && NoMarkers(events[..BodyLength(events)])
    ensures Join(Contents(Scan(events, isThinking, false, readErr).outs))
         == Join(Contents(Scan(events, isThinking, true, readErr).outs))
    ensures Scan(events, isThinking, false, readErr).state.visibleEmitted
         == Scan(events, isThinking, true, readErr).state.visibleEmitted
  {
    var body := events[..BodyLength(events)];
    ScanIsBodyThenEnd(events, isThinking, false, readErr);
    ScanIsBodyThenEnd(events, isThinking, true, readErr);
    var h, s := ScanBody(body, isThinking, false), ScanBody(body, isThinking, true);
    EndingContents(isThinking, h.outs, h.state);
    EndingOutside(isThinking, s.outs, s.state);
    FlushIffUnmarked(body, isThinking);
    if isThinking {
      UnmarkedThinking(body);
      NoTextNoContent(body);
      assert [h.state.hidden][..0] == [];
    } else {
      PlainModel(body);
    }
  }

  /** The shown run of an unmarked thinking stream has emitted something iff there was text. */
  lemma {:induction false} NoTextNoContent(events: seq<SSEEvent>)
    requires NoMarkers(events)
    ensures ScanBody(events, true, true).state.visibleEmitted <==> AllText(events) != ""
  {
    if events != [] {
      var before := events[..|events| - 1];
      assert NoMarkers(before);
      NoTextNoContent(before);
      UnmarkedThinking(before);
    }
  }
}
