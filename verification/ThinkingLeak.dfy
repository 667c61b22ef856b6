/** A stream on which hiding the thinking shows some of it. */
module ThinkingLeak {
  import opened Text
  import opened ThinkingFilter
  import opened ThinkingLockstep

  /** The leak is real: hidden mode lets "abc" out although the model is still thinking. */
  lemma {:induction false} LeakExample()
    ensures var events := [SSEEvent("content", "abc<think>", ""), SSEEvent("done", "", "")];
            Contents(Scan(events, true, false, None).outs) == ["abc"]
              && Outside(Scan(events, true, true, None).outs) == []
  {
    hide Scan, Index, Contents, Outside;
    var text := "abc<think>";
    var events := [SSEEvent("content", text, ""), SSEEvent("done", "", "")];
    LeakTurn(text);
    OneEventBody(events[0], true, false);
    LeakContent(text);
    LeakEnding(events, ScanBody(events[..1], true, false));
  }

  lemma {:induction false} LeakCut(text: string)
    requires text == "abc<think>"
    ensures FirstTag(text, false) == Cut(OpenTag, "abc", "") && Contains(text, OPEN_TAG)
  {
    assert OccursAt(text, OPEN_TAG, 3);
    assert forall j :: OccursAt(text, CLOSE_TAG, j) ==> text[j..j + 8][1] == '/';
    assert forall j :: OccursAt(text, OPEN_TAG, j) ==> text[j..j + 7][0] == '<';
  }

  lemma {:induction false} LeakTurn(text: string)
    requires text == "abc<think>"
    ensures var st := Start(true).(tagSeen := true);
            TagTurn(text, false, st) == Turn(st.(visibleEmitted := true, inThinkTag := true),
                [Out(Content("abc"), true)], Some(""))
  {
    LeakCut(text);
    hide FirstTag;
  }

  lemma {:induction false} LeakContent(text: string)
    requires text == "abc<think>"
    ensures var h := ScanContent(text, true, false, Start(true));
            h.outs == [Out(Content("abc"), true)] && h.state.visibleEmitted
  {
    hide Index;
    LeakCut(text);
    LeakTurn(text);
    hide TagTurn, FirstTag;
    var st := Start(true).(tagSeen := true, visibleEmitted := true, inThinkTag := true);
    assert |text| != |SEPARATOR|;
    EmptyTagged(st);
  }

  /** Nothing more is in the text behind the tag. */
  lemma {:induction false} EmptyTagged(st: ScanState)
    requires st.inThinkTag
    ensures Tagged("", false, st) == Step(st, [])
  {
    assert Index("", CLOSE_TAG) == -1;
  }

  lemma {:induction false} OneEventBody(e: SSEEvent, isThinking: bool, show: bool)
    ensures ScanBody([e], isThinking, show) == ScanContent(e.content, isThinking, show, Start(isThinking))
  {
    assert [e][..0] == [];
  }

  lemma {:induction false} LeakEnding(events: seq<SSEEvent>, h: Step)
    requires |events| == 2 && !Terminal(events[0]) && events[1].kind == "done"
    requires h == ScanBody(events[..1], true, false) && h.outs == [Out(Content("abc"), true)] && h.state.visibleEmitted
    ensures Contents(Scan(events, true, false, None).outs) == ["abc"]
            && Outside(Scan(events, true, true, None).outs) == []
  {
    assert BodyLength(events) == 1;
    var s := ScanBody(events[..1], true, true);
    BodyLockstep(events[..1], true);
    ScanIsBodyThenEnd(events, true, false, None);
    ScanIsBodyThenEnd(events, true, true, None);
    EndingContents(true, h.outs, h.state);
    EndingOutside(true, s.outs, s.state);
  }
}
