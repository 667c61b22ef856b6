/** The untagged thinking phase in which a thinking model starts lasts exactly until the first marker. */
module ThinkingPhase {
  import opened Text
  import opened ThinkingFilter

  /** The state is not the untagged thinking phase a thinking model starts in. */
  predicate Settled(st: ScanState) {
    st.inThinking ==> st.inThinkTag
  }

  /** The text is a separator or contains a tag. */
  predicate IsMarker(content: string) {
    content == SEPARATOR || Contains(content, OPEN_TAG) || Contains(content, CLOSE_TAG)
  }

  /** No separator and no tag anywhere in the list. */
  predicate NoMarkers(events: seq<SSEEvent>) {
    forall i :: 0 <= i < |events| ==> !IsMarker(events[i].content)
  }

  /** An opening tag behind some text, with no closing tag before it. */
  predicate Opens(text: string) {
    var open, close := Index(text, OPEN_TAG), Index(text, CLOSE_TAG);
    open > 0 && (close < 0 || open <= close)
  }

  /** Passing a tag settles the state, and a settled state stays so. */
  lemma {:induction false} ActSettles(kind: TagKind, before: string, show: bool, st: ScanState)
    ensures Settled(Act(kind, before, show, st).state) <==> Settled(st) || kind != NoTag
  {
  }

  lemma {:induction false} TaggedSettles(text: string, show: bool, st: ScanState)
    requires Settled(st) || FirstTag(text, st.inThinkTag).kind != NoTag
    ensures Settled(Tagged(text, show, st).state)
    decreases |text|
  {
    hide FirstTag, Act;
    var c := FirstTag(text, st.inThinkTag);
    ActSettles(c.kind, c.before, show, st);
    if c.kind != NoTag {
      TaggedSettles(c.after, show, Act(c.kind, c.before, show, st).state);
    }
  }

  /** A marker, and nothing else, ends the untagged phase of a thinking model. */
  lemma {:induction false} ContentSettles(content: string, show: bool, st: ScanState)
    ensures Settled(ScanContent(content, true, show, st).state) <==> Settled(st) || IsMarker(content)
  {
    hide Tagged, Index;
    NoMarkerInNothing();
    var st1 := st.(tagSeen := true);
    if content != "" && content != SEPARATOR && HasTagWork(content, st) {
      TaggedSettles(content, show, st1);
    }
  }

  lemma {:induction false} NoMarkerInNothing()
    ensures !IsMarker("")
  {
  }

  lemma {:induction false} MarkersSnoc(events: seq<SSEEvent>)
    requires events != []
    ensures NoMarkers(events) <==> NoMarkers(events[..|events| - 1]) && !IsMarker(events[|events| - 1].content)
  {
  }

  /** A thinking model is in its untagged phase exactly while no marker has been seen. */
  lemma {:induction false} UntaggedPhase(events: seq<SSEEvent>, show: bool)
    ensures Settled(ScanBody(events, true, show).state) <==> !NoMarkers(events)
  {
    hide ScanContent, IsMarker, Settled;
    if events == [] {
      StartUnsettled();
    } else {
      UntaggedPhase(events[..|events| - 1], show);
      ContentSettles(events[|events| - 1].content, show, ScanBody(events[..|events| - 1], true, show).state);
      MarkersSnoc(events);
    }
  }

  lemma {:induction false} StartUnsettled()
    ensures !Settled(Start(true))
  {
  }

  /** Hiding, nothing is emitted in that phase. */
  lemma {:induction false} UntaggedPhaseIsSilent(events: seq<SSEEvent>)
    requires NoMarkers(events)
    ensures ScanBody(events, true, false).outs == []
  {
    hide IsMarker, Settled;
    if events != [] {
      var before := ScanBody(events[..|events| - 1], true, false);
      MarkersSnoc(events);
      UntaggedPhaseIsSilent(events[..|events| - 1]);
      UntaggedPhase(events[..|events| - 1], false);
      SilentContent(events[|events| - 1].content, before.state);
    }
  }

  lemma {:induction false} SilentContent(content: string, st: ScanState)
    requires !Settled(st) && !IsMarker(content)
    ensures ScanContent(content, true, false, st).outs == []
  {
  }
}
