/**
 What a scan delivers, said of the upstream events alone: for a model without thinking its texts,
 for a thinking model its text without the tags that count, read character by character.
 */
module ThinkingContent {
  import opened Text
  import opened ThinkingFilter
  import opened ThinkingPhase
  import opened ThinkingLockstep

  // A model without thinking.

  /** The texts that are neither empty nor the separator. */
  function PlainTexts(events: seq<SSEEvent>): seq<Event> {
    if events == [] then []
    else
      var content := events[|events| - 1].content;
      PlainTexts(events[..|events| - 1]) + if content == "" || content == SEPARATOR then [] else [Content(content)]
  }

  lemma {:induction false} PlainBody(events: seq<SSEEvent>, show: bool)
    ensures Events(ScanBody(events, false, show).outs) == PlainTexts(events)
    ensures !ScanBody(events, false, show).state.inThinking
  {
    if events != [] {
      PlainBody(events[..|events| - 1], show);
    }
  }

  /** Without thinking, in both modes, exactly those texts are delivered, in order, and the end if it is reached. */
  lemma {:induction false} PlainDelivered(events: seq<SSEEvent>, show: bool, readErr: Option<StreamError>)
    ensures Events(Scan(events, false, show, readErr).outs)
            == PlainTexts(events[..BodyLength(events)]) + if Ended(events) then [Done] else []
  {
    hide ScanBody, Scan;
    var body := events[..BodyLength(events)];
    ScanIsBodyThenEnd(events, false, show, readErr);
    PlainBody(body, show);
    assert PlainTexts(body) + [] == PlainTexts(body);
  }

  /** An error event before the end is the error of the scan, with its own message; otherwise it is the reader's. */
  lemma {:induction false} ErrorReported(events: seq<SSEEvent>, isThinking: bool, show: bool,
                                         readErr: Option<StreamError>)
    ensures var n := BodyLength(events);
            Scan(events, isThinking, show, readErr).err ==
            if n < |events| && events[n].kind == "error" then
              Some(Failure("upstream error: " +
                           if events[n].error + events[n].content == "" then "unknown upstream error"
                           else if events[n].error == "" then events[n].content else events[n].error))
            else readErr
  {
    hide ScanBody, Scan;
    ScanIsBodyThenEnd(events, isThinking, show, readErr);
  }

  // A thinking model.

  /** A piece of the upstream text: a character, a tag that counts, or a separator event. */
  datatype Token = Letter(c: char) | Opening | Closing | Break

  /** A tag is recognised where it stands; inside a tagged phase an opening tag is plain text. */
  function Tokens(text: string, tagged: bool): seq<Token>
    decreases |text|
  {
    if text == "" then []
    else if HasPrefix(text, CLOSE_TAG) then [Closing] + Tokens(text[|CLOSE_TAG|..], false)
    else if !tagged && HasPrefix(text, OPEN_TAG) then [Opening] + Tokens(text[|OPEN_TAG|..], true)
    else [Letter(text[0])] + Tokens(text[1..], tagged)
  }

  /** Whether the model is thinking, and whether inside tags. */
  datatype Phase = Phase(thinking: bool, tagged: bool)

  /** A thinking model starts out thinking. */
  const FIRST := Phase(true, false)

  function Next(p: Phase, t: Token): Phase {
    match t
    case Letter(_) => p
    case Opening => Phase(true, true)
    case Closing => Phase(false, false)
    case Break => Phase(p.tagged, p.tagged)
  }

  function After(p: Phase, ts: seq<Token>): Phase
    decreases |ts|
  {
    if ts == [] then p else After(Next(p, ts[0]), ts[1..])
  }

  /**
   What a client sees of one token. Showing: every character, and a separator where a tag or an event
   ends the thinking. Hiding: the characters outside thinking.
   */
  function Seen(show: bool, p: Phase, t: Token): seq<Sym> {
    match t
    case Letter(c) => if show || !p.thinking then [Ch(c)] else []
    case Opening => []
    case Closing => if show && p.thinking then [Mark(Separator)] else []
    case Break => if show then [Mark(Separator)] else []
  }

  function Rendered(show: bool, p: Phase, ts: seq<Token>): seq<Sym>
    decreases |ts|
  {
    if ts == [] then [] else Seen(show, p, ts[0]) + Rendered(show, Next(p, ts[0]), ts[1..])
  }

  function EventTokens(content: string, p: Phase): seq<Token> {
    if content == SEPARATOR then [Break] else Tokens(content, p.tagged)
  }

  /** All that the events of a thinking model amount to. */
  function Upstream(events: seq<SSEEvent>): seq<Token> {
    if events == [] then []
    else
      var before := Upstream(events[..|events| - 1]);
      before + EventTokens(events[|events| - 1].content, After(FIRST, before))
  }

  /** The text in front of an opening tag that is the first marker and arrives in one event with that text. */
  function Leaked(events: seq<SSEEvent>): string {
    if events == [] then ""
    else
      var before, content := events[..|events| - 1], events[|events| - 1].content;
      if NoMarkers(before) && Opens(content) then content[..Index(content, OPEN_TAG)] else Leaked(before)
  }

  function Letters(text: string): (ts: seq<Token>)
    ensures |ts| == |text| && forall i :: 0 <= i < |ts| ==> ts[i] == Letter(text[i])
  {
    seq(|text|, i requires 0 <= i < |text| => Letter(text[i]))
  }

  lemma {:induction false} RenderedConcat(show: bool, p: Phase, a: seq<Token>, b: seq<Token>)
    ensures Rendered(show, p, a + b) == Rendered(show, p, a) + Rendered(show, After(p, a), b)
    ensures After(p, a + b) == After(After(p, a), b)
    decreases |a|
  {
    hide Seen, Next;
    if a == [] {
      assert a + b == b;
    } else {
      assert (a + b)[1..] == a[1..] + b;
      RenderedConcat(show, Next(p, a[0]), a[1..], b);
    }
  }

  lemma {:induction false} LettersRendered(show: bool, p: Phase, text: string)
    ensures Rendered(show, p, Letters(text)) == if show || !p.thinking then Syms(Content(text)) else []
    ensures After(p, Letters(text)) == p
  {
    if text != "" {
      assert Letters(text)[1..] == Letters(text[1..]);
      LettersRendered(show, p, text[1..]);
      assert Syms(Content(text)) == [Ch(text[0])] + Syms(Content(text[1..]));
    }
  }

  lemma {:induction false} PrefixHere(text: string, p: string, i: nat)
    requires i <= |text|
    ensures HasPrefix(text[i..], p) <==> OccursAt(text, p, i)
  {
  }

  /** Where no tag counts there are only characters. */
  lemma {:induction false} TokensFrom(text: string, tagged: bool, i: nat, n: nat)
    requires i <= n <= |text|
    requires forall j :: i <= j < n ==> !OccursAt(text, CLOSE_TAG, j) && (tagged || !OccursAt(text, OPEN_TAG, j))
    ensures Tokens(text[i..], tagged) == Letters(text[i..n]) + Tokens(text[n..], tagged)
    decreases n - i
  {
    hide OccursAt, Tokens;
    if i == n {
      assert Letters(text[i..n]) == [];
    } else {
      LetterAt(text, tagged, i);
      TokensFrom(text, tagged, i + 1, n);
      assert Letters(text[i..n]) == [Letter(text[i])] + Letters(text[i + 1..n]);
    }
  }

  lemma {:induction false} LetterAt(text: string, tagged: bool, i: nat)
    requires i < |text| && !OccursAt(text, CLOSE_TAG, i) && (tagged || !OccursAt(text, OPEN_TAG, i))
    ensures Tokens(text[i..], tagged) == [Letter(text[i])] + Tokens(text[i + 1..], tagged)
  {
    hide OccursAt, HasPrefix;
    PrefixHere(text, CLOSE_TAG, i);
    PrefixHere(text, OPEN_TAG, i);
    assert text[i..][1..] == text[i + 1..];
  }

  function TagTokens(kind: TagKind): seq<Token> {
    match kind
    case NoTag => []
    case CloseTag => [Closing]
    case OpenTag => [Opening]
  }

  /** The first tag that counts, among the tokens. */
  lemma {:induction false} FirstTagTokens(text: string, tagged: bool)
    ensures var c := FirstTag(text, tagged);
            Tokens(text, tagged) == Letters(c.before) + TagTokens(c.kind) +
            match c.kind
            case NoTag => []
            case CloseTag => Tokens(c.after, false)
            case OpenTag => Tokens(c.after, true)
  {
    hide OccursAt, FirstTag, Tokens;
    var c := FirstTag(text, tagged);
    FirstTagAt(text, tagged);
    TokensFrom(text, tagged, 0, |c.before|);
    assert text[0..] == text && text[0..|c.before|] == c.before;
    TokensAtTag(text, tagged, |c.before|);
    var ts := Tokens(text[|c.before|..], tagged);
    if c.kind == NoTag {
      assert ts == [] && Letters(c.before) + [] + [] == Letters(c.before) + ts;
    } else {
      var tail := Tokens(c.after, c.kind == OpenTag);
      assert Letters(c.before) + (TagTokens(c.kind) + tail) == Letters(c.before) + TagTokens(c.kind) + tail;
    }
  }

  lemma {:induction false} TokensAtTag(text: string, tagged: bool, i: nat)
    requires i <= |text|
    ensures i == |text| ==> Tokens(text[i..], tagged) == []
    ensures OccursAt(text, CLOSE_TAG, i) ==>
              Tokens(text[i..], tagged) == [Closing] + Tokens(text[i + |CLOSE_TAG|..], false)
    ensures OccursAt(text, OPEN_TAG, i) && !tagged ==>
              Tokens(text[i..], tagged) == [Opening] + Tokens(text[i + |OPEN_TAG|..], true)
  {
    PrefixHere(text, CLOSE_TAG, i);
    PrefixHere(text, OPEN_TAG, i);
    if i + |OPEN_TAG| <= |text| {
      assert text[i..][|OPEN_TAG|..] == text[i + |OPEN_TAG|..];
    }
    if i + |CLOSE_TAG| <= |text| {
      assert text[i..][|CLOSE_TAG|..] == text[i + |CLOSE_TAG|..];
    }
    if HasPrefix(text[i..], OPEN_TAG) {
      assert text[i..][1] == OPEN_TAG[1];
    }
  }

  /** Before the first tag that counts there is none, and there it stands. */
  lemma {:induction false} FirstTagAt(text: string, tagged: bool)
    ensures var c := FirstTag(text, tagged);
            && |c.before| <= |text| && c.before == text[..|c.before|]
            && (forall j :: 0 <= j < |c.before| ==>
                              !OccursAt(text, CLOSE_TAG, j) && (tagged || !OccursAt(text, OPEN_TAG, j)))
            && match c.kind
               case NoTag => |c.before| == |text|
               case CloseTag => OccursAt(text, CLOSE_TAG, |c.before|) && c.after == text[|c.before| + |CLOSE_TAG|..]
               case OpenTag => OccursAt(text, OPEN_TAG, |c.before|) && c.after == text[|c.before| + |OPEN_TAG|..]
                               && !tagged
  {
    hide OccursAt, IndexFrom;
  }

  /** The scan state is in the phase. */
  predicate InPhase(st: ScanState, p: Phase) {
    p.tagged == st.inThinkTag && p.thinking == st.Thinking()
  }

  /** What hiding lets out of the untagged phase. */
  function Leak(kind: TagKind, before: string, show: bool, st: ScanState): string {
    if !show && !Settled(st) && kind == OpenTag then before else ""
  }

  lemma {:induction false} ActRenders(kind: TagKind, before: string, show: bool, st: ScanState, p: Phase)
    requires InPhase(st, p) && (!Settled(st) ==> kind != NoTag) && (kind == OpenTag ==> !st.inThinkTag)
    ensures var s, ts := Act(kind, before, show, st), Letters(before) + TagTokens(kind);
            && Flatten(s.outs) == Syms(Content(Leak(kind, before, show, st))) + Rendered(show, p, ts)
            && InPhase(s.state, After(p, ts)) && (kind != NoTag ==> Settled(s.state))
  {
    RenderedConcat(show, p, Letters(before), TagTokens(kind));
    LettersRendered(show, p, before);
    TagRendered(show, p, kind);
    ActFlat(kind, before, show, st);
    hide Flatten, Rendered, After;
    assert Syms(Content("")) == [];
  }

  lemma {:induction false} TagRendered(show: bool, p: Phase, kind: TagKind)
    ensures Rendered(show, p, TagTokens(kind))
            == if kind == CloseTag && show && p.thinking then [Mark(Separator)] else []
    ensures After(p, TagTokens(kind)) ==
            match kind
            case NoTag => p
            case CloseTag => Phase(false, false)
            case OpenTag => Phase(true, true)
  {
  }

  lemma {:induction false} ActFlat(kind: TagKind, before: string, show: bool, st: ScanState)
    ensures Flatten(Act(kind, before, show, st).outs)
            == (if ShownBefore(kind, show, st) then Syms(Content(before)) else [])
               + if kind == CloseTag && st.Thinking() && show then [Mark(Separator)] else []
  {
    var e := EmitIf(ShownBefore(kind, show, st), before, st);
    EmitFlat(before, st);
    FlattenConcat(e.outs, SeparatorIf(show));
    assert Flatten([Out(Separator, false)]) == [Mark(Separator)];
  }

  /** The tag loop delivers what the tokens of its text say, and what leaks. */
  lemma {:induction false} TaggedRenders(text: string, show: bool, st: ScanState, p: Phase)
    requires InPhase(st, p) && (!Settled(st) ==> FirstTag(text, st.inThinkTag).kind != NoTag)
    ensures var s, c := Tagged(text, show, st), FirstTag(text, st.inThinkTag);
            && Flatten(s.outs) == Syms(Content(Leak(c.kind, c.before, show, st)))
                                  + Rendered(show, p, Tokens(text, p.tagged))
            && InPhase(s.state, After(p, Tokens(text, p.tagged)))
    decreases |text|
  {
    hide FirstTag, Act, Tokens, Flatten, Rendered, After;
    var c := FirstTag(text, st.inThinkTag);
    var s := Act(c.kind, c.before, show, st);
    var ts := Letters(c.before) + TagTokens(c.kind);
    FirstTagTokens(text, p.tagged);
    ActRenders(c.kind, c.before, show, st, p);
    if c.kind == NoTag {
      assert ts + [] == ts;
    } else {
      TagPhase(p, c.kind, c.before);
      var more := Tagged(c.after, show, s.state);
      var q := After(p, ts);
      TaggedRenders(c.after, show, s.state, q);
      assert Syms(Content("")) == [];
      RenderedConcat(show, p, ts, Tokens(c.after, q.tagged));
      FlattenConcat(s.outs, more.outs);
      JoinedSyms(Syms(Content(Leak(c.kind, c.before, show, st))), Rendered(show, p, ts),
          Rendered(show, q, Tokens(c.after, q.tagged)));
    }
  }

  lemma {:induction false} TagPhase(p: Phase, kind: TagKind, before: string)
    requires kind != NoTag
    ensures After(p, Letters(before) + TagTokens(kind)).tagged <==> kind == OpenTag
  {
    LettersRendered(true, p, before);
    RenderedConcat(true, p, Letters(before), TagTokens(kind));
    TagRendered(true, p, kind);
  }

  lemma {:induction false} JoinedSyms(a: seq<Sym>, b: seq<Sym>, c: seq<Sym>)
    ensures (a + b) + c == a + (b + c)
    ensures a == [] ==> a + b == b
  {
  }

  /** What leaks out of one event. */
  predicate LeaksFrom(content: string, show: bool, st: ScanState) {
    !show && !Settled(st) && Opens(content)
  }

  lemma {:induction false} TaggedLeak(text: string, show: bool, st: ScanState)
    requires !Settled(st) ==> FirstTag(text, st.inThinkTag).kind != NoTag
    ensures var c := FirstTag(text, st.inThinkTag);
            Leak(c.kind, c.before, show, st) == if LeaksFrom(text, show, st) then text[..Index(text, OPEN_TAG)] else ""
  {
  }

  lemma {:induction false} PlainTokens(text: string)
    requires !Contains(text, OPEN_TAG) && !Contains(text, CLOSE_TAG)
    ensures Tokens(text, false) == Letters(text)
  {
    hide Tokens, OccursAt;
    TokensFrom(text, false, 0, |text|);
    TokensAtTag(text, false, |text|);
    assert text[0..] == text && text[0..|text|] == text && Letters(text) + [] == Letters(text);
  }

  /** One event of a thinking model. */
  lemma {:induction false} ContentRenders(content: string, show: bool, st: ScanState, p: Phase)
    requires InPhase(st, p)
    ensures var s, ts := ScanContent(content, true, show, st), EventTokens(content, p);
            && Flatten(s.outs) ==
               (if LeaksFrom(content, show, st) then Syms(Content(content[..Index(content, OPEN_TAG)])) else [])
               + Rendered(show, p, ts)
            && InPhase(s.state, After(p, ts))
  {
    hide Tagged, Tokens, Rendered, After, Flatten, Index, FirstTag, OccursAt;
    ShortTextOpensNothing();
    NoTextNoTokens(p, show);
    var st1 := st.(tagSeen := true);
    if content == "" {
    } else if content == SEPARATOR {
      BreakRenders(show, p);
    } else if HasTagWork(content, st) {
      WorkHasTag(content, st1);
      TaggedRenders(content, show, st1, p);
      TaggedLeak(content, show, st1);
      assert Syms(Content("")) == [];
    } else {
      PlainTokens(content);
      LettersRendered(show, p, content);
      EmitFlat(content, st);
      assert !Opens(content);
    }
  }

  lemma {:induction false} WorkHasTag(content: string, st: ScanState)
    requires HasTagWork(content, st)
    ensures !Settled(st) ==> FirstTag(content, st.inThinkTag).kind != NoTag
  {
  }

  lemma {:induction false} NoTextNoTokens(p: Phase, show: bool)
    ensures Tokens("", p.tagged) == [] && Rendered(show, p, []) == [] && After(p, []) == p && Flatten([]) == []
  {
  }

  lemma {:induction false} BreakRenders(show: bool, p: Phase)
    ensures Rendered(show, p, [Break]) == (if show then [Mark(Separator)] else [])
    ensures After(p, [Break]) == Phase(p.tagged, p.tagged) && Flatten(SeparatorIf(show)) == Rendered(show, p, [Break])
  {
  }

  /** All events of a thinking model: what leaked, then what the tokens say. */
  lemma {:induction false} BodyRenders(events: seq<SSEEvent>, show: bool)
    ensures var s, ts := ScanBody(events, true, show), Upstream(events);
            && Flatten(s.outs) == Syms(Content(if show then "" else Leaked(events))) + Rendered(show, FIRST, ts)
            && InPhase(s.state, After(FIRST, ts))
  {
    hide ScanContent, EventTokens, Rendered, After, Flatten, Opens, NoMarkers, Index, Settled;
    assert Syms(Content("")) == [];
    NoTextNoTokens(FIRST, show);
    if events != [] {
      var front, content := events[..|events| - 1], events[|events| - 1].content;
      var before, ts := ScanBody(front, true, show), Upstream(front);
      BodyRenders(front, show);
      UntaggedPhase(front, show);
      var p := After(FIRST, ts);
      ContentRenders(content, show, before.state, p);
      RenderedConcat(show, FIRST, ts, EventTokens(content, p));
      FlattenConcat(before.outs, ScanContent(content, true, show, before.state).outs);
      JoinedSyms(Syms(Content(if show then "" else Leaked(front))), Rendered(show, FIRST, ts),
          Rendered(show, p, EventTokens(content, p)));
      if !show && NoMarkers(front) {
        SilentBefore(front);
      }
    }
  }

  /** Before the first marker nothing is let out. */
  lemma {:induction false} SilentBefore(events: seq<SSEEvent>)
    requires NoMarkers(events)
    requires Flatten(ScanBody(events, true, false).outs)
             == Syms(Content(Leaked(events))) + Rendered(false, FIRST, Upstream(events))
    ensures Leaked(events) == "" && Rendered(false, FIRST, Upstream(events)) == []
  {
    hide Leaked, Rendered;
    UntaggedPhaseIsSilent(events);
    assert |Syms(Content(Leaked(events)))| == |Leaked(events)|;
  }

  /**
   Showing, a thinking model's client gets all characters but those of the tags that count, in order,
   and a separator for each closing tag that ends the thinking and each separator event.
   */
  lemma {:induction false} ShownText(events: seq<SSEEvent>, readErr: Option<StreamError>)
    ensures Flatten(Scan(events, true, true, readErr).outs)
            == Rendered(true, FIRST, Upstream(events[..BodyLength(events)]))
               + if Ended(events) then [Mark(Done)] else []
  {
    hide ScanBody, Scan, Rendered, Upstream, Flatten;
    var body := events[..BodyLength(events)];
    ScanIsBodyThenEnd(events, true, true, readErr);
    BodyRenders(body, true);
    var h := ScanBody(body, true, true);
    assert Syms(Content("")) == [];
    if Ended(events) {
      assert Ending(true, true, h.state).outs == [Out(Done, h.state.Thinking())];
      FlattenConcat(h.outs, [Out(Done, h.state.Thinking())]);
      DoneFlat(h.state.Thinking());
    } else {
      assert Flatten(h.outs) + [] == Flatten(h.outs);
    }
  }

  lemma {:induction false} DoneFlat(thinking: bool)
    ensures Flatten([Out(Done, thinking)]) == [Mark(Done)]
  {
  }

  /**
   Hiding, the client gets exactly the characters outside thinking, after what leaks, and no separator; if the
   stream ends without any marker, its whole text.
   */
  lemma {:induction false} HiddenText(events: seq<SSEEvent>, readErr: Option<StreamError>)
    ensures var body := events[..BodyLength(events)];
            Flatten(Scan(events, true, false, readErr).outs)
            == Syms(Content(Leaked(body))) + Rendered(false, FIRST, Upstream(body))
               + (if Ended(events) && NoMarkers(body) then Syms(Content(AllText(body))) else [])
               + if Ended(events) then [Mark(Done)] else []
  {
    hide ScanBody, Scan, Rendered, Upstream, Flatten, Leaked, NoMarkers;
    var body := events[..BodyLength(events)];
    ScanIsBodyThenEnd(events, true, false, readErr);
    BodyRenders(body, false);
    if Ended(events) {
      EndingFlat(body);
    }
  }

  lemma {:induction false} EndingFlat(events: seq<SSEEvent>)
    ensures var h := ScanBody(events, true, false);
            Flatten(h.outs + Ending(true, false, h.state).outs) ==
            Flatten(h.outs) + (if NoMarkers(events) then Syms(Content(AllText(events))) else []) + [Mark(Done)]
  {
    hide ScanBody, Flatten, NoMarkers, AllText;
    var h := ScanBody(events, true, false);
    FlushIffUnmarked(events, true);
    UnmarkedThinking(events);
    var end := Ending(true, false, h.state);
    var flush := end.outs[..|end.outs| - 1];
    assert end.outs == flush + [Out(Done, end.state.Thinking())];
    FlattenConcat(h.outs, end.outs);
    FlattenConcat(flush, [Out(Done, end.state.Thinking())]);
    DoneFlat(end.state.Thinking());
    EmitFlat(h.state.hidden, h.state);
    NoTextNoTokens(FIRST, false);
    assert Syms(Content("")) == [];
  }
}
