/** The markers that fence AI_ACTIONS blocks, and the two extractors that look for them. */
module ActionsProtocol {
  import opened Text

  const START_MARKER := "<<<AI_ACTIONS_V1>>>"
  const COMPAT_START_MARKER := "<<<AI_ACTIONS_V1>>"
  const END_MARKER := "<<<END_AI_ACTIONS_V1>>>"
  const CURLY_END_MARKER := "<<<END_AI_ACTIONS_V1>>}"
  const SHORT_END_MARKER := "<<<END_AI_ACTIONS_V1>>"

  const START_MARKERS: seq<string> := [START_MARKER, COMPAT_START_MARKER]
  const END_MARKERS: seq<string> := [END_MARKER, CURLY_END_MARKER, SHORT_END_MARKER]

  datatype Block = Block(visibleText: string, jsonText: string)

  datatype Marker = Marker(at: nat, text: string)

  predicate MarkerAt(s: string, m: Marker) {
    OccursAt(s, m.text, m.at)
  }

  /** The marker of the list that comes first at one position. */
  function MarkerHere(s: string, markers: seq<string>, i: nat): Option<Marker> {
    if markers == [] then None
    else if OccursAt(s, markers[0], i) then Some(Marker(i, markers[0]))
    else MarkerHere(s, markers[1..], i)
  }

  function MarkerFrom(s: string, markers: seq<string>, i: nat): (m: Option<Marker>)
    decreases |s| - i
  {
    if i >= |s| then None
    else if MarkerHere(s, markers, i).Some? then MarkerHere(s, markers, i)
    else MarkerFrom(s, markers, i + 1)
  }

  /** The leftmost marker, preferring the markers listed first. */
  function FirstMarker(s: string, markers: seq<string>): Option<Marker> {
    MarkerFrom(s, markers, 0)
  }

  /** Three angle brackets, and none after them: no two such markers overlap. */
  predicate IsFence(p: string) {
    && |p| > 3 && p[0] == '<' && p[1] == '<' && p[2] == '<'
    && forall j :: 3 <= j < |p| ==> p[j] != '<'
  }

  lemma {:induction false} MarkersAreFences(p: string)
    requires p in START_MARKERS || p in END_MARKERS
    ensures IsFence(p)
    ensures p in START_MARKERS ==> p[3] == 'A'
    ensures p in END_MARKERS ==> p[3] == 'E'
  {
  }

  lemma {:induction false} MarkerFits(s: string, markers: seq<string>)
    requires markers == START_MARKERS || markers == END_MARKERS
    ensures FirstMarker(s, markers).Some? ==>
              var m := FirstMarker(s, markers).value; m.text != "" && m.at + |m.text| <= |s|
  {
    FirstMarkerOccurs(s, markers);
    forall p | p in markers
      ensures p != ""
    {
      MarkersAreFences(p);
    }
  }

  /** Where a block's start marker, payload and end marker lie, and where the search goes on. */
  datatype Span = Span(start: nat, payload: nat, end: nat, next: nat)

  predicate SpanIn(text: string, cursor: nat, span: Span) {
    cursor <= span.start < span.payload <= span.end < span.next <= |text|
  }

  function NextSpan(text: string, cursor: nat): (span: Option<Span>)
    requires cursor <= |text|
    ensures span.Some? ==> SpanIn(text, cursor, span.value)
  {
    match FirstMarker(text[cursor..], START_MARKERS)
    case None => None
    case Some(s) =>
      MarkerFits(text[cursor..], START_MARKERS);
      var payload := cursor + s.at + |s.text|;
      match FirstMarker(text[payload..], END_MARKERS)
      case None => None
      case Some(e) =>
        MarkerFits(text[payload..], END_MARKERS);
        Some(Span(cursor + s.at, payload, payload + e.at, payload + e.at + |e.text|))
  }

  function Cut(text: string, cursor: nat, span: Span): Block
    requires SpanIn(text, cursor, span)
  {
    Block(text[cursor..span.start], text[span.payload..span.end])
  }

  /** The blocks from a position on; a block with a blank payload is dropped. */
  function BlocksFrom(text: string, cursor: nat): seq<Block>
    requires cursor <= |text|
    decreases |text| - cursor
  {
    match NextSpan(text, cursor)
    case None => []
    case Some(span) => Kept(Cut(text, cursor, span)) + BlocksFrom(text, span.next)
  }

  function Kept(b: Block): seq<Block> {
    if TrimSpace(b.jsonText) == "" then [] else [Block(TrimSpace(b.visibleText), TrimSpace(b.jsonText))]
  }

  lemma {:induction false} MarkerHereOccurs(s: string, markers: seq<string>, i: nat)
    ensures MarkerHere(s, markers, i).Some? ==>
              var m := MarkerHere(s, markers, i).value; m.at == i && m.text in markers && MarkerAt(s, m)
    ensures MarkerHere(s, markers, i) == None ==> forall p :: p in markers ==> !OccursAt(s, p, i)
  {
    if markers != [] {
      MarkerHereOccurs(s, markers[1..], i);
    }
  }

  lemma {:induction false} MarkerFromOccurs(s: string, markers: seq<string>, i: nat)
    ensures MarkerFrom(s, markers, i).Some? ==>
              && var m := MarkerFrom(s, markers, i).value;
              && i <= m.at && m.text in markers && MarkerAt(s, m)
              && forall j, p :: i <= j < m.at && p in markers ==> !OccursAt(s, p, j)
    ensures MarkerFrom(s, markers, i) == None ==>
              forall j, p :: i <= j < |s| && p in markers ==> !OccursAt(s, p, j)
    decreases |s| - i
  {
    if i < |s| {
      MarkerHereOccurs(s, markers, i);
      MarkerFromOccurs(s, markers, i + 1);
    }
  }

  /** The first marker is one of the list, occurs there, and none of the list occurs before it. */
  lemma {:induction false} FirstMarkerOccurs(s: string, markers: seq<string>)
    ensures FirstMarker(s, markers).Some? ==>
              && var m := FirstMarker(s, markers).value;
              && m.text in markers && MarkerAt(s, m)
              && forall j, p :: 0 <= j < m.at && p in markers ==> !OccursAt(s, p, j)
    ensures FirstMarker(s, markers) == None ==>
              forall j, p :: 0 <= j < |s| && p in markers ==> !OccursAt(s, p, j)
  {
    MarkerFromOccurs(s, markers, 0);
  }

  lemma {:induction false} PrefixOccurs(s: string, p: string, i: nat)
    requires i <= |s|
    ensures HasPrefix(s[i..], p) <==> OccursAt(s, p, i)
  {
  }

  method FindNextAIActionsStartMarker(text: string) returns (at: int, marker: string)
    ensures (if at >= 0 then Some(Marker(at, marker)) else None) == FirstMarker(text, START_MARKERS)
  {
    for i := 0 to |text|
      invariant MarkerFrom(text, START_MARKERS, i) == FirstMarker(text, START_MARKERS)
    {
      for k := 0 to |START_MARKERS|
        invariant MarkerHere(text, START_MARKERS[k..], i) == MarkerHere(text, START_MARKERS, i)
      {
        var candidate := START_MARKERS[k];
        assert START_MARKERS[k..][1..] == START_MARKERS[k + 1..];
        PrefixOccurs(text, candidate, i);
        if HasPrefix(text[i..], candidate) {
          return i, candidate;
        }
      }
    }
    return -1, "";
  }

  method FindNextAIActionsEndMarker(text: string) returns (best: int, bestMarker: string)
    ensures (if best >= 0 then Some(Marker(best, bestMarker)) else None) == FirstMarker(text, END_MARKERS)
  {
    best, bestMarker := -1, "";
    NoMarkers(text, 0);
    for k := 0 to |END_MARKERS|
      invariant (if best >= 0 then Some(Marker(best, bestMarker)) else None) == FirstMarker(text, END_MARKERS[..k])
    {
      var idx := Index(text, END_MARKERS[k]);
      assert END_MARKERS[..k + 1] == END_MARKERS[..k] + [END_MARKERS[k]];
      assert END_MARKERS[k] != "";
      OneMoreMarker(text, END_MARKERS[..k], END_MARKERS[k]);
      if idx >= 0 && (best < 0 || idx < best) {
        best, bestMarker := idx, END_MARKERS[k];
      }
    }
    assert END_MARKERS[..|END_MARKERS|] == END_MARKERS;
  }

  /** One more marker at the end of the list wins only where it occurs strictly earlier. */
  lemma {:induction false} OneMoreMarker(s: string, markers: seq<string>, p: string)
    requires p != ""
    ensures var m, idx := FirstMarker(s, markers), Index(s, p);
            FirstMarker(s, markers + [p]) == if idx >= 0 && (m == None || idx < m.value.at) then Some(Marker(idx, p))
              else m
  {
    OneMoreFrom(s, markers, p, 0);
  }

  lemma {:induction false} NoMarkers(s: string, i: nat)
    ensures MarkerFrom(s, [], i) == None
    decreases |s| - i
  {
    if i < |s| {
      NoMarkers(s, i + 1);
    }
  }

  lemma {:induction false} OneMoreFrom(s: string, markers: seq<string>, p: string, i: nat)
    requires p != ""
    ensures var m, idx := MarkerFrom(s, markers, i), IndexFrom(s, p, i);
            MarkerFrom(s, markers + [p], i) == if idx >= 0 && (m == None || idx < m.value.at) then Some(Marker(idx, p))
              else m
    decreases |s| - i
  {
    if i < |s| {
      OneMoreHere(s, markers, p, i);
      MarkerHereOccurs(s, markers, i);
      MarkerFromOccurs(s, markers, i + 1);
      OneMoreFrom(s, markers, p, i + 1);
    }
  }

  lemma {:induction false} OneMoreHere(s: string, markers: seq<string>, p: string, i: nat)
    ensures var m := MarkerHere(s, markers, i);
            MarkerHere(s, markers + [p], i) == if m == None && OccursAt(s, p, i) then Some(Marker(i, p)) else m
  {
    if markers == [] {
      assert markers + [p] == [p] && [p][1..] == [];
    } else {
      assert (markers + [p])[1..] == markers[1..] + [p];
      OneMoreHere(s, markers[1..], p, i);
    }
  }

  method ExtractSequentialAIActionsBlocks(text: string) returns (blocks: seq<Block>)
    ensures blocks == BlocksFrom(text, 0)
  {
    hide FirstMarker, BlocksFrom, NextSpan, Cut, Kept, TrimSpace, OccursAt;
    blocks := [];
    var cursor := 0;
    while cursor < |text|
      invariant cursor <= |text|
      invariant blocks + BlocksFrom(text, cursor) == BlocksFrom(text, 0)
    {
      SpanOf(text, cursor);
      Unfold(text, cursor);
      var start, marker := FindNextAIActionsStartMarker(text[cursor..]);
      if start < 0 {
        return;
      }
      start := start + cursor;
      var payloadStart := start + |marker|;
      var end, endMarker := FindNextAIActionsEndMarker(text[payloadStart..]);
      if end < 0 {
        return;
      }
      end := end + payloadStart;
      ghost var span := Span(start, payloadStart, end, end + |endMarker|);
      var payload := TrimSpace(text[payloadStart..end]);
      CutAndKept(text, cursor, span);
      Regroup(blocks, Kept(Cut(text, cursor, span)), BlocksFrom(text, span.next));
      if payload != "" {
        blocks := blocks + [Block(TrimSpace(text[cursor..start]), payload)];
      }
      cursor := end + |endMarker|;
    }
    Unfold(text, |text|);
    EndOfBlocks(text);
  }

  lemma {:induction false} Regroup(a: seq<Block>, b: seq<Block>, c: seq<Block>)
    ensures (a + b) + c == a + (b + c)
    ensures b == [] ==> a + b == a
  {
  }

  lemma {:induction false} CutAndKept(text: string, cursor: nat, span: Span)
    requires SpanIn(text, cursor, span)
    ensures Kept(Cut(text, cursor, span)) ==
            var payload := TrimSpace(text[span.payload..span.end]);
            if payload == "" then [] else [Block(TrimSpace(text[cursor..span.start]), payload)]
  {
  }

  lemma {:induction false} Unfold(text: string, cursor: nat)
    requires cursor <= |text|
    ensures BlocksFrom(text, cursor) ==
            match NextSpan(text, cursor)
            case None => []
            case Some(span) => Kept(Cut(text, cursor, span)) + BlocksFrom(text, span.next)
  {
  }

  lemma {:induction false} EndOfBlocks(text: string)
    ensures NextSpan(text, |text|) == None
  {
  }

  /** The span is found by the two searches, one behind the other. */
  lemma {:induction false} SpanOf(text: string, cursor: nat)
    requires cursor <= |text|
    ensures var start := FirstMarker(text[cursor..], START_MARKERS);
            if start == None then NextSpan(text, cursor) == None
            else
              && var payload := cursor + start.value.at + |start.value.text|;
              && payload <= |text|
              && var end := FirstMarker(text[payload..], END_MARKERS);
              if end == None then NextSpan(text, cursor) == None
              else NextSpan(text, cursor) ==
                   Some(Span(cursor + start.value.at, payload, payload + end.value.at,
                       payload + end.value.at + |end.value.text|))
  {
    MarkerFits(text[cursor..], START_MARKERS);
  }

  /** The last start marker, preferring the full one where both end the search. */
  function LastStart(text: string): Option<Marker> {
    var full, compat := LastIndex(text, START_MARKER), LastIndex(text, COMPAT_START_MARKER);
    if compat >= 0 && compat > full then Some(Marker(compat, COMPAT_START_MARKER))
    else if full >= 0 then Some(Marker(full, START_MARKER))
    else None
  }

  method FindAIActionsStartMarker(text: string) returns (start: int, marker: string)
    ensures (if start >= 0 then Some(Marker(start, marker)) else None) == LastStart(text)
  {
    hide LastIndex;
    LastIndexBounded(text, START_MARKER);
    LastIndexBounded(text, COMPAT_START_MARKER);
    start, marker := -1, "";
    for k := 0 to |START_MARKERS|
      invariant k == 0 ==> start == -1
      invariant k == 1 ==> start == LastIndex(text, START_MARKER) && (start >= 0 ==> marker == START_MARKER)
      invariant k == 2 ==> (if start >= 0 then Some(Marker(start, marker)) else None) == LastStart(text)
    {
      var idx := LastIndex(text, START_MARKERS[k]);
      if idx >= 0 && idx > start {
        start, marker := idx, START_MARKERS[k];
      }
    }
  }

  lemma {:induction false} LastIndexBounded(s: string, p: string)
    ensures LastIndex(s, p) >= -1
  {
  }

  /** The last full end marker; a variant counts only where no full one occurs. */
  function LastEnd(text: string): Option<Marker> {
    if LastIndex(text, END_MARKER) >= 0 then Some(Marker(LastIndex(text, END_MARKER), END_MARKER))
    else if LastIndex(text, CURLY_END_MARKER) >= 0
      then Some(Marker(LastIndex(text, CURLY_END_MARKER), CURLY_END_MARKER))
    else if LastIndex(text, SHORT_END_MARKER) >= 0
      then Some(Marker(LastIndex(text, SHORT_END_MARKER), SHORT_END_MARKER))
    else None
  }

  /** The block between the last markers; nothing but white space may follow it. */
  function LastBlock(text: string): Option<Block> {
    var start, end := LastStart(text), LastEnd(text);
    if start == None || end == None || end.value.at < start.value.at then None
    else
      var s, e := start.value, end.value;
      EndAfterStart(text, s, e);
      var payload := TrimSpace(text[s.at + |s.text|..e.at]);
      if TrimSpace(text[e.at + |e.text|..]) != "" || payload == "" then None
      else Some(Block(TrimSpace(text[..s.at]), payload))
  }

  method ExtractAIActionsBlock(text: string) returns (block: Block, ok: bool)
    ensures (if ok then Some(block) else None) == LastBlock(text)
  {
    hide TrimSpace, LastStart, LastEnd, Index;
    block, ok := Block("", ""), false;
    var start, startMarker := FindAIActionsStartMarker(text);
    if start < 0 {
      return;
    }
    var end := LastEnd(text);
    if end == None || end.value.at < start {
      return;
    }
    MarkersInside(text);
    var e := end.value;
    var suffix := text[e.at + |e.text|..];
    if TrimSpace(suffix) != "" {
      return;
    }
    var payloadStart := start + |startMarker|;
    var payload := TrimSpace(text[payloadStart..e.at]);
    if payload == "" {
      return;
    }
    block, ok := Block(TrimSpace(text[..start]), payload), true;
  }

  lemma {:induction false} MarkersInside(text: string)
    ensures LastStart(text).Some? && LastEnd(text).Some? && LastStart(text).value.at <= LastEnd(text).value.at ==>
              && LastStart(text).value.at + |LastStart(text).value.text| <= LastEnd(text).value.at
              && LastEnd(text).value.at + |LastEnd(text).value.text| <= |text|
  {
    if LastStart(text).Some? && LastEnd(text).Some? && LastStart(text).value.at <= LastEnd(text).value.at {
      EndAfterStart(text, LastStart(text).value, LastEnd(text).value);
    }
  }

  lemma {:induction false} CharOf(s: string, p: string, i: int, x: int)
    requires OccursAt(s, p, i) && i <= x < i + |p|
    ensures s[x] == p[x - i]
  {
  }

  lemma {:induction false} FencesApart(s: string, p: string, q: string, i: int, j: int)
    requires IsFence(p) && IsFence(q) && OccursAt(s, p, i) && OccursAt(s, q, j) && i < j
    ensures i + |p| <= j
  {
    if j < i + |p| {
      CharOf(s, p, i, j);
      CharOf(s, q, j, j);
      CharOf(s, p, i, i + 3);
      CharOf(s, q, j, i + 3);
    }
  }

  /** An end marker that does not start before a start marker starts behind it. */
  lemma {:induction false} EndAfterStart(text: string, s: Marker, e: Marker)
    requires s.text in START_MARKERS && e.text in END_MARKERS
    requires MarkerAt(text, s) && MarkerAt(text, e) && s.at <= e.at
    ensures s.at + |s.text| <= e.at
  {
    MarkersAreFences(s.text);
    MarkersAreFences(e.text);
    hide *;
    if s.at < e.at {
      Apart(text, s, e);
    } else {
      Differ(text, s, e);
    }
  }

  lemma {:induction false} Apart(text: string, s: Marker, e: Marker)
    requires IsFence(s.text) && IsFence(e.text) && MarkerAt(text, s) && MarkerAt(text, e) && s.at < e.at
    ensures s.at + |s.text| <= e.at
  {
    FencesApart(text, s.text, e.text, s.at, e.at);
  }

  lemma {:induction false} Differ(text: string, s: Marker, e: Marker)
    requires |s.text| > 3 && |e.text| > 3 && MarkerAt(text, s) && MarkerAt(text, e) && s.text[3] != e.text[3]
    ensures s.at != e.at
  {
  }
}
