/** What is printed with the full markers is what both extractors read back. */
module ActionsRoundTrip {
  import opened Text
  import opened ActionsProtocol

  /** One block as the model is told to write it. */
  function PrintBlock(b: Block): string {
    b.visibleText + START_MARKER + b.jsonText + END_MARKER
  }

  function Print(blocks: seq<Block>): string {
    if blocks == [] then "" else PrintBlock(blocks[0]) + Print(blocks[1..])
  }

  /** The pairs that remain: trimmed, those with a blank payload left out. */
  function KeptAll(blocks: seq<Block>): seq<Block> {
    if blocks == [] then [] else Kept(blocks[0]) + KeptAll(blocks[1..])
  }

  /** No marker occurs where it would be taken for one of the block's own. */
  predicate Separable(b: Block) {
    !Contains(b.visibleText, COMPAT_START_MARKER)
    && !Contains(b.jsonText, SHORT_END_MARKER) && !Contains(b.jsonText, CURLY_END_MARKER)
  }

  /** A fence does not start inside a text that lacks it, though another fence follows the text. */
  lemma {:induction false} NoneBefore(a: string, m: string, rest: string, p: string, i: int)
    requires IsFence(p) && IsFence(m) && !Contains(a, p) && 0 <= i < |a|
    ensures !OccursAt(a + m + rest, p, i)
  {
    var s := a + m + rest;
    if OccursAt(s, p, i) {
      assert s == a + (m + rest);
      OccursInConcat(a, m + rest, p, i);
      assert OccursAt(s, m, |a|);
      FencesApart(s, p, m, i, |a|);
    }
  }

  lemma {:induction false} MarkerFromAt(s: string, markers: seq<string>, i: nat, at: nat)
    requires i <= at < |s| && MarkerHere(s, markers, at).Some?
    requires forall j :: i <= j < at ==> MarkerHere(s, markers, j) == None
    ensures MarkerFrom(s, markers, i) == MarkerHere(s, markers, at)
    decreases at - i
  {
    if i < at {
      MarkerFromAt(s, markers, i + 1, at);
    }
  }

  /** Behind a text without any of the markers, the first of them is found where it stands. */
  lemma {:induction false} FoundAfter(a: string, markers: seq<string>, rest: string)
    requires markers != [] && forall p :: p in markers ==> IsFence(p) && !Contains(a, p)
    ensures FirstMarker(a + markers[0] + rest, markers) == Some(Marker(|a|, markers[0]))
  {
    var m := markers[0];
    var s := a + m + rest;
    assert m in markers && OccursAt(s, m, |a|);
    forall j | 0 <= j < |a|
      ensures MarkerHere(s, markers, j) == None
    {
      MarkerHereOccurs(s, markers, j);
      if MarkerHere(s, markers, j).Some? {
        NoneBefore(a, m, rest, MarkerHere(s, markers, j).value.text, j);
      }
    }
    MarkerFromAt(s, markers, 0, |a|);
  }

  lemma {:induction false} PrefixMissing(a: string, p: string, q: string)
    requires p <= q && !Contains(a, p)
    ensures !Contains(a, q)
  {
    if Contains(a, q) {
      var i := Index(a, q);
      Subslice(a, i, i + |q|, 0, |p|);
      assert OccursAt(a, p, i);
    }
  }

  lemma {:induction false} StartFound(v: string, rest: string)
    requires !Contains(v, COMPAT_START_MARKER)
    ensures FirstMarker(v + START_MARKER + rest, START_MARKERS) == Some(Marker(|v|, START_MARKER))
  {
    assert COMPAT_START_MARKER == START_MARKER[..|COMPAT_START_MARKER|];
    PrefixMissing(v, COMPAT_START_MARKER, START_MARKER);
    forall p | p in START_MARKERS
      ensures IsFence(p) && !Contains(v, p)
    {
      MarkersAreFences(p);
      assert p == START_MARKERS[0] || p == START_MARKERS[1];
    }
    FoundAfter(v, START_MARKERS, rest);
  }

  lemma {:induction false} EndFound(payload: string, rest: string)
    requires !Contains(payload, SHORT_END_MARKER) && !Contains(payload, CURLY_END_MARKER)
    ensures FirstMarker(payload + END_MARKER + rest, END_MARKERS) == Some(Marker(|payload|, END_MARKER))
  {
    assert SHORT_END_MARKER == END_MARKER[..|SHORT_END_MARKER|];
    PrefixMissing(payload, SHORT_END_MARKER, END_MARKER);
    forall p | p in END_MARKERS
      ensures IsFence(p) && !Contains(payload, p)
    {
      MarkersAreFences(p);
      assert p == END_MARKERS[0] || p == END_MARKERS[1] || p == END_MARKERS[2];
    }
    FoundAfter(payload, END_MARKERS, rest);
  }

  /** The search from a position on only sees the text from there. */
  lemma {:induction false} SearchShifts(text: string, cursor: nat)
    requires cursor <= |text|
    ensures BlocksFrom(text, cursor) == BlocksFrom(text[cursor..], 0)
    decreases |text| - cursor
  {
    hide FirstMarker, BlocksFrom, NextSpan, Cut, Kept;
    var t := text[cursor..];
    Unfold(text, cursor);
    Unfold(t, 0);
    SpanOf(text, cursor);
    SpanOf(t, 0);
    assert t[0..] == t;
    if NextSpan(text, cursor).Some? {
      var span := NextSpan(text, cursor).value;
      assert t[span.payload - cursor..] == text[span.payload..];
      var moved := Span(span.start - cursor, span.payload - cursor, span.end - cursor, span.next - cursor);
      assert NextSpan(t, 0) == Some(moved);
      CutMoves(text, cursor, span, moved);
      assert t[moved.next..] == text[span.next..];
      SearchShifts(text, span.next);
      SearchShifts(t, moved.next);
    } else if FirstMarker(t, START_MARKERS).Some? {
      var payload := FirstMarker(t, START_MARKERS).value.at + |FirstMarker(t, START_MARKERS).value.text|;
      assert t[payload..] == text[cursor + payload..];
    }
  }

  lemma {:induction false} CutMoves(text: string, cursor: nat, span: Span, moved: Span)
    requires SpanIn(text, cursor, span)
    requires moved == Span(span.start - cursor, span.payload - cursor, span.end - cursor, span.next - cursor)
    ensures Cut(text[cursor..], 0, moved) == Cut(text, cursor, span)
  {
  }

  /** The first printed block is found first, and the search goes on behind it. */
  lemma {:induction false} FirstBlock(b: Block, rest: string)
    requires Separable(b)
    ensures BlocksFrom(PrintBlock(b) + rest, 0) == Kept(b) + BlocksFrom(rest, 0)
  {
    hide FirstMarker, BlocksFrom, NextSpan, Kept, TrimSpace, Contains;
    var v, payload := b.visibleText, b.jsonText;
    var text := PrintBlock(b) + rest;
    var behind := payload + END_MARKER + rest;
    assert text[0..] == text == v + START_MARKER + behind;
    StartFound(v, behind);
    EndFound(payload, rest);
    var p := |v| + |START_MARKER|;
    var e := p + |payload|;
    var next := e + |END_MARKER|;
    assert text[p..] == behind;
    assert text[0..|v|] == v && text[p..e] == payload && text[next..] == rest;
    SpanOf(text, 0);
    Unfold(text, 0);
    SearchShifts(text, next);
  }

  /** Printing any list of blocks and running the sequential extractor gives the trimmed pairs in order. */
  lemma {:induction false} RoundTrip(blocks: seq<Block>, tail: string)
    requires (forall i :: 0 <= i < |blocks| ==> Separable(blocks[i])) && !Contains(tail, COMPAT_START_MARKER)
    ensures BlocksFrom(Print(blocks) + tail, 0) == KeptAll(blocks)
  {
    hide BlocksFrom, Kept, Contains, PrintBlock;
    if blocks == [] {
      assert Print(blocks) + tail == tail;
      NothingFound(tail);
    } else {
      var rest := Print(blocks[1..]) + tail;
      assert Print(blocks) + tail == PrintBlock(blocks[0]) + rest;
      FirstBlock(blocks[0], rest);
      RoundTrip(blocks[1..], tail);
    }
  }

  lemma {:induction false} NothingFound(tail: string)
    requires !Contains(tail, COMPAT_START_MARKER)
    ensures BlocksFrom(tail, 0) == []
  {
    assert tail[0..] == tail;
    assert COMPAT_START_MARKER == START_MARKER[..|COMPAT_START_MARKER|];
    PrefixMissing(tail, COMPAT_START_MARKER, START_MARKER);
    FirstMarkerOccurs(tail, START_MARKERS);
  }

  /** A block as an extractor returns it: printed again, it is read back unchanged. */
  predicate Clean(b: Block) {
    Separable(b) && Trimmed(b.visibleText) && Trimmed(b.jsonText) && b.jsonText != ""
  }

  lemma {:induction false} PartMissing(s: string, p: string, i: nat, j: nat)
    requires i <= j <= |s| && forall k :: i <= k && k + |p| <= j ==> !OccursAt(s, p, k)
    ensures !Contains(s[i..j], p)
  {
    var t := s[i..j];
    if Contains(t, p) {
      var k := Index(t, p);
      Subslice(s, i, j, k, k + |p|);
      assert OccursAt(s, p, i + k);
    }
  }

  lemma {:induction false} Subslice(s: string, i: nat, j: nat, k: nat, n: nat)
    requires i <= j <= |s| && k <= n <= j - i
    ensures s[i..j][k..n] == s[i + k..i + n]
  {
    var t := s[i..j];
    forall x | 0 <= x < n - k
      ensures t[k..n][x] == s[i + k..i + n][x]
    {
      assert t[k..n][x] == t[k + x] == s[i + (k + x)];
    }
  }

  lemma {:induction false} TrimmedTwice(s: string)
    ensures TrimSpace(s) == TrimRight(TrimLeft(s))
  {
    hide TrimLeft, TrimRight;
  }

  lemma {:induction false} SliceOfRest(s: string, i: nat, n: nat)
    requires i + n <= |s|
    ensures s[i..][..n] == s[i..i + n] && s[i..][n..] == s[i + n..]
  {
  }

  /** Trimming takes white space off both ends. */
  lemma {:induction false} TrimSpaceInside(s: string) returns (i: nat, j: nat)
    ensures i <= j <= |s| && TrimSpace(s) == s[i..j] && Blank(s[..i]) && Blank(s[j..])
  {
    hide *;
    TrimmedTwice(s);
    var n := |TrimSpace(s)|;
    i := |s| - |TrimLeft(s)|;
    j := i + n;
    SliceOfRest(s, i, n);
  }

  lemma {:induction false} TrimmedMissing(s: string, p: string)
    requires !Contains(s, p)
    ensures !Contains(TrimSpace(s), p)
  {
    hide TrimSpace;
    var i, j := TrimSpaceInside(s);
    PartMissing(s, p, i, j);
  }

  /** A text that neither starts nor ends with white space survives trimming. */
  lemma {:induction false} TrimmedKeeps(s: string, p: string)
    requires Contains(s, p) && p != "" && !IsSpace(p[0]) && !IsSpace(p[|p| - 1])
    ensures Contains(TrimSpace(s), p)
  {
    hide TrimSpace, IsSpace;
    var i, j := TrimSpaceInside(s);
    var k := Index(s, p);
    CharOf(s, p, k, k);
    CharOf(s, p, k, k + |p| - 1);
    BlankEnds(s, i, j, k);
    BlankEnds(s, i, j, k + |p| - 1);
    Subslice(s, i, j, k - i, k - i + |p|);
    assert OccursAt(s[i..j], p, k - i);
  }

  lemma {:induction false} BlankEnds(s: string, i: nat, j: nat, k: nat)
    requires i <= j <= |s| && Blank(s[..i]) && Blank(s[j..]) && k < |s|
    ensures IsSpace(s[k]) || i <= k < j
  {
    hide IsSpace;
    assert k < i ==> s[..i][k] == s[k];
    assert k >= j ==> s[j..][k - j] == s[k];
  }

  lemma {:induction false} BeforeFirst(s: string, markers: seq<string>, p: string)
    requires FirstMarker(s, markers).Some? && p in markers && p != ""
    requires FirstMarker(s, markers).value.at <= |s|
    ensures !Contains(s[0..FirstMarker(s, markers).value.at], p)
  {
    hide FirstMarker;
    FirstMarkerOccurs(s, markers);
    PartMissing(s, p, 0, FirstMarker(s, markers).value.at);
  }

  /** The parts of a span lack the markers that would have ended them earlier. */
  lemma {:induction false} SpanSeparable(text: string, cursor: nat)
    requires cursor <= |text| && NextSpan(text, cursor).Some?
    ensures Separable(Cut(text, cursor, NextSpan(text, cursor).value))
  {
    hide FirstMarker, NextSpan, Contains, OccursAt;
    var span := NextSpan(text, cursor).value;
    var t, u := text[cursor..], text[span.payload..];
    SpanOf(text, cursor);
    BeforeFirst(t, START_MARKERS, COMPAT_START_MARKER);
    BeforeFirst(u, END_MARKERS, CURLY_END_MARKER);
    BeforeFirst(u, END_MARKERS, SHORT_END_MARKER);
    assert t[0..span.start - cursor] == text[cursor..span.start];
    assert u[0..span.end - span.payload] == text[span.payload..span.end];
  }

  lemma {:induction false} KeptClean(b: Block)
    requires Separable(b)
    ensures forall k :: k in Kept(b) ==> Clean(k)
  {
    hide TrimSpace, Contains, Trimmed;
    TrimmedMissing(b.visibleText, COMPAT_START_MARKER);
    TrimmedMissing(b.jsonText, SHORT_END_MARKER);
    TrimmedMissing(b.jsonText, CURLY_END_MARKER);
  }

  /** Whatever the text, the extracted blocks are trimmed, have a payload and contain no marker of their own. */
  lemma {:induction false} ExtractedClean(text: string, cursor: nat)
    requires cursor <= |text|
    ensures forall b :: b in BlocksFrom(text, cursor) ==> Clean(b)
    decreases |text| - cursor
  {
    hide BlocksFrom, NextSpan, Cut, Kept, Clean, Separable;
    Unfold(text, cursor);
    if NextSpan(text, cursor).Some? {
      var span := NextSpan(text, cursor).value;
      SpanSeparable(text, cursor);
      KeptClean(Cut(text, cursor, span));
      ExtractedClean(text, span.next);
    }
  }

  lemma {:induction false} CleanKept(blocks: seq<Block>)
    requires forall b :: b in blocks ==> Clean(b)
    ensures KeptAll(blocks) == blocks
  {
    hide Clean, Kept;
    if blocks != [] {
      CleanOne(blocks[0]);
      CleanKept(blocks[1..]);
    }
  }

  lemma {:induction false} CleanOne(b: Block)
    requires Clean(b)
    ensures Kept(b) == [b]
  {
  }

  lemma {:induction false} SeparableBefore(b: Block)
    requires Separable(Block(TrimSpace(b.visibleText), TrimSpace(b.jsonText)))
    ensures Separable(b)
  {
    hide TrimSpace, Contains;
    if Contains(b.visibleText, COMPAT_START_MARKER) {
      TrimmedKeeps(b.visibleText, COMPAT_START_MARKER);
    }
    if Contains(b.jsonText, SHORT_END_MARKER) {
      TrimmedKeeps(b.jsonText, SHORT_END_MARKER);
    }
    if Contains(b.jsonText, CURLY_END_MARKER) {
      TrimmedKeeps(b.jsonText, CURLY_END_MARKER);
    }
  }

  /** Blocks that are separable once they are trimmed were so before, where no payload is blank. */
  lemma {:induction false} KeptSeparable(blocks: seq<Block>)
    requires forall i :: 0 <= i < |blocks| ==> !Blank(blocks[i].jsonText)
    requires forall k :: k in KeptAll(blocks) ==> Separable(k)
    ensures forall i :: 0 <= i < |blocks| ==> Separable(blocks[i])
  {
    hide Separable, TrimSpace, Blank;
    if blocks != [] {
      var b := blocks[0];
      TrimSpaceEmpty(b.jsonText);
      assert Kept(b)[0] in KeptAll(blocks);
      SeparableBefore(b);
      KeptSeparable(blocks[1..]);
    }
  }

  /**
   Where no payload is blank and what follows has no start marker, the trimmed pairs come back in
   order if and only if every block is separable.
   */
  lemma {:induction false} RoundTripExactly(blocks: seq<Block>, tail: string)
    requires (forall i :: 0 <= i < |blocks| ==> !Blank(blocks[i].jsonText)) && !Contains(tail, COMPAT_START_MARKER)
    ensures BlocksFrom(Print(blocks) + tail, 0) == KeptAll(blocks)
            <==> forall i :: 0 <= i < |blocks| ==> Separable(blocks[i])
  {
    hide BlocksFrom, Print, KeptAll, Separable, Contains, Blank;
    if forall i :: 0 <= i < |blocks| ==> Separable(blocks[i]) {
      RoundTrip(blocks, tail);
    } else if BlocksFrom(Print(blocks) + tail, 0) == KeptAll(blocks) {
      ExtractedClean(Print(blocks) + tail, 0);
      KeptSeparable(blocks);
    }
  }

  /** Printing what was extracted from any text, and extracting again, gives the same blocks. */
  lemma {:induction false} ReprintStable(text: string)
    ensures BlocksFrom(Print(BlocksFrom(text, 0)), 0) == BlocksFrom(text, 0)
  {
    hide BlocksFrom, Print, KeptAll, Clean, Separable, Contains;
    var blocks := BlocksFrom(text, 0);
    ExtractedClean(text, 0);
    AllSeparable(blocks);
    CleanKept(blocks);
    NoMarkerInNothing();
    RoundTrip(blocks, "");
    assert Print(blocks) + "" == Print(blocks);
  }

  lemma {:induction false} AllSeparable(blocks: seq<Block>)
    requires forall b :: b in blocks ==> Clean(b)
    ensures forall i :: 0 <= i < |blocks| ==> Separable(blocks[i])
  {
    hide Separable;
    assert forall i :: 0 <= i < |blocks| ==> blocks[i] in blocks;
  }

  lemma {:induction false} NoMarkerInNothing()
    ensures !Contains("", COMPAT_START_MARKER)
  {
  }

  /** No fence starts behind a fence that only white space follows. */
  lemma {:induction false} NoneBehind(a: string, m: string, w: string, p: string, j: int)
    requires IsFence(m) && IsFence(p) && Blank(w) && j > |a|
    ensures !OccursAt(a + m + w, p, j)
  {
  }

  /** The last end marker of a text that ends with one. */
  lemma {:induction false} LastEndFound(a: string, w: string)
    requires Blank(w)
    ensures LastEnd(a + END_MARKER + w) == Some(Marker(|a|, END_MARKER))
  {
    var s := a + END_MARKER + w;
    assert END_MARKER in END_MARKERS;
    MarkersAreFences(END_MARKER);
    assert OccursAt(s, END_MARKER, |a|);
    if LastIndex(s, END_MARKER) > |a| {
      NoneBehind(a, END_MARKER, w, END_MARKER, LastIndex(s, END_MARKER));
    }
  }

  /** No start marker behind one whose block contains none. */
  lemma {:induction false} NoStartInside(v: string, payload: string, w: string, j: int)
    requires !Contains(payload, COMPAT_START_MARKER) && Blank(w) && j > |v|
    ensures !OccursAt(v + START_MARKER + payload + END_MARKER + w, COMPAT_START_MARKER, j)
  {
    hide Contains, OccursAt, Blank, IsFence;
    var s := v + START_MARKER + payload + END_MARKER + w;
    var a := v + START_MARKER;
    assert START_MARKERS[0] in START_MARKERS && START_MARKERS[1] in START_MARKERS && END_MARKERS[0] in END_MARKERS;
    MarkersAreFences(START_MARKER);
    MarkersAreFences(COMPAT_START_MARKER);
    MarkersAreFences(END_MARKER);
    if OccursAt(s, COMPAT_START_MARKER, j) {
      StartThere(v, payload + END_MARKER + w, s);
      FencesApart(s, START_MARKER, COMPAT_START_MARKER, |v|, j);
      assert s == a + (payload + END_MARKER + w);
      OccursInConcat(a, payload + END_MARKER + w, COMPAT_START_MARKER, j);
      var k := j - |a|;
      if k < |payload| {
        NoneBefore(payload, END_MARKER, w, COMPAT_START_MARKER, k);
      } else if k > |payload| {
        NoneBehind(payload, END_MARKER, w, COMPAT_START_MARKER, k);
      } else {
        StartIsNoEnd(payload, w);
      }
    }
  }

  lemma {:induction false} StartIsNoEnd(a: string, w: string)
    ensures !OccursAt(a + END_MARKER + w, COMPAT_START_MARKER, |a|)
  {
    assert (a + END_MARKER + w)[|a| + 3] == END_MARKER[3];
    if OccursAt(a + END_MARKER + w, COMPAT_START_MARKER, |a|) {
      CharOf(a + END_MARKER + w, COMPAT_START_MARKER, |a|, |a| + 3);
    }
  }

  lemma {:induction false} StartThere(v: string, rest: string, s: string)
    requires s == v + START_MARKER + rest
    ensures OccursAt(s, START_MARKER, |v|) && OccursAt(s, COMPAT_START_MARKER, |v|)
  {
  }

  /** The last start marker of a printed block that contains none. */
  lemma {:induction false} LastStartFound(v: string, payload: string, w: string)
    requires !Contains(payload, COMPAT_START_MARKER) && Blank(w)
    ensures LastStart(v + START_MARKER + payload + END_MARKER + w) == Some(Marker(|v|, START_MARKER))
  {
    hide OccursAt, Contains, Blank;
    var s := v + START_MARKER + payload + END_MARKER + w;
    assert s == v + START_MARKER + (payload + END_MARKER + w);
    StartThere(v, payload + END_MARKER + w, s);
    var compat, full := LastIndex(s, COMPAT_START_MARKER), LastIndex(s, START_MARKER);
    if compat > |v| {
      NoStartInside(v, payload, w, compat);
    }
    if full > |v| {
      FullIsCompat(s, full);
      NoStartInside(v, payload, w, full);
    }
  }

  lemma {:induction false} FullIsCompat(s: string, i: int)
    requires OccursAt(s, START_MARKER, i)
    ensures OccursAt(s, COMPAT_START_MARKER, i)
  {
    assert s[i..i + |COMPAT_START_MARKER|] == s[i..i + |START_MARKER|][..|COMPAT_START_MARKER|];
  }

  /**
   One printed block with only white space behind it is what the last-marker extractor returns,
   whatever text and whatever markers come before the block.
   */
  lemma {:induction false} LastBlockRead(b: Block, w: string)
    requires !Contains(b.jsonText, COMPAT_START_MARKER) && Blank(w) && !Blank(b.jsonText)
    ensures LastBlock(PrintBlock(b) + w) == Some(Block(TrimSpace(b.visibleText), TrimSpace(b.jsonText)))
  {
    hide LastStart, LastEnd, Contains, TrimSpace, Blank;
    var v, payload := b.visibleText, b.jsonText;
    var a := v + START_MARKER + payload;
    var text := a + END_MARKER + w;
    assert PrintBlock(b) + w == text == v + START_MARKER + payload + END_MARKER + w;
    LastStartFound(v, payload, w);
    LastEndFound(a, w);
    TrimSpaceEmpty(w);
    TrimSpaceEmpty(payload);
    assert text[|a| + |END_MARKER|..] == w;
    assert text[|v| + |START_MARKER|..|a|] == payload;
    assert text[..|v|] == v;
  }

  /** On one separable block the two extractors agree. */
  lemma {:induction false} ExtractorsAgree(b: Block, w: string)
    requires Separable(b) && !Contains(b.jsonText, COMPAT_START_MARKER) && Blank(w) && !Blank(b.jsonText)
    ensures LastBlock(PrintBlock(b) + w).Some?
    ensures BlocksFrom(PrintBlock(b) + w, 0) == [LastBlock(PrintBlock(b) + w).value]
  {
    hide PrintBlock, LastBlock, BlocksFrom;
    LastBlockRead(b, w);
    TrimSpaceEmpty(b.jsonText);
    BlankMissing(w);
    RoundTrip([b], w);
    assert Print([b]) == PrintBlock(b) + Print([]) == PrintBlock(b);
    assert KeptAll([b]) == Kept(b) + KeptAll([]) == Kept(b);
  }

  lemma {:induction false} BlankMissing(w: string)
    requires Blank(w)
    ensures !Contains(w, COMPAT_START_MARKER)
  {
    if Contains(w, COMPAT_START_MARKER) {
      CharOf(w, COMPAT_START_MARKER, Index(w, COMPAT_START_MARKER), Index(w, COMPAT_START_MARKER));
    }
  }
}
