/** The sequential extractor on blocks that are fenced with any of the markers it knows. */
module ActionsVariants {
  import opened Text
  import opened ActionsProtocol
  import opened ActionsRoundTrip

  /** A block with the markers it is written with. */
  datatype Fenced = Fenced(block: Block, start: string, end: string)

  predicate IsFenced(f: Fenced) {
    f.start in START_MARKERS && f.end in END_MARKERS && Separable(f.block)
  }

  /** The text does not go on with the character that would make a longer marker of a short one. */
  predicate Unextended(marker: string, rest: string) {
    || rest == ""
    || ((marker == COMPAT_START_MARKER || marker == SHORT_END_MARKER) ==> rest[0] != '>' && rest[0] != '}')
  }

  function Write(f: Fenced): string {
    f.block.visibleText + f.start + f.block.jsonText + f.end
  }

  function WriteAll(fs: seq<Fenced>): string {
    if fs == [] then "" else Write(fs[0]) + WriteAll(fs[1..])
  }

  /** No marker is extended by what is written behind it. */
  predicate WellWritten(fs: seq<Fenced>, tail: string) {
    fs != [] ==>
      && IsFenced(fs[0]) && Unextended(fs[0].start, fs[0].block.jsonText + fs[0].end)
      && Unextended(fs[0].end, WriteAll(fs[1..]) + tail) && WellWritten(fs[1..], tail)
  }

  function BlocksOf(fs: seq<Fenced>): (blocks: seq<Block>)
    ensures |blocks| == |fs| && forall i :: 0 <= i < |fs| ==> blocks[i] == fs[i].block
  {
    seq(|fs|, i requires 0 <= i < |fs| => fs[i].block)
  }

  /** Which marker is found where one stands that is not extended. */
  lemma {:induction false} HereIs(a: string, markers: seq<string>, m: string, rest: string)
    requires (markers == START_MARKERS || markers == END_MARKERS) && m in markers && Unextended(m, rest)
    ensures MarkerHere(a + m + rest, markers, |a|) == Some(Marker(|a|, m))
  {
    var s := a + m + rest;
    assert OccursAt(s, m, |a|);
    forall p | p in markers && p != m && |p| >= |m|
      ensures !OccursAt(s, p, |a|)
    {
      OtherMarker(a, markers, m, rest, p);
    }
    hide OccursAt;
    assert |START_MARKER| > |COMPAT_START_MARKER| && |END_MARKER| == |CURLY_END_MARKER| > |SHORT_END_MARKER|;
    if markers == START_MARKERS {
      HereOfTwo(s, START_MARKER, COMPAT_START_MARKER, |a|);
    } else {
      HereOfThree(s, END_MARKER, CURLY_END_MARKER, SHORT_END_MARKER, |a|);
    }
  }

  lemma {:induction false} HereOfTwo(s: string, p: string, q: string, i: nat)
    ensures MarkerHere(s, [p, q], i) ==
            if OccursAt(s, p, i) then Some(Marker(i, p)) else if OccursAt(s, q, i) then Some(Marker(i, q)) else None
  {
    hide OccursAt;
    assert [p, q][1..] == [q] && [q][1..] == [];
    assert MarkerHere(s, [q], i) == if OccursAt(s, q, i) then Some(Marker(i, q)) else MarkerHere(s, [], i);
  }

  lemma {:induction false} HereOfThree(s: string, p: string, q: string, r: string, i: nat)
    ensures MarkerHere(s, [p, q, r], i) ==
            if OccursAt(s, p, i) then Some(Marker(i, p)) else MarkerHere(s, [q, r], i)
    ensures MarkerHere(s, [q, r], i) ==
            if OccursAt(s, q, i) then Some(Marker(i, q)) else if OccursAt(s, r, i) then Some(Marker(i, r)) else None
  {
    hide OccursAt;
    assert [p, q, r][1..] == [q, r];
    HereOfTwo(s, q, r, i);
  }

  /** No other marker that is as long stands there. */
  lemma {:induction false} OtherMarker(a: string, markers: seq<string>, m: string, rest: string, p: string)
    requires (markers == START_MARKERS || markers == END_MARKERS) && m in markers && p in markers
    requires p != m && |p| >= |m| && Unextended(m, rest)
    ensures !OccursAt(a + m + rest, p, |a|)
  {
    var s := a + m + rest;
    assert s[|a| + |m| - 1] == m[|m| - 1];
    assert rest != "" ==> s[|a| + |m|] == rest[0];
    LastCharOf(s, p, |a|);
    hide OccursAt;
  }

  lemma {:induction false} LastCharOf(s: string, p: string, i: int)
    ensures OccursAt(s, p, i) && p != "" ==> 0 <= i && i + |p| <= |s| && s[i + |p| - 1] == p[|p| - 1]
  {
    if OccursAt(s, p, i) && p != "" {
      CharOf(s, p, i, i + |p| - 1);
    }
  }

  /** Behind a text without markers the one that stands there is found. */
  lemma {:induction false} VariantFound(a: string, markers: seq<string>, m: string, rest: string)
    requires (markers == START_MARKERS || markers == END_MARKERS) && m in markers && Unextended(m, rest)
    requires forall p :: p in markers ==> !Contains(a, p)
    ensures FirstMarker(a + m + rest, markers) == Some(Marker(|a|, m))
  {
    hide Contains, OccursAt;
    var s := a + m + rest;
    MarkersAreFences(m);
    forall j | 0 <= j < |a|
      ensures MarkerHere(s, markers, j) == None
    {
      MarkerHereOccurs(s, markers, j);
      if MarkerHere(s, markers, j).Some? {
        MarkersAreFences(MarkerHere(s, markers, j).value.text);
        NoneBefore(a, m, rest, MarkerHere(s, markers, j).value.text, j);
      }
    }
    HereIs(a, markers, m, rest);
    MarkerFromAt(s, markers, 0, |a|);
  }

  lemma {:induction false} NoStarts(v: string)
    requires !Contains(v, COMPAT_START_MARKER)
    ensures forall p :: p in START_MARKERS ==> !Contains(v, p)
  {
    hide Contains;
    assert COMPAT_START_MARKER == START_MARKER[..|COMPAT_START_MARKER|];
    PrefixMissing(v, COMPAT_START_MARKER, START_MARKER);
  }

  lemma {:induction false} NoEnds(payload: string)
    requires !Contains(payload, SHORT_END_MARKER) && !Contains(payload, CURLY_END_MARKER)
    ensures forall p :: p in END_MARKERS ==> !Contains(payload, p)
  {
    hide Contains;
    assert SHORT_END_MARKER == END_MARKER[..|SHORT_END_MARKER|];
    PrefixMissing(payload, SHORT_END_MARKER, END_MARKER);
  }

  /** One block with any markers: it is found first, and the search goes on right behind its end marker. */
  lemma {:induction false} FirstFenced(f: Fenced, rest: string)
    requires IsFenced(f) && Unextended(f.start, f.block.jsonText + f.end) && Unextended(f.end, rest)
    ensures BlocksFrom(Write(f) + rest, 0) == Kept(f.block) + BlocksFrom(rest, 0)
  {
    hide FirstMarker, BlocksFrom, NextSpan, Kept, TrimSpace, Contains, Unextended, SpanIn;
    var v, payload := f.block.visibleText, f.block.jsonText;
    var text := Write(f) + rest;
    var behind := payload + f.end + rest;
    assert text[0..] == text == v + f.start + behind;
    NoStarts(v);
    NoEnds(payload);
    StillUnextended(f.start, payload, f.end, rest);
    VariantFound(v, START_MARKERS, f.start, behind);
    VariantFound(payload, END_MARKERS, f.end, rest);
    var p := |v| + |f.start|;
    var e := p + |payload|;
    var next := e + |f.end|;
    assert text[p..] == behind;
    assert text[0..|v|] == v && text[p..e] == payload && text[next..] == rest;
    SpanOf(text, 0);
    Unfold(text, 0);
    SearchShifts(text, next);
  }

  lemma {:induction false} StillUnextended(m: string, payload: string, end: string, rest: string)
    requires Unextended(m, payload + end) && end in END_MARKERS
    ensures Unextended(m, payload + end + rest)
  {
    MarkersAreFences(end);
    assert (payload + end + rest)[0] == (payload + end)[0];
  }

  /** Whatever markers the blocks are fenced with: the sequential extractor returns them trimmed, in order. */
  lemma {:induction false} VariantRoundTrip(fs: seq<Fenced>, tail: string)
    requires WellWritten(fs, tail) && !Contains(tail, COMPAT_START_MARKER)
    ensures BlocksFrom(WriteAll(fs) + tail, 0) == KeptAll(BlocksOf(fs))
  {
    hide BlocksFrom, Kept, Contains, Write, IsFenced, Unextended;
    if fs == [] {
      assert WriteAll(fs) + tail == tail;
      NothingFound(tail);
    } else {
      var rest := WriteAll(fs[1..]) + tail;
      assert WriteAll(fs) + tail == Write(fs[0]) + rest;
      assert BlocksOf(fs)[1..] == BlocksOf(fs[1..]);
      FirstFenced(fs[0], rest);
      VariantRoundTrip(fs[1..], tail);
    }
  }
}
