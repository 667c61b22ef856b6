/** The block that the last-marker extractor returns, said of where the markers stand in the text. */
module ActionsLastBlock {
  import opened Text
  import opened ActionsProtocol
  import R = ActionsRoundTrip

  ghost predicate LastAt(text: string, p: string, i: nat) {
    OccursAt(text, p, i) && forall j :: i < j ==> !OccursAt(text, p, j)
  }

  /** The last start marker, whole or without its third bracket; every whole one is also a short one. */
  ghost predicate StartsAt(text: string, s: Marker) {
    && LastAt(text, COMPAT_START_MARKER, s.at)
    && s.text == if OccursAt(text, START_MARKER, s.at) then START_MARKER else COMPAT_START_MARKER
  }

  /** The last whole end marker; only where there is none the last curly one, and then the last short one. */
  ghost predicate EndsAt(text: string, e: Marker) {
    || (e.text == END_MARKER && LastAt(text, END_MARKER, e.at))
    || (e.text == CURLY_END_MARKER && LastAt(text, CURLY_END_MARKER, e.at)
        && forall j :: !OccursAt(text, END_MARKER, j))
    || (e.text == SHORT_END_MARKER && LastAt(text, SHORT_END_MARKER, e.at)
        && forall j :: !OccursAt(text, END_MARKER, j) && !OccursAt(text, CURLY_END_MARKER, j))
  }

  lemma {:induction false} LastIndexIs(text: string, p: string, i: int)
    ensures LastIndex(text, p) == i && i >= 0 <==> i >= 0 && LastAt(text, p, i)
    ensures LastIndex(text, p) < 0 <==> forall j :: !OccursAt(text, p, j)
  {
    hide LastIndex;
  }

  lemma {:induction false} LastStartIs(text: string, s: Marker)
    ensures LastStart(text) == Some(s) <==> StartsAt(text, s)
  {
    hide OccursAt, LastIndex;
    var full, compat := LastIndex(text, START_MARKER), LastIndex(text, COMPAT_START_MARKER);
    LastIndexIs(text, START_MARKER, s.at);
    LastIndexIs(text, COMPAT_START_MARKER, s.at);
    LastIndexIs(text, COMPAT_START_MARKER, compat);
    if full >= 0 {
      R.FullIsCompat(text, full);
    }
  }

  lemma {:induction false} LastEndIs(text: string, e: Marker)
    ensures LastEnd(text) == Some(e) <==> EndsAt(text, e)
  {
    hide OccursAt, LastIndex, LastAt;
    LastIndexIs(text, END_MARKER, e.at);
    LastIndexIs(text, CURLY_END_MARKER, e.at);
    LastIndexIs(text, SHORT_END_MARKER, e.at);
    LastOccurs(text, END_MARKER, e.at);
    LastOccurs(text, CURLY_END_MARKER, e.at);
    assert END_MARKER != CURLY_END_MARKER && |SHORT_END_MARKER| < |END_MARKER| by {
      assert END_MARKER[|END_MARKER| - 1] != CURLY_END_MARKER[|CURLY_END_MARKER| - 1];
    }
  }

  lemma {:induction false} LastOccurs(text: string, p: string, i: nat)
    ensures LastAt(text, p, i) ==> OccursAt(text, p, i)
  {
    hide OccursAt;
  }

  /** Without a start marker, or without an end marker, there is no block. */
  lemma {:induction false} NoMarkerNoBlock(text: string)
    requires (forall s :: !StartsAt(text, s)) || forall e :: !EndsAt(text, e)
    ensures LastBlock(text) == None
  {
    hide StartsAt, EndsAt, LastStart, LastEnd, TrimSpace;
    if LastStart(text).Some? {
      LastStartIs(text, LastStart(text).value);
    }
    if LastEnd(text).Some? {
      LastEndIs(text, LastEnd(text).value);
    }
  }

  /**
   With them, the text and the payload around the last ones, if the end marker does not come first,
   nothing but white space is behind it and something else is between them; otherwise no block.
   */
  lemma {:induction false} LastBlockExactly(text: string, s: Marker, e: Marker)
    requires StartsAt(text, s) && EndsAt(text, e)
    ensures e.at < s.at ==> LastBlock(text) == None
    ensures s.at <= e.at ==>
              && s.at + |s.text| <= e.at && e.at + |e.text| <= |text|
              && var payload := text[s.at + |s.text|..e.at];
              && LastBlock(text) == if Blank(text[e.at + |e.text|..]) && !Blank(payload) then
                                      Some(Block(TrimSpace(text[..s.at]), TrimSpace(payload)))
                                    else None
  {
    hide StartsAt, EndsAt, LastStart, LastEnd, TrimSpace, Blank;
    LastStartIs(text, s);
    LastEndIs(text, e);
    MarkersInside(text);
    if s.at <= e.at {
      TrimSpaceEmpty(text[e.at + |e.text|..]);
      TrimSpaceEmpty(text[s.at + |s.text|..e.at]);
    }
  }
}
