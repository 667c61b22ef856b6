/**
 Upstream may cut its text into content events anywhere. Cutting one event in two, without cutting
 a tag, changes neither the text nor the separator positions a client sees, now or later, except in
 one situation, which is characterised exactly.
 */
module ThinkingRechunk {
  import opened Text
  import opened ThinkingFilter
  import opened ThinkingPhase

  /** A tag, a separator or visible text was seen, so the hidden buffer will never be released. */
  predicate Marked(st: ScanState) {
    st.separatorSeen || st.tagSeen || st.visibleEmitted
  }

  /** States that let the same events through from here on. */
  predicate Alike(s: ScanState, t: ScanState) {
    s == t || (s.inThinking == t.inThinking && s.inThinkTag == t.inThinkTag && Marked(s) && Marked(t))
  }

  /** The hidden buffer matters only while nothing has been shown or marked. */
  function Observed(st: ScanState): ScanState {
    if Marked(st) then st.(hidden := "") else st
  }

  /** No occurrence of the tag lies across the boundary of the two pieces. */
  predicate Uncut(a: string, b: string, tag: string) {
    forall i :: |a| - |tag| < i < |a| ==> !OccursAt(a + b, tag, i)
  }

  predicate CleanCut(a: string, b: string) {
    Uncut(a, b, OPEN_TAG) && Uncut(a, b, CLOSE_TAG)
  }

  /** Searching two pieces in turn finds what searching the whole finds, if the cut is clean. */
  lemma {:induction false} IndexInPieces(a: string, b: string, tag: string)
    requires Uncut(a, b, tag) && tag != ""
    ensures Index(a + b, tag) == if Index(a, tag) >= 0 then Index(a, tag)
                                 else if Index(b, tag) >= 0 then |a| + Index(b, tag) else -1
  {
    var i := if Index(a, tag) >= 0 then Index(a, tag) else if Index(b, tag) >= 0 then |a| + Index(b, tag) else -1;
    forall j {
      OccursInConcat(a, b, tag, j);
    }
    if i >= 0 {
      assert OccursAt(a + b, tag, i);
    }
    forall j | 0 <= j && (i == -1 || j < i) ensures !OccursAt(a + b, tag, j) {
      if j >= |a| {
        assert !OccursAt(b, tag, j - |a|);
      } else if j + |tag| <= |a| {
        assert !OccursAt(a, tag, j);
      }
    }
  }

  /** A clean cut stays clean when a prefix of the first piece is dropped. */
  lemma {:induction false} DropKeepsCut(a: string, b: string, n: nat)
    requires CleanCut(a, b) && n <= |a|
    ensures CleanCut(a[n..], b) && (a + b)[n..] == a[n..] + b
  {
    assert (a + b)[n..] == a[n..] + b;
    forall tag: string, i | |a[n..]| - |tag| < i < |a[n..]| && OccursAt(a[n..] + b, tag, i)
      ensures OccursAt(a + b, tag, n + i)
    {
      assert (a + b)[n + i..n + i + |tag|] == (a[n..] + b)[i..i + |tag|];
    }
  }

  lemma {:induction false} EmitInPieces(a: string, b: string, shown: bool, st: ScanState)
    ensures var w, x := EmitIf(shown, a + b, st), EmitIf(shown, a, st);
            var y := EmitIf(shown, b, x.state);
            w.state == y.state && Flatten(w.outs) == Flatten(x.outs) + Flatten(y.outs)
  {
    if shown {
      EmitFlat(a + b, st);
      EmitFlat(a, st);
      EmitFlat(b, Emit(a, st).state);
      if a == "" {
        assert a + b == b;
      }
      assert Syms(Content(a + b)) == Syms(Content(a)) + Syms(Content(b));
    }
  }

  /** The first tag of two pieces: in the first piece if it has one, else in the second. */
  lemma {:induction false} FirstTagInPieces(a: string, b: string, inThinkTag: bool)
    requires CleanCut(a, b)
    ensures var w, x, y := FirstTag(a + b, inThinkTag), FirstTag(a, inThinkTag), FirstTag(b, inThinkTag);
            if x.kind != NoTag then w == Cut(x.kind, x.before, x.after + b) && CleanCut(x.after, b)
            else w == Cut(y.kind, a + y.before, y.after) && x.before == a
  {
    hide FirstTag, CleanCut;
    if FirstTag(a, inThinkTag).kind != NoTag {
      TagInFirst(a, b, inThinkTag);
    } else {
      TagInSecond(a, b, inThinkTag);
    }
  }

  lemma {:induction false} TagInFirst(a: string, b: string, inThinkTag: bool)
    requires CleanCut(a, b) && FirstTag(a, inThinkTag).kind != NoTag
    ensures var w, x := FirstTag(a + b, inThinkTag), FirstTag(a, inThinkTag);
            w == Cut(x.kind, x.before, x.after + b) && CleanCut(x.after, b)
  {
    hide OccursAt, Uncut, Index;
    IndexInPieces(a, b, OPEN_TAG);
    IndexInPieces(a, b, CLOSE_TAG);
    var x := FirstTag(a, inThinkTag);
    var cut, n := |x.before|, if x.kind == CloseTag then |CLOSE_TAG| else |OPEN_TAG|;
    PieceBefore(a, b, cut);
    DropKeepsCut(a, b, cut + n);
  }

  lemma {:induction false} TagInSecond(a: string, b: string, inThinkTag: bool)
    requires CleanCut(a, b) && FirstTag(a, inThinkTag).kind == NoTag
    ensures var w, x, y := FirstTag(a + b, inThinkTag), FirstTag(a, inThinkTag), FirstTag(b, inThinkTag);
            w == Cut(y.kind, a + y.before, y.after) && x.before == a
  {
    hide OccursAt, Uncut, Index;
    IndexInPieces(a, b, OPEN_TAG);
    IndexInPieces(a, b, CLOSE_TAG);
    var y := FirstTag(b, inThinkTag);
    if y.kind == CloseTag {
      PieceBehind(a, b, |y.before|);
      PieceBehind(a, b, |y.before| + |CLOSE_TAG|);
    } else if y.kind == OpenTag {
      PieceBehind(a, b, |y.before|);
      PieceBehind(a, b, |y.before| + |OPEN_TAG|);
    }
  }

  lemma {:induction false} PieceBehind(a: string, b: string, n: nat)
    requires n <= |b|
    ensures (a + b)[..|a| + n] == a + b[..n] && (a + b)[|a| + n..] == b[n..]
  {
  }

  lemma {:induction false} PieceBefore(a: string, b: string, n: nat)
    requires n <= |a|
    ensures (a + b)[..n] == a[..n]
  {
  }

  /** Outside the untagged thinking phase, text and a tag act as the text alone, then the rest with the tag. */
  lemma {:induction false} ActInPieces(kind: TagKind, a: string, b: string, show: bool, st: ScanState)
    requires Settled(st) && (kind == OpenTag ==> !st.inThinkTag)
    ensures var w, x := Act(kind, a + b, show, st), Act(NoTag, a, show, st);
            var y := Act(kind, b, show, x.state);
            && w.state == y.state && Flatten(w.outs) == Flatten(x.outs) + Flatten(y.outs)
            && x.state.inThinkTag == st.inThinkTag && x.state.inThinking == st.inThinking
  {
    hide EmitIf, Flatten, SeparatorIf;
    var shown := show || !st.inThinkTag;
    EmitInPieces(a, b, shown, st);
    var x := EmitIf(shown, a, st);
    var y := EmitIf(shown, b, x.state);
    EmitKeeps(a, shown, st);
    EmitKeeps(b, shown, x.state);
    FlattenConcat(EmitIf(shown, a + b, st).outs, SeparatorIf(show));
    FlattenConcat(y.outs, SeparatorIf(show));
  }

  /** Emitting text leaves the thinking flags. */
  lemma {:induction false} EmitKeeps(text: string, shown: bool, st: ScanState)
    ensures var t := EmitIf(shown, text, st).state; t.inThinkTag == st.inThinkTag && t.inThinking == st.inThinking
  {
  }

  /** The tag loop over two pieces is the tag loop over the whole. */
  lemma {:induction false} TaggedInPieces(a: string, b: string, show: bool, st: ScanState)
    requires CleanCut(a, b) && (Settled(st) || FirstTag(a, st.inThinkTag).kind != NoTag)
    ensures var w, x := Tagged(a + b, show, st), Tagged(a, show, st);
            var y := Tagged(b, show, x.state);
            && w.state == y.state && Flatten(w.outs) == Flatten(x.outs) + Flatten(y.outs)
            && Settled(x.state)
    decreases |a|
  {
    hide FirstTag, Act, Flatten, CleanCut;
    FirstTagInPieces(a, b, st.inThinkTag);
    var cut, cutB := FirstTag(a, st.inThinkTag), FirstTag(b, st.inThinkTag);
    if cut.kind != NoTag {
      var t := Act(cut.kind, cut.before, show, st);
      ActSettles(cut.kind, cut.before, show, st);
      TaggedInPieces(cut.after, b, show, t.state);
      FlattenConcat(t.outs, Tagged(cut.after, show, t.state).outs);
      FlattenConcat(t.outs, Tagged(cut.after + b, show, t.state).outs);
    } else {
      ActInPieces(cutB.kind, a, cutB.before, show, st);
      var x := Act(NoTag, a, show, st);
      var w, y := Act(cutB.kind, a + cutB.before, show, st), Act(cutB.kind, cutB.before, show, x.state);
      if cutB.kind != NoTag {
        FlattenConcat(w.outs, Tagged(cutB.after, show, w.state).outs);
        FlattenConcat(y.outs, Tagged(cutB.after, show, w.state).outs);
      }
    }
  }

  lemma {:induction false} ActFrame(kind: TagKind, before: string, show: bool, st: ScanState, hidden: string)
    ensures var t := Act(kind, before, show, st);
            Act(kind, before, show, st.(hidden := hidden)) == t.(state := t.state.(hidden := hidden))
            && t.state.tagSeen == st.tagSeen
  {
    hide EmitIf;
    EmitFrame(ShownBefore(kind, show, st), before, st, hidden);
    match kind {
      case NoTag =>
      case CloseTag =>
      case OpenTag =>
    }
  }

  lemma {:induction false} EmitFrame(shown: bool, text: string, st: ScanState, hidden: string)
    ensures var e := EmitIf(shown, text, st);
            EmitIf(shown, text, st.(hidden := hidden)) == e.(state := e.state.(hidden := hidden))
              && e.state.tagSeen == st.tagSeen
  {
  }

  /** The tag loop neither reads nor changes the hidden buffer, and does not forget that a tag was seen. */
  lemma {:induction false} TaggedFrame(text: string, show: bool, st: ScanState, hidden: string)
    ensures var s := Tagged(text, show, st);
            Tagged(text, show, st.(hidden := hidden)) == s.(state := s.state.(hidden := hidden))
              && s.state.tagSeen == st.tagSeen
    decreases |text|
  {
    hide FirstTag, Act;
    var c := FirstTag(text, st.inThinkTag);
    var t := Act(c.kind, c.before, show, st);
    ActFrame(c.kind, c.before, show, st, hidden);
    if c.kind != NoTag {
      TaggedFrame(c.after, show, t.state, hidden);
    }
  }

  /**
   The exceptional cut: hiding, in the untagged thinking phase, with the event's first tag an
   opening one in the second piece. Whole, the text before the tag is shown; cut, the first piece
   is hidden.
   */
  predicate LosesFirstPiece(a: string, b: string, isThinking: bool, show: bool, st: ScanState) {
    isThinking && !show && !Settled(st) && a != ""
    && FirstTag(a, false).kind == NoTag && FirstTag(b, false).kind == OpenTag
  }

  predicate PiecesAgree(w: Step, x: Step, y: Step) {
    Observed(w.state) == Observed(y.state) && Flatten(w.outs) == Flatten(x.outs) + Flatten(y.outs)
  }

  /** In a settled state the second piece, tags or not, is scanned as the tag loop would. */
  lemma {:induction false} SettledTail(b: string, show: bool, st: ScanState)
    requires Settled(st) && st.tagSeen && b != SEPARATOR
    ensures ScanContent(b, true, show, st) == Tagged(b, show, st)
  {
  }

  /** Tag work in the whole comes from tag work in a piece. */
  lemma {:induction false} TagWorkInPieces(a: string, b: string, st: ScanState)
    requires CleanCut(a, b)
    ensures HasTagWork(a + b, st) <==> HasTagWork(a, st) || HasTagWork(b, st)
  {
    IndexInPieces(a, b, OPEN_TAG);
    IndexInPieces(a, b, CLOSE_TAG);
  }

  lemma {:induction false} SettledPieces(a: string, b: string, show: bool, st: ScanState)
    requires CleanCut(a, b) && HasTagWork(a + b, st)
    requires Settled(st) || (HasTagWork(a, st) && FirstTag(a, st.inThinkTag).kind != NoTag)
    requires a != "" && b != "" && SEPARATOR !in [a, b, a + b]
    ensures var x := ScanContent(a, true, show, st);
            PiecesAgree(ScanContent(a + b, true, show, st), x, ScanContent(b, true, show, x.state))
  {
    hide Flatten, FirstTag, Act, CleanCut, Contains;
    var st1 := st.(tagSeen := true);
    TagWorkInPieces(a, b, st);
    TaggedInPieces(a, b, show, st1);
    TaggedFrame(a, show, st1, st.hidden);
    var x := Tagged(a, show, st1);
    if HasTagWork(a, st) {
      SettledTail(b, show, x.state);
    } else {
      PlainTagged(a, show, st1);
      var e := ScanContent(a, true, show, st);
      assert e.state.(tagSeen := true) == x.state && e.outs == x.outs;
      assert HasTagWork(b, e.state);
    }
  }

  /** Outside a tagged phase, text without tags passes the tag loop unchanged. */
  lemma {:induction false} PlainTagged(text: string, show: bool, st: ScanState)
    requires !HasTagWork(text, st)
    ensures Tagged(text, show, st) == Emit(text, st)
  {
  }

  /** What the tag loop emits depends only on the thinking flags. */
  lemma {:induction false} TaggedOuts(text: string, show: bool, s: ScanState, t: ScanState)
    requires s.inThinking == t.inThinking && s.inThinkTag == t.inThinkTag
    ensures var x, y := Tagged(text, show, s), Tagged(text, show, t);
            && x.outs == y.outs && x.state.inThinking == y.state.inThinking && x.state.inThinkTag == y.state.inThinkTag
            && x.state.tagSeen == s.tagSeen && y.state.tagSeen == t.tagSeen
    decreases |text|
  {
    hide FirstTag, Act;
    var c := FirstTag(text, s.inThinkTag);
    ActFrame(c.kind, c.before, show, s, "");
    ActFrame(c.kind, c.before, show, t, "");
    ActOuts(c.kind, c.before, show, s, t);
    if c.kind != NoTag {
      TaggedOuts(c.after, show, Act(c.kind, c.before, show, s).state, Act(c.kind, c.before, show, t).state);
    }
  }

  lemma {:induction false} ActOuts(kind: TagKind, before: string, show: bool, s: ScanState, t: ScanState)
    requires s.inThinking == t.inThinking && s.inThinkTag == t.inThinkTag
    ensures var x, y := Act(kind, before, show, s), Act(kind, before, show, t);
            x.outs == y.outs && x.state.inThinking == y.state.inThinking && x.state.inThinkTag == y.state.inThinkTag
  {
  }

  /** A content event that reaches the tag loop: its first round, then the rest. */
  lemma {:induction false} TaggedOnce(content: string, show: bool, st: ScanState)
    requires content != "" && content != SEPARATOR && !st.inThinkTag && FirstTag(content, false).kind != NoTag
    ensures var c := FirstTag(content, false);
            var t := Act(c.kind, c.before, show, st.(tagSeen := true));
            var more := Tagged(c.after, show, t.state);
            && ScanContent(content, true, show, st) == Step(more.state, t.outs + more.outs)
            && Flatten(t.outs + more.outs) == Flatten(t.outs) + Flatten(more.outs)
  {
    hide Act;
    var c := FirstTag(content, false);
    var t := Act(c.kind, c.before, show, st.(tagSeen := true));
    assert HasTagWork(content, st);
    FlattenConcat(t.outs, Tagged(c.after, show, t.state).outs);
  }

  /** The untagged thinking phase, with the first tag in the second piece: the exception. */
  lemma {:induction false} UnsettledLoses(a: string, b: string, show: bool, st: ScanState)
    requires CleanCut(a, b) && !Settled(st) && FirstTag(a, false).kind == NoTag && FirstTag(b, false).kind != NoTag
    requires a != "" && b != "" && SEPARATOR !in [a, b, a + b]
    requires LosesFirstPiece(a, b, true, show, st)
    ensures var w, x := ScanContent(a + b, true, show, st), ScanContent(a, true, show, st);
            var y := ScanContent(b, true, show, x.state);
            && Flatten(w.outs) == Syms(Content(a)) + (Flatten(x.outs) + Flatten(y.outs))
            && w.state.inThinking == y.state.inThinking && w.state.inThinkTag == y.state.inThinkTag
            && w.state.tagSeen && y.state.tagSeen
  {
    UntaggedFirst(a, b, show, st);
    hide *;
    var cut := FirstTag(b, false);
    var x := ScanContent(a, true, show, st);
    var w, y := Act(cut.kind, a + cut.before, show, st.(tagSeen := true)),
      Act(cut.kind, cut.before, show, x.state.(tagSeen := true));
    UnsettledAct(cut.kind, a, cut.before, show, st);
    TaggedOnce(a + b, show, st);
    TaggedOnce(b, show, x.state);
    TaggedOuts(cut.after, show, w.state, y.state);
    var more := Flatten(Tagged(cut.after, show, w.state).outs);
    SymsAssociative(Syms(Content(a)), Flatten(x.outs) + Flatten(y.outs), more);
    SymsAssociative(Flatten(x.outs), Flatten(y.outs), more);
  }

  /** The untagged thinking phase, with the first tag in the second piece: otherwise. */
  lemma {:induction false} UnsettledAgrees(a: string, b: string, show: bool, st: ScanState)
    requires CleanCut(a, b) && !Settled(st) && FirstTag(a, false).kind == NoTag && FirstTag(b, false).kind != NoTag
    requires a != "" && b != "" && SEPARATOR !in [a, b, a + b]
    requires !LosesFirstPiece(a, b, true, show, st)
    ensures var x := ScanContent(a, true, show, st);
            PiecesAgree(ScanContent(a + b, true, show, st), x, ScanContent(b, true, show, x.state))
  {
    UntaggedFirst(a, b, show, st);
    hide *;
    var cut := FirstTag(b, false);
    var x := ScanContent(a, true, show, st);
    var w, y := Act(cut.kind, a + cut.before, show, st.(tagSeen := true)),
      Act(cut.kind, cut.before, show, x.state.(tagSeen := true));
    UnsettledAct(cut.kind, a, cut.before, show, st);
    TaggedOnce(a + b, show, st);
    TaggedOnce(b, show, x.state);
    TaggedFrame(cut.after, show, w.state, y.state.hidden);
    AgreeUpToHidden(x, w, y, Tagged(cut.after, show, w.state), Tagged(cut.after, show, y.state));
  }

  /** Two runs that differ only in the hidden buffer once a tag was seen, continued in the same way. */
  lemma {:induction false} AgreeUpToHidden(x: Step, w: Step, y: Step, moreW: Step, moreY: Step)
    requires Flatten(w.outs) == Flatten(x.outs) + Flatten(y.outs)
    requires moreW.outs == moreY.outs && moreW.state.tagSeen
             && moreW.state.(hidden := moreY.state.hidden) == moreY.state
    ensures PiecesAgree(Step(moreW.state, w.outs + moreW.outs), x, Step(moreY.state, y.outs + moreY.outs))
  {
    hide Flatten;
    FlattenConcat(w.outs, moreW.outs);
    FlattenConcat(y.outs, moreW.outs);
    SameOnceTagged(moreW.state, moreY.state);
    SymsAssociative(Flatten(x.outs), Flatten(y.outs), Flatten(moreW.outs));
  }

  lemma {:induction false} SameOnceTagged(s: ScanState, t: ScanState)
    requires s.tagSeen && s.(hidden := t.hidden) == t
    ensures Observed(s) == Observed(t)
  {
  }

  lemma {:induction false} SymsAssociative(a: seq<Sym>, b: seq<Sym>, c: seq<Sym>)
    ensures a + b + c == a + (b + c)
  {
  }

  lemma {:induction false} UntaggedFirst(a: string, b: string, show: bool, st: ScanState)
    requires CleanCut(a, b) && !Settled(st) && FirstTag(a, false).kind == NoTag && FirstTag(b, false).kind != NoTag
    requires a != "" && a != SEPARATOR
    ensures var x, cut := ScanContent(a, true, show, st), FirstTag(b, false);
            && x == (if show then Emit(a, st) else Step(st.(hidden := st.hidden + a), []))
            && !x.state.inThinkTag && !st.inThinkTag
            && FirstTag(a + b, false) == Cut(cut.kind, a + cut.before, cut.after)
            && LosesFirstPiece(a, b, true, show, st) == (!show && cut.kind == OpenTag)
  {
    FirstTagInPieces(a, b, false);
    assert !HasTagWork(a, st);
  }

  lemma {:induction false} UnsettledAct(kind: TagKind, a: string, b: string, show: bool, st: ScanState)
    requires !Settled(st) && kind != NoTag && a != ""
    ensures var st1 := st.(tagSeen := true);
            var x := if show then Emit(a, st) else Step(st.(hidden := st.hidden + a), []);
            var w, y := Act(kind, a + b, show, st1), Act(kind, b, show, x.state.(tagSeen := true));
            && w.state.tagSeen && y.state.tagSeen && w.state.inThinking == y.state.inThinking
               && w.state.inThinkTag == y.state.inThinkTag
            && if !show && kind == OpenTag then
                 Flatten(w.outs) == Syms(Content(a)) + (Flatten(x.outs) + Flatten(y.outs))
               else
                 w.state.(hidden := y.state.hidden) == y.state && Flatten(w.outs) == Flatten(x.outs) + Flatten(y.outs)
  {
    if kind == CloseTag {
      UnsettledClose(a, b, show, st);
    } else {
      var st1 := st.(tagSeen := true);
      EmitInPieces(a, b, true, st1);
      EmitFlat(a, st);
      EmitFlat(a, st1);
      EmitFlat(b, st1.(hidden := st.hidden + a));
      hide Flatten;
    }
  }

  lemma {:induction false} UnsettledClose(a: string, b: string, show: bool, st: ScanState)
    requires !Settled(st) && a != ""
    ensures var st1 := st.(tagSeen := true);
            var x := if show then Emit(a, st) else Step(st.(hidden := st.hidden + a), []);
            var w, y := Act(CloseTag, a + b, show, st1), Act(CloseTag, b, show, x.state.(tagSeen := true));
            && w.state.tagSeen && y.state.tagSeen && w.state.inThinking == y.state.inThinking
               && w.state.inThinkTag == y.state.inThinkTag
            && w.state.(hidden := y.state.hidden) == y.state && Flatten(w.outs) == Flatten(x.outs) + Flatten(y.outs)
  {
    hide Flatten;
    var st1 := st.(tagSeen := true);
    EmitInPieces(a, b, show, st1);
    NoneFlat();
    if show {
      EmitFlat(a, st);
      EmitFlat(a, st1);
      EmitFlat(a + b, st1);
      EmitFlat(b, Emit(a, st1).state);
      FlattenConcat(Emit(a + b, st1).outs, SeparatorIf(show));
      FlattenConcat(Emit(b, Emit(a, st1).state).outs, SeparatorIf(show));
    }
  }

  lemma {:induction false} NoneFlat()
    ensures Flatten([]) == [] && Flatten([] + []) == []
  {
  }

  /** Cutting one content event in two changes nothing a client can see, except in the one situation. */
  lemma {:induction false} ContentInPieces(a: string, b: string, isThinking: bool, show: bool, st: ScanState)
    requires CleanCut(a, b) && SEPARATOR !in [a, b, a + b]
    ensures var w, x := ScanContent(a + b, isThinking, show, st), ScanContent(a, isThinking, show, st);
            var y := ScanContent(b, isThinking, show, x.state);
            && Alike(w.state, y.state)
            && if LosesFirstPiece(a, b, isThinking, show, st)
               then Flatten(w.outs) == Syms(Content(a)) + (Flatten(x.outs) + Flatten(y.outs))
               else PiecesAgree(w, x, y)
  {
    if a == "" || b == "" {
      assert a + b == if a == "" then b else a;
    } else if isThinking && HasTagWork(a + b, st) {
      TagWorkInPieces(a, b, st);
      if Settled(st) || FirstTag(a, st.inThinkTag).kind != NoTag {
        SettledPieces(a, b, show, st);
      } else {
        if LosesFirstPiece(a, b, true, show, st) {
          UnsettledLoses(a, b, show, st);
        } else {
          UnsettledAgrees(a, b, show, st);
        }
      }
    } else {
      TagWorkInPieces(a, b, st);
      if show || !isThinking || !st.inThinking {
        EmitInPieces(a, b, true, st);
      } else {
        assert st.hidden + a + b == st.hidden + (a + b);
      }
    }
  }

  /** Alike states let the same through and stay alike. */
  lemma {:induction false} AlikeStep(content: string, isThinking: bool, show: bool, s: ScanState, t: ScanState)
    requires Alike(s, t)
    ensures var x, y := ScanContent(content, isThinking, show, s), ScanContent(content, isThinking, show, t);
            x.outs == y.outs && Alike(x.state, y.state)
  {
    hide Tagged, Contains;
    if s != t {
      if content != "" && content != SEPARATOR && isThinking && HasTagWork(content, s) {
        TaggedOuts(content, show, s.(tagSeen := true), t.(tagSeen := true));
      } else {
        AlikeUntagged(content, isThinking, show, s, t);
      }
    }
  }

  lemma {:induction false} AlikeUntagged(content: string, isThinking: bool, show: bool, s: ScanState, t: ScanState)
    requires s != t && Alike(s, t) && !(content != "" && content != SEPARATOR && isThinking && HasTagWork(content, s))
    ensures var x, y := ScanContent(content, isThinking, show, s), ScanContent(content, isThinking, show, t);
            x.outs == y.outs && Alike(x.state, y.state)
  {
  }

  lemma {:induction false} AlikeScans(e1: seq<SSEEvent>, i1: nat, e2: seq<SSEEvent>, i2: nat, isThinking: bool,
                                      show: bool,
                                      readErr: Option<StreamError>, s: ScanState, t: ScanState)
    requires i1 <= |e1| && i2 <= |e2| && e1[i1..] == e2[i2..] && Alike(s, t)
    ensures var x, y := ScanFrom(e1, i1, isThinking, show, readErr, s), ScanFrom(e2, i2, isThinking, show, readErr, t);
            Flatten(x.outs) == Flatten(y.outs) && x.err == y.err
    decreases |e1| - i1
  {
    if i1 < |e1| {
      assert e1[i1] == e1[i1..][0] && e2[i2] == e2[i2..][0];
      assert e1[i1 + 1..] == e1[i1..][1..] && e2[i2 + 1..] == e2[i2..][1..];
      if Terminal(e1[i1]) {
        AlikeEndings(isThinking, show, s, t);
      } else {
        AlikeStep(e1[i1].content, isThinking, show, s, t);
        var x, y := ScanContent(e1[i1].content, isThinking, show, s), ScanContent(e1[i1].content, isThinking, show, t);
        AlikeScans(e1, i1 + 1, e2, i2 + 1, isThinking, show, readErr, x.state, y.state);
        FlattenConcat(x.outs, ScanFrom(e1, i1 + 1, isThinking, show, readErr, x.state).outs);
        FlattenConcat(y.outs, ScanFrom(e2, i2 + 1, isThinking, show, readErr, y.state).outs);
      }
    }
  }

  lemma {:induction false} AlikeEndings(isThinking: bool, show: bool, s: ScanState, t: ScanState)
    requires Alike(s, t)
    ensures Ending(isThinking, show, s).outs == Ending(isThinking, show, t).outs
  {
  }

  function ContentEvent(text: string): SSEEvent {
    SSEEvent("content", text, "")
  }

  /** A scan that has read `pre` continues with the events after it. */
  lemma {:induction false} ScanAfter(pre: seq<SSEEvent>, rest: seq<SSEEvent>, isThinking: bool, show: bool,
                                     readErr: Option<StreamError>)
    requires forall e <- pre :: !Terminal(e)
    ensures var b := ScanBody(pre, isThinking, show);
            var f := ScanFrom(pre + rest, |pre|, isThinking, show, readErr, b.state);
            Scan(pre + rest, isThinking, show, readErr) == Outcome(b.outs + f.outs, f.state, f.err)
  {
    var events := pre + rest;
    assert |pre| <= BodyLength(events) by {
      assert forall i :: 0 <= i < |pre| ==> events[i] in pre;
    }
    assert events[..|pre|] == pre;
    ScanFromIsBody(events, |pre|, isThinking, show, readErr);
    ScanIsBodyThenEnd(events, isThinking, show, readErr);
  }

  /**
   The exceptional cut in a stream: hiding the thinking, before any marker, the first piece is text
   without a tag and the first tag of the second piece is an opening one.
   */
  predicate LosesFirstEvent(pre: seq<SSEEvent>, a: string, b: string, isThinking: bool, show: bool) {
    && isThinking && !show && NoMarkers(pre)
    && a != "" && FirstTag(a, false).kind == NoTag && FirstTag(b, false).kind == OpenTag
  }

  lemma {:induction false} LossByPhase(pre: seq<SSEEvent>, a: string, b: string, isThinking: bool, show: bool)
    ensures var p := ScanBody(pre, isThinking, show);
            && (LosesFirstPiece(a, b, isThinking, show, p.state) <==> LosesFirstEvent(pre, a, b, isThinking, show))
            && (LosesFirstEvent(pre, a, b, isThinking, show) ==> p.outs == [])
  {
    hide FirstTag, NoMarkers, Settled;
    UntaggedPhase(pre, show);
    if isThinking && !show && NoMarkers(pre) {
      UntaggedPhaseIsSilent(pre);
    }
  }

  /**
   Re-chunking a whole stream: delivering an event's text in two events instead of one leaves the
   characters, the separators and the end seen by the client unchanged, unless the exceptional cut
   is made, which loses exactly the first piece: uncut, it is what the client sees first.
   */
  lemma {:induction false} RechunkedStream(pre: seq<SSEEvent>, a: string, b: string, post: seq<SSEEvent>,
                                           isThinking: bool, show: bool, readErr: Option<StreamError>)
    requires forall e <- pre :: !Terminal(e)
    requires CleanCut(a, b) && SEPARATOR !in [a, b, a + b]
    ensures var whole := Scan(pre + ([ContentEvent(a + b)] + post), isThinking, show, readErr);
            var split := Scan(pre + ([ContentEvent(a), ContentEvent(b)] + post), isThinking, show, readErr);
            && whole.err == split.err
            && Flatten(whole.outs) == (if LosesFirstEvent(pre, a, b, isThinking, show) then Syms(Content(a)) else [])
               + Flatten(split.outs)
  {
    hide ScanContent, LosesFirstPiece, LosesFirstEvent, Flatten, ScanFrom, Scan, ScanBody, CleanCut;
    var p, n := ScanBody(pre, isThinking, show), |pre|;
    var rest1, rest2 := [ContentEvent(a + b)] + post, [ContentEvent(a), ContentEvent(b)] + post;
    var e1, e2 := pre + rest1, pre + rest2;
    ScanAfter(pre, rest1, isThinking, show, readErr);
    ScanAfter(pre, rest2, isThinking, show, readErr);
    LossByPhase(pre, a, b, isThinking, show);
    ContentInPieces(a, b, isThinking, show, p.state);
    var w, x := ScanContent(a + b, isThinking, show, p.state), ScanContent(a, isThinking, show, p.state);
    var y := ScanContent(b, isThinking, show, x.state);
    assert e1[n + 1..] == post && e2[n + 2..] == post;
    AlikeScans(e1, n + 1, e2, n + 2, isThinking, show, readErr, w.state, y.state);
    ScanFromContent(e1, n, isThinking, show, readErr, p.state);
    ScanFromContent(e2, n, isThinking, show, readErr, p.state);
    ScanFromContent(e2, n + 1, isThinking, show, readErr, x.state);
    var f1, f2 := ScanFrom(e1, n, isThinking, show, readErr, p.state),
      ScanFrom(e2, n, isThinking, show, readErr, p.state);
    FlattenConcat(p.outs, f1.outs);
    FlattenConcat(p.outs, f2.outs);
    var post2 := Flatten(ScanFrom(e2, n + 2, isThinking, show, readErr, y.state).outs);
    SymsAssociative(Flatten(x.outs), Flatten(y.outs), post2);
    NoneFlat();
    if LosesFirstEvent(pre, a, b, isThinking, show) {
      SymsAssociative(Syms(Content(a)), Flatten(x.outs) + Flatten(y.outs), post2);
    }
  }

  lemma {:induction false} ScanFromContent(events: seq<SSEEvent>, i: nat, isThinking: bool, show: bool,
                                           readErr: Option<StreamError>, st: ScanState)
    requires i < |events| && !Terminal(events[i])
    ensures var s := ScanContent(events[i].content, isThinking, show, st);
            var more := ScanFrom(events, i + 1, isThinking, show, readErr, s.state);
            var f := ScanFrom(events, i, isThinking, show, readErr, st);
            Flatten(f.outs) == Flatten(s.outs) + Flatten(more.outs) && f.err == more.err
  {
    var s := ScanContent(events[i].content, isThinking, show, st);
    FlattenConcat(s.outs, ScanFrom(events, i + 1, isThinking, show, readErr, s.state).outs);
  }

  /** The exception is real: hiding, "abc" reaches the client in front of "d<think>" only if it is not cut off. */
  lemma {:induction false} LossExample(readErr: Option<StreamError>)
    ensures var whole := Scan([ContentEvent("abcd<think>")], true, false, readErr);
            var split := Scan([ContentEvent("abc"), ContentEvent("d<think>")], true, false, readErr);
            Flatten(whole.outs) == Syms(Content("abc")) + Flatten(split.outs)
  {
    hide Scan, FirstTag, OccursAt, Syms, Flatten;
    var a, b := "abc", "d<think>";
    assert a + b == "abcd<think>";
    LossCut(a, b);
    assert [] + ([ContentEvent(a + b)] + []) == [ContentEvent(a + b)];
    assert [] + ([ContentEvent(a), ContentEvent(b)] + []) == [ContentEvent(a), ContentEvent(b)];
    RechunkedStream([], a, b, [], true, false, readErr);
  }

  lemma {:induction false} LossCut(a: string, b: string)
    requires a == "abc" && b == "d<think>"
    ensures CleanCut(a, b) && SEPARATOR !in [a, b, a + b] && LosesFirstEvent([], a, b, true, false)
  {
    assert OccursAt(b, OPEN_TAG, 1);
    assert b[0] != CLOSE_TAG[0] && |b| == |CLOSE_TAG|;
    assert forall j :: OccursAt(b, OPEN_TAG, j) ==> b[j..j + 7][0] == '<';
    assert forall i :: OccursAt(a + b, OPEN_TAG, i) ==> (a + b)[i..i + 7][0] == '<';
    assert forall i :: OccursAt(a + b, CLOSE_TAG, i) ==> (a + b)[i..i + 8][0] == '<';
  }
}
