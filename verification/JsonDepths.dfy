/** What the bracket counting of the repair and the extraction counts, and what the two repair steps do to any text. */
module JsonDepths {
  import opened Text
  import opened JsonScan
  import opened JsonRepair

  // Strings.

  /** A text as it stands inside a JSON string: quotes and backslashes are escaped. */
  function Escaped(t: string): string {
    if t == "" then ""
    else Escaped(t[..|t| - 1]) + (if t[|t| - 1] in {'"', '\\'} then ['\\', t[|t| - 1]] else [t[|t| - 1]])
  }

  predicate Outside(l: Lex) {
    !l.inString && !l.escaped
  }

  /** Whatever is written in a string, the scan stays inside and counts nothing. */
  lemma {:induction false} InsideString(l: Lex, t: string)
    requires Outside(l)
    ensures NetFrom(l, "\"" + Escaped(t)) == l.(inString := true) == ClampedFrom(l, "\"" + Escaped(t))
  {
    if t == "" {
      assert "\"" + Escaped(t) == "\"" && "\""[..0] == "";
    } else {
      var front, c := t[..|t| - 1], t[|t| - 1];
      InsideString(l, front);
      var a, b := "\"" + Escaped(front), if c in {'"', '\\'} then ['\\', c] else [c];
      assert "\"" + Escaped(t) == a + b;
      NetConcat(l, a, b);
      ClampedConcat(l, a, b);
      OneEscaped(l.(inString := true), c);
    }
  }

  lemma {:induction false} OneEscaped(l: Lex, c: char)
    requires l.inString && !l.escaped
    ensures var b := if c in {'"', '\\'} then ['\\', c] else [c]; NetFrom(l, b) == l == ClampedFrom(l, b)
  {
    if c in {'"', '\\'} {
      assert ['\\', c][..1] == ['\\'] && ['\\'][..0] == "";
      assert NetFrom(l, ['\\']) == l.(escaped := true) == ClampedFrom(l, ['\\']);
    } else {
      assert [c][..0] == "";
    }
  }

  /** A whole string leaves the scan as it was. */
  lemma {:induction false} StringSkipped(l: Lex, t: string)
    requires Outside(l)
    ensures var quoted := "\"" + Escaped(t) + "\""; NetFrom(l, quoted) == l == ClampedFrom(l, quoted)
  {
    var a := "\"" + Escaped(t);
    InsideString(l, t);
    assert (a + "\"")[..|a|] == a;
  }

  // Brackets.

  function Occurrences(c: char, s: string): nat {
    if s == "" then 0 else Occurrences(c, s[..|s| - 1]) + if s[|s| - 1] == c then 1 else 0
  }

  /** Outside strings the depths are the openers minus the closers. */
  lemma {:induction false} PlainCounts(l: Lex, s: string)
    requires Outside(l) && '"' !in s
    ensures NetFrom(l, s) == l.(curly := l.curly + Occurrences('{', s) - Occurrences('}', s),
                                square := l.square + Occurrences('[', s) - Occurrences(']', s))
  {
    if s != "" {
      PlainCounts(l, s[..|s| - 1]);
    }
  }

  /** A number counted up and down but never below zero is the greatest surplus of any ending. */
  ghost predicate GreatestSurplus(s: string, depth: int, net: string -> int) {
    && (forall i :: 0 <= i <= |s| ==> depth >= net(s) - net(s[..i]))
    && exists i :: 0 <= i <= |s| && depth == net(s) - net(s[..i])
  }

  function NetCurly(s: string): int {
    NetFrom(START, s).curly
  }

  function NetSquare(s: string): int {
    NetFrom(START, s).square
  }

  lemma {:induction false} SurplusSnoc(s: string, depth: int, next: int, net: string -> int)
    requires s != "" && GreatestSurplus(s[..|s| - 1], depth, net)
    requires var d := net(s) - net(s[..|s| - 1]); next == if depth + d >= 0 then depth + d else 0
    ensures GreatestSurplus(s, next, net)
  {
    var front := s[..|s| - 1];
    forall i | 0 <= i <= |front|
      ensures s[..i] == front[..i]
    {
    }
    assert s[..|s|] == s && front[..|front|] == front;
    var i :| 0 <= i <= |front| && depth == net(front) - net(front[..i]);
    if next == 0 {
      assert next == net(s) - net(s[..|s|]);
    } else {
      assert next == net(s) - net(s[..i]);
    }
    forall j | 0 <= j <= |s|
      ensures next >= net(s) - net(s[..j])
    {
      if j <= |front| {
        assert depth >= net(front) - net(front[..j]);
      }
    }
  }

  /**
   The repair's scan knows the same strings, and its depth of either bracket is the greatest surplus of
   openers over closers in any ending of the text.
   */
  lemma {:induction false} ClampedSurplus(s: string)
    ensures var l, n := ClampedFrom(START, s), NetFrom(START, s);
            && l.inString == n.inString && l.escaped == n.escaped
            && GreatestSurplus(s, l.curly, NetCurly) && GreatestSurplus(s, l.square, NetSquare)
  {
    hide GreatestSurplus;
    if s == "" {
      NoSurplus();
    } else {
      var front := s[..|s| - 1];
      ClampedSurplus(front);
      SurplusPositive(front, ClampedFrom(START, front).curly, NetCurly);
      SurplusPositive(front, ClampedFrom(START, front).square, NetSquare);
      SurplusSnoc(s, ClampedFrom(START, front).curly, ClampedFrom(START, s).curly, NetCurly);
      SurplusSnoc(s, ClampedFrom(START, front).square, ClampedFrom(START, s).square, NetSquare);
    }
  }

  lemma {:induction false} SurplusPositive(s: string, depth: int, net: string -> int)
    requires GreatestSurplus(s, depth, net)
    ensures depth >= 0
  {
    assert s[..|s|] == s;
  }

  lemma {:induction false} NoSurplus()
    ensures GreatestSurplus("", 0, NetCurly) && GreatestSurplus("", 0, NetSquare)
  {
    assert ""[..0] == "";
  }

  // The two steps.

  /** The last brace of a text that ends with it and white space. */
  predicate EndsInBrace(s: string, i: nat) {
    i < |s| && s[i] == '}' && JSONBlank(s[i + 1..])
  }

  lemma {:induction false} TrimmedAt(s: string, i: nat)
    requires i < |s| && !IsJSONSpace(s[i]) && JSONBlank(s[i + 1..])
    ensures TrimmedLength(s) == i + 1
  {
    hide TrimmedLength, IsJSONSpace;
    var n := TrimmedLength(s);
    BlankAt(s, n, i);
    BlankAt(s, i + 1, n - 1);
  }

  lemma {:induction false} BlankAt(s: string, n: nat, i: int)
    ensures n <= i < |s| && JSONBlank(s[n..]) ==> IsJSONSpace(s[i])
  {
    hide IsJSONSpace;
    assert n <= i < |s| ==> s[n..][i - n] == s[i];
  }

  /**
   The array step, for every text: if it ends outside strings in a brace and white space, the missing array
   closers go in front of that brace; otherwise it is left alone.
   */
  lemma {:induction false} ArrayStepExactly(s: string)
    ensures (forall i: nat :: !EndsInBrace(s, i)) ==> InsertArrayClosers(s) == s
    ensures forall i: nat :: EndsInBrace(s, i) ==>
              var l := ClampedFrom(START, s);
              InsertArrayClosers(s) == if l.inString || l.square <= 0 then s
                else s[..i] + Repeat(']', l.square) + s[i..]
  {
    hide ClampedFrom, Repeat;
    var n := TrimmedLength(s);
    if n > 0 && s[n - 1] == '}' {
      assert EndsInBrace(s, n - 1);
    }
    forall i: nat | EndsInBrace(s, i)
      ensures var l := ClampedFrom(START, s);
              InsertArrayClosers(s) == if l.inString || l.square <= 0 then s
                else s[..i] + Repeat(']', l.square) + s[i..]
    {
      TrimmedAt(s, i);
    }
  }

  /**
   The object step, for every text: in front of the last bracket go the closers of all but one of the
   objects open there, unless it stands in a string.
   */
  lemma {:induction false} ObjectStepExactly(s: string)
    ensures ']' !in s ==> InsertObjectClosers(s) == s
    ensures forall i: nat :: i < |s| && s[i] == ']' && ']' !in s[i + 1..] ==>
              var l := ClampedFrom(START, s[..i]);
              InsertObjectClosers(s) == if l.inString || l.curly <= 1 then s
                else s[..i] + Repeat('}', l.curly - 1) + s[i..]
  {
    hide InsertObjectClosers, ClampedFrom, Repeat;
    NoBracketStep(s);
    forall i: nat | i < |s| && s[i] == ']' && ']' !in s[i + 1..]
      ensures var l := ClampedFrom(START, s[..i]);
              InsertObjectClosers(s) == if l.inString || l.curly <= 1 then s
                else s[..i] + Repeat('}', l.curly - 1) + s[i..]
    {
      BracketStep(s, i);
    }
  }

  lemma {:induction false} NoBracketStep(s: string)
    ensures ']' !in s ==> InsertObjectClosers(s) == s
  {
    hide ClampedFrom, Repeat, LastIndex;
    BracketAt(s);
  }

  lemma {:induction false} BracketStep(s: string, i: nat)
    requires i < |s| && s[i] == ']' && ']' !in s[i + 1..]
    ensures var l := ClampedFrom(START, s[..i]);
            InsertObjectClosers(s) == if l.inString || l.curly <= 1 then s
              else s[..i] + Repeat('}', l.curly - 1) + s[i..]
  {
    hide ClampedFrom, Repeat, LastIndex, OccursAt;
    LastBracket(s, i);
  }

  lemma {:induction false} BracketAt(s: string)
    ensures ']' !in s ==> LastIndex(s, "]") < 0
  {
    var k := LastIndex(s, "]");
    if k >= 0 {
      assert s[k..k + 1][0] == s[k];
    }
  }

  lemma {:induction false} LastBracket(s: string, i: nat)
    requires i < |s| && s[i] == ']' && ']' !in s[i + 1..]
    ensures LastIndex(s, "]") == i
  {
    hide LastIndex;
    var k := LastIndex(s, "]");
    assert OccursAt(s, "]", i) by {
      assert s[i..i + 1] == "]";
    }
    BracketBehind(s, i, k);
  }

  lemma {:induction false} BracketBehind(s: string, i: nat, k: int)
    ensures i < k && OccursAt(s, "]", k) ==> k < |s| && ']' in s[i + 1..]
  {
    if i < k && OccursAt(s, "]", k) {
      assert s[k..k + 1][0] == s[k] == s[i + 1..][k - i - 1];
    }
  }
}
