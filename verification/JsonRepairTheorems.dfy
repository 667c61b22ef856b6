/** What the repair restores, what it leaves alone, and where it goes wrong. */
module JsonRepairTheorems {
  import opened Text
  import opened JsonScan
  import opened JsonRepair

  /** `b` is `a` with closing brackets inserted and nothing else changed. */
  predicate OnlyClosersInserted(a: string, b: string)
    decreases |b|
  {
    if b == "" then a == ""
    else if a != "" && a[0] == b[0] then OnlyClosersInserted(a[1..], b[1..])
    else b[0] in {']', '}'} && OnlyClosersInserted(a, b[1..])
  }

  lemma {:induction false} InsertedSame(a: string)
    ensures OnlyClosersInserted(a, a)
  {
    if a != "" {
      InsertedSame(a[1..]);
    }
  }

  /** A closer in front of inserted closers is one more. */
  lemma {:induction false} InsertedMore(c: char, a: string, b: string)
    requires c in {']', '}'} && OnlyClosersInserted(a, b)
    ensures OnlyClosersInserted(a, [c] + b)
    decreases |b|, 1
  {
    assert ([c] + b)[1..] == b;
    if a != "" && a[0] == c {
      if b != "" && b[0] == a[0] {
        InsertedMore(c, a[1..], b[1..]);
        assert [c] + b[1..] == b;
      } else {
        InsertedLater(a, b);
      }
    }
  }

  lemma {:induction false} InsertedLater(a: string, b: string)
    requires a != "" && a[0] in {']', '}'} && OnlyClosersInserted(a, b)
    ensures OnlyClosersInserted(a[1..], b)
    decreases |b|, 0
  {
    if a[0] == b[0] {
      assert [b[0]] + b[1..] == b;
      InsertedMore(b[0], a[1..], b[1..]);
    } else {
      InsertedLater(a, b[1..]);
      assert [b[0]] + b[1..] == b;
      InsertedMore(b[0], a[1..], b[1..]);
    }
  }

  lemma {:induction false} SpliceInserts(s: string, i: nat, c: char, n: nat)
    requires i <= |s| && c in {']', '}'}
    ensures OnlyClosersInserted(s, Splice(s, i, c, n))
    decreases i, n
  {
    if i > 0 {
      assert Splice(s, i, c, n)[1..] == Splice(s[1..], i - 1, c, n);
      SpliceInserts(s[1..], i - 1, c, n);
    } else if n > 0 {
      SpliceInserts(s, 0, c, n - 1);
      assert Splice(s, 0, c, n) == [c] + Splice(s, 0, c, n - 1);
      InsertedMore(c, s, Splice(s, 0, c, n - 1));
    } else {
      assert Splice(s, 0, c, 0) == s;
      InsertedSame(s);
    }
  }

  lemma {:induction false} InsertedTransitive(a: string, b: string, c: string)
    requires OnlyClosersInserted(a, b) && OnlyClosersInserted(b, c)
    ensures OnlyClosersInserted(a, c)
    decreases |c|
  {
    if c != "" {
      assert [c[0]] + c[1..] == c;
      if b != "" && b[0] == c[0] {
        if a != "" && a[0] == b[0] {
          InsertedTransitive(a[1..], b[1..], c[1..]);
        } else {
          InsertedTransitive(a, b[1..], c[1..]);
        }
      } else {
        InsertedTransitive(a, b, c[1..]);
        InsertedMore(c[0], a, c[1..]);
      }
    }
  }

  /** On every input the repair inserts closing brackets and changes nothing else. */
  lemma {:induction false} RepairOnlyInserts(s: string)
    ensures OnlyClosersInserted(s, Repair(s))
  {
    var a := InsertArrayClosers(s);
    InsertedSame(s);
    InsertedSame(a);
    if LacksArrayClosers(s) {
      SpliceInserts(s, TrimmedLength(s) - 1, ']', ClampedFrom(START, s).square);
    }
    if LacksObjectClosers(a) {
      var at := LastIndex(a, "]");
      SpliceInserts(a, at, '}', ClampedFrom(START, a[..at]).curly - 1);
    }
    InsertedTransitive(s, a, Repair(s));
  }

  /** The scan of a text that ends in a brace and white space. */
  lemma {:induction false} ScanTail(a: string, w: string)
    requires JSONBlank(w)
    ensures TrimmedLength(a + "}" + w) == |a| + 1
    ensures !ClampedFrom(START, a).inString ==>
              ClampedFrom(START, a + "}" + w) == Clamped(ClampedFrom(START, a), '}')
    ensures !NetFrom(START, a).inString ==>
              NetFrom(START, a + "}" + w) == Net(NetFrom(START, a), '}')
  {
    ClampedConcat(START, a + "}", w);
    NetConcat(START, a + "}", w);
    assert (a + "}")[..|a + "}"| - 1] == a;
    if !ClampedFrom(START, a).inString {
      BlankScans(Clamped(ClampedFrom(START, a), '}'), w);
    }
    if !NetFrom(START, a).inString {
      BlankScans(Net(NetFrom(START, a), '}'), w);
    }
    TrimTail(a + "}", w);
  }

  lemma {:induction false} TrimTail(a: string, w: string)
    requires a != "" && !IsJSONSpace(a[|a| - 1]) && JSONBlank(w)
    ensures TrimmedLength(a + w) == |a|
  {
    if w == "" {
      assert a + w == a;
    } else {
      assert (a + w)[..|a + w| - 1] == a + w[..|w| - 1];
      TrimTail(a, w[..|w| - 1]);
    }
  }

  /** Splitting a text at its final brace. */
  lemma {:induction false} FinalBrace(s: string) returns (a: string, w: string)
    requires TrimmedLength(s) > 0 && s[TrimmedLength(s) - 1] == '}'
    ensures s == a + "}" + w && JSONBlank(w) && |a| == TrimmedLength(s) - 1
  {
    var n := TrimmedLength(s);
    a, w := s[..n - 1], s[n..];
  }

  /** In an open string the scan of a brace and white space leaves the string open. */
  lemma {:induction false} OpenStringTail(l: Lex, w: string)
    requires l.inString && JSONBlank(w)
    ensures ClampedFrom(l, "}" + w).inString && NetFrom(l, "}" + w).inString
  {
    InStringStays(l, "}" + w);
  }

  /** After the array step no array closer is missing, so the step is idempotent. */
  lemma {:induction false} ArrayStepIdempotent(s: string)
    ensures !LacksArrayClosers(InsertArrayClosers(s))
    ensures InsertArrayClosers(InsertArrayClosers(s)) == InsertArrayClosers(s)
  {
    hide ClampedFrom, NetFrom, Repeat;
    if LacksArrayClosers(s) {
      var a, w := FinalBrace(s);
      var d := ClampedFrom(START, s).square;
      OpenStringBefore(a, w);
      ScanTail(a, w);
      FilledScan(a, d, w);
      assert InsertArrayClosers(s) == a + Repeat(']', d) + "}" + w by {
        assert s[..|a|] == a && s[|a|..] == "}" + w;
        assert a + Repeat(']', d) + ("}" + w) == a + Repeat(']', d) + "}" + w;
      }
    }
  }

  /** A text that ends outside a string in a brace and white space is outside it before the brace. */
  lemma {:induction false} OpenStringBefore(a: string, w: string)
    requires JSONBlank(w)
    ensures ClampedFrom(START, a).inString ==> ClampedFrom(START, a + "}" + w).inString
    ensures NetFrom(START, a).inString ==> NetFrom(START, a + "}" + w).inString
  {
    hide ClampedFrom, NetFrom;
    assert a + "}" + w == a + ("}" + w);
    ClampedConcat(START, a, "}" + w);
    NetConcat(START, a, "}" + w);
    if ClampedFrom(START, a).inString {
      OpenStringTail(ClampedFrom(START, a), w);
    }
    if NetFrom(START, a).inString {
      OpenStringTail(NetFrom(START, a), w);
    }
  }

  /** With the missing array closers in place the array depth is zero. */
  lemma {:induction false} FilledScan(a: string, d: nat, w: string)
    requires JSONBlank(w)
    requires var l := ClampedFrom(START, a); !l.inString && l.square == d
    ensures ClampedFrom(START, a + Repeat(']', d) + "}" + w).square == 0
  {
    hide ClampedFrom, NetFrom, Repeat;
    ScanTail(a + Repeat(']', d), w);
    ClampedConcat(START, a, Repeat(']', d));
    CloserRun(ClampedFrom(START, a), ']', d);
  }

  /**
   Dropping the `d` array closers in front of the final brace of a text whose depths match is
   undone exactly.
   */
  lemma {:induction false} ArrayClosersRestored(a: string, d: nat, w: string)
    requires d > 0 && JSONBlank(w) && Matched(a + Repeat(']', d) + "}" + w)
    ensures Repair(a + "}" + w) == a + Repeat(']', d) + "}" + w
  {
    hide ClampedFrom, NetFrom, Repeat, LacksObjectClosers;
    var t, s := a + Repeat(']', d) + "}" + w, a + "}" + w;
    DepthsBeforeDropped(a, d, w);
    ScanTail(a, w);
    assert InsertArrayClosers(s) == t by {
      assert s[..|a|] == a && s[|a|..] == "}" + w;
      assert a + Repeat(']', d) + ("}" + w) == t;
    }
    NoObjectStep(a, d, w);
  }

  /** In a matched text the dropped closers tell the depths in front of them. */
  lemma {:induction false} DepthsBeforeDropped(a: string, d: nat, w: string)
    requires d > 0 && JSONBlank(w) && Matched(a + Repeat(']', d) + "}" + w)
    ensures ClampedFrom(START, a) == Lex(false, false, 1, d)
  {
    hide ClampedFrom, NetFrom, Repeat;
    var t := a + Repeat(']', d) + "}" + w;
    MatchedPrefix(t, a + Repeat(']', d));
    assert a <= t by {
      assert t == a + (Repeat(']', d) + "}" + w);
    }
    MatchedPrefix(t, a);
    var l := NetFrom(START, a);
    NetConcat(START, a, Repeat(']', d));
    OpenStringBefore(a + Repeat(']', d), w);
    if l.inString {
      InStringStays(l, Repeat(']', d));
    }
    CloserRun(l, ']', d);
    ScanTail(a + Repeat(']', d), w);
    Unescaped(a);
  }

  lemma {:induction false} MatchedPrefix(t: string, a: string)
    requires Matched(t) && a <= t
    ensures ClampedFrom(START, a) == NetFrom(START, a) && NetFrom(START, a).curly >= 0 && NetFrom(START, a).square >= 0
  {
    assert t[..|a|] == a;
    ClampedIsNet(t, |a|);
  }

  /** After the array step the last bracket is at depth one, so the object step does nothing. */
  lemma {:induction false} NoObjectStep(a: string, d: nat, w: string)
    requires d > 0 && JSONBlank(w)
    requires var l := ClampedFrom(START, a); !l.inString && l.curly == 1 && l.square == d
    ensures !LacksObjectClosers(a + Repeat(']', d) + "}" + w)
  {
    var t := a + Repeat(']', d) + "}" + w;
    var at := |a| + d - 1;
    LastBracket(t, at);
    assert t[..at] == a + Repeat(']', d - 1);
    ClampedConcat(START, a, Repeat(']', d - 1));
    CloserRun(ClampedFrom(START, a), ']', d - 1);
  }

  lemma {:induction false} LastBracket(t: string, at: int)
    requires 0 <= at < |t| && t[at] == ']' && forall i :: at < i < |t| ==> t[i] != ']'
    ensures LastIndex(t, "]") == at
  {
    assert OccursAt(t, "]", at);
    assert forall j :: OccursAt(t, "]", j) ==> t[j..j + 1][0] == ']';
  }

  /**
   Dropping the `k` object closers in front of the last bracket of a text whose depths match is
   undone exactly when that bracket closes an array directly inside the outermost object.
   */
  lemma {:induction false} ObjectClosersRestored(a: string, k: nat, b: string)
    requires k > 0 && ']' !in b && Matched(a + Repeat('}', k) + "]" + b)
    ensures var before := NetFrom(START, a + Repeat('}', k));
            Repair(a + "]" + b) == a + Repeat('}', k) + "]" + b <==> !before.inString && before.curly == 1
  {
    var t, s := a + Repeat('}', k) + "]" + b, a + "]" + b;
    var l := NetFrom(START, a);
    MatchedPrefix(t, a);
    NetConcat(START, a, Repeat('}', k));
    LastBracket(s, |a|);
    assert s[..|a|] == a;
    ArrayStepSkips(a, k, b);
    if l.inString {
      InStringStays(l, Repeat('}', k));
    } else {
      CloserRun(l, '}', k);
      if l.curly > 1 {
        SameSplice(a, b, l.curly - 1, k);
      }
    }
  }

  lemma {:induction false} SameSplice(a: string, b: string, m: nat, k: nat)
    ensures Splice(a + "]" + b, |a|, '}', m) == a + Repeat('}', m) + "]" + b
    ensures a + Repeat('}', m) + "]" + b == a + Repeat('}', k) + "]" + b <==> m == k
  {
  }

  /** Losing object closers leaves the array depths matched, so the array step does nothing. */
  lemma {:induction false} ArrayStepSkips(a: string, k: nat, b: string)
    requires k > 0 && Matched(a + Repeat('}', k) + "]" + b)
    ensures InsertArrayClosers(a + "]" + b) == a + "]" + b
  {
    var t := a + Repeat('}', k) + "]" + b;
    var p := a + Repeat('}', k) + "]";
    MatchedPrefix(t, a);
    MatchedPrefix(t, a + Repeat('}', k));
    MatchedPrefix(t, p);
    var l := NetFrom(START, a);
    NetConcat(START, a, Repeat('}', k));
    NetConcat(START, a + Repeat('}', k), "]");
    ClampedConcat(START, a, "]");
    assert "]"[..0] == "" && NetFrom(NetFrom(START, a + Repeat('}', k)), "]")
      == Net(NetFrom(START, a + Repeat('}', k)), ']');
    assert ClampedFrom(l, "]") == Clamped(l, ']');
    if l.inString {
      InStringStays(l, Repeat('}', k));
    } else {
      CloserRun(l, '}', k);
    }
    var gap := if l.inString then 0 else k;
    assert ClampedFrom(START, a + "]") == NetFrom(START, p).(curly := NetFrom(START, p).curly + gap);
    SameSquare(p, a + "]", b, gap);
  }

  /** With more braces open the rest of a matched text is scanned the same way, up to those braces. */
  lemma {:induction false} SameSquare(p: string, q: string, b: string, gap: nat)
    requires Matched(p + b)
    requires ClampedFrom(START, q) == NetFrom(START, p).(curly := NetFrom(START, p).curly + gap)
    ensures !LacksArrayClosers(q + b)
  {
    GapStays(p, q, b, gap, |b|);
    assert b[..|b|] == b;
  }

  lemma {:induction false} GapStays(p: string, q: string, b: string, gap: nat, i: nat)
    requires Matched(p + b) && i <= |b|
    requires ClampedFrom(START, q) == NetFrom(START, p).(curly := NetFrom(START, p).curly + gap)
    ensures ClampedFrom(START, q + b[..i])
            == NetFrom(START, p + b[..i]).(curly := NetFrom(START, p + b[..i]).curly + gap)
    decreases i
  {
    hide NetFrom, ClampedFrom, Net, Clamped, Matched;
    if i == 0 {
      assert q + b[..0] == q && p + b[..0] == p;
    } else {
      GapStays(p, q, b, gap, i - 1);
      PrefixDepths(p, b, i);
      ScanOne(q, b, i);
      ScanOne(p, b, i);
      GapStep(NetFrom(START, p + b[..i - 1]), b[i - 1], gap);
    }
  }

  lemma {:induction false} PrefixDepths(p: string, b: string, i: nat)
    requires Matched(p + b) && i <= |b|
    ensures NetFrom(START, p + b[..i]).curly >= 0 && NetFrom(START, p + b[..i]).square >= 0
  {
    hide NetFrom;
    assert (p + b)[..|p| + i] == p + b[..i];
  }

  lemma {:induction false} ScanOne(p: string, b: string, i: nat)
    requires 0 < i <= |b|
    ensures NetFrom(START, p + b[..i]) == Net(NetFrom(START, p + b[..i - 1]), b[i - 1])
    ensures ClampedFrom(START, p + b[..i]) == Clamped(ClampedFrom(START, p + b[..i - 1]), b[i - 1])
  {
    hide Net, Clamped;
    assert (p + b[..i])[..|p + b[..i]| - 1] == p + b[..i - 1];
  }

  lemma {:induction false} GapStep(l: Lex, c: char, gap: nat)
    requires Net(l, c).curly >= 0 && Net(l, c).square >= 0
    ensures Clamped(l.(curly := l.curly + gap), c) == Net(l, c).(curly := Net(l, c).curly + gap)
  {
  }

  /** A text whose depths match is left alone exactly when its last bracket is not deep inside objects. */
  lemma {:induction false} RepairOfMatched(s: string)
    requires Matched(s)
    ensures Repair(s) == s <==> !LacksObjectClosers(s)
  {
    MatchedPrefix(s, s);
    assert s[..|s|] == s;
  }

  /** An intact object with an array inside an inner object is such a text: it gains a brace. */
  lemma {:induction false} IntactTextAltered()
    ensures Matched("{\"a\":{\"b\":[]}}")
    ensures Repair("{\"a\":{\"b\":[]}}") == "{\"a\":{\"b\":[}]}}"
  {
    hide NetFrom, ClampedFrom, LastIndex, TrimmedLength;
    var s := "{\"a\":{\"b\":[]}}";
    assert |s| == 14 && s[11] == ']' && forall i :: 11 < i < |s| ==> s[i] != ']';
    forall i | 0 <= i <= |s|
      ensures NetFrom(START, s[..i]).curly >= 0 && NetFrom(START, s[..i]).square >= 0
    {
      PrefixScans(s, i);
    }
    PrefixScans(s, |s|);
    PrefixScans(s, 11);
    assert s[..|s|] == s;
    MatchedPrefix(s, s);
    MatchedPrefix(s, s[..11]);
    LastBracket(s, 11);
    assert Repeat('}', 1) == "}";
  }

  /** The scan of that text, position by position. */
  lemma {:induction false} PrefixScans(s: string, i: nat)
    requires s == "{\"a\":{\"b\":[]}}" && i <= |s|
    ensures NetFrom(START, s[..i]) ==
            Lex(i in {2, 3, 7, 8}, false,
                if i == 0 || i == 14 then 0 else if i <= 5 || i == 13 then 1 else 2, if i == 11 then 1 else 0)
  {
    if i > 0 {
      PrefixScans(s, i - 1);
      assert s[..i][..i - 1] == s[..i - 1];
    }
  }
}
