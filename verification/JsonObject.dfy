/** Picking the JSON object out of surrounding narration. */
module JsonObject {
  import opened Text
  import opened JsonScan

  /** A brace outside strings that brings the net brace depth to zero. */
  predicate ClosesAt(s: string, i: int) {
    && 0 <= i < |s| && s[i] == '}'
    && !NetFrom(START, s[..i]).inString && NetFrom(START, s[..i + 1]).curly == 0
  }

  /** The last such brace among the first `n` characters, or -1. */
  function LastClose(s: string, n: nat): (end: int)
    requires n <= |s|
    ensures end == -1 || (0 <= end < n && ClosesAt(s, end))
    ensures forall i :: end < i < n ==> !ClosesAt(s, i)
  {
    if n == 0 then -1 else if ClosesAt(s, n - 1) then n - 1 else LastClose(s, n - 1)
  }

  /** From the first opening brace to the last brace that closes at depth zero. */
  function ObjectIn(text: string): Option<string> {
    var start := Index(text, "{");
    if start < 0 then None
    else
      var s := text[start..];
      var end := LastClose(s, |s|);
      if end < 0 then None else Some(s[..end + 1])
  }

  lemma {:induction false} NothingRead()
    ensures NetFrom(START, "") == START && forall s :: LastClose(s, 0) == -1
  {
  }

  /** One more character of the scan. */
  lemma {:induction false} ReadOne(s: string, k: nat)
    requires k < |s|
    ensures var before, after := NetFrom(START, s[..k]), NetFrom(START, s[..k + 1]);
            && after == Net(before, s[k])
            && LastClose(s, k + 1) == if !before.inString && s[k] == '}' && after.curly == 0 then k else LastClose(s, k)
  {
    assert s[..k + 1][..k] == s[..k];
  }

  method ExtractJSONObject(text: string) returns (obj: string, ok: bool)
    ensures (if ok then Some(obj) else None) == ObjectIn(text)
    ensures !ok ==> obj == ""
  {
    hide NetFrom, LastClose, Net, ClosesAt, Index;
    obj, ok := "", false;
    var start := Index(text, "{");
    if start < 0 {
      return;
    }
    NothingRead();
    ghost var s := text[start..];
    var l, end := START, -1;
    for i := start to |text|
      invariant l == NetFrom(START, s[..i - start])
      invariant end == if LastClose(s, i - start) < 0 then -1 else start + LastClose(s, i - start)
    {
      var c := text[i];
      var closer := !l.inString && c == '}';
      ReadOne(s, i - start);
      l := Net(l, c);
      if closer && l.curly == 0 {
        end := i;
      }
    }
    assert s[..|s|] == s;
    if end < start {
      return;
    }
    obj, ok := text[start..end + 1], true;
    assert text[start..end + 1] == s[..end - start + 1];
  }

  /** Any result starts and ends with a brace, lies in the text and has net depth zero outside strings. */
  lemma {:induction false} ResultIsBalanced(text: string)
    requires ObjectIn(text).Some?
    ensures var obj := ObjectIn(text).value;
            && |obj| >= 2 && obj[0] == '{' && obj[|obj| - 1] == '}'
            && Contains(text, obj)
            && !NetFrom(START, obj).inString && NetFrom(START, obj).curly == 0
  {
    var start := Index(text, "{");
    var s := text[start..];
    var end := LastClose(s, |s|);
    assert text[start..start + 1][0] == '{';
    assert s[..end + 1][..end] == s[..end];
    assert OccursAt(text, s[..end + 1], start) by {
      assert text[start..start + (end + 1)] == s[..end + 1];
    }
  }

  /** An object: it opens with a brace and its last character closes that brace. */
  predicate IsObject(obj: string) {
    obj != "" && obj[0] == '{' && ClosesAt(obj, |obj| - 1)
  }

  /** The scans of two texts that reach the same string state and brace depth go on alike. */
  lemma {:induction false} SameBraces(l: Lex, m: Lex, s: string)
    requires l.inString == m.inString && l.escaped == m.escaped && l.curly == m.curly
    ensures var a, b := NetFrom(l, s), NetFrom(m, s);
            a.inString == b.inString && a.escaped == b.escaped && a.curly == b.curly
  {
    if s != "" {
      SameBraces(l, m, s[..|s| - 1]);
    }
  }

  /** After an object the scan of what follows is the scan from the start. */
  lemma {:induction false} ScanAfter(obj: string, s: string)
    requires IsObject(obj)
    ensures var a, b := NetFrom(START, obj + s), NetFrom(START, s);
            a.inString == b.inString && a.curly == b.curly
  {
    assert obj[..|obj|] == obj;
    assert obj[..|obj|][..|obj| - 1] == obj[..|obj| - 1];
    var l := NetFrom(START, obj);
    assert !l.inString && l.curly == 0;
    Unescaped(obj);
    NetConcat(START, obj, s);
    SameBraces(l, START, s);
  }

  lemma {:induction false} ClosesAfter(obj: string, s: string, i: int)
    requires IsObject(obj) && i >= -1
    ensures ClosesAt(obj + s, |obj| + i) <==> i == -1 || ClosesAt(s, i)
  {
    var t, k := obj + s, |obj| + i;
    if 0 <= i < |s| {
      assert t[..k] == obj + s[..i] && t[..k + 1] == obj + s[..i + 1];
      ScanAfter(obj, s[..i]);
      ScanAfter(obj, s[..i + 1]);
    } else if i == -1 {
      assert t[..k] == obj[..k] && t[..k + 1] == obj[..k + 1];
    }
  }

  lemma {:induction false} StartsAt(prefix: string, s: string)
    requires '{' !in prefix && s != "" && s[0] == '{'
    ensures Index(prefix + s, "{") == |prefix| && (prefix + s)[|prefix|..] == s
  {
    var text := prefix + s;
    assert OccursAt(text, "{", |prefix|);
    assert forall j :: OccursAt(text, "{", j) ==> text[j..j + 1][0] == '{';
  }

  /**
   A prefix without an opening brace and an object come back as the object, together with what
   follows up to the last brace that closes at depth zero there.
   */
  lemma {:induction false} ExtractsObject(prefix: string, obj: string, suffix: string)
    requires '{' !in prefix && IsObject(obj)
    ensures ObjectIn(prefix + obj + suffix) == Some(obj + suffix[..LastClose(suffix, |suffix|) + 1])
  {
    hide ClosesAt;
    var s := obj + suffix;
    StartsAt(prefix, s);
    assert prefix + obj + suffix == prefix + s;
    var end, last := LastClose(s, |s|), LastClose(suffix, |suffix|);
    ClosesAfter(obj, suffix, last);
    ClosesAfter(obj, suffix, -1);
    if end >= |obj| - 1 {
      ClosesAfter(obj, suffix, end - |obj|);
    }
    CloseInside(suffix);
    assert end == |obj| + last;
    assert s[..end + 1] == obj + suffix[..last + 1];
  }

  lemma {:induction false} CloseInside(s: string)
    ensures forall i :: ClosesAt(s, i) ==> 0 <= i < |s|
  {
  }

  /** So exactly the object comes back if and only if no brace of the suffix closes at depth zero. */
  lemma {:induction false} ExtractsExactlyObject(prefix: string, obj: string, suffix: string)
    requires '{' !in prefix && IsObject(obj)
    ensures ObjectIn(prefix + obj + suffix) == Some(obj) <==> forall i :: !ClosesAt(suffix, i)
    ensures '}' !in suffix ==> ObjectIn(prefix + obj + suffix) == Some(obj)
  {
    ExtractsObject(prefix, obj, suffix);
    var last := LastClose(suffix, |suffix|);
    assert |obj + suffix[..last + 1]| == |obj| + last + 1;
    assert obj + "" == obj;
  }

  /** There is no result exactly when no brace closes at depth zero after the first opening brace. */
  lemma {:induction false} NoResult(prefix: string, s: string)
    requires '{' !in prefix && (s == "" || s[0] == '{')
    ensures ObjectIn(prefix + s) == None <==> forall i :: !ClosesAt(s, i)
  {
    if s == "" {
      assert forall j :: OccursAt(prefix + s, "{", j) ==> (prefix + s)[j..j + 1][0] == '{';
    } else {
      StartsAt(prefix, s);
    }
  }

  /** Two objects one after the other come back as one piece: the search does not stop at the first. */
  lemma {:induction false} TwoObjectsMerge(prefix: string, first: string, between: string, second: string)
    requires '{' !in prefix && IsObject(first) && IsObject(second)
             && (forall i :: 0 <= i < |between| ==> between[i] !in {'{', '}', '"'})
    ensures ObjectIn(prefix + first + (between + second)) == Some(first + (between + second))
  {
    var suffix := between + second;
    ExtractsObject(prefix, first, suffix);
    QuietScan(between);
    NetConcat(START, between, second[..|second| - 1]);
    NetConcat(START, between, second);
    assert suffix[..|suffix| - 1] == between + second[..|second| - 1] && suffix[..|suffix|] == suffix;
    assert second[..|second|] == second;
    SameBraces(NetFrom(START, between), START, second[..|second| - 1]);
    SameBraces(NetFrom(START, between), START, second);
    assert ClosesAt(suffix, |suffix| - 1);
  }

  lemma {:induction false} QuietScan(s: string)
    requires forall i :: 0 <= i < |s| ==> s[i] !in {'{', '}', '"'}
    ensures var l := NetFrom(START, s); !l.inString && !l.escaped && l.curly == 0
  {
    if s != "" {
      QuietScan(s[..|s| - 1]);
    }
  }
}
