/** The string-aware bracket counting that the repair and the object extraction share. */
module JsonScan {
  import opened Text

  /** Strings are those of section 7 of RFC 8259: a backslash escapes the next character. */
  datatype Lex = Lex(inString: bool, escaped: bool, curly: int, square: int)

  const START := Lex(false, false, 0, 0)

  /** One character; the depths may go negative. */
  function Net(l: Lex, c: char): Lex {
    if l.inString then
      if l.escaped then l.(escaped := false)
      else if c == '\\' then l.(escaped := true)
      else if c == '"' then l.(inString := false)
      else l
    else if c == '"' then l.(inString := true)
    else if c == '{' then l.(curly := l.curly + 1)
    else if c == '}' then l.(curly := l.curly - 1)
    else if c == '[' then l.(square := l.square + 1)
    else if c == ']' then l.(square := l.square - 1)
    else l
  }

  /** One character as the repair counts: a closer without an opener is ignored. */
  function Clamped(l: Lex, c: char): Lex {
    if !l.inString && ((c == '}' && l.curly <= 0) || (c == ']' && l.square <= 0)) then l else Net(l, c)
  }

  function NetFrom(l: Lex, s: string): Lex {
    if s == "" then l else Net(NetFrom(l, s[..|s| - 1]), s[|s| - 1])
  }

  function ClampedFrom(l: Lex, s: string): Lex {
    if s == "" then l else Clamped(ClampedFrom(l, s[..|s| - 1]), s[|s| - 1])
  }

  lemma {:induction false} NetConcat(l: Lex, a: string, b: string)
    ensures NetFrom(l, a + b) == NetFrom(NetFrom(l, a), b)
  {
    if b == "" {
      assert a + b == a;
    } else {
      assert (a + b)[..|a + b| - 1] == a + b[..|b| - 1];
      NetConcat(l, a, b[..|b| - 1]);
    }
  }

  lemma {:induction false} ClampedConcat(l: Lex, a: string, b: string)
    ensures ClampedFrom(l, a + b) == ClampedFrom(ClampedFrom(l, a), b)
  {
    if b == "" {
      assert a + b == a;
    } else {
      assert (a + b)[..|a + b| - 1] == a + b[..|b| - 1];
      ClampedConcat(l, a, b[..|b| - 1]);
    }
  }

  /** Outside strings nothing is escaped. */
  lemma {:induction false} Unescaped(s: string)
    ensures NetFrom(START, s).escaped ==> NetFrom(START, s).inString
  {
    if s != "" {
      Unescaped(s[..|s| - 1]);
    }
  }

  /** The white space of JSON texts. */
  predicate IsJSONSpace(c: char) {
    c == ' ' || c == '\n' || c == '\r' || c == '\t'
  }

  predicate JSONBlank(s: string) {
    forall i :: 0 <= i < |s| ==> IsJSONSpace(s[i])
  }

  /** Characters that only matter inside strings: no quote and, if the flag is set, no closer. */
  lemma {:induction false} InStringStays(l: Lex, s: string)
    requires l.inString && forall i :: 0 <= i < |s| ==> s[i] != '"' && s[i] != '\\'
    ensures NetFrom(l, s) == if s == "" then l else l.(escaped := false)
    ensures ClampedFrom(l, s) == NetFrom(l, s)
  {
    if s != "" {
      InStringStays(l, s[..|s| - 1]);
    }
  }

  lemma {:induction false} BlankScans(l: Lex, s: string)
    requires !l.inString && JSONBlank(s)
    ensures NetFrom(l, s) == l && ClampedFrom(l, s) == l
  {
    if s != "" {
      BlankScans(l, s[..|s| - 1]);
    }
  }

  /** A run of closers outside strings lowers one depth, never below zero when counted clamped. */
  lemma {:induction false} CloserRun(l: Lex, c: char, n: nat)
    requires !l.inString && c in {'}', ']'}
    ensures NetFrom(l, Repeat(c, n)) == if c == '}' then l.(curly := l.curly - n) else l.(square := l.square - n)
    ensures c == '}' && l.curly >= 0
            ==> ClampedFrom(l, Repeat(c, n)) == l.(curly := if l.curly < n then 0 else l.curly - n)
    ensures c == ']' && l.square >= 0
            ==> ClampedFrom(l, Repeat(c, n)) == l.(square := if l.square < n then 0 else l.square - n)
  {
    if n > 0 {
      assert Repeat(c, n)[..n - 1] == Repeat(c, n - 1);
      CloserRun(l, c, n - 1);
    }
  }

  /** String-aware depths match: no closer without its opener, nothing left open, no open string. */
  predicate Matched(s: string) {
    && (forall i :: 0 <= i <= |s| ==> NetFrom(START, s[..i]).curly >= 0 && NetFrom(START, s[..i]).square >= 0)
    && var l := NetFrom(START, s); !l.inString && l.curly == 0 && l.square == 0
  }

  /** Where no closer lacks its opener, clamping changes nothing. */
  lemma {:induction false} ClampedIsNet(s: string, i: nat)
    requires i <= |s|
    requires forall j :: 0 <= j <= i ==> NetFrom(START, s[..j]).curly >= 0 && NetFrom(START, s[..j]).square >= 0
    ensures ClampedFrom(START, s[..i]) == NetFrom(START, s[..i])
  {
    if i > 0 {
      ClampedIsNet(s, i - 1);
      assert s[..i][..i - 1] == s[..i - 1];
    }
  }
}
