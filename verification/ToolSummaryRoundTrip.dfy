/** When the reader gets back exactly what the writer was given. */
module ToolSummaryRoundTrip {
  import opened Text
  import opened ToolSummary

  /** A trimmed line that starts with a header word, in any case. */
  predicate IsTitled(line: string) {
    IsHeader(line, "command:") || IsHeader(line, "success:") || IsHeader(line, "session id:")
    || IsHeader(line, "exit code:") || IsHeader(line, "output:")
  }

  /** A line that the reader takes for one of the summary's own. */
  predicate IsHeaderLine(rawLine: string) {
    IsTitled(TrimSpace(rawLine))
  }

  /** The summary names something. */
  predicate Present(callID: string, success: Option<bool>, text: string, sessionID: string) {
    callID != "" || success.Some? || TrimSpace(text) != "" || TrimSpace(sessionID) != ""
  }

  predicate ReadableCallID(callID: string) {
    Trimmed(callID) && ')' !in callID && '\n' !in callID
  }

  // The header line.

  function Header(callID: string): string {
    "Tool result" + if callID != "" then " (call_id=" + callID + ")" else ""
  }

  /** The call id comes back from the header. */
  lemma {:induction false} HeaderRead(callID: string)
    requires ReadableCallID(callID)
    ensures CallIDFrom(Header(callID), 0) == callID
    ensures Trimmed(Header(callID)) && '\n' !in Header(callID)
  {
    hide CallIDFrom, TrimSpace;
    HeaderTrimmed(callID);
    if callID == "" {
      NoParen(Header(callID), 0);
    } else {
      HeaderParts(callID);
      HeaderVariant("Tool result ", "", callID, "");
      TrimOfTrimmed(callID);
    }
  }

  lemma {:induction false} HeaderTrimmed(callID: string)
    requires ReadableCallID(callID)
    ensures Trimmed(Header(callID)) && '\n' !in Header(callID)
    ensures callID == "" ==> '(' !in Header(callID)
  {
  }

  lemma {:induction false} HeaderParts(callID: string)
    requires callID != ""
    ensures Header(callID) == "Tool result " + "(" + "" + CALL_ID + callID + ")" + ""
  {
  }

  lemma {:induction false} NoParen(h: string, i: nat)
    requires '(' !in h
    ensures CallIDFrom(h, i) == ""
    decreases |h| - i
  {
    if i < |h| {
      NoParen(h, i + 1);
    }
  }

  predicate RegexBlank(w: string) {
    forall i :: 0 <= i < |w| ==> IsRegexSpace(w[i])
  }

  /** The first parenthesis that holds a call id, with white space inside it allowed, whatever stands around it. */
  lemma {:induction false} HeaderVariant(before: string, w: string, id: string, behind: string)
    requires '(' !in before && RegexBlank(w) && id != "" && ')' !in id
    ensures CallIDFrom(before + "(" + w + CALL_ID + id + ")" + behind, 0) == TrimSpace(id)
  {
    hide TrimSpace, CallIDAt;
    var h := before + "(" + w + CALL_ID + id + ")" + behind;
    forall i | 0 <= i < |before|
      ensures h[i] != '('
    {
      assert h[i] == before[i];
    }
    SkipBefore(h, 0, |before|);
    VariantAt(before, w, id, behind);
  }

  lemma {:induction false} SkipBefore(h: string, i: nat, n: nat)
    requires i <= n < |h| && forall j :: i <= j < n ==> h[j] != '('
    ensures CallIDFrom(h, i) == CallIDFrom(h, n)
    decreases n - i
  {
    if i < n {
      SkipBefore(h, i + 1, n);
    }
  }

  lemma {:induction false} SkippedTo(h: string, i: nat, n: nat)
    requires i <= n < |h| && (forall j :: i <= j < n ==> IsRegexSpace(h[j])) && !IsRegexSpace(h[n])
    ensures SkipRegexSpace(h, i) == n
    decreases n - i
  {
    if i < n {
      SkippedTo(h, i + 1, n);
    }
  }

  lemma {:induction false} VariantAt(before: string, w: string, id: string, behind: string)
    requires RegexBlank(w) && id != "" && ')' !in id
    ensures CallIDAt(before + "(" + w + CALL_ID + id + ")" + behind, |before|) == Some(id)
  {
    hide IsRegexSpace, SkipRegexSpace, IndexFrom;
    var h := before + "(" + w + CALL_ID + id + ")" + behind;
    var j := |before| + 1 + |w|;
    var start := j + |CALL_ID|;
    var k := start + |id|;
    VariantParts(before, w, id, behind);
    NoSpaceStarts();
    SkippedTo(h, |before| + 1, j);
    ClosesAt(h, start, k);
  }

  lemma {:induction false} VariantParts(before: string, w: string, id: string, behind: string)
    ensures var h := before + "(" + w + CALL_ID + id + ")" + behind;
            var j := |before| + 1 + |w|;
            && h[|before|] == '(' && (forall x :: |before| < x < j ==> h[x] == w[x - |before| - 1])
            && h[j] == CALL_ID[0] && h[j..j + |CALL_ID|] == CALL_ID
            && var start := j + |CALL_ID|;
            && h[start..start + |id|] == id && h[start + |id|..start + |id| + 1] == ")"
  {
  }

  lemma {:induction false} NoSpaceStarts()
    ensures !IsRegexSpace(CALL_ID[0])
  {
  }

  lemma {:induction false} ClosesAt(h: string, start: nat, k: nat)
    requires start <= k < |h| && ')' !in h[start..k] && h[k..k + 1] == ")"
    ensures IndexFrom(h, ")", start) == k
  {
    forall x | start <= x < k
      ensures !OccursAt(h, ")", x)
    {
      assert h[x] == h[start..k][x - start] != ')';
      assert h[x..x + 1][0] == h[x];
    }
    assert OccursAt(h, ")", k);
  }

  // The lines of a summary.

  function SuccessLines(success: Option<bool>): seq<string> {
    if success.Some? then ["Success: " + TrueOrFalse(success.value)] else []
  }

  function SessionLines(id: string): seq<string> {
    if id != "" then ["Session ID: " + id] else []
  }

  function OutputLines(t: string): seq<string> {
    if t != "" then ["Output:"] + Split(t) else []
  }

  function Broken(lines: seq<string>): string {
    if lines == [] then "" else "\n" + lines[0] + Broken(lines[1..])
  }

  lemma {:induction false} BrokenConcat(a: seq<string>, b: seq<string>)
    ensures Broken(a + b) == Broken(a) + Broken(b)
  {
    if a == [] {
      assert a + b == b;
    } else {
      assert (a + b)[1..] == a[1..] + b;
      BrokenConcat(a[1..], b);
      assert "\n" + a[0] + (Broken(a[1..]) + Broken(b)) == "\n" + a[0] + Broken(a[1..]) + Broken(b);
    }
  }

  lemma {:induction false} SplitBroken(a: string, lines: seq<string>)
    requires '\n' !in a && forall k :: k in lines ==> '\n' !in k
    ensures Split(a + Broken(lines)) == [a] + lines
    decreases |lines|
  {
    if lines == [] {
      assert a + "" == a;
      SplitOneLine(a);
    } else {
      SplitBroken(lines[0], lines[1..]);
      assert a + Broken(lines) == a + "\n" + (lines[0] + Broken(lines[1..]));
      SplitAtBreak(a, lines[0] + Broken(lines[1..]));
      assert [a] + ([lines[0]] + lines[1..]) == [a] + lines;
    }
  }

  lemma {:induction false} BrokenJoined(lines: seq<string>)
    requires lines != []
    ensures Broken(lines) == "\n" + JoinLines(lines)
  {
    if |lines| == 1 {
      assert Broken(lines[1..]) == "";
      assert "\n" + lines[0] + "" == "\n" + lines[0];
    } else {
      BrokenJoined(lines[1..]);
      assert "\n" + lines[0] + ("\n" + JoinLines(lines[1..])) == "\n" + (lines[0] + "\n" + JoinLines(lines[1..]));
    }
  }

  lemma {:induction false} OneBroken(line: string)
    ensures Broken([line]) == "\n" + line
  {
  }

  lemma {:induction false} OutputBroken(t: string)
    ensures Broken(OutputLines(t)) == if t != "" then "\nOutput:\n" + t else ""
  {
    if t != "" {
      JoinSplit(t);
      BrokenJoined(Split(t));
      OneBroken("Output:");
      BrokenConcat(["Output:"], Split(t));
      hide Broken, Split;
      assert "\n" + "Output:" + ("\n" + t) == "\nOutput:\n" + t;
    }
  }

  /** A summary is its header and its lines. */
  lemma {:induction false} FormatIsLines(callID: string, success: Option<bool>, text: string, sessionID: string)
    requires Present(callID, success, text, sessionID)
    ensures Format(callID, success, text, sessionID) ==
            Header(callID)
            + Broken(SuccessLines(success) + SessionLines(TrimSpace(sessionID)) + OutputLines(TrimSpace(text)))
  {
    hide TrimSpace, Broken, SuccessLines, SessionLines, OutputLines, TrueOrFalse;
    var t, id := TrimSpace(text), TrimSpace(sessionID);
    var s1, s2, s3 := SuccessLines(success), SessionLines(id), OutputLines(t);
    BrokenConcat(s1 + s2, s3);
    BrokenConcat(s1, s2);
    SuccessBroken(success);
    SessionBroken(id);
    OutputBroken(t);
    HeaderIsStart(callID);
    Reassociate(Header(callID), Broken(s1), Broken(s2), Broken(s3));
  }

  lemma {:induction false} HeaderIsStart(callID: string)
    ensures Header(callID) == "Tool result" + if callID != "" then " (call_id=" + callID + ")" else ""
  {
  }

  lemma {:induction false} SuccessBroken(success: Option<bool>)
    ensures Broken(SuccessLines(success)) == if success.Some? then "\nSuccess: " + TrueOrFalse(success.value) else ""
  {
  }

  lemma {:induction false} SessionBroken(id: string)
    ensures Broken(SessionLines(id)) == if id != "" then "\nSession ID: " + id else ""
  {
  }

  lemma {:induction false} Reassociate(a: string, b: string, c: string, d: string)
    ensures a + (b + c + d) == a + b + c + d
  {
  }

  // Reading the lines.

  lemma {:induction false} ReadConcat(p: Parsing, a: seq<string>, b: seq<string>)
    ensures ReadLines(p, a + b) == ReadLines(ReadLines(p, a), b)
  {
    hide ReadLine;
    if b == [] {
      assert a + b == a;
    } else {
      assert (a + b)[..|a + b| - 1] == a + b[..|b| - 1];
      ReadConcat(p, a, b[..|b| - 1]);
    }
  }

  lemma {:induction false} ReadOne(p: Parsing, line: string)
    ensures ReadLines(p, [line]) == ReadLine(p, line)
  {
  }

  lemma {:induction false} NotHeader(line: string, word: string, k: nat)
    requires k < |line| && k < |word| && LowerChar(line[k]) != word[k]
    ensures !IsHeader(line, word)
  {
  }

  /** A title line: its word is recognised and its value comes back trimmed. */
  lemma {:induction false} TitleLine(title: string, word: string, value: string)
    requires Lower(title) == word
    ensures var line := title + " " + value; IsHeader(line, word) && After(line, word) == TrimSpace(value)
  {
    hide TrimSpace;
    var line := title + " " + value;
    TitleRecognised(title, word, value);
    assert line[|word|..] == " " + value;
    SpaceFirst(value);
  }

  lemma {:induction false} TitleRecognised(title: string, word: string, value: string)
    requires Lower(title) == word
    ensures IsHeader(title + " " + value, word)
  {
  }

  lemma {:induction false} SpaceFirst(s: string)
    ensures TrimSpace(" " + s) == TrimSpace(s)
  {
  }

  lemma {:induction false} CapitalTrimmed(line: string)
    requires line != "" && 'A' <= line[0] <= 'Z' && !IsSpace(line[|line| - 1])
    ensures TrimSpace(line) == line
  {
  }

  lemma {:induction false} SuccessRead(p: Parsing, success: Option<bool>)
    requires p.success == None
    ensures ReadLines(p, SuccessLines(success)) == p.(success := success)
  {
    hide Lower, TrimSpace, IsHeader, After;
    if success.Some? {
      var value := TrueOrFalse(success.value);
      var line := "Success:" + " " + value;
      assert SuccessLines(success) == ["Success: " + value] && "Success: " + value == line;
      ReadOne(p, line);
      CapitalTrimmed(line);
      NotHeader(line, "command:", 0);
      LowerWords(value);
      TitleLine("Success:", "success:", value);
    }
  }

  lemma {:induction false} LowerWords(value: string)
    ensures Lower("Success:") == "success:" && Lower("Session ID:") == "session id:" && Lower("Output:") == "output:"
    ensures value == "true" || value == "false" ==> Lower(value) == value && TrimSpace(value) == value
  {
    hide Lower, TrimSpace;
    LowerIs("Success:", "success:");
    LowerIs("Session ID:", "session id:");
    LowerIs("Output:", "output:");
    if value == "true" || value == "false" {
      LowerIs(value, value);
    }
  }

  lemma {:induction false} LowerIs(s: string, t: string)
    requires |s| == |t| && forall i :: 0 <= i < |s| ==> LowerChar(s[i]) == t[i]
    ensures Lower(s) == t
  {
  }

  lemma {:induction false} SessionRead(p: Parsing, id: string)
    requires p.sessionID == "" && Trimmed(id)
    ensures ReadLines(p, SessionLines(id)) == p.(sessionID := id)
  {
    hide Lower, TrimSpace, IsHeader, After;
    if id != "" {
      var line := "Session ID:" + " " + id;
      assert SessionLines(id) == ["Session ID: " + id] && "Session ID: " + id == line;
      ReadOne(p, line);
      assert line[|line| - 1] == id[|id| - 1];
      CapitalTrimmed(line);
      NotHeader(line, "command:", 0);
      NotHeader(line, "success:", 1);
      LowerWords(id);
      TitleLine("Session ID:", "session id:", id);
    }
  }

  lemma {:induction false} OutputStarts(p: Parsing)
    ensures ReadLine(p, "Output:") == p.(outputStarted := true)
  {
    hide Lower, TrimSpace, After;
    var line := "Output:";
    CapitalTrimmed(line);
    LowerWords("");
    NotHeader(line, "command:", 0);
    NotHeader(line, "success:", 0);
    NotHeader(line, "session id:", 0);
    NotHeader(line, "exit code:", 0);
    NothingAfter(line);
    assert p.outputLines + [] == p.outputLines;
  }

  lemma {:induction false} NothingAfter(line: string)
    requires line == "Output:"
    ensures After(line, "output:") == ""
  {
  }

  predicate NoHeaderLines(lines: seq<string>) {
    forall k :: 0 <= k < |lines| ==> !IsHeaderLine(lines[k])
  }

  /** Once the output has started every other line is kept as it is. */
  lemma {:induction false} PlainLinesRead(p: Parsing, lines: seq<string>)
    requires p.outputStarted && NoHeaderLines(lines)
    ensures ReadLines(p, lines) == p.(outputLines := p.outputLines + lines)
  {
    hide ReadLine, IsHeaderLine;
    if lines == [] {
      assert p.outputLines + lines == p.outputLines;
    } else {
      var front, last := lines[..|lines| - 1], lines[|lines| - 1];
      PlainLinesRead(p, front);
      PlainLine(p.(outputLines := p.outputLines + front), last);
      assert p.outputLines + front + [last] == p.outputLines + lines;
    }
  }

  lemma {:induction false} PlainLine(p: Parsing, line: string)
    requires p.outputStarted && !IsHeaderLine(line)
    ensures ReadLine(p, line) == p.(outputLines := p.outputLines + [line])
  {
  }

  /** The state in front of the text lines. */
  lemma {:induction false} FixedLinesRead(success: Option<bool>, id: string)
    requires Trimmed(id)
    ensures ReadLines(NOTHING_READ, SuccessLines(success) + SessionLines(id)) == Parsing("", success, id, [], false)
  {
    ReadConcat(NOTHING_READ, SuccessLines(success), SessionLines(id));
    SuccessRead(NOTHING_READ, success);
    SessionRead(Parsing("", success, "", [], false), id);
  }

  /** What the reader has after the whole summary, up to the lines of the text. */
  lemma {:induction false} SummaryRead(success: Option<bool>, id: string, t: string)
    requires Trimmed(id) && t != ""
    ensures ReadLines(NOTHING_READ, SuccessLines(success) + SessionLines(id) + OutputLines(t)) ==
            ReadLines(Parsing("", success, id, [], true), Split(t))
  {
    hide SuccessLines, SessionLines, ReadLine, Split;
    var p := Parsing("", success, id, [], false);
    ReadConcat(NOTHING_READ, SuccessLines(success) + SessionLines(id), OutputLines(t));
    FixedLinesRead(success, id);
    ReadConcat(p, ["Output:"], Split(t));
    ReadOne(p, "Output:");
    OutputStarts(p);
  }

  // The whole summary.

  function ContentLines(success: Option<bool>, id: string, t: string): seq<string> {
    SuccessLines(success) + SessionLines(id) + OutputLines(t)
  }

  lemma {:induction false} ContentUnbroken(success: Option<bool>, id: string, t: string)
    requires '\n' !in id
    ensures forall k :: k in ContentLines(success, id, t) ==> '\n' !in k
  {
    JoinSplit(t);
    assert '\n' !in "Session ID: " + id;
    assert '\n' !in "Success: " + TrueOrFalse(success.GetOr(true));
  }

  /** A summary is trimmed and starts as the reader wants it. */
  lemma {:induction false} FormatRecognised(callID: string, success: Option<bool>, text: string, sessionID: string)
    requires Present(callID, success, text, sessionID)
    ensures var f := Format(callID, success, text, sessionID);
            Trimmed(f) && HasPrefix(Lower(f), "tool result")
  {
    hide TrimSpace, Lower;
    var t, id := TrimSpace(text), TrimSpace(sessionID);
    var f := Format(callID, success, text, sessionID);
    assert f[..11] == "Tool result";
    StartRecognised(f);
    LastChar(callID, success, t, id, f);
    TrimSpaceTrims(text);
    TrimSpaceTrims(sessionID);
    assert !IsSpace('T') && !IsSpace('e') && !IsSpace(')');
  }

  lemma {:induction false} StartRecognised(f: string)
    requires HasPrefix(f, "Tool result")
    ensures HasPrefix(Lower(f), "tool result")
  {
    LowerIs(f[..11], "tool result");
    assert Lower(f)[..11] == Lower(f[..11]);
  }

  lemma {:induction false} TrimSpaceTrims(s: string)
    ensures Trimmed(TrimSpace(s))
  {
  }

  lemma {:induction false} LastChar(callID: string, success: Option<bool>, t: string, id: string, f: string)
    requires callID != "" || success.Some? || t != "" || id != ""
    requires f == "Tool result"
                  + (if callID != "" then " (call_id=" + callID + ")" else "")
                  + (if success.Some? then "\nSuccess: " + TrueOrFalse(success.value) else "")
                  + (if id != "" then "\nSession ID: " + id else "")
                  + (if t != "" then "\nOutput:\n" + t else "")
    ensures f[|f| - 1] == if t != "" then t[|t| - 1] else if id != "" then id[|id| - 1]
                          else if success.Some? then 'e' else ')'
  {
  }

  /** With a readable call id and a one-line session id, the reader sees the header and the lines. */
  lemma {:induction false} ParseIsLines(callID: string, success: Option<bool>, text: string, sessionID: string)
    requires Present(callID, success, text, sessionID)
    requires ReadableCallID(callID) && '\n' !in TrimSpace(sessionID)
    ensures Parse(Format(callID, success, text, sessionID)) ==
            Finish(callID, ReadLines(NOTHING_READ, ContentLines(success, TrimSpace(sessionID), TrimSpace(text))))
  {
    hide TrimSpace, Lower, Format, CallIDFrom, Split, ReadLines, Finish, SuccessLines, SessionLines, OutputLines;
    var t, id := TrimSpace(text), TrimSpace(sessionID);
    var f, lines := Format(callID, success, text, sessionID), ContentLines(success, id, t);
    FormatRecognised(callID, success, text, sessionID);
    FormatIsLines(callID, success, text, sessionID);
    ContentUnbroken(success, id, t);
    HeaderRead(callID);
    SplitBroken(Header(callID), lines);
    assert ([Header(callID)] + lines)[1..] == lines;
  }

  /** If the text has no header line, everything comes back. */
  lemma {:induction false} ReadsBack(callID: string, success: Option<bool>, text: string, sessionID: string)
    requires Present(callID, success, text, sessionID)
    requires ReadableCallID(callID) && '\n' !in TrimSpace(sessionID) && NoHeaderLines(Split(TrimSpace(text)))
    ensures Parse(Format(callID, success, text, sessionID)) ==
            Some(Details(callID, "", success, TrimSpace(sessionID), TrimSpace(text)))
  {
    hide TrimSpace, Format, Split, ReadLine, SuccessLines, SessionLines, NoHeaderLines, Parse;
    var t, id := TrimSpace(text), TrimSpace(sessionID);
    TrimSpaceTrims(text);
    TrimSpaceTrims(sessionID);
    ParseIsLines(callID, success, text, sessionID);
    if t == "" {
      assert ContentLines(success, id, t) == SuccessLines(success) + SessionLines(id);
      FixedLinesRead(success, id);
      TrimOfTrimmed("");
    } else {
      SummaryRead(success, id, t);
      PlainLinesRead(Parsing("", success, id, [], true), Split(t));
      assert [] + Split(t) == Split(t);
      JoinSplit(t);
      TrimOfTrimmed(t);
    }
  }

  lemma {:induction false} TrimOfTrimmed(s: string)
    requires Trimmed(s)
    ensures TrimSpace(s) == s
  {
  }

  // What is lost otherwise.

  /** The characters that are not white space. */
  function Inked(s: string): nat {
    if s == "" then 0 else Inked(s[..|s| - 1]) + if IsSpace(s[|s| - 1]) then 0 else 1
  }

  function InkedLines(lines: seq<string>): nat {
    if lines == [] then 0 else InkedLines(lines[..|lines| - 1]) + Inked(lines[|lines| - 1])
  }

  lemma {:induction false} InkedConcat(a: string, b: string)
    ensures Inked(a + b) == Inked(a) + Inked(b)
  {
    if b == "" {
      assert a + b == a;
    } else {
      assert (a + b)[..|a + b| - 1] == a + b[..|b| - 1];
      InkedConcat(a, b[..|b| - 1]);
    }
  }

  lemma {:induction false} InkedBlank(s: string)
    requires Blank(s)
    ensures Inked(s) == 0
  {
    if s != "" {
      InkedBlank(s[..|s| - 1]);
    }
  }

  lemma {:induction false} InkedTrim(s: string)
    ensures Inked(TrimSpace(s)) == Inked(s)
  {
    hide IsSpace, TrimLeft, TrimRight, Inked;
    var l := TrimLeft(s);
    var r := TrimRight(l);
    InkedBlank(s[..|s| - |l|]);
    InkedConcat(s[..|s| - |l|], l);
    assert s == s[..|s| - |l|] + l;
    InkedBlank(l[|r|..]);
    InkedConcat(r, l[|r|..]);
    assert l == r + l[|r|..];
  }

  lemma {:induction false} InkedLinesConcat(a: seq<string>, b: seq<string>)
    ensures InkedLines(a + b) == InkedLines(a) + InkedLines(b)
  {
    if b == [] {
      assert a + b == a;
    } else {
      assert (a + b)[..|a + b| - 1] == a + b[..|b| - 1];
      InkedLinesConcat(a, b[..|b| - 1]);
    }
  }

  lemma {:induction false} InkedJoin(lines: seq<string>)
    ensures Inked(JoinLines(lines)) == InkedLines(lines)
  {
    if |lines| == 1 {
      assert lines[..0] == [];
    } else if |lines| > 1 {
      InkedJoin(lines[1..]);
      InkedConcat(lines[0] + "\n", JoinLines(lines[1..]));
      InkedConcat(lines[0], "\n");
      InkedBlank("\n");
      InkedLinesConcat([lines[0]], lines[1..]);
      assert [lines[0]] + lines[1..] == lines && [lines[0]][..0] == [];
    }
  }

  /** A header line loses at least one visible character on its way into the output. */
  lemma {:induction false} HeaderLineLoses(p: Parsing, line: string)
    requires p.outputStarted
    ensures var q := ReadLine(p, line);
            && q.outputStarted
            && InkedLines(q.outputLines) <= InkedLines(p.outputLines) + Inked(line)
            && (IsHeaderLine(line) ==> InkedLines(q.outputLines) < InkedLines(p.outputLines) + Inked(line))
  {
    if IsHeaderLine(line) {
      HeaderLineCost(p, line);
    } else {
      PlainLine(p, line);
      InkedLinesConcat(p.outputLines, [line]);
      assert [line][..0] == [];
    }
  }

  lemma {:induction false} HeaderLineCost(p: Parsing, line: string)
    requires p.outputStarted && IsHeaderLine(line)
    ensures var q := ReadLine(p, line);
            q.outputStarted && InkedLines(q.outputLines) < InkedLines(p.outputLines) + Inked(line)
  {
    hide IsSpace, TrimSpace, LowerChar, Atoi, Lower;
    var l := TrimSpace(line);
    InkedTrim(line);
    TitleInk(l);
    if IsHeader(l, "output:") {
      assert |l| >= 7;
      InkedConcat(l[..7], l[7..]);
      assert l == l[..7] + l[7..];
      InkedFirst(l[..7]);
      InkedTrim(l[7..]);
      var remainder := After(l, "output:");
      InkedLinesConcat(p.outputLines, [remainder]);
      assert [remainder][..0] == [] && InkedLines([remainder]) == Inked(remainder);
      InkedBlank("");
      assert p.outputLines + [] == p.outputLines;
    }
    OnlyOutputAppends(p, line);
  }

  lemma {:induction false} OnlyOutputAppends(p: Parsing, line: string)
    requires p.outputStarted && IsHeaderLine(line)
    ensures var l, q := TrimSpace(line), ReadLine(p, line);
            && q.outputStarted
            && (q.outputLines == p.outputLines
                || (IsHeader(l, "output:") && q.outputLines == p.outputLines + if After(l, "output:") == "" then []
                   else [After(l, "output:")]))
  {
    hide TrimSpace, Atoi, Lower, After;
  }

  /** A line that starts with a header word has a visible first character. */
  lemma {:induction false} TitleInk(l: string)
    requires IsTitled(l)
    ensures l != "" && !IsSpace(l[0]) && Inked(l) > 0
  {
    TitleLetter(l);
    assert Lower(l)[0] == LowerChar(l[0]);
    InkedFirst(l);
  }

  lemma {:induction false} TitleLetter(l: string)
    requires IsTitled(l)
    ensures l != "" && Lower(l)[0] in {'c', 's', 'e', 'o'}
  {
  }

  lemma {:induction false} InkedFirst(s: string)
    requires s != "" && !IsSpace(s[0])
    ensures Inked(s) > 0
  {
    if |s| > 1 {
      InkedFirst(s[..|s| - 1]);
    }
  }

  /** Reading the lines of the text keeps at most their visible characters, fewer with a header line. */
  lemma {:induction false} LinesLose(p: Parsing, lines: seq<string>)
    requires p.outputStarted
    ensures var q := ReadLines(p, lines);
            && q.outputStarted
            && InkedLines(q.outputLines) <= InkedLines(p.outputLines) + InkedLines(lines)
            && (!NoHeaderLines(lines) ==> InkedLines(q.outputLines) < InkedLines(p.outputLines) + InkedLines(lines))
  {
    hide ReadLine, IsHeaderLine;
    if lines != [] {
      var front, last := lines[..|lines| - 1], lines[|lines| - 1];
      LinesLose(p, front);
      HeaderLineLoses(ReadLines(p, front), last);
      if NoHeaderLines(front) && !IsHeaderLine(last) {
        assert NoHeaderLines(lines);
      }
    }
  }

  /** A header line in the text never comes back as part of the text. */
  lemma {:induction false} HeaderLineLost(callID: string, success: Option<bool>, text: string, sessionID: string)
    requires Present(callID, success, text, sessionID)
    requires ReadableCallID(callID) && '\n' !in TrimSpace(sessionID) && !NoHeaderLines(Split(TrimSpace(text)))
    ensures var d := Parse(Format(callID, success, text, sessionID)); d.Some? ==> d.value.output != TrimSpace(text)
  {
    hide TrimSpace, Format, Split, ReadLine, SuccessLines, SessionLines, NoHeaderLines, Parse, Inked, JoinLines;
    var t, id := TrimSpace(text), TrimSpace(sessionID);
    TrimSpaceTrims(sessionID);
    ParseIsLines(callID, success, text, sessionID);
    if t == "" {
      EmptyHasNoHeader();
    } else {
      SummaryRead(success, id, t);
      var p := Parsing("", success, id, [], true);
      LinesLose(p, Split(t));
      JoinSplit(t);
      InkedJoin(Split(t));
      var q := ReadLines(p, Split(t));
      InkedJoin(q.outputLines);
      InkedTrim(JoinLines(q.outputLines));
    }
  }

  lemma {:induction false} EmptyHasNoHeader()
    ensures NoHeaderLines(Split(""))
  {
    hide IsHeader;
    assert Split("") == [""] && TrimSpace("") == "";
    NoWordInNothing("command:");
    NoWordInNothing("success:");
    NoWordInNothing("session id:");
    NoWordInNothing("exit code:");
    NoWordInNothing("output:");
  }

  lemma {:induction false} NoWordInNothing(word: string)
    requires word != ""
    ensures !IsHeader("", word)
  {
  }

  // What the reader can return at all.

  lemma {:induction false} CallIDShape(header: string, i: nat)
    ensures var id := CallIDFrom(header, i);
            Trimmed(id) && ')' !in id && forall c :: c in id ==> c in header
    decreases |header| - i
  {
    hide SkipRegexSpace, IsSpace;
    if i < |header| {
      if CallIDAt(header, i).Some? {
        var group := CallIDAt(header, i).value;
        GroupShape(header, i);
        TrimSpaceKeeps(group);
        TrimSpaceTrims(group);
      } else {
        CallIDShape(header, i + 1);
      }
    }
  }

  lemma {:induction false} GroupShape(header: string, i: nat)
    requires CallIDAt(header, i).Some?
    ensures var group := CallIDAt(header, i).value; ')' !in group && forall c :: c in group ==> c in header
  {
    var start := SkipRegexSpace(header, i + 1) + |CALL_ID|;
    var k := IndexFrom(header, ")", start);
    forall j | start <= j < k
      ensures header[j] != ')'
    {
      assert !OccursAt(header, ")", j);
      assert header[j..j + 1] == [header[j]];
    }
  }

  lemma {:induction false} TrimSpaceKeeps(s: string)
    ensures forall c :: c in TrimSpace(s) ==> c in s
  {
  }

  lemma {:induction false} SessionShape(p: Parsing, lines: seq<string>)
    requires '\n' !in p.sessionID && forall k :: k in lines ==> '\n' !in k
    ensures '\n' !in ReadLines(p, lines).sessionID
  {
    hide ReadLine;
    if lines != [] {
      SessionShape(p, lines[..|lines| - 1]);
      SessionLine(ReadLines(p, lines[..|lines| - 1]), lines[|lines| - 1]);
    }
  }

  lemma {:induction false} SessionLine(p: Parsing, line: string)
    requires '\n' !in p.sessionID && '\n' !in line
    ensures '\n' !in ReadLine(p, line).sessionID
  {
    hide TrimSpace, Lower, Atoi;
    var l := TrimSpace(line);
    TrimSpaceKeeps(line);
    if IsHeader(l, "session id:") {
      TrimSpaceKeeps(l[11..]);
    }
  }

  /** A call id that comes back is readable, and a session id that comes back is one line. */
  lemma {:induction false} ParseShape(text: string)
    requires Parse(text).Some?
    ensures ReadableCallID(Parse(text).value.callID) && '\n' !in Parse(text).value.sessionID
  {
    hide TrimSpace, Lower, CallIDFrom, ReadLines, Split;
    var lines := Split(TrimSpace(text));
    JoinSplit(TrimSpace(text));
    var header := TrimSpace(lines[0]);
    TrimSpaceKeeps(lines[0]);
    assert lines[0] in lines;
    CallIDShape(header, 0);
    SessionShape(NOTHING_READ, lines[1..]);
  }

  /**
   Reading a written summary gives back the call id, the success flag, the session id and the
   text exactly when there is something to write, the call id is trimmed without a parenthesis
   or a line break, the session id is one line, and no line of the text starts with a header word.
   */
  lemma {:induction false} SummaryRoundTrip(callID: string, success: Option<bool>, text: string, sessionID: string)
    ensures Parse(Format(callID, success, text, sessionID)) ==
            Some(Details(callID, "", success, TrimSpace(sessionID), TrimSpace(text)))
            <==>
            && Present(callID, success, text, sessionID)
            && ReadableCallID(callID) && '\n' !in TrimSpace(sessionID) && NoHeaderLines(Split(TrimSpace(text)))
  {
    hide TrimSpace, NoHeaderLines, Split;
    var f := Format(callID, success, text, sessionID);
    if !Present(callID, success, text, sessionID) {
      assert f == "";
      NothingWritten();
    } else {
      hide Format, Parse, Present, ReadableCallID;
      if Parse(f).Some? {
        ParseShape(f);
      }
      if ReadableCallID(callID) && '\n' !in TrimSpace(sessionID) {
        if NoHeaderLines(Split(TrimSpace(text))) {
          ReadsBack(callID, success, text, sessionID);
        } else {
          HeaderLineLost(callID, success, text, sessionID);
        }
      }
    }
  }

  lemma {:induction false} NothingWritten()
    ensures Parse("") == None
  {
  }
}
