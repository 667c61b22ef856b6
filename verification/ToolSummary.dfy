/** The text summary of a tool result: how it is written, and how it is read back. */
module ToolSummary {
  import opened Text

  // Lines.

  function Split(s: string): (lines: seq<string>)
    ensures lines != []
  {
    if s == "" then [""]
    else if s[0] == '\n' then [""] + Split(s[1..])
    else var rest := Split(s[1..]); [[s[0]] + rest[0]] + rest[1..]
  }

  function JoinLines(lines: seq<string>): string {
    if lines == [] then ""
    else if |lines| == 1 then lines[0]
    else lines[0] + "\n" + JoinLines(lines[1..])
  }

  lemma {:induction false} JoinSplit(s: string)
    ensures JoinLines(Split(s)) == s
    ensures forall k :: k in Split(s) ==> '\n' !in k
  {
    if s != "" {
      JoinSplit(s[1..]);
      JoinOneMore(s[0], Split(s[1..]));
      assert [s[0]] + s[1..] == s;
    }
  }

  /** One more character in front of lines: a break starts a new line, another character extends the first. */
  lemma {:induction false} JoinOneMore(c: char, lines: seq<string>)
    requires lines != [] && forall k :: k in lines ==> '\n' !in k
    ensures JoinLines([""] + lines) == "\n" + JoinLines(lines)
    ensures c != '\n' ==> var more := [[c] + lines[0]] + lines[1..];
                           JoinLines(more) == [c] + JoinLines(lines) && forall k :: k in more ==> '\n' !in k
  {
  }

  lemma {:induction false} SplitOneLine(s: string)
    requires '\n' !in s
    ensures Split(s) == [s]
  {
    if s != "" {
      SplitOneLine(s[1..]);
      assert [s[0]] + s[1..] == s;
    }
  }

  lemma {:induction false} SplitAtBreak(a: string, b: string)
    requires '\n' !in a
    ensures Split(a + "\n" + b) == [a] + Split(b)
  {
    if a == "" {
      assert (a + "\n" + b)[1..] == b;
    } else {
      assert (a + "\n" + b)[1..] == a[1..] + "\n" + b;
      SplitAtBreak(a[1..], b);
      assert [a[0]] + a[1..] == a;
      assert ([a[1..]] + Split(b))[1..] == Split(b);
    }
  }

  // Writing.

  function TrueOrFalse(b: bool): string {
    if b then "true" else "false"
  }

  /** `formatToolOutputSummary`. */
  function Format(callID: string, success: Option<bool>, text: string, sessionID: string): string {
    var t, id := TrimSpace(text), TrimSpace(sessionID);
    if callID == "" && success == None && t == "" && id == "" then ""
    else
      "Tool result"
      + (if callID != "" then " (call_id=" + callID + ")" else "")
      + (if success.Some? then "\nSuccess: " + TrueOrFalse(success.value) else "")
      + (if id != "" then "\nSession ID: " + id else "")
      + (if t != "" then "\nOutput:\n" + t else "")
  }

  // Reading.

  datatype Details = Details(callID: string, command: string, success: Option<bool>, sessionID: string, output: string)

  /** The white space of a regular expression's `\s`. */
  predicate IsRegexSpace(c: char) {
    c in {'\t', '\n', '\U{0C}', '\r', ' '}
  }

  function SkipRegexSpace(s: string, i: nat): (j: nat)
    requires i <= |s|
    ensures i <= j <= |s|
    ensures j == |s| || !IsRegexSpace(s[j])
    decreases |s| - i
  {
    if i < |s| && IsRegexSpace(s[i]) then SkipRegexSpace(s, i + 1) else i
  }

  const CALL_ID := "call_id="

  /** The group of `\(\s*call_id=([^)]+)\s*\)` matched at one position. */
  function CallIDAt(header: string, i: nat): Option<string> {
    if i >= |header| || header[i] != '(' then None
    else
      var j := SkipRegexSpace(header, i + 1);
      if !OccursAt(header, CALL_ID, j) then None
      else
        var k := IndexFrom(header, ")", j + |CALL_ID|);
        if k <= j + |CALL_ID| then None else Some(header[j + |CALL_ID|..k])
  }

  /** The group of the leftmost match, trimmed. */
  function CallIDFrom(header: string, i: nat): string
    decreases |header| - i
  {
    if i >= |header| then ""
    else if CallIDAt(header, i).Some? then TrimSpace(CallIDAt(header, i).value)
    else CallIDFrom(header, i + 1)
  }

  predicate IsDigits(s: string) {
    s != "" && forall i :: 0 <= i < |s| ==> '0' <= s[i] <= '9'
  }

  function Decimal(s: string): nat
    requires s == "" || IsDigits(s)
  {
    if s == "" then 0 else 10 * Decimal(s[..|s| - 1]) + (s[|s| - 1] as int - '0' as int)
  }

  /** `strconv.Atoi` on a 64-bit machine. */
  function Atoi(s: string): Option<int> {
    var unsigned := if s != "" && s[0] in {'+', '-'} then s[1..] else s;
    if !IsDigits(unsigned) then None
    else
      var n: int := Decimal(unsigned);
      var v := if s[0] == '-' then -n else n;
      if -0x8000_0000_0000_0000 <= v < 0x8000_0000_0000_0000 then Some(v) else None
  }

  datatype Parsing = Parsing(command: string, success: Option<bool>, sessionID: string, outputLines: seq<string>,
                             outputStarted: bool)

  const NOTHING_READ := Parsing("", None, "", [], false)

  predicate IsHeader(line: string, word: string) {
    HasPrefix(Lower(line), word)
  }

  function After(line: string, word: string): string
    requires |word| <= |line|
  {
    TrimSpace(line[|word|..])
  }

  function ReadLine(p: Parsing, rawLine: string): Parsing {
    var line := TrimSpace(rawLine);
    if line == "" && !p.outputStarted then p
    else if IsHeader(line, "command:") then p.(command := After(line, "command:"))
    else if IsHeader(line, "success:") then
      var value := After(line, "success:");
      if value == "" then p else p.(success := Some(Lower(value) == "true"))
    else if IsHeader(line, "session id:") then p.(sessionID := After(line, "session id:"))
    else if IsHeader(line, "exit code:") then
      var code := Atoi(After(line, "exit code:"));
      if code == None then p else p.(success := Some(code.value == 0))
    else if IsHeader(line, "output:") then
      var remainder := After(line, "output:");
      p.(outputStarted := true, outputLines := p.outputLines + if remainder == "" then [] else [remainder])
    else if p.outputStarted then p.(outputLines := p.outputLines + [rawLine])
    else p
  }

  function ReadLines(p: Parsing, lines: seq<string>): Parsing {
    if lines == [] then p else ReadLine(ReadLines(p, lines[..|lines| - 1]), lines[|lines| - 1])
  }

  function Finish(callID: string, p: Parsing): Option<Details> {
    var output := TrimSpace(JoinLines(p.outputLines));
    if callID == "" && p.command == "" && p.success == None && p.sessionID == "" && output == "" then None
    else Some(Details(callID, p.command, p.success, p.sessionID, output))
  }

  /** What `parseToolResultSummaryDetails` reads from a text. */
  function Parse(text: string): Option<Details> {
    var trimmed := TrimSpace(text);
    if !HasPrefix(Lower(trimmed), "tool result") then None
    else
      var lines := Split(trimmed);
      Finish(CallIDFrom(TrimSpace(lines[0]), 0), ReadLines(NOTHING_READ, lines[1..]))
  }

  method ParseToolResultSummaryDetails(text: string) returns (details: Option<Details>)
    ensures details == Parse(text)
  {
    hide CallIDFrom, TrimSpace, Atoi, Split, JoinLines, Lower;
    var trimmed := TrimSpace(text);
    if trimmed == "" || !HasPrefix(Lower(trimmed), "tool result") {
      return None;
    }
    var lines := Split(trimmed);
    var callID := CallIDFrom(TrimSpace(lines[0]), 0);
    var command, success, sessionID, outputLines, outputStarted := "", None, "", [], false;
    for i := 1 to |lines|
      invariant Parsing(command, success, sessionID, outputLines, outputStarted) == ReadLines(NOTHING_READ, lines[1..i])
    {
      assert lines[1..i + 1][..i - 1] == lines[1..i];
      var rawLine := lines[i];
      var line := TrimSpace(rawLine);
      if line == "" && !outputStarted {
        continue;
      }
      if IsHeader(line, "command:") {
        command := After(line, "command:");
      } else if IsHeader(line, "success:") {
        var value := After(line, "success:");
        if value != "" {
          success := Some(Lower(value) == "true");
        }
      } else if IsHeader(line, "session id:") {
        sessionID := After(line, "session id:");
      } else if IsHeader(line, "exit code:") {
        var code := Atoi(After(line, "exit code:"));
        if code != None {
          success := Some(code.value == 0);
        }
      } else if IsHeader(line, "output:") {
        outputStarted := true;
        var remainder := After(line, "output:");
        if remainder != "" {
          outputLines := outputLines + [remainder];
        }
      } else if outputStarted {
        outputLines := outputLines + [rawLine];
      }
    }
    assert lines[1..|lines|] == lines[1..];
    var output := TrimSpace(JoinLines(outputLines));
    if callID == "" && command == "" && success == None && sessionID == "" && output == "" {
      return None;
    }
    return Some(Details(callID, command, success, sessionID, output));
  }
}
