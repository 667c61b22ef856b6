/** Reading summaries that others have written: any header lines, in any order, in front of the output. */
module ToolSummaryReading {
  import opened Text
  import opened ToolSummary
  import opened ToolSummaryRoundTrip

  // Numbers.

  function DecimalText(n: nat): (s: string)
    ensures IsDigits(s)
  {
    var digit := ['0' + (n % 10) as char];
    if n < 10 then digit else DecimalText(n / 10) + digit
  }

  function IntText(n: int): string {
    if n < 0 then "-" + DecimalText(-n) else DecimalText(n)
  }

  lemma {:induction false} DecimalRead(n: nat)
    ensures Decimal(DecimalText(n)) == n
  {
    var s := DecimalText(n);
    if n >= 10 {
      DecimalRead(n / 10);
      assert s[..|s| - 1] == DecimalText(n / 10);
    } else {
      assert s[..0] == "";
    }
  }

  predicate Fits(n: int) {
    -0x8000_0000_0000_0000 <= n < 0x8000_0000_0000_0000
  }

  /** A number is read back from its decimal text exactly if it fits 64 bits. */
  lemma {:induction false} AtoiRead(n: int)
    ensures Atoi(IntText(n)) == if Fits(n) then Some(n) else None
  {
    hide Decimal, DecimalText;
    var s := IntText(n);
    if n < 0 {
      DecimalRead(-n);
      assert s[1..] == DecimalText(-n);
    } else {
      DecimalRead(n);
      assert s[0] !in {'+', '-'};
    }
  }

  // Header lines.

  /** One header line with its value. */
  datatype Field = Command(command: string) | Success(value: string) | Session(id: string) | ExitCode(code: int)

  function FieldLine(f: Field): string {
    match f
    case Command(c) => "Command:" + " " + c
    case Success(v) => "Success:" + " " + v
    case Session(id) => "Session ID:" + " " + id
    case ExitCode(n) => "Exit code:" + " " + IntText(n)
  }

  /** The value is not empty, has no white space at its ends and is one line. */
  predicate OneLine(f: Field) {
    match f
    case Command(c) => c != "" && Trimmed(c) && '\n' !in c
    case Success(v) => v != "" && Trimmed(v) && '\n' !in v
    case Session(id) => id != "" && Trimmed(id) && '\n' !in id
    case ExitCode(_) => true
  }

  predicate OneLines(fields: seq<Field>) {
    forall k :: 0 <= k < |fields| ==> OneLine(fields[k])
  }

  function FieldLines(fields: seq<Field>): (lines: seq<string>)
    ensures |lines| == |fields| && forall k :: 0 <= k < |fields| ==> lines[k] == FieldLine(fields[k])
  {
    seq(|fields|, k requires 0 <= k < |fields| => FieldLine(fields[k]))
  }

  // What they say: the last line of a kind wins, and of those for the success and the exit code the last that counts.

  function LastCommand(fields: seq<Field>): string {
    if fields == [] then ""
    else if fields[|fields| - 1].Command? then fields[|fields| - 1].command
    else LastCommand(fields[..|fields| - 1])
  }

  function LastSession(fields: seq<Field>): string {
    if fields == [] then ""
    else if fields[|fields| - 1].Session? then fields[|fields| - 1].id
    else LastSession(fields[..|fields| - 1])
  }

  predicate SaysTrue(value: string) {
    |value| == 4 && value[0] in {'t', 'T'} && value[1] in {'r', 'R'} && value[2] in {'u', 'U'} && value[3] in {'e', 'E'}
  }

  /** An exit code of zero is a success; one that does not fit is ignored. */
  function LastSuccess(fields: seq<Field>): Option<bool> {
    if fields == [] then None
    else
      match fields[|fields| - 1]
      case Success(v) => Some(SaysTrue(v))
      case ExitCode(n) => if Fits(n) then Some(n == 0) else LastSuccess(fields[..|fields| - 1])
      case _ => LastSuccess(fields[..|fields| - 1])
  }

  lemma {:induction false} SaysTrueLower(value: string)
    ensures SaysTrue(value) <==> Lower(value) == "true"
  {
  }

  lemma {:induction false} Words()
    ensures Lower("Command:") == "command:" && Lower("Exit code:") == "exit code:"
  {
    hide Lower;
    LowerIs("Command:", "command:");
    LowerIs("Exit code:", "exit code:");
  }

  lemma {:induction false} FieldTrimmed(title: string, value: string)
    requires title != "" && 'A' <= title[0] <= 'Z' && value != "" && Trimmed(value)
    ensures TrimSpace(title + " " + value) == title + " " + value && TrimSpace(value) == value
  {
    hide TrimSpace;
    var line := title + " " + value;
    assert line[|line| - 1] == value[|value| - 1];
    CapitalTrimmed(line);
    TrimOfTrimmed(value);
  }

  lemma {:induction false} CommandLine(p: Parsing, c: string)
    requires OneLine(Command(c))
    ensures ReadLine(p, FieldLine(Command(c))) == p.(command := c)
  {
    hide Lower, TrimSpace, IsHeader, ToolSummary.After, Atoi;
    Words();
    FieldTrimmed("Command:", c);
    TitleLine("Command:", "command:", c);
  }

  lemma {:induction false} SuccessLine(p: Parsing, v: string)
    requires OneLine(Success(v))
    ensures ReadLine(p, FieldLine(Success(v))) == p.(success := Some(SaysTrue(v)))
  {
    hide Lower, TrimSpace, IsHeader, ToolSummary.After, Atoi;
    LowerWords("");
    FieldTrimmed("Success:", v);
    TitleLine("Success:", "success:", v);
    NotHeader(FieldLine(Success(v)), "command:", 0);
    SaysTrueLower(v);
  }

  lemma {:induction false} SessionIDLine(p: Parsing, id: string)
    requires OneLine(Session(id))
    ensures ReadLine(p, FieldLine(Session(id))) == p.(sessionID := id)
  {
    hide Lower, TrimSpace, IsHeader, ToolSummary.After, Atoi;
    LowerWords("");
    FieldTrimmed("Session ID:", id);
    TitleLine("Session ID:", "session id:", id);
    NotHeader(FieldLine(Session(id)), "command:", 0);
    NotHeader(FieldLine(Session(id)), "success:", 1);
  }

  lemma {:induction false} ExitLine(p: Parsing, n: int)
    ensures ReadLine(p, FieldLine(ExitCode(n))) == if Fits(n) then p.(success := Some(n == 0)) else p
  {
    hide Lower, TrimSpace, IsHeader, ToolSummary.After, Atoi, DecimalText;
    Words();
    NumberTrimmed(n);
    var line := FieldLine(ExitCode(n));
    FieldTrimmed("Exit code:", IntText(n));
    TitleLine("Exit code:", "exit code:", IntText(n));
    NotHeader(line, "command:", 0);
    NotHeader(line, "success:", 0);
    NotHeader(line, "session id:", 0);
    AtoiRead(n);
  }

  lemma {:induction false} NumberTrimmed(n: int)
    ensures IntText(n) != "" && Trimmed(IntText(n)) && '\n' !in IntText(n)
  {
    hide DecimalText;
  }

  /** The header lines in front of the output. */
  lemma {:induction false} FieldsRead(fields: seq<Field>)
    requires OneLines(fields)
    ensures ReadLines(NOTHING_READ, FieldLines(fields)) ==
            Parsing(LastCommand(fields), LastSuccess(fields), LastSession(fields), [], false)
  {
    hide ReadLine, FieldLine, OneLine;
    if fields != [] {
      var front, last := fields[..|fields| - 1], fields[|fields| - 1];
      FieldsRead(front);
      assert FieldLines(fields)[..|fields| - 1] == FieldLines(front);
      var p := Parsing(LastCommand(front), LastSuccess(front), LastSession(front), [], false);
      match last {
        case Command(c) => CommandLine(p, c);
        case Success(v) => SuccessLine(p, v);
        case Session(id) => SessionIDLine(p, id);
        case ExitCode(n) => ExitLine(p, n);
      }
    }
  }

  function Summary(callID: string, fields: seq<Field>, text: string): string {
    Header(callID) + Broken(FieldLines(fields) + OutputLines(text))
  }

  /**
   A summary with any one-line fields in any order and a text without header lines is read as its
   call id, the last command and session it names, the text, and the success that its last success
   line or exit code says, whichever of them comes later.
   */
  lemma {:induction false} SummaryRead(callID: string, fields: seq<Field>, text: string)
    requires callID != "" || fields != [] || text != ""
    requires ReadableCallID(callID) && OneLines(fields) && Trimmed(text) && NoHeaderLines(Split(text))
    ensures var details := Details(callID, LastCommand(fields), LastSuccess(fields), LastSession(fields), text);
            Parse(Summary(callID, fields, text))
            == if details == Details("", "", None, "", "") then None else Some(details)
  {
    hide TrimSpace, Lower, CallIDFrom, Split, ReadLines, Finish, Broken, OneLine, FieldLine, NoHeaderLines, OutputLines,
      LastCommand, LastSuccess, LastSession;
    var lines := FieldLines(fields) + OutputLines(text);
    SummaryTrimmed(callID, fields, text);
    LinesUnbroken(fields, text);
    HeaderRead(callID);
    SplitBroken(Header(callID), lines);
    assert ([Header(callID)] + lines)[1..] == lines;
    TrimOfTrimmed(Header(callID));
    TrimOfTrimmed(Summary(callID, fields, text));
    AllRead(fields, text);
    FinishRead(callID, Parsing(LastCommand(fields), LastSuccess(fields), LastSession(fields),
                               if text == "" then [] else Split(text), text != ""), text);
  }

  /** The output may start on its header line. */
  lemma {:induction false} InlineOutput(p: Parsing, first: string, rest: seq<string>)
    requires first != "" && Trimmed(first) && NoHeaderLines(rest)
    ensures ReadLines(p, ["Output:" + " " + first] + rest) ==
            p.(outputLines := p.outputLines + [first] + rest, outputStarted := true)
  {
    hide ReadLine, NoHeaderLines;
    var line := "Output:" + " " + first;
    ReadConcat(p, [line], rest);
    ReadOne(p, line);
    InlineLine(p, first);
    PlainLinesRead(p.(outputLines := p.outputLines + [first], outputStarted := true), rest);
  }

  lemma {:induction false} InlineLine(p: Parsing, first: string)
    requires first != "" && Trimmed(first)
    ensures ReadLine(p, "Output:" + " " + first) ==
            p.(outputLines := p.outputLines + [first], outputStarted := true)
  {
    hide Lower, TrimSpace, IsHeader, ToolSummary.After, Atoi;
    var line := "Output:" + " " + first;
    LowerWords("");
    FieldTrimmed("Output:", first);
    TitleLine("Output:", "output:", first);
    NotHeader(line, "command:", 0);
    NotHeader(line, "success:", 0);
    NotHeader(line, "session id:", 0);
    NotHeader(line, "exit code:", 0);
  }

  /** Blank lines count only once the output has started. */
  lemma {:induction false} BlankLine(p: Parsing, line: string)
    requires Blank(line)
    ensures ReadLine(p, line) == if p.outputStarted then p.(outputLines := p.outputLines + [line]) else p
  {
    hide TrimSpace, Lower, Atoi, IsHeader;
    TrimSpaceEmpty(line);
    EmptyIsNoHeader();
  }

  lemma {:induction false} EmptyIsNoHeader()
    ensures !IsTitled("")
  {
    hide IsHeader;
    NoWordInNothing("command:");
    NoWordInNothing("success:");
    NoWordInNothing("session id:");
    NoWordInNothing("exit code:");
    NoWordInNothing("output:");
  }

  lemma {:induction false} FinishRead(callID: string, p: Parsing, text: string)
    requires Trimmed(text) && p.outputLines == if text == "" then [] else Split(text)
    ensures Finish(callID, p) ==
            var details := Details(callID, p.command, p.success, p.sessionID, text);
            if details == Details("", "", None, "", "") then None else Some(details)
  {
    hide TrimSpace, Split;
    JoinSplit(text);
    TrimOfTrimmed(text);
  }

  lemma {:induction false} AllRead(fields: seq<Field>, text: string)
    requires OneLines(fields) && NoHeaderLines(Split(text))
    ensures ReadLines(NOTHING_READ, FieldLines(fields) + OutputLines(text)) ==
            Parsing(LastCommand(fields), LastSuccess(fields), LastSession(fields),
                    if text == "" then [] else Split(text), text != "")
  {
    hide ReadLine, Split, OneLine, FieldLine, NoHeaderLines, LastCommand, LastSuccess, LastSession;
    var p := Parsing(LastCommand(fields), LastSuccess(fields), LastSession(fields), [], false);
    FieldsRead(fields);
    ReadConcat(NOTHING_READ, FieldLines(fields), OutputLines(text));
    if text != "" {
      ReadConcat(p, ["Output:"], Split(text));
      ReadOne(p, "Output:");
      OutputStarts(p);
      PlainLinesRead(p.(outputStarted := true), Split(text));
      assert [] + Split(text) == Split(text);
    }
  }

  lemma {:induction false} LineUnbroken(f: Field)
    requires OneLine(f)
    ensures '\n' !in FieldLine(f) && FieldLine(f) != "" && !IsSpace(FieldLine(f)[|FieldLine(f)| - 1])
  {
    hide DecimalText;
    if f.ExitCode? {
      NumberTrimmed(f.code);
    }
  }

  lemma {:induction false} LinesUnbroken(fields: seq<Field>, text: string)
    requires OneLines(fields)
    ensures forall k :: k in FieldLines(fields) + OutputLines(text) ==> '\n' !in k
  {
    hide OneLine, FieldLine, Split;
    JoinSplit(text);
    forall k | 0 <= k < |fields|
      ensures '\n' !in FieldLine(fields[k])
    {
      LineUnbroken(fields[k]);
    }
  }

  lemma {:induction false} SummaryTrimmed(callID: string, fields: seq<Field>, text: string)
    requires ReadableCallID(callID) && OneLines(fields) && Trimmed(text)
    ensures var s := Summary(callID, fields, text); Trimmed(s) && HasPrefix(Lower(s), "tool result")
  {
    hide Broken, OneLine, FieldLine, Lower, OutputLines;
    var s, a, b := Summary(callID, fields, text), FieldLines(fields), OutputLines(text);
    assert s[..11] == "Tool result";
    StartRecognised(s);
    BrokenConcat(a, b);
    OutputBroken(text);
    if text != "" {
      assert s[|s| - 1] == text[|text| - 1];
    } else if fields != [] {
      BrokenConcat(a[..|a| - 1], a[|a| - 1..]);
      OneBroken(a[|a| - 1]);
      assert a == a[..|a| - 1] + a[|a| - 1..] && a[|a| - 1..] == [a[|a| - 1]];
      LineUnbroken(fields[|fields| - 1]);
      assert s[|s| - 1] == a[|a| - 1][|a[|a| - 1]| - 1];
    } else {
      NothingBroken();
      HeaderRead(callID);
    }
  }

  lemma {:induction false} NothingBroken()
    ensures Broken([]) == ""
  {
  }
}
