/** The repair of AI_ACTIONS payloads that lost closing brackets. */
module JsonRepair {
  import opened Text
  import opened JsonScan

  /** The length of the text without its trailing JSON white space. */
  function TrimmedLength(s: string): (n: nat)
    ensures n <= |s| && JSONBlank(s[n..]) && (n > 0 ==> !IsJSONSpace(s[n - 1]))
  {
    if s == "" || !IsJSONSpace(s[|s| - 1]) then |s| else TrimmedLength(s[..|s| - 1])
  }

  function Splice(s: string, i: nat, c: char, n: nat): string
    requires i <= |s|
  {
    s[..i] + Repeat(c, n) + s[i..]
  }

  /** Whether the text ends, after white space, in a brace outside strings with array closers missing. */
  predicate LacksArrayClosers(s: string) {
    var l, n := ClampedFrom(START, s), TrimmedLength(s);
    !l.inString && l.square > 0 && n > 0 && s[n - 1] == '}'
  }

  /** `insertMissingArrayClosers`. */
  function InsertArrayClosers(s: string): string {
    if LacksArrayClosers(s) then Splice(s, TrimmedLength(s) - 1, ']', ClampedFrom(START, s).square) else s
  }

  /** Whether the last bracket closes an array inside more than one open object. */
  predicate LacksObjectClosers(s: string) {
    var at := LastIndex(s, "]");
    at >= 0 && var l := ClampedFrom(START, s[..at]); !l.inString && l.curly > 1
  }

  function InsertObjectClosers(s: string): string {
    if LacksObjectClosers(s) then
      var at := LastIndex(s, "]");
      Splice(s, at, '}', ClampedFrom(START, s[..at]).curly - 1)
    else s
  }

  /** `repairAIActionsJSON`. */
  function Repair(s: string): string {
    InsertObjectClosers(InsertArrayClosers(s))
  }

  method ScanTrailingJSONClosers(text: string) returns (squareDepth: int, insertAt: nat, ok: bool)
    ensures ok == LacksArrayClosers(text)
    ensures ok ==> insertAt == TrimmedLength(text) - 1 && squareDepth == ClampedFrom(START, text).square
  {
    var l := START;
    for i := 0 to |text|
      invariant l == ClampedFrom(START, text[..i])
    {
      assert text[..i + 1][..i] == text[..i];
      l := Clamped(l, text[i]);
    }
    assert text[..|text|] == text;
    squareDepth, insertAt, ok := l.square, 0, false;
    if l.inString || squareDepth <= 0 {
      return;
    }
    insertAt := |text|;
    while insertAt > 0 && IsJSONSpace(text[insertAt - 1])
      invariant insertAt <= |text| && TrimmedLength(text[..insertAt]) == TrimmedLength(text)
    {
      assert text[..insertAt][..insertAt - 1] == text[..insertAt - 1];
      insertAt := insertAt - 1;
    }
    if insertAt == 0 || text[insertAt - 1] != '}' {
      return;
    }
    insertAt, ok := insertAt - 1, true;
  }

  method InsertMissingArrayClosers(text: string) returns (repaired: string)
    ensures repaired == InsertArrayClosers(text)
  {
    hide LacksArrayClosers, ClampedFrom, TrimmedLength;
    var squareDepth, insertAt, ok := ScanTrailingJSONClosers(text);
    if !ok || squareDepth <= 0 {
      return text;
    }
    repaired := text[..insertAt] + Repeat(']', squareDepth) + text[insertAt..];
  }

  method RepairAIActionsJSON(text: string) returns (repaired: string)
    ensures repaired == Repair(text)
  {
    hide InsertArrayClosers, Clamped, LastIndex;
    repaired := InsertMissingArrayClosers(text);
    var arrayClose := LastIndex(repaired, "]");
    if arrayClose < 0 {
      return;
    }
    var l := START;
    for i := 0 to arrayClose
      invariant l == ClampedFrom(START, repaired[..i])
    {
      assert repaired[..i + 1][..i] == repaired[..i];
      l := Clamped(l, repaired[i]);
    }
    if l.inString || l.curly <= 1 {
      return;
    }
    repaired := repaired[..arrayClose] + Repeat('}', l.curly - 1) + repaired[arrayClose..];
  }
}
