/**
 Shell quoting of paths and patches, read back by the word splitting and quote removal of the
 POSIX shell: POSIX.1-2017 Shell Command Language sections 2.2.1 to 2.2.3, and the dollar-single
 quotes of POSIX.1-2024 section 2.2.4.
 */
module ShellQuote {
  import opened Text

  /** Where in a command the splitter is, with the word read so far. */
  datatype Mode = Between | Plain(word: string) | Single(word: string) | Double(word: string) | Dollar(word: string)

  predicate IsBlank(c: char) {
    c == ' ' || c == '\t'
  }

  /** Unquoted characters that mean something to the shell: no plain word may contain them. */
  predicate IsSpecial(c: char) {
    c in {'|', '&', ';', '<', '>', '(', ')', '$', '`', '\n', '*', '?', '[', '#', '~', '=', '%'}
  }

  /** The characters that dollar-single quotes write with a backslash and one letter. */
  function DollarEscape(c: char): Option<char> {
    match c
    case '\\' => Some('\\')
    case '\'' => Some('\'')
    case '"' => Some('"')
    case 'n' => Some('\n')
    case 'r' => Some('\r')
    case 't' => Some('\t')
    case _ => None
  }

  /** The words of a simple command, or None if it is not one (an operator, an expansion, an open quote). */
  function Words(s: string, m: Mode): Option<seq<string>>
    decreases |s|, m.Between?
  {
    if s == "" then
      match m
      case Between => Some([])
      case Plain(word) => Some([word])
      case _ => None
    else
      var c, rest := s[0], s[1..];
      match m
      case Between => if IsBlank(c) then Words(rest, Between) else Words(s, Plain(""))
      case Plain(word) =>
        if IsBlank(c) then
          var more := Words(rest, Between);
          if more.None? then None else Some([word] + more.value)
        else if c == '\'' then Words(rest, Single(word))
        else if c == '"' then Words(rest, Double(word))
        else if c == '\\' then
          if rest == "" then None
          else if rest[0] == '\n' then Words(rest[1..], m)
          else Words(rest[1..], Plain(word + [rest[0]]))
        else if c == '$' && rest != "" && rest[0] == '\'' then Words(rest[1..], Dollar(word))
        else if IsSpecial(c) then None
        else Words(rest, Plain(word + [c]))
      case Single(word) =>
        if c == '\'' then Words(rest, Plain(word)) else Words(rest, Single(word + [c]))
      case Double(word) =>
        if c == '"' then Words(rest, Plain(word))
        else if c == '$' || c == '`' then None
        else if c == '\\' && rest != "" && rest[0] in {'$', '`', '"', '\\'}
          then Words(rest[1..], Double(word + [rest[0]]))
        else if c == '\\' && rest != "" && rest[0] == '\n' then Words(rest[1..], m)
        else Words(rest, Double(word + [c]))
      case Dollar(word) =>
        if c == '\'' then Words(rest, Plain(word))
        else if c == '\\' then
          if rest == "" || DollarEscape(rest[0]).None? then None
          else Words(rest[1..], Dollar(word + [DollarEscape(rest[0]).value]))
        else Words(rest, Dollar(word + [c]))
  }

  function EscapeQuotes(text: string): string {
    if text == "" then ""
    else (if text[0] == '\'' then "'\"'\"'" else [text[0]]) + EscapeQuotes(text[1..])
  }

  /** `shellQuoteSingle`. */
  function QuoteSingle(text: string): string {
    "'" + EscapeQuotes(text) + "'"
  }

  function EscapeRune(c: char): string {
    match c
    case '\\' => "\\\\"
    case '\'' => "\\'"
    case '\n' => "\\n"
    case '\r' => "\\r"
    case '\t' => "\\t"
    case _ => [c]
  }

  function EscapeRunes(text: string): string {
    if text == "" then "" else EscapeRune(text[0]) + EscapeRunes(text[1..])
  }

  /** `shellQuoteANSI`. */
  function QuoteANSI(text: string): string {
    "$'" + EscapeRunes(text) + "'"
  }

  /** The loop that builds the quoted text rune by rune. */
  method BuildQuoteANSI(text: string) returns (quoted: string)
    ensures quoted == QuoteANSI(text)
  {
    quoted := "$'";
    var i := 0;
    while i < |text|
      invariant 0 <= i <= |text|
      invariant quoted + EscapeRunes(text[i..]) == "$'" + EscapeRunes(text)
    {
      assert text[i..][1..] == text[i + 1..];
      assert quoted + (EscapeRune(text[i]) + EscapeRunes(text[i + 1..]))
        == quoted + EscapeRune(text[i]) + EscapeRunes(text[i + 1..]);
      quoted := quoted + EscapeRune(text[i]);
      i := i + 1;
    }
    assert quoted + "" == quoted;
    quoted := quoted + "'";
  }

  lemma {:induction false} InsideSingle(text: string, word: string, rest: string)
    ensures Words(EscapeQuotes(text) + "'" + rest, Single(word)) == Words(rest, Plain(word + text))
  {
    var s := EscapeQuotes(text) + "'" + rest;
    if text == "" {
      assert s[1..] == rest && word + text == word;
    } else {
      hide Words;
      var tail := EscapeQuotes(text[1..]) + "'" + rest;
      InsideSingle(text[1..], word + [text[0]], rest);
      assert word + [text[0]] + text[1..] == word + text;
      if text[0] == '\'' {
        assert s == "'\"'\"'" + tail;
        FiveChars(tail, word);
      } else {
        assert s == [text[0]] + tail;
        OneChar(text[0], word, tail);
      }
    }
  }

  lemma {:induction false} OneChar(c: char, word: string, tail: string)
    requires c != '\''
    ensures Words([c] + tail, Single(word)) == Words(tail, Single(word + [c]))
  {
    assert ([c] + tail)[1..] == tail;
  }

  /** Closing the quotes, a quoted quote, and reopening. */
  lemma {:induction false} FiveChars(tail: string, word: string)
    ensures Words("'\"'\"'" + tail, Single(word)) == Words(tail, Single(word + "'"))
  {
    var s := "'\"'\"'" + tail;
    assert s[1..] == "\"'\"'" + tail;
    assert s[1..][1..] == "'\"'" + tail;
    assert s[1..][1..][1..] == "\"'" + tail;
    assert s[1..][1..][1..][1..] == "'" + tail;
    assert s[1..][1..][1..][1..][1..] == tail;
    assert Words("\"'" + tail, Double(word + ['\''])) == Words("'" + tail, Plain(word + ['\'']));
    assert Words("'\"'" + tail, Double(word)) == Words("\"'" + tail, Double(word + ['\'']));
  }

  /** Any text, single-quoted and appended to a word, reads back as itself. */
  lemma {:induction false} SingleQuotedIsLiteral(text: string, word: string, rest: string)
    ensures Words(QuoteSingle(text) + rest, Plain(word)) == Words(rest, Plain(word + text))
  {
    InsideSingle(text, word, rest);
    assert (QuoteSingle(text) + rest)[1..] == EscapeQuotes(text) + "'" + rest;
  }

  lemma {:induction false} InsideDollar(text: string, word: string, rest: string)
    ensures Words(EscapeRunes(text) + "'" + rest, Dollar(word)) == Words(rest, Plain(word + text))
  {
    hide EscapeRune;
    var s := EscapeRunes(text) + "'" + rest;
    if text == "" {
      assert s[1..] == rest && word + text == word;
    } else {
      hide Words;
      var tail := EscapeRunes(text[1..]) + "'" + rest;
      OneRune(text[0], word, tail);
      InsideDollar(text[1..], word + [text[0]], rest);
      assert word + [text[0]] + text[1..] == word + text;
      assert s == EscapeRune(text[0]) + tail;
    }
  }

  lemma {:induction false} OneRune(c: char, word: string, tail: string)
    ensures Words(EscapeRune(c) + tail, Dollar(word)) == Words(tail, Dollar(word + [c]))
  {
    var s := EscapeRune(c) + tail;
    if |EscapeRune(c)| == 2 {
      assert s[1..][0] == EscapeRune(c)[1] && s[1..][1..] == tail;
    } else {
      assert s[1..] == tail;
    }
  }

  /** Any text in dollar-single quotes, appended to a word, reads back as itself. */
  lemma {:induction false} DollarQuotedIsLiteral(text: string, word: string, rest: string)
    ensures Words(QuoteANSI(text) + rest, Plain(word)) == Words(rest, Plain(word + text))
  {
    var s := QuoteANSI(text) + rest;
    InsideDollar(text, word, rest);
    assert s[1..][0] == '\'' && s[1..][1..] == EscapeRunes(text) + "'" + rest;
  }

  /** Both quotings are one shell word with the quoted text as its value. */
  lemma {:induction false} QuotingRoundTrip(text: string)
    ensures Words(QuoteSingle(text), Between) == Some([text])
    ensures Words(QuoteANSI(text), Between) == Some([text])
  {
    SingleQuotedIsLiteral(text, "", "");
    DollarQuotedIsLiteral(text, "", "");
    assert QuoteSingle(text) + "" == QuoteSingle(text) && QuoteANSI(text) + "" == QuoteANSI(text) && "" + text == text;
  }

  function BuildReadFileCommand(path: string): string {
    if HasPrefix(path, "-") then "sed -n '1,200p' -- " + QuoteSingle(path) else "sed -n '1,200p' " + QuoteSingle(path)
  }

  function BuildListFilesCommand(path: string): string {
    "ls -la -- " + QuoteSingle(path)
  }

  predicate IsBare(w: string) {
    w != "" && forall i :: 0 <= i < |w| ==> !IsBlank(w[i]) && !IsSpecial(w[i]) && w[i] !in {'\'', '"', '\\'}
  }

  lemma {:induction false} BareWord(w: string, word: string, rest: string)
    requires IsBare(w) || w == ""
    ensures Words(w + rest, Plain(word)) == Words(rest, Plain(word + w))
    decreases |w|
  {
    if w == "" {
      assert w + rest == rest && word + w == word;
    } else {
      assert (w + rest)[1..] == w[1..] + rest;
      BareWord(w[1..], word + [w[0]], rest);
      assert word + [w[0]] + w[1..] == word + w;
    }
  }

  /** A bare first word, a blank, and the words after it. */
  lemma {:induction false} FirstWord(w: string, rest: string)
    requires IsBare(w)
    ensures Words(w + (" " + rest), Between)
         == if Words(rest, Between).None? then None else Some([w] + Words(rest, Between).value)
  {
    BareWord(w, "", " " + rest);
    assert "" + w == w && (" " + rest)[1..] == rest;
  }

  /** A quoted first word, a blank, and the words after it. */
  lemma {:induction false} FirstQuoted(text: string, rest: string)
    ensures Words(QuoteSingle(text) + (" " + rest), Between)
         == if Words(rest, Between).None? then None else Some([text] + Words(rest, Between).value)
  {
    SingleQuotedIsLiteral(text, "", " " + rest);
    assert "" + text == text && (" " + rest)[1..] == rest;
  }

  /** Whatever the path, the read and list commands split into their fixed words and the path. */
  lemma {:induction false} CommandWords(path: string)
    ensures Words(BuildReadFileCommand(path), Between)
         == Some(if HasPrefix(path, "-") then ["sed", "-n", "1,200p", "--", path] else ["sed", "-n", "1,200p", path])
    ensures Words(BuildListFilesCommand(path), Between) == Some(["ls", "-la", "--", path])
  {
    BareWords();
    hide Words, QuoteSingle, IsBare;
    var q := QuoteSingle(path);
    QuotingRoundTrip(path);
    FirstWord("--", q);
    var dashed := "--" + (" " + q);
    assert ["--"] + [path] == ["--", path];
    ListWords(dashed);
    assert BuildListFilesCommand(path) == "ls -la " + dashed;
    var tail := if HasPrefix(path, "-") then dashed else q;
    SedWords(tail);
    assert BuildReadFileCommand(path) == "sed -n '1,200p' " + tail;
    assert ["sed", "-n", "1,200p"] + ["--", path] == ["sed", "-n", "1,200p", "--", path];
    assert ["sed", "-n", "1,200p"] + [path] == ["sed", "-n", "1,200p", path];
    assert ["ls", "-la"] + ["--", path] == ["ls", "-la", "--", path];
  }

  lemma {:induction false} BareWords()
    ensures IsBare("sed") && IsBare("-n") && IsBare("--") && IsBare("ls") && IsBare("-la")
  {
  }

  lemma {:induction false} ListWords(tail: string)
    requires Words(tail, Between).Some?
    ensures Words("ls -la " + tail, Between) == Some(["ls", "-la"] + Words(tail, Between).value)
  {
    BareWords();
    hide Words, IsBare;
    FirstWord("-la", tail);
    FirstWord("ls", "-la" + (" " + tail));
    assert "ls -la " + tail == "ls" + (" " + ("-la" + (" " + tail)));
    var v := Words(tail, Between).value;
    assert ["ls"] + (["-la"] + v) == ["ls", "-la"] + v;
  }

  lemma {:induction false} SedWords(tail: string)
    requires Words(tail, Between).Some?
    ensures Words("sed -n '1,200p' " + tail, Between) == Some(["sed", "-n", "1,200p"] + Words(tail, Between).value)
  {
    hide Words, QuoteSingle, IsBare, EscapeQuotes;
    BareWords();
    QuotedRange();
    FirstQuoted("1,200p", tail);
    FirstWord("-n", "'1,200p'" + (" " + tail));
    FirstWord("sed", "-n" + (" " + ("'1,200p'" + (" " + tail))));
    var v := Words(tail, Between).value;
    assert ["sed"] + (["-n"] + (["1,200p"] + v)) == ["sed", "-n", "1,200p"] + v;
    assert "sed -n '1,200p' " + tail == "sed" + (" " + ("-n" + (" " + ("'1,200p'" + (" " + tail)))));
  }

  lemma {:induction false} QuotedRange()
    ensures QuoteSingle("1,200p") == "'1,200p'"
  {
    hide EscapeQuotes;
    NothingEscaped("1,200p");
  }

  lemma {:induction false} NothingEscaped(text: string)
    requires '\'' !in text
    ensures EscapeQuotes(text) == text
  {
    if text != "" {
      NothingEscaped(text[1..]);
    }
  }
}
