/**
 The string operations of Go's `strings` package that the proxy uses. A text is a sequence of
 code points, so a position counts code points where Go counts bytes.
 */
module Text {
  datatype Option<+T> = None | Some(value: T) {
    function GetOr(default: T): T {
      match this
      case None => default
      case Some(v) => v
    }
  }

  /** The failure that ends reading an upstream stream, or opening one. */
  datatype StreamError = Canceled | DeadlineExceeded | Failure(message: string)

  predicate OccursAt(s: string, p: string, i: int) {
    0 <= i <= |s| - |p| && s[i..i + |p|] == p
  }

  function IndexFrom(s: string, p: string, start: nat): (i: int)
    ensures i == -1 || (start <= i && OccursAt(s, p, i))
    ensures forall j :: start <= j && (i == -1 || j < i) ==> !OccursAt(s, p, j)
    decreases |s| - start
  {
    if |s| < start + |p| then -1
    else if s[start..start + |p|] == p then start
    else IndexFrom(s, p, start + 1)
  }

  /** `strings.Index`: the first occurrence, or -1. */
  function Index(s: string, p: string): (i: int)
    ensures i == -1 || OccursAt(s, p, i)
    ensures -1 <= i && (i >= 0 ==> i + |p| <= |s|)
    ensures forall j :: 0 <= j && (i == -1 || j < i) ==> !OccursAt(s, p, j)
  {
    IndexFrom(s, p, 0)
  }

  function LastIndexUpTo(s: string, p: string, last: int): (i: int)
    ensures i == -1 || (0 <= i <= last && OccursAt(s, p, i))
    ensures forall j :: i < j <= last ==> !OccursAt(s, p, j)
    decreases last + 1
  {
    if last < 0 then -1
    else if OccursAt(s, p, last) then last
    else LastIndexUpTo(s, p, last - 1)
  }

  /** `strings.LastIndex`: the last occurrence, or -1. */
  function LastIndex(s: string, p: string): (i: int)
    ensures i == -1 || OccursAt(s, p, i)
    ensures forall j :: i < j ==> !OccursAt(s, p, j)
  {
    LastIndexUpTo(s, p, |s|)
  }

  predicate Contains(s: string, p: string) {
    Index(s, p) >= 0
  }

  predicate HasPrefix(s: string, p: string) {
    p <= s
  }

  /** An occurrence inside one half of a concatenation is an occurrence in the whole, and back. */
  lemma {:induction false} OccursInConcat(a: string, b: string, p: string, i: int)
    ensures 0 <= i && i + |p| <= |a| ==> (OccursAt(a + b, p, i) <==> OccursAt(a, p, i))
    ensures |a| <= i ==> (OccursAt(a + b, p, i) <==> OccursAt(b, p, i - |a|))
  {
  }

  /** The white space of `unicode.IsSpace`. */
  predicate IsSpace(c: char) {
    c in {'\t', '\n', '\U{0B}', '\U{0C}', '\r', ' ', '\U{85}', '\U{A0}', '\U{1680}', '\U{2028}', '\U{2029}',
          '\U{202F}', '\U{205F}', '\U{3000}'}
    || '\U{2000}' <= c <= '\U{200A}'
  }

  predicate Blank(s: string) {
    forall i :: 0 <= i < |s| ==> IsSpace(s[i])
  }

  /** No white space at either end. */
  predicate Trimmed(s: string) {
    s == "" || (!IsSpace(s[0]) && !IsSpace(s[|s| - 1]))
  }

  function TrimLeft(s: string): (t: string)
    ensures |t| <= |s| && t == s[|s| - |t|..] && Blank(s[..|s| - |t|])
    ensures t == "" || !IsSpace(t[0])
  {
    if s == "" || !IsSpace(s[0]) then s else TrimLeft(s[1..])
  }

  function TrimRight(s: string): (t: string)
    ensures |t| <= |s| && t == s[..|t|] && Blank(s[|t|..])
    ensures t == "" || !IsSpace(t[|t| - 1])
  {
    if s == "" || !IsSpace(s[|s| - 1]) then s else TrimRight(s[..|s| - 1])
  }

  /** `strings.TrimSpace`. */
  function TrimSpace(s: string): (t: string)
    ensures Trimmed(t)
    ensures |t| <= |s|
    ensures Trimmed(s) ==> t == s
  {
    TrimRight(TrimLeft(s))
  }

  /** What `strings.TrimSpace` removes is white space, and only an all-white text becomes empty. */
  lemma {:induction false} TrimSpaceEmpty(s: string)
    ensures TrimSpace(s) == "" <==> Blank(s)
  {
  }

  /** `unicode.ToLower`, on the characters whose lower case is an ASCII letter. */
  function LowerChar(c: char): char {
    if 'A' <= c <= 'Z' then (c as int + 32) as char
    else if c == '\U{130}' then 'i'
    else if c == '\U{212A}' then 'k'
    else c
  }

  function Lower(s: string): (t: string)
    ensures |t| == |s|
    ensures forall i :: 0 <= i < |s| ==> t[i] == LowerChar(s[i])
  {
    seq(|s|, i requires 0 <= i < |s| => LowerChar(s[i]))
  }

  function Repeat(c: char, n: nat): (t: string)
    ensures |t| == n && forall i :: 0 <= i < n ==> t[i] == c
  {
    seq(n, _ => c)
  }
}
