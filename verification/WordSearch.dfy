/**
 The keyword search of task_intent.go: after a rejected hit it skips a whole keyword length, and
 the find-all loop searches slices of the text. Both find exactly what a naive search would.
 */
module WordSearch {
  import opened Text

  predicate IsWordChar(c: char) {
    'a' <= c <= 'z' || '0' <= c <= '9' || c == '_'
  }

  predicate IsWordKeyword(keyword: string) {
    forall i :: 0 <= i < |keyword| ==> IsWordChar(keyword[i])
  }

  /** An occurrence with no word character touching it on either side. */
  predicate WholeWordAt(text: string, keyword: string, i: int) {
    OccursAt(text, keyword, i)
    && (i == 0 || !IsWordChar(text[i - 1]))
    && (i + |keyword| >= |text| || !IsWordChar(text[i + |keyword|]))
  }

  /** An occurrence that overlaps an earlier one of a word keyword is preceded by a word character. */
  lemma {:induction false} OverlapRejected(text: string, keyword: string, i: int, j: int)
    requires IsWordKeyword(keyword) && OccursAt(text, keyword, i) && i < j < i + |keyword|
    ensures !WholeWordAt(text, keyword, j)
  {
    assert text[j - 1] == text[i..i + |keyword|][j - 1 - i];
  }

  lemma {:induction false} OccursInside(text: string, p: string, i: int)
    requires OccursAt(text, p, i)
    ensures 0 <= i && i + |p| <= |text|
  {
  }

  lemma {:induction false} NoRoom(text: string, p: string, start: int)
    requires start > |text| - |p|
    ensures forall j :: start <= j ==> !OccursAt(text, p, j)
  {
  }

  method FindTaskKeywordIndex(text: string, keyword: string) returns (index: int)
    ensures index >= -1
    ensures text == "" || keyword == "" ==> index == -1
    ensures text != "" && keyword != "" && !IsWordKeyword(keyword) ==> index == Index(text, keyword)
    ensures text != "" && keyword != "" && IsWordKeyword(keyword) ==>
              && (index == -1 || WholeWordAt(text, keyword, index))
              && forall j :: 0 <= j && (index == -1 || j < index) ==> !WholeWordAt(text, keyword, j)
  {
    hide OccursAt, IndexFrom, Index, IsWordKeyword;
    if text == "" || keyword == "" {
      return -1;
    }
    if !IsWordKeyword(keyword) {
      return Index(text, keyword);
    }
    var searchFrom := 0;
    while searchFrom <= |text| - |keyword|
      invariant 0 <= searchFrom <= |text|
      invariant forall j :: 0 <= j < searchFrom ==> !WholeWordAt(text, keyword, j)
    {
      var idx := Index(text[searchFrom..], keyword);
      IndexOfSlice(text, keyword, searchFrom);
      if idx < 0 {
        return -1;
      }
      idx := idx + searchFrom;
      OccursInside(text, keyword, idx);
      var beforeOK := idx == 0 || !IsWordChar(text[idx - 1]);
      var afterPos := idx + |keyword|;
      var afterOK := afterPos >= |text| || !IsWordChar(text[afterPos]);
      if beforeOK && afterOK {
        return idx;
      }
      forall j | idx < j < idx + |keyword| ensures !WholeWordAt(text, keyword, j) {
        OverlapRejected(text, keyword, idx, j);
      }
      searchFrom := idx + |keyword|;
    }
    NoRoom(text, keyword, searchFrom);
    index := -1;
  }

  /** The occurrences a left-to-right scan takes when it never lets two overlap. */
  function Disjoint(text: string, keyword: string, start: nat): seq<int>
    requires keyword != ""
    decreases |text| - start
  {
    if start > |text| then []
    else
      var idx := IndexFrom(text, keyword, start);
      if idx < 0 then [] else [idx] + Disjoint(text, keyword, idx + |keyword|)
  }

  /** The search may resume here: at the start, or right after a whole word of the keyword. */
  predicate ResumesAt(text: string, keyword: string, i: int) {
    0 <= i <= |text| && (i == 0 || (|keyword| <= i && WholeWordAt(text, keyword, i - |keyword|)))
  }

  /** Boundaries tested on the slice that starts where the search resumes are the boundaries in the text. */
  lemma {:induction false} SliceBoundaries(text: string, keyword: string, start: nat, j: int)
    requires keyword != "" && IsWordKeyword(keyword) && ResumesAt(text, keyword, start) && start <= j
    ensures WholeWordAt(text, keyword, j) <==> WholeWordAt(text[start..], keyword, j - start)
  {
    hide OccursAt;
    OccursInSlice(text, keyword, start, j);
    if OccursAt(text, keyword, j) {
      OccursInside(text, keyword, j);
      StartsWithWord(text, keyword, j);
    }
  }

  lemma {:induction false} StartsWithWord(text: string, keyword: string, j: int)
    requires keyword != "" && IsWordKeyword(keyword) && OccursAt(text, keyword, j)
    ensures IsWordChar(text[j])
  {
    hide IsWordChar;
    assert text[j] == text[j..j + |keyword|][0];
  }

  lemma {:induction false} OccursInSlice(text: string, p: string, start: nat, j: int)
    requires start <= |text| && start <= j
    ensures OccursAt(text, p, j) <==> OccursAt(text[start..], p, j - start)
  {
    if j + |p| <= |text| {
      assert text[start..][j - start..j - start + |p|] == text[j..j + |p|];
    }
  }

  predicate Ascending(s: seq<int>) {
    forall i, j :: 0 <= i < j < |s| ==> s[i] < s[j]
  }

  /** What has been found when the search resumes at a position: whole words, or disjoint occurrences. */
  ghost predicate Found(indices: seq<int>, text: string, keyword: string, searchFrom: nat) {
    searchFrom <= |text| && keyword != ""
    && if IsWordKeyword(keyword) then
         ResumesAt(text, keyword, searchFrom) && WordsBelow(indices, text, keyword, searchFrom)
       else indices + Disjoint(text, keyword, searchFrom) == Disjoint(text, keyword, 0)
  }

  ghost predicate AllFound(indices: seq<int>, text: string, keyword: string) {
    if IsWordKeyword(keyword) then Ascending(indices) && forall i :: i in indices <==> WholeWordAt(text, keyword, i)
    else indices == Disjoint(text, keyword, 0)
  }

  method FindAllTaskKeywordIndices(text: string, keyword: string) returns (indices: seq<int>)
    ensures keyword != "" ==> AllFound(indices, text, keyword)
    ensures keyword == "" ==> indices == []
  {
    hide Found, AllFound, WholeWordAt, IsWordKeyword, Index;
    indices := [];
    if text == "" || keyword == "" {
      if keyword != "" {
        FoundNothing(text, keyword);
        FoundAtEnd([], text, keyword, 0);
      }
      return;
    }
    FoundNothing(text, keyword);
    var searchFrom := 0;
    while searchFrom <= |text| - |keyword|
      invariant 0 <= searchFrom <= |text| && Found(indices, text, keyword, searchFrom)
    {
      var idx := FindTaskKeywordIndex(text[searchFrom..], keyword);
      FoundNext(indices, text, keyword, searchFrom, idx);
      if idx < 0 {
        return;
      }
      idx := idx + searchFrom;
      indices := indices + [idx];
      searchFrom := idx + |keyword|;
    }
    FoundAtEnd(indices, text, keyword, searchFrom);
  }

  lemma {:induction false} FoundNothing(text: string, keyword: string)
    requires keyword != ""
    ensures Found([], text, keyword, 0)
  {
  }

  /** Behind the last place where the keyword fits nothing more is found. */
  lemma {:induction false} FoundAtEnd(indices: seq<int>, text: string, keyword: string, searchFrom: nat)
    requires Found(indices, text, keyword, searchFrom) && searchFrom > |text| - |keyword|
    ensures AllFound(indices, text, keyword)
  {
  }

  /** One search of the rest of the text: the next index, or all are found. */
  lemma {:induction false} FoundNext(indices: seq<int>, text: string, keyword: string, searchFrom: nat, idx: int)
    requires Found(indices, text, keyword, searchFrom) && text[searchFrom..] != "" && idx >= -1
    requires !IsWordKeyword(keyword) ==> idx == Index(text[searchFrom..], keyword)
    requires IsWordKeyword(keyword) ==>
               && (idx == -1 || WholeWordAt(text[searchFrom..], keyword, idx))
               && forall j :: 0 <= j && (idx == -1 || j < idx) ==> !WholeWordAt(text[searchFrom..], keyword, j)
    ensures idx < 0 ==> AllFound(indices, text, keyword)
    ensures idx >= 0 ==> searchFrom + idx + |keyword| <= |text|
                         && Found(indices + [searchFrom + idx], text, keyword, searchFrom + idx + |keyword|)
  {
    hide WholeWordAt, WordsBelow, ResumesAt, Disjoint, Ascending, IsWordKeyword, Index;
    if IsWordKeyword(keyword) {
      NextWholeWord(text, keyword, searchFrom, idx);
      if idx < 0 {
        AllWordsBelow(indices, text, keyword, searchFrom);
      } else {
        OneMoreWord(indices, text, keyword, searchFrom, searchFrom + idx);
        ResumesInside(text, keyword, searchFrom + idx + |keyword|);
      }
    } else {
      NextDisjoint(indices, text, keyword, searchFrom);
    }
  }

  lemma {:induction false} NextDisjoint(indices: seq<int>, text: string, keyword: string, searchFrom: nat)
    requires Found(indices, text, keyword, searchFrom) && !IsWordKeyword(keyword)
    ensures var idx := Index(text[searchFrom..], keyword);
            if idx < 0 then AllFound(indices, text, keyword)
            else
              && searchFrom + idx + |keyword| <= |text|
              && Found(indices + [searchFrom + idx], text, keyword, searchFrom + idx + |keyword|)
  {
    hide Disjoint, IndexFrom, IsWordKeyword;
    SliceIndex(text, keyword, searchFrom, indices);
  }

  lemma {:induction false} ResumesInside(text: string, keyword: string, i: int)
    requires ResumesAt(text, keyword, i)
    ensures 0 <= i <= |text|
  {
  }

  /** The list holds exactly the whole words that start before `bound`, in order. */
  ghost predicate WordsBelow(indices: seq<int>, text: string, keyword: string, bound: int) {
    Ascending(indices) && forall i :: i in indices <==> i < bound && WholeWordAt(text, keyword, i)
  }

  lemma {:induction false} OneMoreWord(indices: seq<int>, text: string, keyword: string, bound: int, idx: int)
    requires WordsBelow(indices, text, keyword, bound) && bound <= idx && WholeWordAt(text, keyword, idx)
    requires forall j :: bound <= j < idx || idx < j < idx + |keyword| ==> !WholeWordAt(text, keyword, j)
    requires keyword != ""
    ensures WordsBelow(indices + [idx], text, keyword, idx + |keyword|)
  {
    assert forall k :: 0 <= k < |indices| ==> indices[k] in indices;
  }

  lemma {:induction false} AllWordsBelow(indices: seq<int>, text: string, keyword: string, bound: int)
    requires WordsBelow(indices, text, keyword, bound)
    requires forall j :: bound <= j ==> !WholeWordAt(text, keyword, j)
    ensures Ascending(indices) && forall i :: i in indices <==> WholeWordAt(text, keyword, i)
  {
  }

  /** What the search of a slice says about the text it was cut from. */
  lemma {:induction false} NextWholeWord(text: string, keyword: string, start: nat, idx: int)
    requires keyword != "" && IsWordKeyword(keyword) && ResumesAt(text, keyword, start)
    requires idx == -1 || WholeWordAt(text[start..], keyword, idx)
    requires forall j :: 0 <= j && (idx == -1 || j < idx) ==> !WholeWordAt(text[start..], keyword, j)
    ensures forall j :: start <= j && (idx == -1 || j < start + idx) ==> !WholeWordAt(text, keyword, j)
    ensures idx >= 0 ==>
              && WholeWordAt(text, keyword, start + idx) && ResumesAt(text, keyword, start + idx + |keyword|)
              && forall j :: start + idx < j < start + idx + |keyword| ==> !WholeWordAt(text, keyword, j)
  {
    forall j | start <= j ensures WholeWordAt(text, keyword, j) <==> WholeWordAt(text[start..], keyword, j - start) {
      SliceBoundaries(text, keyword, start, j);
    }
    if idx >= 0 {
      forall j | start + idx < j < start + idx + |keyword| ensures !WholeWordAt(text, keyword, j) {
        OverlapRejected(text, keyword, start + idx, j);
      }
    }
  }

  /** The search of a slice takes the next disjoint occurrence. */
  lemma {:induction false} SliceIndex(text: string, keyword: string, start: nat, taken: seq<int>)
    requires start <= |text| && keyword != ""
    ensures var i := Index(text[start..], keyword);
            taken + Disjoint(text, keyword, start)
            == if i < 0 then taken else taken + [start + i] + Disjoint(text, keyword, start + i + |keyword|)
  {
    hide OccursAt, IndexFrom, Index;
    IndexOfSlice(text, keyword, start);
    var i := Index(text[start..], keyword);
    if i >= 0 {
      Associative(taken, [start + i], Disjoint(text, keyword, start + i + |keyword|));
    } else {
      assert taken + [] == taken;
    }
  }

  lemma {:induction false} Associative(a: seq<int>, b: seq<int>, c: seq<int>)
    ensures a + b + c == a + (b + c)
  {
  }

  lemma {:induction false} IndexOfSlice(text: string, keyword: string, start: nat)
    requires start <= |text|
    ensures IndexFrom(text, keyword, start) == if Index(text[start..], keyword) < 0 then -1
            else start + Index(text[start..], keyword)
  {
    SearchOfSlice(text, keyword, start, 0);
  }

  /** Searching a slice is searching the text from there. */
  lemma {:induction false} SearchOfSlice(text: string, p: string, start: nat, k: nat)
    requires start <= |text|
    ensures var i := IndexFrom(text[start..], p, k); IndexFrom(text, p, start + k) == if i < 0 then -1 else start + i
    decreases |text| - start - k
  {
    hide OccursAt;
    if start + k + |p| <= |text| {
      OccursInSlice(text, p, start, start + k);
      SearchOfSlice(text, p, start, k + 1);
    }
  }
}
