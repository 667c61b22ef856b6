/** Deduplication of texts and of values. */
module Deduplication {
  import opened Text
  import opened PolicyModel

  method DedupeValues<T(==,!new)>(values: seq<T>) returns (out: seq<T>)
    ensures out == Deduped(values)
  {
    var seen: set<T> := {};
    out := [];
    for i := 0 to |values|
      invariant out == Deduped(values[..i])
      invariant forall x :: x in seen <==> x in out
    {
      assert values[..i + 1][..i] == values[..i];
      DedupedSame(values[..i]);
      if values[i] !in seen {
        seen := seen + {values[i]};
        out := out + [values[i]];
      }
    }
    assert values[..|values|] == values;
  }

  /** Deduplication keeps the first occurrences, in order. */
  lemma {:induction false} DedupedKeepsFirst<T(!new)>(s: seq<T>)
    ensures forall i, j :: 0 <= i < j < |Deduped(s)| ==> Deduped(s)[i] != Deduped(s)[j]
    ensures forall n :: 0 <= n <= |s| ==> Deduped(s[..n]) <= Deduped(s)
  {
    if s != [] {
      var front := s[..|s| - 1];
      DedupedKeepsFirst(front);
      DedupedSame(front);
      forall n | 0 <= n <= |s|
        ensures Deduped(s[..n]) <= Deduped(s)
      {
        if n < |s| {
          assert front[..n] == s[..n];
        } else {
          assert s[..n] == s;
        }
      }
    }
  }

  /** The texts without blank ones and without those that an earlier one equals up to case and space around it. */
  function DedupedTexts(values: seq<string>): seq<string> {
    if values == [] then []
    else
      var front, v := DedupedTexts(values[..|values| - 1]), TrimSpace(values[|values| - 1]);
      if v == "" || KeyIn(front, Lower(v)) then front else front + [v]
  }

  predicate KeyIn(values: seq<string>, key: string) {
    exists v :: v in values && Lower(v) == key
  }

  /** `dedupePreserveOrder`. */
  method DedupePreserveOrder(values: seq<string>) returns (out: seq<string>)
    ensures out == DedupedTexts(values)
  {
    hide TrimSpace, Lower;
    var seen: set<string> := {};
    out := [];
    for i := 0 to |values|
      invariant out == DedupedTexts(values[..i])
      invariant forall key :: key in seen <==> KeyIn(out, key)
    {
      assert values[..i + 1][..i] == values[..i];
      var v := TrimSpace(values[i]);
      if v != "" && Lower(v) !in seen {
        seen := seen + {Lower(v)};
        out := out + [v];
      }
    }
    assert values[..|values|] == values;
  }

  ghost predicate DistinctKeys(values: seq<string>) {
    forall i, j :: 0 <= i < j < |values| ==> Lower(values[i]) != Lower(values[j])
  }

  /** What is kept is trimmed and not blank, no two kept texts are equal up to case, and no text is lost. */
  lemma {:induction false} DedupedTextsKept(values: seq<string>)
    ensures var r := DedupedTexts(values);
            && (forall x :: x in r ==> Trimmed(x) && x != "" && exists y :: y in values && x == TrimSpace(y))
            && DistinctKeys(r)
            && forall y :: y in values && TrimSpace(y) != "" ==> KeyIn(r, Lower(TrimSpace(y)))
  {
    hide Lower, TrimSpace, Trimmed, KeyIn;
    if values != [] {
      var front, last := values[..|values| - 1], values[|values| - 1];
      DedupedTextsKept(front);
      assert values == front + [last];
      Kept(DedupedTexts(front), TrimSpace(last));
    }
  }

  lemma {:induction false} Kept(front: seq<string>, v: string)
    requires DistinctKeys(front)
    ensures !KeyIn(front, Lower(v)) ==> DistinctKeys(front + [v])
    ensures forall key :: KeyIn(front, key) ==> KeyIn(front + [v], key)
    ensures KeyIn(front + [v], Lower(v))
  {
    hide Lower;
    assert forall x :: x in front ==> x in front + [v];
    assert v in front + [v];
  }

  /** A list of trimmed texts, none of them blank, in which texts that differ do not differ only in case. */
  ghost predicate Normalised(values: seq<string>) {
    && (forall x :: x in values ==> Trimmed(x) && x != "")
    && forall x, y :: x in values && y in values && Lower(x) == Lower(y) ==> x == y
  }

  /** Comparing texts as they are does the same as the code if and only if the list is normalised. */
  lemma {:induction false} DedupedAsValues(values: seq<string>)
    ensures DedupedTexts(values) == Deduped(values) <==> Normalised(values)
  {
    hide Lower, TrimSpace, Trimmed, Deduped, DedupedTexts, Normalised, DistinctKeys, KeyIn;
    if Normalised(values) {
      NormalisedDeduped(values);
    }
    DedupedTextsKept(values);
    DedupedSame(values);
    if DedupedTexts(values) == Deduped(values) {
      KeptAreNormalised(values, DedupedTexts(values));
    }
  }

  lemma {:induction false} KeptAreNormalised(values: seq<string>, r: seq<string>)
    requires forall x :: x in values ==> x in r
    requires forall x :: x in r ==> Trimmed(x) && x != ""
    requires DistinctKeys(r)
    ensures Normalised(values)
  {
    hide Lower, Trimmed;
  }

  lemma {:induction false} NormalisedDeduped(values: seq<string>)
    requires Normalised(values)
    ensures DedupedTexts(values) == Deduped(values)
  {
    hide Lower;
    if values != [] {
      var front, last := values[..|values| - 1], values[|values| - 1];
      assert values == front + [last];
      NormalisedDeduped(front);
      DedupedSame(front);
      assert TrimSpace(last) == last;
      hide TrimSpace, Trimmed;
    }
  }
}
