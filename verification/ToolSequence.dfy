/** The explicit tools of a task, matched in order against the tools that were used. */
module ToolSequence {
  /** `tools` can be found in `observed` in this order, with others in between. */
  predicate Subsequence(tools: seq<string>, observed: seq<string>) {
    if tools == [] then true
    else if observed == [] then false
    else if tools[|tools| - 1] == observed[|observed| - 1] then
      Subsequence(tools[..|tools| - 1], observed[..|observed| - 1])
    else Subsequence(tools, observed[..|observed| - 1])
  }

  lemma {:induction false} MoreObserved(tools: seq<string>, observed: seq<string>, name: string)
    requires Subsequence(tools, observed)
    ensures Subsequence(tools, observed + [name])
    decreases |observed|, 1
  {
    assert (observed + [name])[..|observed|] == observed;
    if tools != [] && tools[|tools| - 1] == name {
      FewerTools(tools, observed);
    }
  }

  lemma {:induction false} FewerTools(tools: seq<string>, observed: seq<string>)
    requires tools != [] && Subsequence(tools, observed)
    ensures Subsequence(tools[..|tools| - 1], observed)
    decreases |observed|, 0
  {
    var rest := observed[..|observed| - 1];
    assert observed == rest + [observed[|observed| - 1]];
    if tools[|tools| - 1] == observed[|observed| - 1] {
      MoreObserved(tools[..|tools| - 1], rest, observed[|observed| - 1]);
    } else {
      FewerTools(tools, rest);
      MoreObserved(tools[..|tools| - 1], rest, observed[|observed| - 1]);
    }
  }

  /** A longer match needs the shorter one, so the greedy match is the longest. */
  lemma {:induction false} ShorterMatches(tools: seq<string>, k: nat, j: nat, observed: seq<string>)
    requires j <= k <= |tools| && Subsequence(tools[..k], observed)
    ensures Subsequence(tools[..j], observed)
    decreases k
  {
    if j < k {
      assert tools[..k][..k - 1] == tools[..k - 1];
      FewerTools(tools[..k], observed);
      ShorterMatches(tools, k - 1, j, observed);
    }
  }

  /**
   `nextUnmetExplicitToolFromSequence`: matching each tool at the first opportunity finds the tool
   behind the longest prefix that occurs in order, and nothing if the whole sequence does.
   */
  method NextUnmetExplicitTool(explicitTools: seq<string>, observed: seq<string>) returns (next: string, nextIndex: nat)
    ensures nextIndex <= |explicitTools| && Subsequence(explicitTools[..nextIndex], observed)
    ensures forall k :: nextIndex < k <= |explicitTools| ==> !Subsequence(explicitTools[..k], observed)
    ensures next == if nextIndex == |explicitTools| then "" else explicitTools[nextIndex]
  {
    nextIndex := 0;
    if |explicitTools| == 0 {
      return "", 0;
    }
    for i := 0 to |observed|
      invariant nextIndex <= |explicitTools| && Subsequence(explicitTools[..nextIndex], observed[..i])
      invariant nextIndex < |explicitTools| ==> !Subsequence(explicitTools[..nextIndex + 1], observed[..i])
    {
      if nextIndex >= |explicitTools| {
        assert explicitTools[..nextIndex] == explicitTools;
        WholeMatched(explicitTools, observed, i);
        break;
      }
      Advance(explicitTools, nextIndex, observed[..i], observed[i]);
      assert observed[..i] + [observed[i]] == observed[..i + 1];
      if observed[i] == explicitTools[nextIndex] {
        nextIndex := nextIndex + 1;
      }
    }
    assert observed[..|observed|] == observed;
    assert explicitTools[..|explicitTools|] == explicitTools;
    forall k | nextIndex < k <= |explicitTools|
      ensures !Subsequence(explicitTools[..k], observed)
    {
      if Subsequence(explicitTools[..k], observed) {
        ShorterMatches(explicitTools, k, nextIndex + 1, observed);
      }
    }
    next := if nextIndex >= |explicitTools| then "" else explicitTools[nextIndex];
  }

  /** One more observed tool extends the longest match by one or not at all. */
  lemma {:induction false} Advance(tools: seq<string>, n: nat, observed: seq<string>, name: string)
    requires n < |tools| && Subsequence(tools[..n], observed) && !Subsequence(tools[..n + 1], observed)
    ensures if name == tools[n] then
              Subsequence(tools[..n + 1], observed + [name])
              && (n + 1 < |tools| ==> !Subsequence(tools[..n + 2], observed + [name]))
            else Subsequence(tools[..n], observed + [name]) && !Subsequence(tools[..n + 1], observed + [name])
  {
    assert (observed + [name])[..|observed|] == observed;
    assert tools[..n + 1][..n] == tools[..n];
    if name == tools[n] {
      if n + 1 < |tools| && Subsequence(tools[..n + 2], observed + [name]) {
        assert tools[..n + 2][..n + 1] == tools[..n + 1];
        if Subsequence(tools[..n + 2], observed) {
          FewerTools(tools[..n + 2], observed);
        }
      }
    } else {
      MoreObserved(tools[..n], observed, name);
    }
  }

  lemma {:induction false} WholeMatched(tools: seq<string>, observed: seq<string>, i: nat)
    requires i <= |observed| && Subsequence(tools, observed[..i])
    ensures Subsequence(tools, observed)
    decreases |observed| - i
  {
    if i < |observed| {
      assert observed[..i + 1] == observed[..i] + [observed[i]];
      MoreObserved(tools, observed[..i], observed[i]);
      WholeMatched(tools, observed, i + 1);
    } else {
      assert observed[..i] == observed;
    }
  }
}
