/** The rewrite of the model's calls, step by step. */
module PolicyRewriter {
  import opened Text
  import opened PolicyModel
  import opened ExecutionPolicy
  import opened PolicyRewrite

  lemma {:induction false} ReadDecodable(call: Call)
    ensures ReadsOnly(call) ==> call.Invoke?
  {
  }

  lemma {:induction false} MutationDecodable(call: Call)
    ensures Mutates(call) ==> call.Invoke?
  {
  }

  lemma {:induction false} DeferDecodable(call: Call)
    ensures Defers(call) ==> call.Invoke? && IsExec(call)
  {
  }

  method ShouldRewriteReadOnlyCallsToNext(calls: seq<Call>, next: Option<Command>) returns (rewrite: bool)
    ensures rewrite == ReadsInstead(calls, next)
  {
    hide ReadsOnly, Runs;
    if next.None? || |calls| == 0 {
      return false;
    }
    var allReadOnly, matchedNext := true, false;
    for k := 0 to |calls|
      invariant allReadOnly && forall j :: 0 <= j < k ==> ReadsOnly(calls[j])
      invariant matchedNext <==> exists j :: 0 <= j < k && Runs(calls[j], next)
    {
      ReadDecodable(calls[k]);
      if !calls[k].Invoke? {
        return false;
      }
      if !ReadsOnly(calls[k]) {
        allReadOnly := false;
        break;
      }
      if Runs(calls[k], next) {
        matchedNext := true;
      }
    }
    return allReadOnly && !matchedNext;
  }

  method ShouldRewriteMutationCallsToNext(calls: seq<Call>, next: Option<Command>) returns (rewrite: bool)
    ensures rewrite == MutatesInstead(calls, next)
  {
    hide Mutates, Runs, IsExec;
    if next.None? || |calls| == 0 || !next.value.IsMutation() {
      return false;
    }
    var allMutations, matchedNext := true, false;
    for k := 0 to |calls|
      invariant allMutations && forall j :: 0 <= j < k ==> Mutates(calls[j])
      invariant matchedNext <==> exists j :: 0 <= j < k && Runs(calls[j], next)
    {
      MutationDecodable(calls[k]);
      if !calls[k].Invoke? {
        return false;
      }
      if Runs(calls[k], next) {
        matchedNext := true;
      }
      if !Mutates(calls[k]) {
        allMutations := false;
        break;
      }
    }
    return allMutations && !matchedNext;
  }

  method ShouldRewriteSequentialExecCallsToNext(calls: seq<Call>, next: Option<Command>) returns (rewrite: bool)
    ensures rewrite == DefersInstead(calls, next)
  {
    hide Defers, Runs, IsExec;
    if next.None? || |calls| == 0 {
      return false;
    }
    var allSequentialExec, matchedNext := true, false;
    for k := 0 to |calls|
      invariant allSequentialExec && forall j :: 0 <= j < k ==> Defers(calls[j])
      invariant matchedNext <==> exists j :: 0 <= j < k && Runs(calls[j], next)
    {
      DeferDecodable(calls[k]);
      if !calls[k].Invoke? || !IsExec(calls[k]) {
        return false;
      }
      if Runs(calls[k], next) {
        matchedNext := true;
      }
      if !Defers(calls[k]) {
        allSequentialExec := false;
        break;
      }
    }
    return allSequentialExec && !matchedNext;
  }

  method ShouldAdvanceExplicitRequiredCommand(calls: seq<Call>, next: Option<Command>, seen: seq<Command>)
    returns (advance: bool)
    ensures advance == RepeatsRead(calls, next, seen)
  {
    hide ReadsOnly, Runs, Repeats;
    if next.None? || |calls| == 0 || |seen| == 0 {
      return false;
    }
    var repeatedSeenRead := false;
    for k := 0 to |calls|
      invariant forall j :: 0 <= j < k ==> ReadsOnly(calls[j]) && !Runs(calls[j], next)
      invariant repeatedSeenRead <==> exists j :: 0 <= j < k && Repeats(calls[j], seen)
    {
      ReadDecodable(calls[k]);
      if !calls[k].Invoke? || !ReadsOnly(calls[k]) || Runs(calls[k], next) {
        return false;
      }
      if Repeats(calls[k], seen) {
        repeatedSeenRead := true;
      }
    }
    return repeatedSeenRead;
  }

  /** Assigning the one call the policy makes up. */
  method Replace(b: Batch, command: Option<Command>, execAvailable: bool, tool: string) returns (result: Batch)
    ensures result == Replaced(b, command, execAvailable, tool)
  {
    result := b;
    var synthetic := ExecCall(command, execAvailable, tool);
    if synthetic.Some? {
      result := result.(calls := [synthetic.value]);
      result := result.(failed := false, visibleText := "", mode := ActionsTool, candidateFound := true);
    }
  }

  method ApplyExecutionPolicyToParseResult(b: Batch, p: Policy, execAvailable: bool, tool: string)
    returns (result: Batch)
    ensures result == Rewritten(b, p, execAvailable, tool)
  {
    result := b;
    if p.enabled && p.stage == Finalize && !p.requireTool && tool == "" && result.calls != [] {
      result := result.(calls := [], failed := false, candidateFound := true);
      return;
    }
    if p.enabled && p.requireTool && |result.calls| == 0 && p.syntheticCall.Some? {
      return Only(p.syntheticCall.value);
    }
    if p.enabled && p.requireTool && result.calls != [] && TakesOver(result, p) {
      return Only(p.syntheticCall.value);
    }
    if !p.enabled || !p.requireTool || tool != "" {
      return;
    }
    var next := p.nextCommand;
    if |result.calls| == 0 {
      result := Replace(result, next, execAvailable, tool);
      return;
    }
    var onlyReads := ShouldRewriteReadOnlyCallsToNext(result.calls, next);
    if p.pendingWrite && onlyReads {
      result := Replace(result, next, execAvailable, tool);
      return;
    }
    var mutates := ShouldRewriteMutationCallsToNext(result.calls, next);
    if p.pendingWrite && mutates {
      result := Replace(result, next, execAvailable, tool);
      return;
    }
    var guardCommand := GuardCommand(p, result.calls);
    if guardCommand.Some? {
      result := Replace(result, guardCommand, execAvailable, tool);
      return;
    }
    if p.requiredCommands != [] {
      if AdvancesNext(result.calls, next, p.seenCommands) {
        return;
      }
      if next.Some? && OnlyExec(result.calls) {
        result := Replace(result, next, execAvailable, tool);
        return;
      }
      if onlyReads {
        result := Replace(result, next, execAvailable, tool);
      }
      var repeats := ShouldAdvanceExplicitRequiredCommand(result.calls, next, p.seenCommands);
      if repeats {
        result := Replace(result, next, execAvailable, tool);
      }
      return;
    }
    if onlyReads {
      result := Replace(result, next, execAvailable, tool);
    }
    var defers := ShouldRewriteSequentialExecCallsToNext(result.calls, next);
    if defers {
      result := Replace(result, next, execAvailable, tool);
    }
  }
}
