/** The inspection before the first write ends when everything has been read. */
module InspectionRuns {
  import opened Text
  import opened PolicyModel
  import opened SignalsInvariant
  import opened CommandChooser
  import opened ExecutionPolicy
  import opened PolicyRuns
  import opened InspectionPhase

  /** A run of a write task from an empty history in which every command ends, well or not. */
  ghost predicate EndingRun(run: ClientRun) {
    InspectingTask(run.task, run.setting) && run.start == [] && CommandsEnd(run)
  }

  /** There are such runs of every write task. */
  lemma {:induction false} RunsEnding(task: Task, e: Setting)
    requires InspectingTask(task, e)
    ensures EndingRun(QuietRun(task, e, [])) && EndingRun(FailingRun(task, e, []))
  {
  }

  lemma {:induction false} StartsInspecting(run: ClientRun)
    requires EndingRun(run)
    ensures Inspecting(run.task, RunSignals(run, 0))
    ensures RunSignals(run, 0) == NO_SIGNALS
  {
    hide RunSignals;
    RunStarts(run);
  }

  ghost predicate WastedAt(run: ClientRun, n: nat) {
    var next := RunPolicy(run, n).nextCommand;
    next.Some? && Wasted(run.task, RunSignals(run, n), next.value, run.outs(n))
  }

  /** What holds of one turn of a run. */
  lemma {:induction false} TurnFacts(run: ClientRun, n: nat)
    requires EndingRun(run) && Inspecting(run.task, RunSignals(run, n))
    ensures var s, r, p := RunSignals(run, n), RunSignals(run, n + 1), RunPolicy(run, n);
            && p.nextCommand == Proposed(run.task, s) && p.pendingWrite && p.stage in {Explore, Execute}
            && Inspecting(run.task, r)
            && match p.nextCommand
               case None => r == s
               case Some(c) => AfterRun(s, r, c, run.outs(n)) && ProposedFor(run.task, s, c)
  {
    SessionIdle(run.task, RunSignals(run, n));
    hide RunSignals, Build, AfterRun, Inspecting, Proposed, ProposedFor, InspectingTask;
    RunTurn(run, n);
    BuiltInspecting(run.task, RunSignals(run, n), run.setting);
    NextIsProposedFor(run.task, RunSignals(run, n));
    var next := RunPolicy(run, n).nextCommand;
    if next.Some? {
      StillInspecting(run.task, RunSignals(run, n), RunSignals(run, n + 1), next.value, run.outs(n));
    }
  }

  lemma {:induction false} SessionIdle(task: Task, s: Signals)
    requires Inspecting(task, s)
    ensures s.runningSession == ""
  {
  }

  lemma {:induction false} RunInspecting(run: ClientRun, n: nat)
    requires EndingRun(run)
    ensures Inspecting(run.task, RunSignals(run, n))
  {
    hide RunSignals, RunPolicy, EndingRun, Inspecting, AfterRun, Proposed, ProposedFor;
    if n == 0 {
      StartsInspecting(run);
    } else {
      RunInspecting(run, n - 1);
      TurnFacts(run, n - 1);
    }
  }

  /** For all outcomes: throughout the inspection a write is pending. */
  lemma {:induction false} PendingThroughout(run: ClientRun, n: nat)
    requires EndingRun(run)
    ensures RunPolicy(run, n).pendingWrite && RunPolicy(run, n).stage in {Explore, Execute}
  {
    hide RunSignals, RunPolicy, EndingRun, Inspecting;
    RunInspecting(run, n);
    TurnFacts(run, n);
  }

  /** From a turn on, no turn is wasted. */
  ghost predicate NoWasteFrom(run: ClientRun, n: nat) {
    forall m :: m >= n ==> !WastedAt(run, m)
  }

  lemma {:induction false} WorkAlong(run: ClientRun, n: nat) returns (m: nat)
    requires EndingRun(run) && NoWasteFrom(run, n)
    ensures n <= m <= n + Work(run.task, RunSignals(run, n)) && RunPolicy(run, m).nextCommand == None
    decreases Work(run.task, RunSignals(run, n))
  {
    hide RunSignals, RunPolicy, EndingRun, Inspecting, Work, AfterRun, Proposed, ProposedFor, Wasted;
    RunInspecting(run, n);
    TurnFacts(run, n);
    if RunPolicy(run, n).nextCommand == None {
      m := n;
    } else {
      assert !WastedAt(run, n);
      WorkShrinks(run.task, RunSignals(run, n), RunSignals(run, n + 1), run.outs(n));
      m := WorkAlong(run, n + 1);
    }
  }

  /** From a turn on nothing is proposed and the write is awaited. */
  ghost predicate AwaitsWrite(run: ClientRun, n: nat) {
    forall m :: m >= n ==> RunPolicy(run, m).nextCommand == None && RunPolicy(run, m).pendingWrite
  }

  lemma {:induction false} IdleAwaits(run: ClientRun, n: nat)
    requires EndingRun(run) && RunPolicy(run, n).nextCommand == None
    ensures AwaitsWrite(run, n)
  {
    hide RunSignals, Build, InspectingTask;
    forall m | m >= n
      ensures RunPolicy(run, m).nextCommand == None && RunPolicy(run, m).pendingWrite
    {
      IdleFrom(run, n, m);
      PendingThroughout(run, m);
    }
  }

  // When the inspection ends.

  /** Every source and every target has been read successfully, and every style listed. */
  ghost predicate AllRead(task: Task, s: Signals) {
    && (forall f :: f in SequenceFiles(task) ==> SeenRead(s.successful, f))
    && forall d :: d in task.styles ==> d in s.successful
  }

  /** For all outcomes: when nothing is proposed any more, everything has been read and listed. */
  lemma {:induction false} InspectionComplete(run: ClientRun, n: nat)
    requires EndingRun(run) && RunPolicy(run, n).nextCommand == None
    ensures AllRead(run.task, RunSignals(run, n))
  {
    hide RunSignals, Build, EndingRun, Inspecting, AfterRun, ProposedFor, SequenceFiles, RequiredFiles, SeenRead,
      Resolved, SatisfiedRead, UnreadReference;
    var s := RunSignals(run, n);
    RunInspecting(run, n);
    TurnFacts(run, n);
    StylesAreListings(run.task, s);
    NothingProposed(run.task, s);
    forall f | f in SequenceFiles(run.task)
      ensures SeenRead(s.successful, f)
    {
      SatisfiedIsRead(run.task, s, f);
    }
    forall d | d in run.task.styles
      ensures d in s.successful
    {
      ResolvedIsDone(run.task, s, d);
    }
  }

  lemma {:induction false} NothingProposed(task: Task, s: Signals)
    requires Proposed(task, s) == None && forall d :: d in task.styles ==> Listing(d)
    ensures forall f :: f in SequenceFiles(task) ==> SatisfiedRead(s, f) && !ToCreate(s, f)
    ensures forall d :: d in task.styles ==> Resolved(s, d)
  {
    hide SequenceFiles, RequiredFiles, SatisfiedRead, NextStyle, FirstSource, FirstScaffold, FirstToCreate,
      FirstUnsatisfied, Resolved, UnreadReference, HasScaffold, SeenRead, ToCreate;
    StyleProposed(task, s, task.styles);
  }

  /** What has succeeded stays so. */
  lemma {:induction false} SuccessStays(run: ClientRun, n: nat, m: nat)
    requires EndingRun(run) && n <= m
    ensures forall c :: c in RunSignals(run, n).successful ==> c in RunSignals(run, m).successful
  {
    hide RunSignals, RunPolicy, EndingRun, Inspecting, AfterRun, Proposed, ProposedFor;
    if n < m {
      SuccessStays(run, n, m - 1);
      RunInspecting(run, m - 1);
      TurnFacts(run, m - 1);
      if RunPolicy(run, m - 1).nextCommand.Some? {
        SuccessGained(RunSignals(run, m - 1), RunSignals(run, m), RunPolicy(run, m - 1).nextCommand.value,
            run.outs(m - 1));
      }
    }
  }

  lemma {:induction false} SuccessGained(s: Signals, r: Signals, c: Command, o: Output)
    requires AfterRun(s, r, c, o)
    ensures forall d :: d in s.successful ==> d in r.successful
    ensures !Succeeds(c, o) ==> forall d :: d in r.successful ==> d in s.successful
  {
  }

  /** Once everything has been read no turn is wasted. */
  lemma {:induction false} AllReadWastesNothing(run: ClientRun, n: nat)
    requires EndingRun(run) && AllRead(run.task, RunSignals(run, n))
    ensures NoWasteFrom(run, n)
  {
    hide RunSignals, RunPolicy, EndingRun, Inspecting, ProposedFor, Wasted, AllRead, AfterRun;
    forall m | m >= n
      ensures !WastedAt(run, m)
    {
      SuccessStays(run, n, m);
      RunInspecting(run, m);
      TurnFacts(run, m);
      StillAllRead(run.task, RunSignals(run, n), RunSignals(run, m));
      if RunPolicy(run, m).nextCommand.Some? {
        NothingToWaste(run.task, RunSignals(run, m), RunPolicy(run, m).nextCommand.value, run.outs(m));
      }
    }
  }

  lemma {:induction false} StillAllRead(task: Task, s: Signals, r: Signals)
    requires AllRead(task, s) && forall c :: c in s.successful ==> c in r.successful
    ensures AllRead(task, r)
  {
    hide SequenceFiles;
  }

  lemma {:induction false} NothingToWaste(task: Task, s: Signals, c: Command, o: Output)
    requires Inspecting(task, s) && AllRead(task, s) && ProposedFor(task, s, c)
    ensures !Wasted(task, s, c, o)
  {
    StylesAreListings(task, s);
    if c.ReadFile? {
      SatisfiedIsRead(task, s, c.path);
    } else if c in task.styles {
      ResolvedIsDone(task, s, c);
    }
    hide Inspecting, SequenceFiles, RequiredFiles, SatisfiedRead, HasScaffold, SeenRead, Resolved, UnreadReference,
      Succeeds;
  }

  /** The file is read successfully at some turn. */
  ghost predicate EverRead(run: ClientRun, f: Path) {
    exists n: nat :: SeenRead(RunSignals(run, n).successful, f)
  }

  /** The style is listed successfully at some turn. */
  ghost predicate EverListed(run: ClientRun, d: Command) {
    exists n: nat :: d in RunSignals(run, n).successful
  }

  lemma {:induction false} SeenMore(before: seq<Command>, after: seq<Command>, f: Path)
    requires SeenRead(before, f) && forall c :: c in before ==> c in after
    ensures SeenRead(after, f)
  {
  }

  /** There is a turn by which all of the files have been read. */
  lemma {:induction false} FilesReadBy(run: ClientRun, files: seq<Path>) returns (n: nat)
    requires EndingRun(run) && forall f :: f in files ==> EverRead(run, f)
    ensures forall f :: f in files ==> SeenRead(RunSignals(run, n).successful, f)
  {
    hide RunSignals, EndingRun, SeenRead;
    n := 0;
    for i := 0 to |files|
      invariant forall k :: 0 <= k < i ==> SeenRead(RunSignals(run, n).successful, files[k])
    {
      assert EverRead(run, files[i]);
      var k: nat :| SeenRead(RunSignals(run, k).successful, files[i]);
      var m := if k < n then n else k;
      SuccessStays(run, n, m);
      SuccessStays(run, k, m);
      forall j | 0 <= j <= i
        ensures SeenRead(RunSignals(run, m).successful, files[j])
      {
        var turn := if j < i then n else k;
        SeenMore(RunSignals(run, turn).successful, RunSignals(run, m).successful, files[j]);
      }
      n := m;
    }
  }

  /** There is a turn by which all of the styles have been listed. */
  lemma {:induction false} StylesListedBy(run: ClientRun, styles: seq<Command>) returns (n: nat)
    requires EndingRun(run) && forall d :: d in styles ==> EverListed(run, d)
    ensures forall d :: d in styles ==> d in RunSignals(run, n).successful
  {
    hide RunSignals, EndingRun;
    n := 0;
    for i := 0 to |styles|
      invariant forall k :: 0 <= k < i ==> styles[k] in RunSignals(run, n).successful
    {
      assert EverListed(run, styles[i]);
      var k: nat :| styles[i] in RunSignals(run, k).successful;
      var m := if k < n then n else k;
      SuccessStays(run, n, m);
      SuccessStays(run, k, m);
      n := m;
    }
  }

  lemma {:induction false} AllReadBy(run: ClientRun) returns (n: nat)
    requires EndingRun(run)
    requires forall f :: f in SequenceFiles(run.task) ==> EverRead(run, f)
    requires forall d :: d in run.task.styles ==> EverListed(run, d)
    ensures AllRead(run.task, RunSignals(run, n))
  {
    hide RunSignals, EndingRun, SeenRead, SequenceFiles, EverRead, EverListed;
    var k := FilesReadBy(run, SequenceFiles(run.task));
    var l := StylesListedBy(run, run.task.styles);
    n := if k < l then l else k;
    SuccessStays(run, k, n);
    SuccessStays(run, l, n);
    forall f | f in SequenceFiles(run.task)
      ensures SeenRead(RunSignals(run, n).successful, f)
    {
      SeenMore(RunSignals(run, k).successful, RunSignals(run, n).successful, f);
    }
  }

  /**
   For all outcomes: the inspection comes to a turn from which on it only awaits the write if and only
   if every source and every target is read successfully at some turn, and every style listed.
   */
  lemma {:induction false} InspectionEndsExactly(run: ClientRun)
    requires EndingRun(run)
    ensures (exists n: nat :: AwaitsWrite(run, n))
            <==> && (forall f :: f in SequenceFiles(run.task) ==> EverRead(run, f))
                 && forall d :: d in run.task.styles ==> EverListed(run, d)
  {
    hide RunSignals, RunPolicy, EndingRun, SequenceFiles, SeenRead, AwaitsWrite, NoWasteFrom;
    if n: nat :| AwaitsWrite(run, n) {
      NextAwaited(run, n);
      InspectionComplete(run, n);
    } else if
      && (forall f :: f in SequenceFiles(run.task) ==> EverRead(run, f))
      && (forall d :: d in run.task.styles ==> EverListed(run, d)) {
      var n := AllReadBy(run);
      AllReadWastesNothing(run, n);
      var m := WorkAlong(run, n);
      IdleAwaits(run, m);
    }
  }

  lemma {:induction false} NextAwaited(run: ClientRun, n: nat)
    requires AwaitsWrite(run, n)
    ensures RunPolicy(run, n).nextCommand == None
  {
    hide RunPolicy;
  }

  /** The read of a source is proposed. */
  ghost predicate ReadsSource(run: ClientRun, n: nat) {
    var next := RunPolicy(run, n).nextCommand;
    next.Some? && next.value.ReadFile? && IsSource(run.task, next.value.path)
  }

  /**
   If listings and reads of created files succeed, the sources decide: the inspection ends if and only
   if each of them is read successfully at some turn.
   */
  lemma {:induction false} SourcesDecide(run: ClientRun)
    requires EndingRun(run) && forall n: nat :: WastedAt(run, n) ==> ReadsSource(run, n)
    ensures (exists n: nat :: AwaitsWrite(run, n)) <==> forall f :: IsSource(run.task, f) ==> EverRead(run, f)
  {
    hide RunSignals, RunPolicy, EndingRun, SequenceFiles, RequiredFiles, SeenRead, AwaitsWrite, NoWasteFrom, WastedAt,
      ReadsSource;
    if n: nat :| AwaitsWrite(run, n) {
      NextAwaited(run, n);
      InspectionComplete(run, n);
    } else if forall f :: IsSource(run.task, f) ==> EverRead(run, f) {
      var sources := Filter(SequenceFiles(run.task), f => IsSource(run.task, f));
      var n := FilesReadBy(run, sources);
      assert forall f :: IsSource(run.task, f) ==> f in sources;
      SourcesReadWasteNothing(run, n);
      var m := WorkAlong(run, n);
      IdleAwaits(run, m);
    }
  }

  lemma {:induction false} SourcesReadWasteNothing(run: ClientRun, n: nat)
    requires EndingRun(run) && forall n: nat :: WastedAt(run, n) ==> ReadsSource(run, n)
    requires forall f :: IsSource(run.task, f) ==> SeenRead(RunSignals(run, n).successful, f)
    ensures NoWasteFrom(run, n)
  {
    hide RunSignals, RunPolicy, EndingRun, Inspecting, AfterRun, SequenceFiles, RequiredFiles, SeenRead, SatisfiedRead,
      HasScaffold, WastedAt, Resolved, UnreadReference;
    forall m | m >= n
      ensures !WastedAt(run, m)
    {
      SuccessStays(run, n, m);
      RunInspecting(run, m);
      TurnFacts(run, m);
      if ReadsSource(run, m) {
        var f := RunPolicy(run, m).nextCommand.value.path;
        SeenMore(RunSignals(run, n).successful, RunSignals(run, m).successful, f);
        SatisfiedIsRead(run.task, RunSignals(run, m), f);
      }
    }
  }

  /** One read per source, three commands per target, a listing and a reference per style. */
  function TurnBound(task: Task): nat {
    Sum(SequenceFiles(task), f => if f in RequiredFiles(task) then 3 else 1) + 2 * |task.styles|
  }

  lemma {:induction false} StartWork(task: Task)
    ensures Work(task, NO_SIGNALS) <= TurnBound(task)
  {
    hide SequenceFiles, RequiredFiles, SatisfiedRead, HasScaffold, SeenRead, Resolved, UnreadReference;
    forall f
      ensures FileWeight(task, NO_SIGNALS, f) <= if f in RequiredFiles(task) then 3 else 1
    {
      StartShare(task, f);
    }
    SumShrinks(SequenceFiles(task), f => if f in RequiredFiles(task) then 3 else 1,
        f => FileWeight(task, NO_SIGNALS, f));
    StylesBounded(task, task.styles);
  }

  lemma {:induction false} StylesBounded(task: Task, styles: seq<Command>)
    ensures Sum(styles, c => StyleWeight(task, NO_SIGNALS, c)) <= 2 * |styles|
  {
    hide SequenceFiles, Resolved, UnreadReference;
    if styles != [] {
      StylesBounded(task, styles[1..]);
    }
  }

  lemma {:induction false} StartShare(task: Task, f: Path)
    ensures FileWeight(task, NO_SIGNALS, f) <= if f in RequiredFiles(task) then 3 else 1
  {
  }

  /** If no turn is wasted the inspection is over within the bound: from then on the write is awaited. */
  lemma {:induction false} InspectionEnds(run: ClientRun)
    requires EndingRun(run) && NoWasteFrom(run, 0)
    ensures exists n: nat :: n <= TurnBound(run.task) && AwaitsWrite(run, n)
  {
    hide RunSignals, RunPolicy, EndingRun, Work, TurnBound, AwaitsWrite, NoWasteFrom;
    var n := WorkAlong(run, 0);
    StartsInspecting(run);
    StartWork(run.task);
    IdleAwaits(run, n);
  }

  // What the inspection costs.

  lemma {:induction false} ShareStep(commands: seq<Command>, c: Command, f: Path)
    ensures multiset(commands + [c])[ReadFile(f)] + multiset(commands + [c])[CreateFile(f)] ==
            multiset(commands)[ReadFile(f)] + multiset(commands)[CreateFile(f)] + if Costs(c, f) then 1 else 0
  {
  }

  /** What each file has cost so far, together with what it can still cost, is at most its share. */
  lemma {:induction false} FileShare(run: ClientRun, n: nat, f: Path)
    requires EndingRun(run) && NoWasteFrom(run, 0) && f in SequenceFiles(run.task)
    ensures var s := RunSignals(run, n);
            multiset(s.commands)[ReadFile(f)] + multiset(s.commands)[CreateFile(f)] + FileWeight(run.task, s, f)
            <= if f in RequiredFiles(run.task) then 3 else 1
  {
    hide RunSignals, RunPolicy, EndingRun, Inspecting, FileWeight, ProposedFor, Wasted, SequenceFiles, RequiredFiles,
      Proposed, AfterRun, Costs;
    if n == 0 {
      StartsInspecting(run);
      StartShare(run.task, f);
    } else {
      var s, r := RunSignals(run, n - 1), RunSignals(run, n);
      FileShare(run, n - 1, f);
      RunInspecting(run, n - 1);
      TurnFacts(run, n - 1);
      assert !WastedAt(run, n - 1);
      var next := RunPolicy(run, n - 1).nextCommand;
      if next.Some? {
        RunAppends(s, r, next.value, run.outs(n - 1));
        FileStep(run.task, s, r, next.value, run.outs(n - 1), f);
        ShareStep(s.commands, next.value, f);
      }
    }
  }

  /** If no turn is wasted each style is listed at most once. */
  lemma {:induction false} ListedOnce(run: ClientRun, n: nat, d: Command)
    requires EndingRun(run) && NoWasteFrom(run, 0) && d in run.task.styles
    ensures var s := RunSignals(run, n); multiset(s.commands)[d] + (if Resolved(s, d) then 0 else 1) <= 1
  {
    hide RunSignals, RunPolicy, EndingRun, Inspecting, StyleWeight, ProposedFor, SequenceFiles, RequiredFiles, Proposed,
      Resolved, AfterRun;
    if n == 0 {
      StartsInspecting(run);
    } else {
      var s, r := RunSignals(run, n - 1), RunSignals(run, n);
      ListedOnce(run, n - 1, d);
      RunInspecting(run, n - 1);
      TurnFacts(run, n - 1);
      assert !WastedAt(run, n - 1);
      var next := RunPolicy(run, n - 1).nextCommand;
      if next.Some? {
        RunAppends(s, r, next.value, run.outs(n - 1));
        StyleStep(run.task, s, r, next.value, run.outs(n - 1), d);
        assert multiset(s.commands + [next.value]) == multiset(s.commands) + multiset{next.value};
      }
    }
  }

  /** The command reads a file that the task does not name: the reference of a style. */
  predicate ReadsReference(task: Task, c: Command) {
    c.ReadFile? && c.path !in SequenceFiles(task)
  }

  /** The style has not been listed, or the reference it names has not been read. */
  predicate StyleOpen(task: Task, s: Signals, d: Command) {
    !Resolved(s, d) || UnreadReference(OutputOf(s, d), SequenceFiles(task), s.commands).Some?
  }

  function OpenStyles(task: Task, s: Signals): (n: nat)
    ensures n <= |task.styles|
  {
    Count(task.styles, d => StyleOpen(task, s, d))
  }

  /** For all outcomes: at most one reference is read per style. */
  lemma {:induction false} ReferenceReads(run: ClientRun, n: nat)
    requires EndingRun(run)
    ensures var s := RunSignals(run, n);
            Count(s.commands, c => ReadsReference(run.task, c)) + OpenStyles(run.task, s) <= |run.task.styles|
  {
    hide RunSignals, RunPolicy, EndingRun, Inspecting, ProposedFor, Proposed, AfterRun, ReadsReference, OpenStyles;
    if n == 0 {
      StartsInspecting(run);
    } else {
      var s, r := RunSignals(run, n - 1), RunSignals(run, n);
      ReferenceReads(run, n - 1);
      RunInspecting(run, n - 1);
      TurnFacts(run, n - 1);
      var next := RunPolicy(run, n - 1).nextCommand;
      if next.Some? {
        RunAppends(s, r, next.value, run.outs(n - 1));
        CountAppend(s.commands, next.value, c => ReadsReference(run.task, c));
        OpenStylesShrink(run.task, s, r, next.value, run.outs(n - 1));
      }
    }
  }

  lemma {:induction false} CountAppend<T>(xs: seq<T>, x: T, p: T -> bool)
    ensures Count(xs + [x], p) == Count(xs, p) + if p(x) then 1 else 0
  {
    if xs != [] {
      assert (xs + [x])[1..] == xs[1..] + [x];
      CountAppend(xs[1..], x, p);
    }
  }

  /** A read of a reference closes the style that names it, and no command opens a style again. */
  lemma {:induction false} OpenStylesShrink(task: Task, s: Signals, r: Signals, c: Command, o: Output)
    requires Inspecting(task, s) && Inspecting(task, r) && AfterRun(s, r, c, o) && ProposedFor(task, s, c)
    ensures OpenStyles(task, r) + (if ReadsReference(task, c) then 1 else 0) <= OpenStyles(task, s)
  {
    forall d | d in task.styles
      ensures StyleOpen(task, r, d) ==> StyleOpen(task, s, d)
      ensures c.ReadFile? && Resolved(s, d)
              && UnreadReference(OutputOf(s, d), SequenceFiles(task), s.commands) == Some(c.path)
              ==> StyleOpen(task, s, d) && !StyleOpen(task, r, d)
    {
      StyleStep(task, s, r, c, o, d);
      DoneAfter(s, r, c, o, d);
      ReferenceAfter(s, r, c, o, OutputOf(s, d), SequenceFiles(task));
    }
    hide Inspecting, AfterRun, SequenceFiles, RequiredFiles, StyleOpen, Count, Resolved, UnreadReference, SatisfiedRead,
      SeenRead;
    CountShrinks(task.styles, d => StyleOpen(task, s, d), d => StyleOpen(task, r, d));
  }

  // Sources whose read has failed.

  /**
   A source that has been created had a failed read and none that was empty, and everything else was
   listed and read before.
   */
  ghost predicate CreatedAfterFailure(task: Task, s: Signals, f: Path) {
    HasScaffold(s.commands, f) ==>
      && SatisfiedRead(s, f) && SeenRead(s.failed, f) && !SeenRead(s.empty, f)
      && forall d :: d in task.styles ==> Resolved(s, d)
  }

  lemma {:induction false} StillCreatedAfterFailure(task: Task, s: Signals, r: Signals, c: Command, o: Output, f: Path)
    requires Inspecting(task, s) && Inspecting(task, r) && AfterRun(s, r, c, o) && ProposedFor(task, s, c)
    requires IsSource(task, f) && CreatedAfterFailure(task, s, f)
    ensures CreatedAfterFailure(task, r, f)
  {
    FactsAfter(task, s, r, c, o, f);
    StylesAreListings(task, s);
    forall d | d in task.styles
      ensures Resolved(s, d) ==> c != d && Resolved(r, d)
    {
      StyleStep(task, s, r, c, o, d);
    }
    hide Inspecting, AfterRun, SequenceFiles, RequiredFiles, SatisfiedRead, HasScaffold, SeenRead, Resolved,
      UnreadReference, Succeeds;
  }

  lemma {:induction false} RunCreatedAfterFailure(run: ClientRun, n: nat, f: Path)
    requires EndingRun(run) && IsSource(run.task, f)
    ensures CreatedAfterFailure(run.task, RunSignals(run, n), f)
  {
    hide RunSignals, RunPolicy, EndingRun, Inspecting, ProposedFor, Proposed, AfterRun, IsSource, CreatedAfterFailure;
    if n == 0 {
      StartsInspecting(run);
      NothingCreated(run.task, f);
    } else {
      RunCreatedAfterFailure(run, n - 1, f);
      RunInspecting(run, n - 1);
      TurnFacts(run, n - 1);
      if RunPolicy(run, n - 1).nextCommand.Some? {
        StillCreatedAfterFailure(run.task, RunSignals(run, n - 1), RunSignals(run, n),
                                 RunPolicy(run, n - 1).nextCommand.value, run.outs(n - 1), f);
      }
    }
  }

  lemma {:induction false} NothingCreated(task: Task, f: Path)
    ensures CreatedAfterFailure(task, NO_SIGNALS, f)
  {
  }

  /** During the inspection a file has been scaffolded exactly when it was created. */
  lemma {:induction false} ScaffoldedIsCreated(task: Task, s: Signals, f: Path)
    requires Inspecting(task, s)
    ensures HasScaffold(s.commands, f) <==> CreateFile(f) in s.commands
  {
    hide PositionsSound, ResultsSound;
    ScaffoldSeen(s.commands, f);
  }

  /**
   For all outcomes: by the time the inspection is over, a file that is only to be read has been created
   by a touch exactly when a read of it had failed and no read of it was empty.
   */
  lemma {:induction false} SourceTouched(run: ClientRun, n: nat, f: Path)
    requires EndingRun(run) && RunPolicy(run, n).nextCommand == None && IsSource(run.task, f)
    ensures var s := RunSignals(run, n);
            CreateFile(f) in s.commands <==> SeenRead(s.failed, f) && !SeenRead(s.empty, f)
  {
    hide RunSignals, RunPolicy, EndingRun, Inspecting, ProposedFor, Proposed, AfterRun, SequenceFiles, RequiredFiles,
      SeenRead, HasScaffold, SatisfiedRead, Resolved;
    var s := RunSignals(run, n);
    RunInspecting(run, n);
    TurnFacts(run, n);
    StylesAreListings(run.task, s);
    NothingProposed(run.task, s);
    RunCreatedAfterFailure(run, n, f);
    ScaffoldedIsCreated(run.task, s, f);
  }

  // A source that is never read, and one that is read the second time.

  const FAILED := Output(NO_TEXT, Some(false), None, None, "", false, None)
  const PRINTED := Output(OutputText(false, []), Some(true), None, None, "", false, None)

  /** The run of a client all of whose commands fail. */
  function BrokenRun(task: Task, e: Setting): ClientRun {
    ClientRun(task, e, [], n => "call", n => FAILED)
  }

  lemma {:induction false} NothingSucceeds(task: Task, e: Setting, n: nat)
    requires InspectingTask(task, e)
    ensures EndingRun(BrokenRun(task, e)) && forall c :: c !in RunSignals(BrokenRun(task, e), n).successful
  {
    hide RunSignals, RunPolicy, AfterRun, Inspecting, Proposed, ProposedFor;
    var run := BrokenRun(task, e);
    if n == 0 {
      StartsInspecting(run);
    } else {
      NothingSucceeds(task, e, n - 1);
      RunInspecting(run, n - 1);
      TurnFacts(run, n - 1);
      if RunPolicy(run, n - 1).nextCommand.Some? {
        SuccessGained(RunSignals(run, n - 1), RunSignals(run, n), RunPolicy(run, n - 1).nextCommand.value, FAILED);
      }
    }
  }

  /** A task that names a file never comes to its write if nothing succeeds. */
  lemma {:induction false} BrokenRunGoesOn(task: Task, e: Setting, n: nat)
    requires InspectingTask(task, e) && SequenceFiles(task) != []
    ensures EndingRun(BrokenRun(task, e)) && !AwaitsWrite(BrokenRun(task, e), n)
  {
    hide RunSignals, RunPolicy, EndingRun, SequenceFiles, AwaitsWrite;
    var run := BrokenRun(task, e);
    NothingSucceeds(task, e, n);
    if AwaitsWrite(run, n) {
      NextAwaited(run, n);
      InspectionComplete(run, n);
      ReadNeedsSuccess(RunSignals(run, n).successful, SequenceFiles(task)[0]);
    }
  }

  lemma {:induction false} ReadNeedsSuccess(seen: seq<Command>, f: Path)
    requires forall c :: c !in seen
    ensures !SeenRead(seen, f)
  {
  }

  /** The run of a client whose first command fails. */
  function SecondTryRun(task: Task, e: Setting): ClientRun {
    ClientRun(task, e, [], n => "call", n => if n == 0 then FAILED else PRINTED)
  }

  /** A source whose read fails once and then succeeds is created by the next command although it exists. */
  lemma {:induction false} TouchExample(task: Task, e: Setting, f: Path)
    requires InspectingTask(task, e) && task.styles == []
    requires IsSource(task, f) && forall g :: IsSource(task, g) ==> g == f
    ensures RunPolicy(SecondTryRun(task, e), 2).nextCommand == Some(CreateFile(f))
  {
    hide RunSignals, RunPolicy, Inspecting, AfterRun, Proposed, ProposedFor, IsSource;
    var run := SecondTryRun(task, e);
    var s0, s1, s2 := RunSignals(run, 0), RunSignals(run, 1), RunSignals(run, 2);
    StartsInspecting(run);
    TurnFacts(run, 0);
    SourceFirst(task, s0, f);
    TurnFacts(run, 1);
    FirstTry(s0, s1, f);
    SourceFirst(task, s1, f);
    TurnFacts(run, 2);
    SecondTry(s1, s2, f);
    TouchNext(task, s2, f);
  }

  lemma {:induction false} SourceFirst(task: Task, s: Signals, f: Path)
    requires IsSource(task, f) && (forall g :: IsSource(task, g) ==> g == f) && !SatisfiedRead(s, f)
    ensures Proposed(task, s) == Some(ReadFile(f))
  {
    hide SatisfiedRead, SequenceFiles, RequiredFiles;
    assert UnreadSource(s, RequiredFiles(task), f);
    assert IsSource(task, FirstSource(s, RequiredFiles(task), SequenceFiles(task)).value);
  }

  lemma {:induction false} FirstTry(s: Signals, r: Signals, f: Path)
    requires s == NO_SIGNALS && AfterRun(s, r, ReadFile(f), FAILED)
    ensures r.commands == [ReadFile(f)] && SeenRead(r.failed, f) && !SatisfiedRead(r, f) && !SeenRead(r.empty, f)
    ensures forall g :: SeenRead(r.failed, g) ==> g == f
  {
  }

  lemma {:induction false} SecondTry(s: Signals, r: Signals, f: Path)
    requires s.commands == [ReadFile(f)] && SeenRead(s.failed, f) && !SeenRead(s.empty, f)
    requires forall g :: SeenRead(s.failed, g) ==> g == f
    requires AfterRun(s, r, ReadFile(f), PRINTED)
    ensures r.commands == [ReadFile(f), ReadFile(f)] && SatisfiedRead(r, f) && SeenRead(r.failed, f)
            && !SeenRead(r.empty, f)
    ensures forall g :: SeenRead(r.failed, g) ==> g == f
  {
    hide SeenRead, Gained;
    SeenGained(s.successful, r.successful, true, ReadFile(f), f);
    SeenGained(s.empty, r.empty, false, ReadFile(f), f);
    forall g
      ensures SeenRead(r.failed, g) <==> SeenRead(s.failed, g)
    {
      SeenGained(s.failed, r.failed, false, ReadFile(f), g);
    }
  }

  lemma {:induction false} TouchNext(task: Task, s: Signals, f: Path)
    requires task.styles == [] && IsSource(task, f) && (forall g :: IsSource(task, g) ==> g == f)
    requires s.commands == [ReadFile(f), ReadFile(f)] && SatisfiedRead(s, f) && SeenRead(s.failed, f)
             && !SeenRead(s.empty, f)
    requires forall g :: SeenRead(s.failed, g) ==> g == f
    ensures Proposed(task, s) == Some(CreateFile(f))
  {
    hide SatisfiedRead, SequenceFiles, RequiredFiles, SeenRead, HasScaffold;
    forall g
      ensures !HasScaffold(s.commands, g)
    {
      ScaffoldSeen(s.commands, g);
    }
    var source := FirstSource(s, RequiredFiles(task), SequenceFiles(task));
    assert source.Some? ==> IsSource(task, source.value);
    assert ToCreate(s, f);
  }
}
