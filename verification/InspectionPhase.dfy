/** Before the first write a task only inspects: what each command of the inspection does. */
module InspectionPhase {
  import opened Text
  import opened PolicyModel
  import opened SignalsInvariant
  import opened CommandChooser
  import opened ExecutionPolicy
  import opened PolicyRuns

  /** A style listing: a command that only reads. */
  predicate Listing(c: Command) {
    c.Shell? && c.IsReadOnly() && !c.IsTest() && !c.IsMutation() && !c.IsScaffold() && !c.IsGuardFailure()
  }

  /** A write task whose styles are listings. */
  ghost predicate InspectingTask(task: Task, e: Setting) {
    WriteTask(task, e) && forall c :: c in task.styles ==> Listing(c)
  }

  function Proposed(task: Task, s: Signals): Option<Command> {
    NextInspection(SequenceFiles(task), task.styles, s, RequiredFiles(task))
  }

  /** A file that is inspected but not to be written. */
  predicate IsSource(task: Task, f: Path) {
    f in SequenceFiles(task) && f !in RequiredFiles(task)
  }

  /** The commands of the inspection: reads, new files and listings, each with its result. */
  ghost predicate OnlyInspected(task: Task, s: Signals) {
    && (forall c :: c in s.commands ==> c in s.successful || c in s.failed)
    && (forall c :: c in s.commands ==> c.ReadFile? || c.CreateFile? || c in task.styles)
  }

  ghost predicate Inspecting(task: Task, s: Signals) {
    && Sound(s) && OnlyInspected(task, s) && s.runningSession == "" && s.writeCalls == 0 && s.lastFailedTest == 0
    && forall c :: c in task.styles ==> Listing(c)
  }

  /**
   A failure after which the same command is proposed again: of a listing, or of the read of a source
   or of a file that has been created.
   */
  predicate Wasted(task: Task, s: Signals, c: Command, o: Output) {
    !Succeeds(c, o)
    && (c in task.styles || (c.ReadFile? && c.path in SequenceFiles(task)
       && (IsSource(task, c.path) || HasScaffold(s.commands, c.path))))
  }

  // What the policy proposes.

  lemma {:induction false} BuiltInspecting(task: Task, s: Signals, e: Setting)
    requires InspectingTask(task, e) && Inspecting(task, s)
    ensures var p := Build(task, s, e);
            p.nextCommand == Proposed(task, s) && p.pendingWrite && p.stage in {Explore, Execute}
  {
    InspectingFacts(task, s, e);
    hide Inspecting, InspectingTask;
    DemandedInspecting(task, s, e);
    NoPoll(s, e);
    hide FinalDemand, Proposed, Deduped, RequiredFiles, MissingFiles, EmptyFiles, RepeatedScaffolds, AllFilesSeen,
      NeedsWrite, ForcesNextCommand, ExecCall, Polls;
  }

  lemma {:induction false} InspectingFacts(task: Task, s: Signals, e: Setting)
    requires InspectingTask(task, e) && Inspecting(task, s)
    ensures s.writeCalls == 0 && s.lastFailedTest == 0 && s.runningSession == "" && !GuardFailureSeen(s)
    ensures task.usesTools && NeedsWrite(task) && e.requiredTool == "" && e.seed == None
  {
  }

  lemma {:induction false} DemandedInspecting(task: Task, s: Signals, e: Setting)
    requires s.writeCalls == 0 && s.lastFailedTest == 0 && !GuardFailureSeen(s)
    requires NeedsWrite(task) && e.requiredTool == "" && e.seed == None
    ensures FinalDemand(task, s, e) == Demand(Proposed(task, s), true, "")
  {
  }

  // The weight of a file and of a style: how many commands it can still cost.

  /** A source whose read has failed once is created when it has been read, unless it was empty. */
  function FileWeight(task: Task, s: Signals, f: Path): nat {
    if HasScaffold(s.commands, f) then if SatisfiedRead(s, f) then 0 else 1
    else if SatisfiedRead(s, f) && (SeenRead(s.empty, f) || !SeenRead(s.failed, f)) then 0
    else if SatisfiedRead(s, f) then 1
    else if SeenRead(s.failed, f) then 2
    else if f !in RequiredFiles(task) then 1
    else 3
  }

  function StyleWeight(task: Task, s: Signals, c: Command): nat {
    if !Resolved(s, c) then 2
    else if UnreadReference(OutputOf(s, c), SequenceFiles(task), s.commands).Some? then 1
    else 0
  }

  /** During the inspection a file counts as read exactly when a read of it succeeded. */
  lemma {:induction false} SatisfiedIsRead(task: Task, s: Signals, f: Path)
    requires Inspecting(task, s)
    ensures SatisfiedRead(s, f) <==> SeenRead(s.successful, f)
  {
  }

  lemma {:induction false} ResolvedIsDone(task: Task, s: Signals, c: Command)
    requires Inspecting(task, s) && c.Shell?
    ensures Resolved(s, c) <==> c in s.successful
  {
  }

  lemma {:induction false} SeenGained(before: seq<Command>, after: seq<Command>, condition: bool, c: Command, f: Path)
    requires Gained(before, after, condition, c)
    ensures SeenRead(after, f) <==> SeenRead(before, f) || (condition && c.IsReadOnly() && c.Mentions(f))
  {
  }

  lemma {:induction false} AppendGained(before: seq<Command>, c: Command)
    ensures Gained(before, before + [c], true, c)
  {
  }

  lemma {:induction false} ScaffoldGained(before: seq<Command>, c: Command, f: Path)
    ensures HasScaffold(before + [c], f) <==> HasScaffold(before, f) || (c.IsScaffold() && c.Mentions(f))
  {
    ScaffoldSeen(before, f);
    ScaffoldSeen(before + [c], f);
    assert c in before + [c];
    assert forall d :: d in before ==> d in before + [c];
  }

  /** The facts about a file that its weight depends on, before and after a command. */
  lemma {:induction false} FactsAfter(task: Task, s: Signals, r: Signals, c: Command, o: Output, f: Path)
    requires Inspecting(task, s) && Inspecting(task, r) && AfterRun(s, r, c, o)
    ensures var hit := c.IsReadOnly() && c.Mentions(f);
            && (SatisfiedRead(r, f) <==> SatisfiedRead(s, f) || (Succeeds(c, o) && hit))
            && (SeenRead(r.failed, f) <==> SeenRead(s.failed, f) || (!Succeeds(c, o) && hit))
            && (SeenRead(r.commands, f) <==> SeenRead(s.commands, f) || hit)
            && (SeenRead(r.empty, f) <==> SeenRead(s.empty, f) || (Succeeds(c, o) && o.text.blank && hit))
            && (HasScaffold(r.commands, f) <==> HasScaffold(s.commands, f) || (c.IsScaffold() && c.Mentions(f)))
  {
    hide Inspecting, SeenRead, Gained, Succeeds, IsWrite, SatisfiedRead, HasScaffold;
    SatisfiedIsRead(task, s, f);
    SatisfiedIsRead(task, r, f);
    SeenGained(s.successful, r.successful, Succeeds(c, o), c, f);
    SeenGained(s.failed, r.failed, !Succeeds(c, o), c, f);
    SeenGained(s.empty, r.empty, Succeeds(c, o) && c.IsReadOnly() && o.text.blank, c, f);
    AppendGained(s.commands, c);
    SeenGained(s.commands, r.commands, true, c, f);
    ScaffoldGained(s.commands, c, f);
  }

  /** What is known about the command that is proposed. */
  ghost predicate ProposedFor(task: Task, s: Signals, c: Command) {
    match c
    case ReadFile(p) =>
      if p in SequenceFiles(task) then
        !SatisfiedRead(s, p) && (p in RequiredFiles(task) && !HasScaffold(s.commands, p) ==> !SeenRead(s.failed, p))
      else exists d :: d in task.styles && Resolved(s, d)
                       && UnreadReference(OutputOf(s, d), SequenceFiles(task), s.commands) == Some(p)
    case CreateFile(p) =>
      && p in SequenceFiles(task) && SeenRead(s.failed, p) && !SeenRead(s.empty, p) && !HasScaffold(s.commands, p)
      && (IsSource(task, p) ==> SatisfiedRead(s, p)) && forall d :: d in task.styles ==> Resolved(s, d)
    case _ => c in task.styles && !Resolved(s, c)
  }

  lemma {:induction false} StyleProposed(task: Task, s: Signals, styles: seq<Command>)
    requires forall c :: c in styles ==> c in task.styles && Listing(c)
    ensures var next := NextStyle(styles, SequenceFiles(task), s);
            if next.Some? then ProposedFor(task, s, next.value) && !next.value.CreateFile?
                               && (next.value.ReadFile? ==> next.value.path !in SequenceFiles(task))
            else forall c :: c in styles ==>
              Resolved(s, c) && UnreadReference(OutputOf(s, c), SequenceFiles(task), s.commands) == None
  {
    hide Resolved, UnreadReference, SequenceFiles, RequiredFiles, SatisfiedRead, HasScaffold, SeenRead;
    if styles != [] {
      assert Listing(styles[0]);
    }
    if styles != [] && Resolved(s, styles[0]) {
      var reference := UnreadReference(OutputOf(s, styles[0]), SequenceFiles(task), s.commands);
      if reference.Some? {
        ReferenceIsNoTarget(OutputOf(s, styles[0]), SequenceFiles(task), s.commands);
        assert styles[0] in task.styles;
      } else {
        StyleProposed(task, s, styles[1..]);
      }
    }
  }

  lemma {:induction false} ReferenceIsNoTarget(text: OutputText, files: seq<Path>, seen: seq<Command>)
    ensures var p := UnreadReference(text, files, seen); p.Some? ==> p.value !in files && !SeenRead(seen, p.value)
  {
  }

  /** A file to be created has a failed read, is not known to be empty and has not been created. */
  lemma {:induction false} CreatedOnce(task: Task, s: Signals, f: Path)
    requires Inspecting(task, s) && ToCreate(s, f)
    ensures SeenRead(s.failed, f) && !SeenRead(s.empty, f) && !HasScaffold(s.commands, f)
  {
    hide PositionsSound, CountsSound;
  }

  /** A target that is unread, not created and not to be created has no failed read. */
  lemma {:induction false} FreshTarget(task: Task, s: Signals, f: Path)
    requires Inspecting(task, s) && !SatisfiedRead(s, f) && !ToCreate(s, f) && !HasScaffold(s.commands, f)
    ensures !SeenRead(s.failed, f)
  {
  }

  lemma {:induction false} NextIsProposedFor(task: Task, s: Signals)
    requires Inspecting(task, s)
    ensures Proposed(task, s).Some? ==> ProposedFor(task, s, Proposed(task, s).value)
  {
    StylesAreListings(task, s);
    hide Inspecting, SequenceFiles, RequiredFiles, SatisfiedRead, HasScaffold, SeenRead, Resolved, UnreadReference,
      ToCreate, Listing, NextStyle, FirstSource, FirstScaffold, FirstToCreate, FirstUnsatisfied;
    var files := SequenceFiles(task);
    StyleProposed(task, s, task.styles);
    var missing, unread := FirstToCreate(s, files), FirstUnsatisfied(s, files);
    if missing.Some? {
      CreatedOnce(task, s, missing.value);
    } else if unread.Some? && !HasScaffold(s.commands, unread.value) {
      FreshTarget(task, s, unread.value);
    }
  }

  lemma {:induction false} StylesAreListings(task: Task, s: Signals)
    requires Inspecting(task, s)
    ensures forall c :: c in task.styles ==> Listing(c)
    ensures forall c :: c in task.styles ==> c.Shell?
  {
  }

  // One turn.

  predicate Costs(c: Command, f: Path) {
    c == ReadFile(f) || c == CreateFile(f)
  }

  /** A command that is not wasted spends the weight of the file it is for and adds to no file's weight. */
  lemma {:induction false} FileStep(task: Task, s: Signals, r: Signals, c: Command, o: Output, f: Path)
    requires Inspecting(task, s) && Inspecting(task, r) && AfterRun(s, r, c, o)
    requires ProposedFor(task, s, c) && !Wasted(task, s, c, o) && f in SequenceFiles(task)
    ensures FileWeight(task, r, f) + (if Costs(c, f) then 1 else 0) <= FileWeight(task, s, f)
  {
    FactsAfter(task, s, r, c, o, f);
    StylesAreListings(task, s);
    hide Inspecting, AfterRun, SequenceFiles, RequiredFiles, SatisfiedRead, HasScaffold, SeenRead, Resolved,
      UnreadReference, Succeeds;
  }

  /** A listing that succeeds spends the weight of its style; no command adds to a style's weight. */
  lemma {:induction false} StyleStep(task: Task, s: Signals, r: Signals, c: Command, o: Output, d: Command)
    requires Inspecting(task, s) && Inspecting(task, r) && AfterRun(s, r, c, o)
    requires ProposedFor(task, s, c) && d in task.styles
    ensures StyleWeight(task, r, d) + (if c == d && Succeeds(c, o) then 1 else 0) <= StyleWeight(task, s, d)
    ensures Resolved(s, d) ==> c != d && Resolved(r, d)
    ensures c == d && Succeeds(c, o) ==> Resolved(r, d)
    ensures c.ReadFile? && Resolved(s, d)
            && UnreadReference(OutputOf(s, d), SequenceFiles(task), s.commands) == Some(c.path)
            ==> StyleWeight(task, r, d) < StyleWeight(task, s, d)
  {
    StylesAreListings(task, s);
    ResolvedIsDone(task, s, d);
    ResolvedIsDone(task, r, d);
    DoneAfter(s, r, c, o, d);
    ReferenceAfter(s, r, c, o, OutputOf(s, d), SequenceFiles(task));
    hide Inspecting, AfterRun, SequenceFiles, RequiredFiles, SatisfiedRead, HasScaffold, SeenRead, Resolved,
      UnreadReference, Succeeds;
  }

  lemma {:induction false} DoneAfter(s: Signals, r: Signals, c: Command, o: Output, d: Command)
    requires AfterRun(s, r, c, o)
    ensures d in r.successful <==> d in s.successful || (Succeeds(c, o) && c == d)
    ensures c != d ==> OutputOf(r, d) == OutputOf(s, d)
  {
  }

  lemma {:induction false} ReferenceAfter(s: Signals, r: Signals, c: Command, o: Output, text: OutputText,
                                          files: seq<Path>)
    requires AfterRun(s, r, c, o)
    ensures UnreadReference(text, files, s.commands) == None ==> UnreadReference(text, files, r.commands) == None
    ensures c.ReadFile? && UnreadReference(text, files, s.commands) == Some(c.path)
            ==> UnreadReference(text, files, r.commands) == None
  {
  }

  /** The inspection goes on being one. */
  lemma {:induction false} StillInspecting(task: Task, s: Signals, r: Signals, c: Command, o: Output)
    requires Inspecting(task, s) && AfterRun(s, r, c, o) && Sound(r) && r.runningSession == ""
    requires ProposedFor(task, s, c)
    ensures Inspecting(task, r)
  {
    hide SequenceFiles, SatisfiedRead, HasScaffold, SeenRead, Resolved, UnreadReference, Sound;
  }

  // The work that is left.

  function Sum<T>(xs: seq<T>, weight: T -> nat): nat {
    if xs == [] then 0 else weight(xs[0]) + Sum(xs[1..], weight)
  }

  lemma {:induction false} SumShrinks<T(!new)>(xs: seq<T>, w: T -> nat, v: T -> nat)
    requires forall x :: x in xs ==> v(x) <= w(x)
    ensures Sum(xs, v) <= Sum(xs, w)
    ensures (exists x :: x in xs && v(x) < w(x)) ==> Sum(xs, v) < Sum(xs, w)
  {
    if xs != [] {
      SumShrinks(xs[1..], w, v);
      assert xs[0] in xs;
    }
  }

  function FileWork(task: Task, s: Signals): nat {
    Sum(SequenceFiles(task), f => FileWeight(task, s, f))
  }

  function StyleWork(task: Task, s: Signals): nat {
    Sum(task.styles, c => StyleWeight(task, s, c))
  }

  function Work(task: Task, s: Signals): nat {
    FileWork(task, s) + StyleWork(task, s)
  }

  lemma {:induction false} FileWorkShrinks(task: Task, s: Signals, r: Signals, c: Command, o: Output)
    requires Inspecting(task, s) && Inspecting(task, r) && AfterRun(s, r, c, o)
    requires ProposedFor(task, s, c) && !Wasted(task, s, c, o)
    ensures FileWork(task, r) <= FileWork(task, s)
    ensures (exists f :: f in SequenceFiles(task) && Costs(c, f)) ==> FileWork(task, r) < FileWork(task, s)
  {
    hide Inspecting, AfterRun, SequenceFiles, FileWeight, ProposedFor, Wasted, Sum, Costs;
    forall f | f in SequenceFiles(task)
      ensures FileWeight(task, r, f) + (if Costs(c, f) then 1 else 0) <= FileWeight(task, s, f)
    {
      FileStep(task, s, r, c, o, f);
    }
    SumShrinks(SequenceFiles(task), f => FileWeight(task, s, f), f => FileWeight(task, r, f));
  }

  lemma {:induction false} StyleWorkShrinks(task: Task, s: Signals, r: Signals, c: Command, o: Output)
    requires Inspecting(task, s) && Inspecting(task, r) && AfterRun(s, r, c, o)
    requires ProposedFor(task, s, c) && !Wasted(task, s, c, o)
    ensures StyleWork(task, r) <= StyleWork(task, s)
    ensures !(exists f :: f in SequenceFiles(task) && Costs(c, f)) ==> StyleWork(task, r) < StyleWork(task, s)
  {
    var styles := task.styles;
    forall d | d in styles
      ensures StyleWeight(task, r, d) + (if c == d then 1 else 0) <= StyleWeight(task, s, d)
      ensures c.ReadFile? && Resolved(s, d)
              && UnreadReference(OutputOf(s, d), SequenceFiles(task), s.commands) == Some(c.path)
              ==> StyleWeight(task, r, d) < StyleWeight(task, s, d)
    {
      StyleStep(task, s, r, c, o, d);
    }
    if !(exists f :: f in SequenceFiles(task) && Costs(c, f)) {
      StyleSpent(task, s, c);
    }
    hide Inspecting, AfterRun, SequenceFiles, StyleWeight, ProposedFor, Wasted, Sum, Costs, Resolved, UnreadReference;
    SumShrinks(styles, d => StyleWeight(task, s, d), d => StyleWeight(task, r, d));
  }

  /** A command that is for no file is a listing, or reads the reference of a style. */
  lemma {:induction false} StyleSpent(task: Task, s: Signals, c: Command)
    requires ProposedFor(task, s, c) && !(exists f :: f in SequenceFiles(task) && Costs(c, f))
    ensures c in task.styles
            || (c.ReadFile? && exists d ::
                  && d in task.styles && Resolved(s, d)
                  && UnreadReference(OutputOf(s, d), SequenceFiles(task), s.commands) == Some(c.path))
  {
  }

  /** Every turn of the inspection leaves less work, unless it is wasted. */
  lemma {:induction false} WorkShrinks(task: Task, s: Signals, r: Signals, o: Output)
    requires Inspecting(task, s) && Inspecting(task, r) && Proposed(task, s).Some?
    requires AfterRun(s, r, Proposed(task, s).value, o) && !Wasted(task, s, Proposed(task, s).value, o)
    ensures Work(task, r) < Work(task, s)
  {
    hide Inspecting, AfterRun, SequenceFiles, FileWork, StyleWork, Wasted, Costs, Proposed, ProposedFor;
    NextIsProposedFor(task, s);
    FileWorkShrinks(task, s, r, Proposed(task, s).value, o);
    StyleWorkShrinks(task, s, r, Proposed(task, s).value, o);
  }

  /**
   A source whose read has failed and never succeeded is read again: the inspection proposes reads
   of sources as long as there is one, whatever else has been done.
   */
  lemma {:induction false} FailedSourceHoldsBack(task: Task, s: Signals, f: Path)
    requires IsSource(task, f) && SeenRead(s.failed, f) && !SeenRead(s.successful, f)
    ensures var next := Proposed(task, s); next.Some? && next.value.ReadFile? && IsSource(task, next.value.path)
  {
    hide SequenceFiles, RequiredFiles;
  }
}
