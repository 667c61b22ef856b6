/** Choosing the next command from the task's files, styles and commands and the signals so far. */
module CommandChooser {
  import opened Text
  import opened PolicyModel

  /** The command needs no further run. Without any success flag, having been run is enough. */
  predicate Resolved(s: Signals, c: Command) {
    c in s.successful
    || (c.IsReadOnly() && c !in s.failed && (c in s.withResult || c in s.commands))
    || (s.successful == [] && !(c.IsReadOnly() && c in s.failed) && c in s.commands)
  }

  /** Test files that may show the house style: no benchmarks, no style tests. */
  predicate IsStyleReference(p: Path) {
    var lower := Lower(p);
    HasSuffix(lower, "_test.go") && !HasSuffix(lower, "_benchmark_test.go") && !Contains(lower, "style_test.go")
  }

  predicate HasSuffix(s: string, suffix: string) {
    |suffix| <= |s| && s[|s| - |suffix|..] == suffix
  }

  /** The first reference a style listing names, unless it has been read. */
  function UnreadReference(text: OutputText, files: seq<Path>, seen: seq<Command>): Option<Path> {
    var candidate := First(Deduped(text.paths), (p: Path) => IsStyleReference(p) && p !in files);
    if candidate.Some? && SeenRead(seen, candidate.value) then None else candidate
  }

  function OutputOf(s: Signals, c: Command): OutputText {
    if c in s.outputs then s.outputs[c] else NO_TEXT
  }

  /** `chooseNextStyleInspectionCommand`. */
  function NextStyle(styles: seq<Command>, files: seq<Path>, s: Signals): Option<Command> {
    if styles == [] then None
    else if !Resolved(s, styles[0]) then Some(styles[0])
    else
      match UnreadReference(OutputOf(s, styles[0]), files, s.commands)
      case Some(p) => Some(ReadFile(p))
      case None => NextStyle(styles[1..], files, s)
  }

  function Read(p: Option<Path>): Option<Command> {
    if p.Some? then Some(ReadFile(p.value)) else None
  }

  predicate UnreadSource(s: Signals, targets: seq<Path>, f: Path) {
    f !in targets && !SatisfiedRead(s, f)
  }

  predicate UnreadScaffold(s: Signals, f: Path) {
    HasScaffold(s.commands, f) && !SatisfiedRead(s, f)
  }

  /** A file whose read failed, that is not known to be empty and has not been created and read. */
  predicate ToCreate(s: Signals, f: Path) {
    SeenRead(s.failed, f) && !SeenRead(s.empty, f) && !(HasScaffold(s.commands, f) && SeenRead(s.commands, f))
  }

  function FirstSource(s: Signals, targets: seq<Path>, files: seq<Path>): (r: Option<Path>)
    ensures r == None ==> forall f :: f in files ==> !UnreadSource(s, targets, f)
    ensures r.Some? ==> r.value in files && UnreadSource(s, targets, r.value)
  {
    First(files, f => UnreadSource(s, targets, f))
  }

  function FirstScaffold(s: Signals, files: seq<Path>): (r: Option<Path>)
    ensures r == None ==> forall f :: f in files ==> !UnreadScaffold(s, f)
    ensures r.Some? ==> r.value in files && UnreadScaffold(s, r.value)
  {
    First(files, f => UnreadScaffold(s, f))
  }

  function FirstToCreate(s: Signals, files: seq<Path>): (r: Option<Path>)
    ensures r == None ==> forall f :: f in files ==> !ToCreate(s, f)
    ensures r.Some? ==> r.value in files && ToCreate(s, r.value)
  {
    First(files, f => ToCreate(s, f))
  }

  function FirstUnsatisfied(s: Signals, files: seq<Path>): (r: Option<Path>)
    ensures r == None ==> forall f :: f in files ==> SatisfiedRead(s, f)
    ensures r.Some? ==> r.value in files && !SatisfiedRead(s, r.value)
  {
    First(files, f => !SatisfiedRead(s, f))
  }

  /** Before the first write: sources, then styles, then the targets. */
  function NextInspection(files: seq<Path>, styles: seq<Command>, s: Signals, targets: seq<Path>): Option<Command> {
    if FirstSource(s, targets, files).Some? then Read(FirstSource(s, targets, files))
    else if NextStyle(styles, files, s).Some? then NextStyle(styles, files, s)
    else if FirstScaffold(s, files).Some? then Read(FirstScaffold(s, files))
    else if FirstToCreate(s, files).Some? then Some(CreateFile(FirstToCreate(s, files).value))
    else Read(FirstUnsatisfied(s, files))
  }

  /** The file has not been read since the last failed test. */
  predicate ToReread(s: Signals, f: Path) {
    !(f in s.readPos && s.readPos[f] > s.lastFailedTest)
  }

  /** `chooseRepairReadTarget`. */
  function RepairTarget(files: seq<Path>, s: Signals): (r: Option<Path>)
    ensures r == None ==> forall f :: f in files ==> !ToReread(s, f)
    ensures r.Some? ==> r.value in files && ToReread(s, r.value)
  {
    First(files, f => ToReread(s, f))
  }

  /** The first element that passes stays the first if no further element passes. */
  lemma {:induction false} FirstSame<T(!new)>(xs: seq<T>, p: T -> bool, q: T -> bool)
    requires forall x :: x in xs && q(x) ==> p(x)
    requires First(xs, p).Some? ==> q(First(xs, p).value)
    ensures First(xs, q) == First(xs, p)
  {
    if xs != [] {
      assert xs[0] in xs;
      if !p(xs[0]) {
        FirstSame(xs[1..], p, q);
      }
    }
  }

  lemma {:induction false} SameTarget(files: seq<Path>, s: Signals, r: Signals)
    requires r.readPos == s.readPos && r.lastFailedTest == s.lastFailedTest
    ensures RepairTarget(files, r) == RepairTarget(files, s)
  {
    FirstSame(files, f => ToReread(s, f), f => ToReread(r, f));
  }

  predicate ExplicitlyRead(commands: seq<Command>, f: Path) {
    SeenRead(commands, f)
  }

  predicate Unread(commands: seq<Command>, s: Signals, f: Path) {
    !ExplicitlyRead(commands, f) && !SeenRead(s.commands, f)
  }

  /** A required command still to be run; outside write tasks a test that failed is not repeated. */
  predicate Unmet(s: Signals, needsWrite: bool, c: Command) {
    !Resolved(s, c) && !(!needsWrite && c.IsTest() && c in s.failed)
  }

  function FirstUnread(commands: seq<Command>, s: Signals, files: seq<Path>): (r: Option<Path>)
    ensures r == None ==> forall f :: f in files ==> !Unread(commands, s, f)
    ensures r.Some? ==> r.value in files && Unread(commands, s, r.value)
  {
    First(files, f => Unread(commands, s, f))
  }

  function FirstUnmet(commands: seq<Command>, s: Signals, needsWrite: bool): (r: Option<Command>)
    ensures r == None ==> forall c :: c in commands ==> !Unmet(s, needsWrite, c)
    ensures r.Some? ==> r.value in commands && Unmet(s, needsWrite, r.value)
  {
    First(commands, c => Unmet(s, needsWrite, c))
  }

  function FirstUnseen(s: Signals, files: seq<Path>): (r: Option<Path>)
    ensures r == None ==> forall f :: f in files ==> SeenRead(s.commands, f)
    ensures r.Some? ==> r.value in files && !SeenRead(s.commands, r.value)
  {
    First(files, f => !SeenRead(s.commands, f))
  }

  /** `chooseNextExecutionCommandWithStyles`. */
  function NextCommand(commands: seq<Command>, files: seq<Path>, styles: seq<Command>, s: Signals, needsWrite: bool,
                       targets: seq<Path>): Option<Command> {
    if needsWrite && s.writeCalls == 0 then NextInspection(files, styles, s, targets)
    else if needsWrite && s.lastFailedTest > 0 && s.lastFailedTest > s.lastWrite then Read(RepairTarget(files, s))
    else if !needsWrite && FirstUnread(commands, s, files).Some? then Read(FirstUnread(commands, s, files))
    else if FirstUnmet(commands, s, needsWrite).Some? then FirstUnmet(commands, s, needsWrite)
    else if commands != [] then None
    else Read(FirstUnseen(s, files))
  }
}
