/**
 * Create-only arbitration over a directory tree that other processes keep changing: each run inspects its
 * target, takes one lock shared by every target of the file system, inspects again, makes the missing
 * directories one by one, inspects once more and publishes an index where none may exist.
 *
 * Every file-system call is one step, so other processes act between any two of them. Any call may fail.
 */
module CreateOnly {
  import opened Records

  type Path = seq<string>
  type RunId = nat

  const INDEX := "index.md"

  /** The names under which a directory's own conventional workspace lives. */
  const BUNDLE_DIRS: seq<string> := [".superbee", ".agentstate-lite"]

  datatype Node = Directory(identity: nat) | File

  datatype Phase = Preflight | Locked | PrePublish

  /** Where a target resolved to: an existing physical prefix, the names missing below it, and its own identity. */
  datatype Resolution = Resolution(physicalPrefix: Path, missingTail: seq<string>, identity: Option<nat>)

  function TargetOf(r: Resolution): Path {
    r.physicalPrefix + r.missingTail
  }

  datatype Publication = NotStarted | StartedOrUncertain | Published

  datatype Report = Report(failed: bool, outcome: Option<Publication>, residual: seq<Path>)

  datatype Pc =
    | Resolving(phase: Phase)
    | Inspecting(phase: Phase, r: Resolution, k: nat)
    | Waiting
    | Creating(current: Path, missing: seq<string>)
    | Made(path: Path, missing: seq<string>)          // the directory exists and is not yet recorded
    | ReadyToPublish
    | Publishing
    | Leaving(failed: bool)                           // still holds the lock
    | Finished
    | Dead

  /**
   * One run: its own variables, and what it really did. `called`, `returned`, `wrote` and `made` are what
   * happened to the world; `publication` and `created` are what the run remembers.
   */
  datatype Run = Run(
    pc: Pc, initial: Option<Resolution>, locked: Option<Resolution>, created: seq<Path>, publication: Publication,
    called: bool, returned: bool, wrote: bool, made: seq<Path>, report: Option<Report>)

  datatype World = World(tree: map<Path, Node>, holder: Option<RunId>, runs: map<RunId, Run>)

  const FRESH_RUN := Run(Resolving(Preflight), None, None, [], NotStarted, false, false, false, [], None)

  function Target(run: Run): Path {
    if run.initial.Some? then TargetOf(run.initial.value) else []
  }

  // ---- resolving a target ----

  datatype Kind = PhysicalDirectory | SymbolicLink | OtherFile
  datatype Stat = Absent | ThroughFile | Unreadable | Found(kind: Kind, identity: nat)
  datatype Resolved = ResolvedAs(r: Resolution) | TargetConflict | Uncertain

  /** The first path with an answer, going up from the target: every longer one is absent. */
  predicate AnswersFirst(logical: Path, lstat: Path -> Stat, n: nat) {
    && n <= |logical| && (n == 0 || lstat(logical[..n]) != Absent)
    && forall m :: n < m <= |logical| ==> lstat(logical[..m]) == Absent
  }

  /** A target resolves when its nearest existing path is a directory, or, above the target, a link to follow. */
  predicate ResolvesTo(logical: Path, lstat: Path -> Stat, realpath: Path -> Option<Path>, r: Resolution) {
    exists n :: 0 <= n <= |logical| && AnswersFirst(logical, lstat, n) && lstat(logical[..n]).Found?
      && (lstat(logical[..n]).kind == PhysicalDirectory || (n < |logical| && lstat(logical[..n]).kind == SymbolicLink))
      && realpath(logical[..n]).Some?
      && r ==
           Resolution(realpath(logical[..n]).value, logical[n..],
                      if n == |logical| then Some(lstat(logical[..n]).identity) else None)
  }

  /** A file stands where a directory must be, or the target itself is a link. */
  predicate InTheWay(stat: Stat, isTarget: bool) {
    stat.ThroughFile? || (stat.Found? && (stat.kind == OtherFile || (isTarget && stat.kind == SymbolicLink)))
  }

  method ResolvePhysicalTarget(logical: Path, lstat: Path -> Stat, realpath: Path -> Option<Path>)
      returns (resolved: Resolved)
    ensures forall r :: resolved == ResolvedAs(r) <==> ResolvesTo(logical, lstat, realpath, r)
    ensures resolved == TargetConflict <==>
      exists n ::
        0 <= n <= |logical| && AnswersFirst(logical, lstat, n) && InTheWay(lstat(logical[..n]), n == |logical|)
  {
    var existingPrefix, missingTail := logical, [];
    while lstat(existingPrefix) == Absent && existingPrefix != []
      invariant existingPrefix + missingTail == logical
      invariant forall m :: |existingPrefix| < m <= |logical| ==> lstat(logical[..m]) == Absent
      decreases |existingPrefix|
    {
      var n := |existingPrefix|;
      assert logical[..n] == existingPrefix;
      missingTail := [existingPrefix[n - 1]] + missingTail;
      existingPrefix := existingPrefix[..n - 1];
    }
    ghost var n := |existingPrefix|;
    assert logical[..n] == existingPrefix && logical[n..] == missingTail && AnswersFirst(logical, lstat, n);
    assert logical[..|logical|] == logical;
    FirstAnswerIsUnique(logical, lstat, n);
    match lstat(existingPrefix) {
      case ThroughFile => return TargetConflict;
      case Found(kind, identity) =>
        if kind == OtherFile || (missingTail == [] && kind == SymbolicLink) {
          return TargetConflict;
        }
        var physicalPrefix := realpath(existingPrefix);
        if physicalPrefix == None {
          return Uncertain;
        }
        return ResolvedAs(
          Resolution(physicalPrefix.value, missingTail, if missingTail == [] then Some(identity) else None));
      case _ => return Uncertain;
    }
  }

  lemma FirstAnswerIsUnique(logical: Path, lstat: Path -> Stat, n: nat)
    requires AnswersFirst(logical, lstat, n)
    ensures forall m: nat :: AnswersFirst(logical, lstat, m) && lstat(logical[..m]) != Absent ==> m == n
  {
  }

  // ---- what an inspection observes ----

  /** A directory holds no index, or a directory holds nothing. */
  datatype Observation = NoIndex(dir: Path) | IsEmpty(dir: Path)

  function Conventional(dir: Path): seq<Observation> {
    [NoIndex(dir + [BUNDLE_DIRS[0]]), NoIndex(dir + [BUNDLE_DIRS[1]])]
  }

  /** A directory and its ancestors, nearest first. */
  function Upward(dir: Path): seq<Observation> {
    [NoIndex(dir)] + Conventional(dir) + if dir == [] then [] else Upward(dir[..|dir| - 1])
  }

  function Parent(dir: Path): Path {
    if dir == [] then [] else dir[..|dir| - 1]
  }

  /** In order: an existing target's own bundle, its conventional ones and its entries, then every ancestor. */
  function Observations(r: Resolution): seq<Observation> {
    if r.missingTail == []
      then [NoIndex(TargetOf(r))] + Conventional(TargetOf(r)) + [IsEmpty(TargetOf(r))] + Upward(Parent(TargetOf(r)))
    else Upward(r.physicalPrefix)
  }

  predicate Holds(tree: map<Path, Node>, o: Observation) {
    match o
    case NoIndex(dir) => dir + [INDEX] !in tree
    case IsEmpty(dir) => forall p :: p in tree && |p| == |dir| + 1 ==> p[..|dir|] != dir
  }

  // ---- the stability checks ----

  predicate LockedStable(initial: Resolution, locked: Resolution) {
    && TargetOf(locked) == TargetOf(initial) && locked.missingTail == initial.missingTail
    && (initial.identity.Some? ==> locked.identity == initial.identity)
  }

  predicate PrePublishStable(locked: Resolution, before: Resolution, target: Path) {
    && TargetOf(before) == target && before.missingTail == [] && before.identity.Some?
    && (locked.identity.Some? ==> before.identity == locked.identity)
  }

  predicate InCritical(pc: Pc) {
    match pc
    case Resolving(phase) => phase != Preflight
    case Inspecting(phase, _, _) => phase != Preflight
    case Waiting => false
    case Finished => false
    case Dead => false
    case _ => true
  }

  // ---- steps ----

  datatype Step =
    | Arrive(id: RunId)
    | Resolve(id: RunId, r: Resolution)
    | Observe(id: RunId)
    | Inspected(id: RunId)
    | Acquire(id: RunId)
    | AcquireFails(id: RunId)
    | Mkdir(id: RunId, identity: nat)
    | Push(id: RunId)
    | Created(id: RunId)
    | Publish(id: RunId)
    | WriteIndex(id: RunId)
    | PublishReturns(id: RunId)
    | Fail(id: RunId)
    | Release(id: RunId)
    | ReleaseFails(id: RunId, stuck: bool)
    | Crash(id: RunId)
    | Outside(tree: map<Path, Node>)

  predicate Closed(tree: map<Path, Node>) {
    forall p, n :: p in tree && 0 <= n <= |p| ==> p[..n] in tree
  }

  predicate IsDirectory(tree: map<Path, Node>, dir: Path) {
    dir in tree && tree[dir].Directory?
  }

  /** The index this run published is in the tree. */
  predicate IndexStands(tree: map<Path, Node>, run: Run) {
    run.wrote ==> Target(run) + [INDEX] in tree
  }

  predicate Enabled(w: World, step: Step) {
    match step
    case Arrive(id) => id !in w.runs
    case Outside(tree) => Closed(tree) && forall id :: id in w.runs ==> IndexStands(tree, w.runs[id])
    case _ => step.id in w.runs && RunEnabled(w, w.runs[step.id], step)
  }

  predicate RunEnabled(w: World, run: Run, step: Step)
    requires !step.Arrive? && !step.Outside?
  {
    match step
    case Resolve(_, r) => run.pc.Resolving? && (r.missingTail == [] <==> r.identity.Some?)
    case Observe(_) =>
      run.pc.Inspecting? && run.pc.k < |Observations(run.pc.r)| && Holds(w.tree, Observations(run.pc.r)[run.pc.k])
    case Inspected(_) =>
      && run.pc.Inspecting? && run.pc.k == |Observations(run.pc.r)|
      && (run.pc.phase == Locked ==> run.initial.Some? && LockedStable(run.initial.value, run.pc.r))
      && (run.pc.phase == PrePublish ==> run.locked.Some? && PrePublishStable(run.locked.value, run.pc.r, Target(run)))
    case Acquire(_) => run.pc.Waiting? && w.holder == None
    case AcquireFails(_) => run.pc.Waiting?
    case Mkdir(_, _) =>
      run.pc.Creating? && run.pc.missing != [] && IsDirectory(w.tree, run.pc.current)
        && run.pc.current + [run.pc.missing[0]] !in w.tree
    case Push(_) => run.pc.Made?
    case Created(_) => run.pc.Creating? && run.pc.missing == []
    case Publish(_) => run.pc.ReadyToPublish?
    case WriteIndex(_) => run.pc.Publishing? && !run.wrote && IsDirectory(w.tree, Target(run))
      && Target(run) + [INDEX] !in w.tree
    case PublishReturns(_) => run.pc.Publishing? && run.wrote
    case Fail(_) => run.pc.Resolving? || run.pc.Inspecting? || run.pc.Creating? || run.pc.Publishing?
    case Release(_) => run.pc.Leaving?
    case ReleaseFails(_, _) => run.pc.Leaving?
    case Crash(_) => !run.pc.Finished? && !run.pc.Dead?
  }

  /** What one run's step makes of the run; `Fail` covers a failed call, a found conflict and a failed comparison. */
  function RunNext(run: Run, step: Step): Run {
    match step
    case Resolve(_, r) => if run.pc.Resolving? then run.(pc := Inspecting(run.pc.phase, r, 0)) else run
    case Observe(_) => if run.pc.Inspecting? then run.(pc := run.pc.(k := run.pc.k + 1)) else run
    case Inspected(_) =>
      if !run.pc.Inspecting? then run
      else
        (match run.pc.phase
         case Preflight => run.(initial := Some(run.pc.r), pc := Waiting)
         case Locked => run.(locked := Some(run.pc.r), pc := Creating(run.pc.r.physicalPrefix, run.pc.r.missingTail))
         case PrePublish => run.(pc := ReadyToPublish))
    case Acquire(_) => run.(pc := Resolving(Locked))
    case AcquireFails(_) => run.(pc := Finished, report := Some(Report(true, Some(run.publication), run.created)))
    case Mkdir(_, _) =>
      if run.pc.Creating? && run.pc.missing != [] then
        var path := run.pc.current + [run.pc.missing[0]];
        run.(pc := Made(path, run.pc.missing[1..]), made := run.made + [path])
      else run
    case Push(_) =>
      if run.pc.Made? then run.(pc := Creating(run.pc.path, run.pc.missing), created := run.created + [run.pc.path])
      else run
    case Created(_) => run.(pc := Resolving(PrePublish))
    case Publish(_) => run.(pc := Publishing, publication := StartedOrUncertain, called := true)
    case WriteIndex(_) => run.(wrote := true)
    case PublishReturns(_) => run.(pc := Leaving(false), publication := Published, returned := true)
    case Fail(_) => if InCritical(run.pc) then run.(pc := Leaving(true))
      else run.(pc := Finished, report := Some(Report(true, None, [])))
    case Release(_) =>
      run.(pc := Finished, report := Some(Report(run.pc.Leaving? && run.pc.failed, Some(run.publication), run.created)))
    case ReleaseFails(_, _) => run.(pc := Finished, report := Some(Report(true, Some(run.publication), run.created)))
    case Crash(_) => run.(pc := Dead)
    case _ => run
  }

  function TreeAfter(w: World, run: Run, step: Step): map<Path, Node> {
    match step
    case Mkdir(_, identity) =>
      if run.pc.Creating? && run.pc.missing != []
        then w.tree[run.pc.current + [run.pc.missing[0]] := Directory(identity)] else w.tree
    case WriteIndex(_) => w.tree[Target(run) + [INDEX] := File]
    case _ => w.tree
  }

  /** A dead holder's lock may be taken over; one that could not be released may stay held. */
  function HolderAfter(w: World, step: Step): Option<RunId> {
    match step
    case Acquire(id) => Some(id)
    case Release(id) => None
    case ReleaseFails(_, stuck) => if stuck then w.holder else None
    case Crash(id) => if w.holder == Some(id) then None else w.holder
    case _ => w.holder
  }

  function Next(w: World, step: Step): World
    requires Enabled(w, step)
  {
    match step
    case Arrive(id) => w.(runs := w.runs[id := FRESH_RUN])
    case Outside(tree) => w.(tree := tree)
    case _ =>
      World(TreeAfter(w, w.runs[step.id], step), HolderAfter(w, step),
            w.runs[step.id := RunNext(w.runs[step.id], step)])
  }

  // ---- what every world keeps ----

  /** What a run remembers is what it did. */
  predicate RunShape(run: Run) {
    && (run.publication == NotStarted <==> !run.called)
    && (run.publication == Published <==> run.returned)
    && (run.returned ==> run.wrote) && (run.wrote ==> run.called)
    && (run.pc.Made? ==> run.made == run.created + [run.pc.path])
    && (!run.pc.Made? && !run.pc.Dead? ==> run.made == run.created)
  }

  predicate PcShape(run: Run) {
    && (run.called ==> run.pc.Publishing? || run.pc.Leaving? || run.pc.Finished? || run.pc.Dead?)
    && (run.pc.Resolving? && run.pc.phase == Preflight ==> run.initial == None && run.made == [])
    && (run.pc.Inspecting? && run.pc.phase == Preflight ==> run.initial == None && run.made == [])
    && (run.pc.Publishing? ==> run.called && !run.returned)
    && (run.pc.Waiting? ==> run.initial.Some?)
    && (InCritical(run.pc) ==> run.initial.Some?)
    && (run.report.Some? ==> run.pc.Finished?)
  }

  /** A failure's report says what happened and which directories the run made. */
  predicate Truthful(run: Run, report: Report) {
    && report.residual == run.made
    && (report.outcome == None ==> !run.called && run.made == [])
    && (report.outcome == Some(NotStarted) ==> !run.called)
    && (report.outcome == Some(StartedOrUncertain) ==> run.called && !run.returned)
    && (report.outcome == Some(Published) ==> run.returned && run.wrote)
    && (!report.failed ==> report.outcome == Some(Published))
  }

  lemma RunStepKeeps(w: World, run: Run, step: Step)
    requires !step.Arrive? && !step.Outside? && RunEnabled(w, run, step)
    requires RunShape(run) && PcShape(run) && (run.pc.Leaving? && !run.pc.failed ==> run.returned)
    requires run.report.Some? ==> Truthful(run, run.report.value)
    ensures
      var next := RunNext(run, step);
      && RunShape(next) && PcShape(next) && (next.pc.Leaving? && !next.pc.failed ==> next.returned)
      && (next.report.Some? ==> Truthful(next, next.report.value))
  {
  }

  /** Everything a run says of itself, at every step. */
  predicate Sound(run: Run) {
    && RunShape(run) && PcShape(run) && (run.pc.Leaving? && !run.pc.failed ==> run.returned)
    && (run.report.Some? ==> Truthful(run, run.report.value))
  }

  // ---- who published where ----

  function Written(runs: map<RunId, Run>): set<Path> {
    set id | id in runs && runs[id].wrote :: Target(runs[id])
  }

  /** What an observation rules out, as long as nobody publishes. */
  predicate Clear(o: Observation, written: set<Path>) {
    match o
    case NoIndex(dir) => dir !in written
    case IsEmpty(dir) => forall t :: t in written ==> !(dir < t)
  }

  predicate Nested(a: Path, b: Path) {
    a <= b || b <= a
  }

  /** No published workspace is at, above, below, or conventional to this target or to a directory above it. */
  predicate Apart(target: Path, written: set<Path>) {
    && (forall t :: t in written ==> !Nested(t, target))
    && (forall n, name :: 0 <= n <= |target| && name in BUNDLE_DIRS ==> target[..n] + [name] !in written)
  }

  lemma HasChild(tree: map<Path, Node>, dir: Path, below: Path)
    requires Closed(tree) && below in tree && dir < below
    ensures exists p :: p in tree && |p| == |dir| + 1 && p[..|dir|] == dir
  {
    var child := below[..|dir| + 1];
    assert child in tree && child[..|dir|] == dir;
  }

  lemma ObservationClears(w: World, o: Observation)
    requires Closed(w.tree) && (forall id :: id in w.runs ==> IndexStands(w.tree, w.runs[id])) && Holds(w.tree, o)
    ensures Clear(o, Written(w.runs))
  {
    forall t | t in Written(w.runs) ensures match o case NoIndex(dir) => t != dir case IsEmpty(dir) => !(dir < t) {
      assert t + [INDEX] in w.tree;
      if o.IsEmpty? && o.dir < t {
        HasChild(w.tree, o.dir, t + [INDEX]);
      }
    }
  }

  lemma {:induction false} UpwardReaches(dir: Path, n: nat)
    requires n <= |dir|
    ensures NoIndex(dir[..n]) in Upward(dir)
    ensures forall name :: name in BUNDLE_DIRS ==> NoIndex(dir[..n] + [name]) in Upward(dir)
  {
    if n == |dir| {
      assert dir[..n] == dir;
      assert Conventional(dir)[0] in Upward(dir) && Conventional(dir)[1] in Upward(dir);
    } else {
      var up := dir[..|dir| - 1];
      assert up[..n] == dir[..n];
      UpwardReaches(up, n);
      assert forall o :: o in Upward(up) ==> o in Upward(dir);
    }
  }

  lemma ExistingTargetObserved(r: Resolution, n: nat)
    requires r.missingTail == [] && n <= |TargetOf(r)|
    ensures NoIndex(TargetOf(r)[..n]) in Observations(r) && IsEmpty(TargetOf(r)) in Observations(r)
    ensures forall name :: name in BUNDLE_DIRS ==> NoIndex(TargetOf(r)[..n] + [name]) in Observations(r)
  {
    var t := TargetOf(r);
    if n == |t| {
      assert t[..n] == t;
      assert Conventional(t)[0] in Observations(r) && Conventional(t)[1] in Observations(r);
    } else {
      assert Parent(t)[..n] == t[..n];
      UpwardReaches(Parent(t), n);
      hide Upward;
      assert forall o :: o in Upward(Parent(t)) ==> o in Observations(r);
    }
  }

  /** An inspection of an existing target that went through leaves it apart from everything published. */
  lemma InspectionClears(r: Resolution, written: set<Path>)
    requires r.missingTail == [] && forall j :: 0 <= j < |Observations(r)| ==> Clear(Observations(r)[j], written)
    ensures Apart(TargetOf(r), written)
  {
    var t := TargetOf(r);
    hide Observations;
    assert forall o :: o in Observations(r) ==> Clear(o, written);
    forall other | other in written ensures !Nested(other, t) {
      var n := if |other| <= |t| then |other| else |t|;
      assert other <= t ==> t[..n] == other;
      ExistingTargetObserved(r, n);
      assert Clear(NoIndex(t[..n]), written) && Clear(IsEmpty(t), written);
    }
    forall n, name | 0 <= n <= |t| && name in BUNDLE_DIRS ensures t[..n] + [name] !in written {
      ExistingTargetObserved(r, n);
      assert Clear(NoIndex(t[..n] + [name]), written);
    }
  }

  /** What the lock holder has established so far. */
  predicate Cleared(run: Run, written: set<Path>) {
    && (run.pc.Inspecting? && run.pc.phase == PrePublish ==>
          && run.pc.k <= |Observations(run.pc.r)|
          && forall j :: 0 <= j < run.pc.k ==> Clear(Observations(run.pc.r)[j], written))
    && (run.pc.ReadyToPublish? || (run.pc.Publishing? && !run.wrote) ==> Apart(Target(run), written))
  }

  predicate Exclusive(runs: map<RunId, Run>) {
    forall i, j :: i in runs && j in runs && i != j && runs[i].wrote && runs[j].wrote ==>
      !Nested(Target(runs[i]), Target(runs[j]))
  }

  predicate HolderOnly(w: World) {
    forall id :: id in w.runs && InCritical(w.runs[id].pc) ==> w.holder == Some(id)
  }

  predicate Consistent(w: World) {
    && Closed(w.tree)
    && HolderOnly(w) && Exclusive(w.runs)
    && (forall id :: id in w.runs ==>
         Sound(w.runs[id]) && IndexStands(w.tree, w.runs[id]) && Cleared(w.runs[id], Written(w.runs)))
  }

  lemma SoundStep(w: World, run: Run, step: Step)
    requires Sound(run) && !step.Arrive? && !step.Outside? && RunEnabled(w, run, step)
    ensures Sound(RunNext(run, step))
  {
    RunStepKeeps(w, run, step);
  }

  /** A run's target is fixed by its preflight, before it publishes anything. */
  lemma TargetStays(w: World, run: Run, step: Step)
    requires Sound(run) && !step.Arrive? && !step.Outside? && RunEnabled(w, run, step)
    requires (run.wrote || InCritical(run.pc))
    ensures Target(RunNext(run, step)) == Target(run)
  {
  }

  lemma WrittenAfter(runs: map<RunId, Run>, id: RunId, run: Run)
    requires id in runs && (runs[id].wrote ==> run.wrote && Target(run) == Target(runs[id]))
    ensures Written(runs[id := run]) == if run.wrote then Written(runs) + {Target(run)} else Written(runs)
  {
    var next := runs[id := run];
    assert forall i :: i in runs && i != id ==> next[i] == runs[i];
    assert next[id] == run;
  }

  lemma ObservedClears(w: World, run: Run)
    requires Closed(w.tree) && (forall id :: id in w.runs ==> IndexStands(w.tree, w.runs[id]))
    requires Cleared(run, Written(w.runs))
    requires run.pc.Inspecting? && run.pc.k < |Observations(run.pc.r)|
    requires Holds(w.tree, Observations(run.pc.r)[run.pc.k])
    ensures Cleared(run.(pc := run.pc.(k := run.pc.k + 1)), Written(w.runs))
  {
    hide Written, Apart, Clear, Observations, Closed, IndexStands, Holds, Target;
    ObservationClears(w, Observations(run.pc.r)[run.pc.k]);
    assert Clear(Observations(run.pc.r)[run.pc.k], Written(w.runs));
  }

  lemma InspectedClears(run: Run, written: set<Path>)
    requires Cleared(run, written) && run.pc.Inspecting? && run.pc.phase == PrePublish
    requires run.pc.k == |Observations(run.pc.r)|
    requires run.locked.Some? && PrePublishStable(run.locked.value, run.pc.r, Target(run))
    ensures Cleared(run.(pc := ReadyToPublish), written)
  {
    hide Observations, Apart, Clear;
    InspectionClears(run.pc.r, written);
  }

  lemma ClearedStep(w: World, id: RunId, step: Step)
    requires Consistent(w) && id in w.runs && !step.Arrive? && !step.Outside? && RunEnabled(w, w.runs[id], step)
    requires !step.WriteIndex?
    ensures Cleared(RunNext(w.runs[id], step), Written(w.runs))
  {
    var run := w.runs[id];
    assert Sound(run) && Cleared(run, Written(w.runs));
    hide Sound, HolderOnly, Exclusive, Written, Apart, Clear, Observations, Closed, IndexStands, Holds;
    if step.Observe? {
      ObservedClears(w, run);
      hide Cleared;
    } else if step.Inspected? && run.pc.phase == PrePublish {
      InspectedClears(run, Written(w.runs));
      hide Cleared;
    }
  }

  lemma RunStepConsistent(w: World, step: Step)
    requires Consistent(w) && !step.Arrive? && !step.Outside? && step.id in w.runs
    requires RunEnabled(w, w.runs[step.id], step)
    requires !step.WriteIndex?
    ensures Consistent(Next(w, step))
  {
    var id := step.id;
    var run := w.runs[id];
    var v := Next(w, step);
    SoundStep(w, run, step);
    if run.wrote {
      TargetStays(w, run, step);
    }
    assert RunNext(run, step).wrote == run.wrote;
    WrittenAfter(w.runs, id, RunNext(run, step));
    ClearedStep(w, id, step);
    TreeStep(w, step);
    HolderStep(w, step);
    assert run.wrote ==> Target(run) in Written(w.runs);
    hide Sound, Cleared, Written, RunNext, RunEnabled, TreeAfter, HolderAfter, Target, HolderOnly;
    assert Written(v.runs) == Written(w.runs);
    Assembled(w, v, id, v.runs[id]);
  }

  /** One run moved and the tree grew: the others are as they were. */
  lemma Assembled(w: World, v: World, id: RunId, run: Run)
    requires Consistent(w) && id in w.runs && v.runs == w.runs[id := run]
    requires Closed(v.tree) && w.tree.Keys <= v.tree.Keys && HolderOnly(v) && Written(v.runs) == Written(w.runs)
    requires Sound(run) && IndexStands(v.tree, run) && Cleared(run, Written(v.runs))
    requires run.wrote == w.runs[id].wrote && (run.wrote ==> Target(run) == Target(w.runs[id]))
    ensures Consistent(v)
  {
    hide Sound, Cleared, Written, Target, HolderOnly, Nested;
    assert forall i :: i in v.runs && i != id ==> v.runs[i] == w.runs[i];
    forall i, j | i in v.runs && j in v.runs && i != j && v.runs[i].wrote && v.runs[j].wrote
      ensures !Nested(Target(v.runs[i]), Target(v.runs[j]))
    {
      assert !Nested(Target(w.runs[i]), Target(w.runs[j]));
    }
  }

  lemma TreeStep(w: World, step: Step)
    requires Closed(w.tree) && !step.Arrive? && !step.Outside? && step.id in w.runs
    requires RunEnabled(w, w.runs[step.id], step)
    ensures Closed(TreeAfter(w, w.runs[step.id], step)) && w.tree.Keys <= TreeAfter(w, w.runs[step.id], step).Keys
  {
    var tree := TreeAfter(w, w.runs[step.id], step);
    forall p, n | p in tree && 0 <= n <= |p| ensures p[..n] in tree {
      if p !in w.tree && n < |p| {
        assert p[..n] == p[..|p| - 1][..n];
      } else if n == |p| {
        assert p[..n] == p;
      }
    }
  }

  /** The critical section is entered by taking a free lock, and left by giving it back or dying. */
  lemma CriticalStep(w: World, run: Run, step: Step)
    requires !step.Arrive? && !step.Outside? && RunEnabled(w, run, step)
    ensures step.Acquire? ==> w.holder == None
    ensures step.Release? || step.ReleaseFails? ==> InCritical(run.pc)
    ensures InCritical(RunNext(run, step).pc) ==>
      step.Acquire? || (InCritical(run.pc) && !step.Release? && !step.ReleaseFails? && !step.Crash?)
  {
    hide Holds, Observations, LockedStable, PrePublishStable, IsDirectory, Target;
  }

  lemma HolderStep(w: World, step: Step)
    requires HolderOnly(w) && !step.Arrive? && !step.Outside? && step.id in w.runs
    requires RunEnabled(w, w.runs[step.id], step)
    ensures HolderOnly(Next(w, step))
  {
    CriticalStep(w, w.runs[step.id], step);
    hide TreeAfter, RunNext, RunEnabled, InCritical;
    var v := Next(w, step);
    assert forall i :: i in v.runs && i != step.id ==> v.runs[i] == w.runs[i];
  }

  lemma WriteConsistent(w: World, id: RunId)
    requires Consistent(w) && id in w.runs && RunEnabled(w, w.runs[id], WriteIndex(id))
    ensures Consistent(Next(w, WriteIndex(id)))
  {
    var step := WriteIndex(id);
    var run := w.runs[id];
    var v := Next(w, step);
    assert Sound(run) && Cleared(run, Written(w.runs)) && InCritical(run.pc);
    SoundStep(w, run, step);
    TreeStep(w, step);
    HolderStep(w, step);
    IndexWritten(w, id);
    assert forall i :: i in w.runs && w.runs[i].wrote ==> Target(w.runs[i]) in Written(w.runs);
    assert v.runs[id].wrote && v.runs[id].pc.Publishing? && Target(v.runs[id]) == Target(run);
    hide Sound, Written, TreeAfter, HolderAfter, RunEnabled, RunNext, Target, IndexStands;
    PublishedApart(w, v, id, v.runs[id]);
  }

  /** The lock holder published: its target was apart from every other, and no other run was in its way. */
  lemma PublishedApart(w: World, v: World, id: RunId, run: Run)
    requires Consistent(w) && id in w.runs && v.runs == w.runs[id := run] && InCritical(w.runs[id].pc)
    requires Closed(v.tree) && w.tree.Keys <= v.tree.Keys && HolderOnly(v)
    requires Sound(run) && IndexStands(v.tree, run) && run.wrote && run.pc.Publishing?
    requires Target(run) == Target(w.runs[id])
    requires Apart(Target(run), Written(w.runs))
    requires forall i :: i in w.runs && w.runs[i].wrote ==> Target(w.runs[i]) in Written(w.runs)
    ensures Consistent(v)
  {
    hide Sound, Written, Target;
    assert forall i :: i in v.runs && i != id ==> v.runs[i] == w.runs[i];
    forall i | i in v.runs
      ensures Sound(v.runs[i]) && IndexStands(v.tree, v.runs[i]) && Cleared(v.runs[i], Written(v.runs))
    {
      assert i != id ==> !InCritical(w.runs[i].pc);
    }
    forall i, j | i in v.runs && j in v.runs && i != j && v.runs[i].wrote && v.runs[j].wrote
      ensures !Nested(Target(v.runs[i]), Target(v.runs[j]))
    {
      assert i != id && j != id ==> !Nested(Target(w.runs[i]), Target(w.runs[j]));
    }
  }

  lemma IndexWritten(w: World, id: RunId)
    requires id in w.runs && RunEnabled(w, w.runs[id], WriteIndex(id))
    ensures IndexStands(TreeAfter(w, w.runs[id], WriteIndex(id)), RunNext(w.runs[id], WriteIndex(id)))
  {
  }

  lemma OutsideConsistent(w: World, tree: map<Path, Node>)
    requires Consistent(w) && Enabled(w, Outside(tree))
    ensures Consistent(Next(w, Outside(tree)))
  {
    hide Sound, Cleared, Exclusive, HolderOnly, Written, Closed, IndexStands;
    HolderIs(w, Next(w, Outside(tree)));
  }

  lemma HolderIs(w: World, v: World)
    requires HolderOnly(w) && v.runs == w.runs && v.holder == w.holder
    ensures HolderOnly(v)
  {
  }

  lemma ArriveConsistent(w: World, id: RunId)
    requires Consistent(w) && Enabled(w, Arrive(id))
    ensures Consistent(Next(w, Arrive(id)))
  {
    var v := Next(w, Arrive(id));
    assert forall i :: i in w.runs ==> v.runs[i] == w.runs[i];
    assert Sound(FRESH_RUN) && !InCritical(FRESH_RUN.pc) && Cleared(FRESH_RUN, Written(w.runs));
    hide Closed, Nested, Clear, Apart, Sound, Cleared, InCritical, Target;
    assert Written(v.runs) == Written(w.runs);
  }

  lemma StepConsistent(w: World, step: Step)
    requires Consistent(w) && Enabled(w, step)
    ensures Consistent(Next(w, step))
  {
    hide Consistent, Next, RunEnabled;
    if step.Arrive? {
      ArriveConsistent(w, step.id);
    } else if step.Outside? {
      OutsideConsistent(w, step.tree);
    } else if step.WriteIndex? {
      WriteConsistent(w, step.id);
    } else {
      RunStepConsistent(w, step);
    }
  }

  // ---- every run of the machine ----

  predicate EnabledRun(w: World, steps: seq<Step>)
    decreases |steps|
  {
    steps == [] || (Enabled(w, steps[0]) && EnabledRun(Next(w, steps[0]), steps[1..]))
  }

  function RunSteps(w: World, steps: seq<Step>): World
    requires EnabledRun(w, steps)
    decreases |steps|
  {
    if steps == [] then w else RunSteps(Next(w, steps[0]), steps[1..])
  }

  lemma {:induction false} RunIsConsistent(w: World, steps: seq<Step>)
    requires Consistent(w) && EnabledRun(w, steps)
    ensures Consistent(RunSteps(w, steps))
    decreases |steps|
  {
    if steps != [] {
      StepConsistent(w, steps[0]);
      RunIsConsistent(Next(w, steps[0]), steps[1..]);
    }
  }

  function Start(tree: map<Path, Node>): World {
    World(tree, None, map[])
  }

  /** Of any runs whose targets are equal or nested, at most one publishes. */
  lemma AtMostOnePublishes(tree: map<Path, Node>, steps: seq<Step>, i: RunId, j: RunId)
    requires Closed(tree) && EnabledRun(Start(tree), steps)
    requires i in RunSteps(Start(tree), steps).runs && j in RunSteps(Start(tree), steps).runs && i != j
    requires
      var runs := RunSteps(Start(tree), steps).runs;
      Nested(Target(runs[i]), Target(runs[j]))
    ensures
      var runs := RunSteps(Start(tree), steps).runs;
      !(runs[i].wrote && runs[j].wrote) && !(runs[i].returned && runs[j].returned)
  {
    RunIsConsistent(Start(tree), steps);
    var runs := RunSteps(Start(tree), steps).runs;
    assert Sound(runs[i]) && Sound(runs[j]);
    hide RunSteps, EnabledRun, Target;
  }

  /** A run publishes only where no workspace published before it already serves. */
  lemma PublishesOnlyApart(tree: map<Path, Node>, steps: seq<Step>, id: RunId)
    requires Closed(tree) && EnabledRun(Start(tree), steps)
    requires Enabled(RunSteps(Start(tree), steps), WriteIndex(id))
    ensures
      var runs := RunSteps(Start(tree), steps).runs;
      Apart(Target(runs[id]), Written(runs))
  {
    RunIsConsistent(Start(tree), steps);
    var w := RunSteps(Start(tree), steps);
    assert Cleared(w.runs[id], Written(w.runs));
    hide RunSteps, EnabledRun, Target, Written, Apart;
  }

  // ---- what a run did, read off the steps ----

  /** The directories a run's own steps added to the tree. */
  function DirectoriesMade(w: World, steps: seq<Step>, id: RunId): set<Path>
    requires EnabledRun(w, steps)
    decreases |steps|
  {
    if steps == [] then {}
    else
      (if steps[0].Mkdir? && steps[0].id == id then Next(w, steps[0]).tree.Keys - w.tree.Keys else {})
      + DirectoriesMade(Next(w, steps[0]), steps[1..], id)
  }

  function Paths(made: seq<Path>): set<Path> {
    set p | p in made
  }

  /** What a run did before; nothing before it arrived. */
  function RunOf(w: World, id: RunId): Run {
    if id in w.runs then w.runs[id] else FRESH_RUN
  }

  /** One step adds to what a run did exactly the call it is. */
  lemma StepIsRecorded(w: World, step: Step, id: RunId)
    requires Enabled(w, step)
    ensures
      var run, next := RunOf(w, id), RunOf(Next(w, step), id);
      && (next.called <==> run.called || step == Publish(id))
      && (next.wrote <==> run.wrote || step == WriteIndex(id))
      && (next.returned <==> run.returned || step == PublishReturns(id))
      && Paths(next.made) ==
           Paths(run.made) + if step.Mkdir? && step.id == id then Next(w, step).tree.Keys - w.tree.Keys else {}
  {
    hide Closed, IndexStands, Holds, Observations, LockedStable, PrePublishStable, Target;
    if step.Mkdir? && step.id == id {
      var run := w.runs[id];
      var path := run.pc.current + [run.pc.missing[0]];
      assert Next(w, step).tree.Keys - w.tree.Keys == {path};
      assert Paths(run.made + [path]) == Paths(run.made) + {path};
    }
  }

  lemma {:induction false} TraceIsRecorded(w: World, steps: seq<Step>, id: RunId)
    requires EnabledRun(w, steps)
    ensures
      var run, next := RunOf(w, id), RunOf(RunSteps(w, steps), id);
      && (next.called <==> run.called || Publish(id) in steps)
      && (next.wrote <==> run.wrote || WriteIndex(id) in steps)
      && (next.returned <==> run.returned || PublishReturns(id) in steps)
      && Paths(next.made) == Paths(run.made) + DirectoriesMade(w, steps, id)
    decreases |steps|
  {
    if steps != [] {
      StepIsRecorded(w, steps[0], id);
      TraceIsRecorded(Next(w, steps[0]), steps[1..], id);
      assert steps == [steps[0]] + steps[1..];
      hide Enabled, Next, RunOf, Paths;
    }
  }

  /** A report against the steps of the machine: which calls the run made, and which directories it added. */
  predicate TrueOf(report: Report, tree: map<Path, Node>, steps: seq<Step>, id: RunId)
    requires EnabledRun(Start(tree), steps)
  {
    && Paths(report.residual) == DirectoriesMade(Start(tree), steps, id)
    && (report.outcome == None ==> Publish(id) !in steps && report.residual == [])
    && (report.outcome == Some(NotStarted) ==> Publish(id) !in steps)
    && (report.outcome == Some(StartedOrUncertain) ==> Publish(id) in steps && PublishReturns(id) !in steps)
    && (report.outcome == Some(Published) ==> WriteIndex(id) in steps && PublishReturns(id) in steps)
    && (!report.failed ==> report.outcome == Some(Published))
  }

  /**
   * Whatever a run reports is true of its steps: "not started" means it never called publish, "published" means
   * publish returned, and the residual directories are exactly those its own calls added to the tree.
   */
  lemma EveryReportIsTruthful(tree: map<Path, Node>, steps: seq<Step>, id: RunId)
    requires Closed(tree) && EnabledRun(Start(tree), steps)
    requires id in RunSteps(Start(tree), steps).runs && RunSteps(Start(tree), steps).runs[id].report.Some?
    ensures TrueOf(RunSteps(Start(tree), steps).runs[id].report.value, tree, steps, id)
  {
    RunIsConsistent(Start(tree), steps);
    TraceIsRecorded(Start(tree), steps, id);
    var run := RunSteps(Start(tree), steps).runs[id];
    assert Sound(run) && Paths([]) == {};
    hide RunSteps, EnabledRun, RunShape, PcShape;
    assert Truthful(run, run.report.value);
  }
}
