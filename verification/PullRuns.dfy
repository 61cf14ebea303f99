/** What a fenced pull guarantees at its end, over every interleaving of pulls and document events. */
module PullRuns {
  import opened Records
  import opened Journal
  import opened JournalShape
  import D = Delivery
  import DeliveryInvariant
  import opened PullProtocol
  import opened PullInvariant

  // ---- every step keeps the store's shape ----

  lemma FetchedIsServed(docs: map<Id, D.World>, p: Pull, id: Id)
    requires ReadShape(docs, p) && id in p.fetched && id in docs
    requires forall k :: 0 <= k < |docs[id].history| ==> ServedHead(docs[id].history[k])
    ensures D.LocalEnabled(docs[id], RefreshVerb(p.fetched[id].version, p.fetched[id].content), p.fetched[id].revision)
  {
    assert FetchShape(docs[id], p, id);
  }

  lemma WrittenDocs(s: Store, pull: PullId, id: Id)
    requires pull in s.pulls && id in s.docs && id in s.pulls[pull].fetched
    ensures
      var head := s.pulls[pull].fetched[id];
      || WriteNext(s, pull, id).docs == s.docs
      || WriteNext(s, pull, id).docs ==
           s.docs[id := D.Next(s.docs[id], id, D.Local(RefreshVerb(head.version, head.content), head.revision))]
  {
    hide D.Next;
  }

  lemma RemovedDocs(s: Store, pull: PullId, id: Id)
    requires pull in s.pulls && id in s.docs && s.pulls[pull].removal.Some?
    ensures
      var p := s.pulls[pull];
      || RemoveNext(s, pull, id).docs == s.docs
      || RemoveNext(s, pull, id).docs ==
           s.docs[id := D.Next(s.docs[id], id, D.Local(UnlistedVerb, if id in p.listedAt then p.listedAt[id] else 0))]
  {
    hide D.Next;
  }

  lemma DocsAfter(docs: map<Id, D.World>, id: Id, w: D.World)
    requires DocsShape(docs) && D.Consistent(w, id)
    ensures DocsShape(docs[id := w])
  {
    hide D.Consistent;
  }

  lemma ReadOf(s: Store, pull: PullId, id: Id)
    requires StoreShape(s) && pull in s.pulls && s.pulls[pull].marked && id in s.docs
    ensures ReadShape(s.docs, s.pulls[pull]) && NameShape(s.pulls[pull]) && D.Consistent(s.docs[id], id)
  {
    hide D.Consistent, ReadShape, NameShape, Progress, BasesBefore, RemovalSound, BoundShape;
    Parts(s, s.pulls[pull]);
  }

  lemma WriteKeepsDocs(s: Store, pull: PullId, id: Id)
    requires StoreShape(s) && pull in s.pulls && s.pulls[pull].marked && id in s.pulls[pull].fetched && id in s.docs
    ensures DocsShape(WriteNext(s, pull, id).docs)
  {
    ReadOf(s, pull, id);
    hide PullsShape, DocsShape, D.Consistent, ReadShape, NameShape, WriteNext, D.Next;
    var head := s.pulls[pull].fetched[id];
    HistoryServed(s.docs[id], id);
    FetchedIsServed(s.docs, s.pulls[pull], id);
    hide D.LocalEnabled;
    DeliveryInvariant.RefreshKeeps(s.docs[id], id, head.version, head.content, head.revision);
    DocsAfter(s.docs, id, D.Next(s.docs[id], id, D.Local(RefreshVerb(head.version, head.content), head.revision)));
    WrittenDocs(s, pull, id);
  }

  lemma RemovalWasAbsent(docs: map<Id, D.World>, p: Pull, id: Id)
    requires ReadShape(docs, p) && NameShape(p) && p.removal.Some? && id in p.removal.value && id in docs
    ensures id in p.listedAt && D.LocalEnabled(docs[id], UnlistedVerb, p.listedAt[id])
    ensures p.markedAt[id] <= p.listedAt[id] && id !in p.wrote
  {
    hide FetchShape;
    assert id !in p.listed;
  }

  lemma RemoveKeepsDocs(s: Store, pull: PullId, id: Id)
    requires StoreShape(s) && pull in s.pulls && s.pulls[pull].marked && id in s.docs
    requires s.pulls[pull].removal.Some? && id in s.pulls[pull].removal.value
    ensures DocsShape(RemoveNext(s, pull, id).docs)
  {
    ReadOf(s, pull, id);
    hide PullsShape, DocsShape, D.Consistent, ReadShape, NameShape, RemoveNext, D.Next;
    RemovalWasAbsent(s.docs, s.pulls[pull], id);
    hide D.LocalEnabled;
    DeliveryInvariant.UnlistedKeeps(s.docs[id], id, s.pulls[pull].listedAt[id]);
    DocsAfter(s.docs, id, D.Next(s.docs[id], id, D.Local(UnlistedVerb, s.pulls[pull].listedAt[id])));
    RemovedDocs(s, pull, id);
  }

  lemma DocsAreServed(docs: map<Id, D.World>)
    requires DocsShape(docs)
    ensures forall id :: id in docs ==>
      docs[id].history != [] && ServedHead(Last(docs[id].history)) && docs[id].baseRevision <= Revision(docs[id])
  {
    hide D.Consistent;
    forall id | id in docs
      ensures docs[id].history != [] && ServedHead(Last(docs[id].history))
      ensures docs[id].baseRevision <= Revision(docs[id])
    {
      HistoryServed(docs[id], id);
    }
  }

  lemma EventStepKeeps(s: Store, id: Id, event: D.Event)
    requires StoreShape(s) && Enabled(s, DocumentEvent(id, event))
    ensures StoreShape(Next(s, DocumentEvent(id, event)))
  {
    DocumentEventKeeps(s, id, event);
    hide StoreShape, DocumentNext, D.Enabled;
  }

  lemma WriteStepKeeps(s: Store, pull: PullId, id: Id)
    requires StoreShape(s) && Enabled(s, Step.Write(pull, id))
    ensures StoreShape(Next(s, Step.Write(pull, id)))
  {
    hide DocsShape, PullsShape, WriteNext;
    WriteKeeps(s, pull, id);
    WriteKeepsDocs(s, pull, id);
  }

  lemma RemoveStepKeeps(s: Store, pull: PullId, id: Id)
    requires StoreShape(s) && Enabled(s, Step.Remove(pull, id))
    ensures StoreShape(Next(s, Step.Remove(pull, id)))
  {
    hide DocsShape, PullsShape, RemoveNext;
    RemoveKeeps(s, pull, id);
    RemoveKeepsDocs(s, pull, id);
  }

  lemma StepKeeps(s: Store, step: Step)
    requires StoreShape(s) && Enabled(s, step)
    ensures StoreShape(Next(s, step))
  {
    hide StoreShape, Enabled, Next;
    match step
    case DocumentEvent(id, event) => EventStepKeeps(s, id, event);
    case Write(pull, id) => WriteStepKeeps(s, pull, id);
    case Remove(pull, id) => RemoveStepKeeps(s, pull, id);
    case _ => PullStepKeeps(s, step);
  }

  /** The steps that leave every document as it was. */
  lemma PullStepKeeps(s: Store, step: Step)
    requires StoreShape(s) && Enabled(s, step) && !step.DocumentEvent? && !step.Write? && !step.Remove?
    ensures StoreShape(Next(s, step))
  {
    hide DocsShape, PullsShape, Next, Enabled;
    DocsAreServed(s.docs);
    SameDocs(s, step);
    if step.Begin? || step.Mark? || step.ReadHeld? || step.List? || step.Compare? || step.Fetch? {
      ReadingKeeps(s, step);
    } else {
      SettlingKeeps(s, step);
    }
  }

  lemma ReadingKeeps(s: Store, step: Step)
    requires PullsShape(s) && Enabled(s, step)
    requires forall id :: id in s.docs ==>
      s.docs[id].history != [] && ServedHead(Last(s.docs[id].history))
        && s.docs[id].baseRevision <= Revision(s.docs[id])
    requires step.Begin? || step.Mark? || step.ReadHeld? || step.List? || step.Compare? || step.Fetch?
    ensures PullsShape(Next(s, step))
  {
    hide PullsShape, MarkNext, ReadHeldNext, ListNext, CompareNext, FetchNext, Active, Owns;
    match step {
      case Begin(pull) => BeginKeeps(s, pull);
      case Mark(pull) => MarkKeeps(s, pull);
      case ReadHeld(pull) => HeldReadKeeps(s, pull);
      case List(pull) => ListedPull(s, pull);
      case Compare(pull, id) => CompareKeeps(s, pull, id);
      case Fetch(pull, id) => FetchKeeps(s, pull, id);
    }
  }

  lemma SettlingKeeps(s: Store, step: Step)
    requires PullsShape(s) && Enabled(s, step)
    requires step.WriteRaced? || step.BeginRemoval? || step.RemoveRaced? || step.Complete?
    ensures PullsShape(Next(s, step))
  {
    hide PullsShape, WriteRacedNext, BeginRemovalNext, RemoveRacedNext, CompleteNext, Active, Owns;
    match step {
      case WriteRaced(pull, id) => WriteRacedKeeps(s, pull, id);
      case BeginRemoval(pull, accept) => BeginRemovalKeeps(s, pull, accept);
      case RemoveRaced(pull, id) => RemoveRacedKeeps(s, pull, id);
      case Complete(pull) => CompleteKeeps(s, pull);
    }
  }

  lemma SameDocs(s: Store, step: Step)
    requires Enabled(s, step) && !step.DocumentEvent? && !step.Write? && !step.Remove?
    ensures Next(s, step).docs == s.docs
  {
  }

  predicate EnabledSteps(s: Store, steps: seq<Step>)
    decreases |steps|
  {
    steps == [] || (Enabled(s, steps[0]) && EnabledSteps(Next(s, steps[0]), steps[1..]))
  }

  function RunSteps(s: Store, steps: seq<Step>): Store
    requires EnabledSteps(s, steps)
    decreases |steps|
  {
    if steps == [] then s else RunSteps(Next(s, steps[0]), steps[1..])
  }

  lemma {:induction false} StepsKeep(s: Store, steps: seq<Step>)
    requires StoreShape(s) && EnabledSteps(s, steps)
    ensures StoreShape(RunSteps(s, steps))
    decreases |steps|
  {
    if steps != [] {
      StepKeeps(s, steps[0]);
      StepsKeep(Next(s, steps[0]), steps[1..]);
    }
  }

  /** An empty working copy of an authority that serves these heads. */
  function InitialStore(heads: map<Id, SharedBase>): Store {
    Store(map id | id in heads :: D.Initial(heads[id]), None, 0, 0, map[])
  }

  lemma EveryRunKeepsStore(heads: map<Id, SharedBase>, steps: seq<Step>)
    requires forall id :: id in heads ==> ServedHead(heads[id])
    requires EnabledSteps(InitialStore(heads), steps)
    ensures StoreShape(RunSteps(InitialStore(heads), steps))
  {
    InitialIsShaped(heads);
    hide StoreShape, InitialStore, EnabledSteps, RunSteps;
    StepsKeep(InitialStore(heads), steps);
  }

  lemma InitialIsShaped(heads: map<Id, SharedBase>)
    requires forall id :: id in heads ==> ServedHead(heads[id])
    ensures StoreShape(InitialStore(heads))
  {
    hide D.Consistent, D.Initial;
    forall id | id in heads ensures D.Consistent(D.Initial(heads[id]), id) {
      InitialConsistent(heads[id], id);
    }
  }

  lemma InitialConsistent(head: SharedBase, id: Id)
    requires ServedHead(head)
    ensures D.Consistent(D.Initial(head), id)
  {
  }

  // ---- a completed pull is the listing ----

  lemma UndisturbedIsListed(w: D.World, p: Pull, id: Id)
    requires DocumentShape(w.cell) && w.cell.chain == [] && NameShape(p) && DocumentDone(w, p, id)
    requires p.consistent && p.listing.Some? && p.removal == Some({}) && (id in p.listing.value ==> id in p.matched)
    ensures w.cell.doc.Some? <==> id in p.listing.value
    ensures id in p.listing.value ==>
      BaseVersion(w.cell.base) == Some(p.listing.value[id]) && w.cell.base.value.content == w.cell.doc
  {
  }

  lemma ListedIsMatched(docs: map<Id, D.World>, p: Pull, id: Id)
    requires NameShape(p) && Progress(docs, p) && p.consistent && p.removal.Some? && Undisturbed(p, id) && id in docs
    ensures DocumentDone(docs[id], p, id) && p.listing.Some? && (id in p.listing.value ==> id in p.matched)
  {
    hide DocumentDone;
  }

  /** The working copy's document is the listing's, in the completed pull's own words. */
  predicate IsListed(cell: Cell, listing: Listing, id: Id) {
    && (cell.doc.Some? <==> id in listing)
    && (id in listing ==> BaseVersion(cell.base) == Some(listing[id]) && cell.base.value.content == cell.doc)
  }

  lemma CompletingIsListed(s: Store, pull: PullId, id: Id)
    requires StoreShape(s) && Active(s, pull) && Owns(s, s.pulls[pull]) && id in s.docs
    requires Undisturbed(s.pulls[pull], id)
    requires s.pulls[pull].removal == Some({}) && s.pulls[pull].consistent && s.pulls[pull].listing.Some?
    ensures IsListed(s.docs[id].cell, s.pulls[pull].listing.value, id)
  {
    var p, w := s.pulls[pull], s.docs[id];
    ReadOf(s, pull, id);
    assert PullShape(s, p);
    hide StoreShape;
    assert Touched(s.docs, p) && Progress(s.docs, p);
    assert w.cell.chain == [] && DocumentShape(w.cell);
    hide PullShape, D.Consistent, Progress, Touched, NameShape, ReadShape, DocumentShape, DocumentDone;
    ListedIsMatched(s.docs, p, id);
    UndisturbedIsListed(w, p, id);
  }

  /**
   * A fenced pull that completes from a listing and records its digest: every document no unsettled edit
   * held since the mark is in the working copy exactly when the listing names it, at the listed version.
   */
  lemma CompletedPullIsTheListing(heads: map<Id, SharedBase>, steps: seq<Step>, pull: PullId)
    requires forall id :: id in heads ==> ServedHead(heads[id])
    requires EnabledSteps(InitialStore(heads), steps)
    requires
      var s := RunSteps(InitialStore(heads), steps);
      Enabled(s, Complete(pull)) && RecordedDigest(s.pulls[pull]).Some?
    ensures
      var s := RunSteps(InitialStore(heads), steps);
      HoldsTheListing(s.pulls[pull], CompleteNext(s, pull))
  {
    var s := RunSteps(InitialStore(heads), steps);
    EveryRunKeepsStore(heads, steps);
    hide RunSteps, InitialStore, StoreShape, Enabled, Next, HoldsTheListing, EnabledSteps;
    CompletingHoldsTheListing(s, pull);
  }

  /** The recorded digest speaks for the working copy, but for documents local edits held or others wrote. */
  predicate HoldsTheListing(p: Pull, t: Store) {
    && t.marker.Some? && t.marker.value.completed && t.marker.value.digest.Some?
    && forall id :: id in t.docs && Undisturbed(p, id) ==> IsListed(t.docs[id].cell, t.marker.value.digest.value, id)
  }

  lemma CompletingHoldsTheListing(s: Store, pull: PullId)
    requires Enabled(s, Complete(pull)) && RecordedDigest(s.pulls[pull]).Some? && StoreShape(s)
    ensures HoldsTheListing(s.pulls[pull], CompleteNext(s, pull))
  {
    hide StoreShape, IsListed;
    forall id | id in s.docs && Undisturbed(s.pulls[pull], id)
      ensures IsListed(s.docs[id].cell, s.pulls[pull].listing.value, id)
    {
      CompletingIsListed(s, pull, id);
    }
  }

  /** After `k` steps the pull of this run is under way and an unsettled row holds the document. */
  predicate HeldDuring(s: Store, steps: seq<Step>, k: nat, pull: PullId, run: nat, id: Id) {
    && k <= |steps| && EnabledSteps(s, steps[..k])
    && MarkedAs(RunSteps(s, steps[..k]), pull, run) && id in Held(RunSteps(s, steps[..k]).docs)
  }

  predicate MarkedAs(s: Store, pull: PullId, run: nat) {
    pull in s.pulls && s.pulls[pull].marked && s.pulls[pull].run == run
  }

  lemma HeldLater(s: Store, steps: seq<Step>, k: nat, pull: PullId, run: nat, id: Id)
    requires steps != [] && Enabled(s, steps[0]) && HeldDuring(Next(s, steps[0]), steps[1..], k, pull, run, id)
    ensures HeldDuring(s, steps, k + 1, pull, run, id)
  {
    hide Enabled, Next, Held, MarkedAs;
    assert steps[..k + 1][0] == steps[0] && steps[..k + 1][1..] == steps[1..][..k];
  }

  lemma HeldNow(s: Store, steps: seq<Step>, pull: PullId, run: nat, id: Id)
    requires id in Held(s.docs) && MarkedAs(s, pull, run)
    ensures HeldDuring(s, steps, 0, pull, run, id)
  {
    hide Enabled, Next, Held, MarkedAs;
    assert steps[..0] == [];
  }

  /** A name a marked pull counts as held was held in some state since its mark, so only those are excepted. */
  lemma {:induction false} TouchedWasHeld(s: Store, steps: seq<Step>, pull: PullId, run: nat, id: Id)
    requires EnabledSteps(s, steps) && MarkedAs(RunSteps(s, steps), pull, run)
    requires id in RunSteps(s, steps).pulls[pull].touched
    ensures
      (MarkedAs(s, pull, run) && id in s.pulls[pull].touched) || exists k :: HeldDuring(s, steps, k, pull, run, id)
    decreases |steps|
  {
    if steps != [] {
      var t := Next(s, steps[0]);
      TouchedWasHeld(t, steps[1..], pull, run, id);
      if MarkedAs(t, pull, run) && id in t.pulls[pull].touched {
        TouchedByStep(s, steps[0], pull, run, id);
        if id in Held(t.docs) {
          HeldNow(t, steps[1..], pull, run, id);
          HeldLater(s, steps, 0, pull, run, id);
        }
      } else {
        var k :| HeldDuring(t, steps[1..], k, pull, run, id);
        HeldLater(s, steps, k, pull, run, id);
      }
    }
  }

  /** No marked pull changed its run, what it counts as held, or what it counts as written outside the fence. */
  predicate SameTouched(s: Store, t: Store) {
    forall q :: q in t.pulls && t.pulls[q].marked ==>
      && MarkedAs(s, q, t.pulls[q].run)
      && t.pulls[q].touched == s.pulls[q].touched && t.pulls[q].disturbed == s.pulls[q].disturbed
  }

  lemma TouchedByStep(s: Store, step: Step, pull: PullId, run: nat, id: Id)
    requires Enabled(s, step) && MarkedAs(Next(s, step), pull, run) && id in Next(s, step).pulls[pull].touched
    ensures (MarkedAs(s, pull, run) && id in s.pulls[pull].touched) || id in Held(Next(s, step).docs)
  {
    match step
    case DocumentEvent(i, event) => EventTouches(s, i, event, pull, run, id);
    case Mark(p) => MarkTouches(s, p, pull, run, id);
    case _ => OthersTouchNothing(s, step);
  }

  lemma EventTouches(s: Store, i: Id, event: D.Event, pull: PullId, run: nat, id: Id)
    requires i in s.docs && MarkedAs(DocumentNext(s, i, event), pull, run)
    requires id in DocumentNext(s, i, event).pulls[pull].touched
    ensures (MarkedAs(s, pull, run) && id in s.pulls[pull].touched) || id in Held(DocumentNext(s, i, event).docs)
  {
    hide D.Next, Held, Acknowledges;
  }

  lemma MarkTouches(s: Store, p: PullId, pull: PullId, run: nat, id: Id)
    requires p in s.pulls && MarkedAs(MarkNext(s, p), pull, run) && id in MarkNext(s, p).pulls[pull].touched
    ensures (MarkedAs(s, pull, run) && id in s.pulls[pull].touched) || id in Held(MarkNext(s, p).docs)
  {
    hide Held, Revisions;
  }

  /** Step `k` writes the document outside every fence, while the pull of this run is under way. */
  predicate WrittenAt(s: Store, steps: seq<Step>, k: nat, pull: PullId, run: nat, id: Id) {
    && k < |steps| && EnabledSteps(s, steps[..k]) && MarkedAs(RunSteps(s, steps[..k]), pull, run)
    && WritesOutside(steps[k], id)
  }

  predicate WritesOutside(step: Step, id: Id) {
    step.DocumentEvent? && step.id == id && Unfenced(step.event)
  }

  lemma WrittenLater(s: Store, steps: seq<Step>, k: nat, pull: PullId, run: nat, id: Id)
    requires steps != [] && Enabled(s, steps[0]) && WrittenAt(Next(s, steps[0]), steps[1..], k, pull, run, id)
    ensures WrittenAt(s, steps, k + 1, pull, run, id)
  {
    hide Enabled, Next, MarkedAs, WritesOutside;
    assert steps[..k + 1][0] == steps[0] && steps[..k + 1][1..] == steps[1..][..k];
  }

  /** A name counted as written outside the fence was so written at some step since the mark. */
  lemma {:induction false} DisturbedWasWritten(s: Store, steps: seq<Step>, pull: PullId, run: nat, id: Id)
    requires EnabledSteps(s, steps) && MarkedAs(RunSteps(s, steps), pull, run)
    requires id in RunSteps(s, steps).pulls[pull].disturbed
    ensures
      (MarkedAs(s, pull, run) && id in s.pulls[pull].disturbed) || exists k :: WrittenAt(s, steps, k, pull, run, id)
    decreases |steps|
  {
    if steps != [] {
      var t := Next(s, steps[0]);
      DisturbedWasWritten(t, steps[1..], pull, run, id);
      if MarkedAs(t, pull, run) && id in t.pulls[pull].disturbed {
        DisturbedByStep(s, steps[0], pull, run, id);
        if MarkedAs(s, pull, run) && WritesOutside(steps[0], id) {
          assert steps[..0] == [];
          assert WrittenAt(s, steps, 0, pull, run, id);
        }
      } else {
        var k :| WrittenAt(t, steps[1..], k, pull, run, id);
        WrittenLater(s, steps, k, pull, run, id);
      }
    }
  }

  lemma DisturbedByStep(s: Store, step: Step, pull: PullId, run: nat, id: Id)
    requires Enabled(s, step) && MarkedAs(Next(s, step), pull, run) && id in Next(s, step).pulls[pull].disturbed
    ensures MarkedAs(s, pull, run) && (id in s.pulls[pull].disturbed || WritesOutside(step, id))
  {
    match step
    case DocumentEvent(i, event) =>
      hide D.Next, Held, Acknowledges, Unfenced;
    case Mark(p) =>
      hide Held, Revisions;
    case _ => OthersTouchNothing(s, step);
  }

  lemma OthersTouchNothing(s: Store, step: Step)
    requires Enabled(s, step) && !step.DocumentEvent? && !step.Mark?
    ensures SameTouched(s, Next(s, step))
  {
    hide SameTouched, ReadHeldNext, ListNext, CompareNext, FetchNext, WriteNext, WriteRacedNext, BeginRemovalNext;
    hide RemoveNext, RemoveRacedNext, CompleteNext;
    match step
    case Begin(p) => BeginTouches(s, p);
    case ReadHeld(p) => ReadTouches(s, p);
    case List(p) => ReadTouches(s, p);
    case Compare(p, i) => CompareTouches(s, p, i);
    case Fetch(p, i) => FetchTouches(s, p, i);
    case Write(p, i) => WriteTouches(s, p, i);
    case WriteRaced(p, i) => WriteRacedTouches(s, p, i);
    case BeginRemoval(p, accept) => BeginRemovalTouches(s, p, accept);
    case Remove(p, i) => RemoveTouches(s, p, i);
    case RemoveRaced(p, i) => RemoveRacedTouches(s, p, i);
    case Complete(p) => CompleteTouches(s, p);
  }

  lemma BeginTouches(s: Store, pull: PullId)
    ensures SameTouched(s, WithPull(s, pull, BLANK_PULL.(acknowledged := s.acknowledged)))
  {
  }

  lemma CompleteTouches(s: Store, pull: PullId)
    requires pull in s.pulls
    ensures SameTouched(s, CompleteNext(s, pull))
  {
  }

  /** One pull's own step that keeps its mark and what it counts as held. */
  lemma OneTouches(s: Store, pull: PullId, q: Pull, docs: map<Id, D.World>)
    requires pull in s.pulls && q.marked == s.pulls[pull].marked && q.run == s.pulls[pull].run
    requires q.touched == s.pulls[pull].touched && q.disturbed == s.pulls[pull].disturbed
    ensures SameTouched(s, WithPull(s, pull, q).(docs := docs)) && SameTouched(s, WithPull(s, pull, q))
  {
  }

  lemma ReadTouches(s: Store, pull: PullId)
    requires pull in s.pulls
    ensures SameTouched(s, ReadHeldNext(s, pull)) && SameTouched(s, ListNext(s, pull))
  {
    hide Held, HeadsOf, Revisions, SameTouched;
    OneTouches(s, pull, ReadHeldNext(s, pull).pulls[pull], s.docs);
    OneTouches(s, pull, ListNext(s, pull).pulls[pull], s.docs);
  }

  lemma CompareTouches(s: Store, pull: PullId, id: Id)
    requires pull in s.pulls && id in s.docs && s.pulls[pull].listing.Some? && id in s.pulls[pull].listing.value
    ensures SameTouched(s, CompareNext(s, pull, id))
  {
    hide HoldsVersion, SameTouched, WithPull;
    var p := s.pulls[pull].(compared := s.pulls[pull].compared + {id});
    OneTouches(s, pull, p, s.docs);
    OneTouches(s, pull, p.(matched := p.matched + {id}), s.docs);
    OneTouches(s, pull, p.(wanted := p.wanted + {id}), s.docs);
  }

  lemma FetchTouches(s: Store, pull: PullId, id: Id)
    requires pull in s.pulls && id in s.docs && s.docs[id].history != []
    ensures SameTouched(s, FetchNext(s, pull, id))
  {
    hide SameTouched;
    OneTouches(s, pull, FetchNext(s, pull, id).pulls[pull], s.docs);
  }

  lemma DroppedTouches(docs: map<Id, D.World>, p: Pull, q: Pull, id: Id)
    requires Dropped(docs, p, q, id)
    ensures q.marked == p.marked && q.run == p.run && q.touched == p.touched && q.disturbed == p.disturbed
  {
  }

  lemma WroteTouches(docs: map<Id, D.World>, next: map<Id, D.World>, p: Pull, q: Pull, id: Id)
    requires WroteHead(docs, next, p, q, id) || Unlisted(docs, next, p, q, id)
    ensures q.marked == p.marked && q.run == p.run && q.touched == p.touched && q.disturbed == p.disturbed
  {
    hide Rebased;
  }

  lemma SupersededTouches(s: Store, pull: PullId)
    requires pull in s.pulls
    ensures SameTouched(s, PullProtocol.Superseded(s, pull))
  {
    OneTouches(s, pull, s.pulls[pull].(superseded := true), s.docs);
  }

  lemma WriteTouches(s: Store, pull: PullId, id: Id)
    requires Active(s, pull) && id in s.docs && id in s.pulls[pull].fetched
    ensures SameTouched(s, WriteNext(s, pull, id))
  {
    hide D.Next, FenceHolds, HoldsVersion, Rebased, Dropped, WroteHead, WriteNext, SameTouched, PullProtocol.Superseded;
    var p, t := s.pulls[pull], WriteNext(s, pull, id);
    if !FenceHolds(s, p) {
      UnfencedWriteSupersedes(s, pull, id);
      SupersededTouches(s, pull);
    } else if HoldsVersion(s.docs[id].cell.base, p.fetched[id].version) || s.docs[id].cell.chain != [] {
      WriteDropsIs(s, pull, id);
      DroppedTouches(s.docs, p, t.pulls[pull], id);
      OneTouches(s, pull, t.pulls[pull], t.docs);
    } else {
      WriteIs(s, pull, id);
      WroteTouches(s.docs, t.docs, p, t.pulls[pull], id);
      OneTouches(s, pull, t.pulls[pull], t.docs);
    }
  }

  lemma UnfencedWriteSupersedes(s: Store, pull: PullId, id: Id)
    requires pull in s.pulls && id in s.docs && id in s.pulls[pull].fetched && !FenceHolds(s, s.pulls[pull])
    ensures WriteNext(s, pull, id) == PullProtocol.Superseded(s, pull)
    ensures WriteRacedNext(s, pull, id) == PullProtocol.Superseded(s, pull)
  {
    hide D.Next, HoldsVersion;
  }

  lemma UnfencedRemoveSupersedes(s: Store, pull: PullId, id: Id)
    requires pull in s.pulls && id in s.docs && s.pulls[pull].removal.Some? && !FenceHolds(s, s.pulls[pull])
    ensures RemoveNext(s, pull, id) == PullProtocol.Superseded(s, pull)
    ensures RemoveRacedNext(s, pull, id) == PullProtocol.Superseded(s, pull)
  {
    hide D.Next;
  }

  lemma WriteRacedTouches(s: Store, pull: PullId, id: Id)
    requires Active(s, pull) && id in s.docs && id in s.pulls[pull].fetched
    ensures SameTouched(s, WriteRacedNext(s, pull, id))
  {
    hide FenceHolds, Dropped, WriteRacedNext, SameTouched, PullProtocol.Superseded;
    var p, t := s.pulls[pull], WriteRacedNext(s, pull, id);
    if !FenceHolds(s, p) {
      UnfencedWriteSupersedes(s, pull, id);
      SupersededTouches(s, pull);
    } else {
      WriteRacedIs(s, pull, id);
      DroppedTouches(s.docs, p, t.pulls[pull], id);
      OneTouches(s, pull, t.pulls[pull], t.docs);
    }
  }

  lemma RemoveTouches(s: Store, pull: PullId, id: Id)
    requires Active(s, pull) && id in s.docs && s.pulls[pull].removal.Some? && id in s.pulls[pull].removal.value
    ensures SameTouched(s, RemoveNext(s, pull, id))
  {
    hide D.Next, FenceHolds, Unlisted, RemoveNext, SameTouched, PullProtocol.Superseded;
    var p, t := s.pulls[pull], RemoveNext(s, pull, id);
    if !FenceHolds(s, p) {
      UnfencedRemoveSupersedes(s, pull, id);
      SupersededTouches(s, pull);
    } else {
      RemoveIs(s, pull, id);
      WroteTouches(s.docs, t.docs, p, t.pulls[pull], id);
      OneTouches(s, pull, t.pulls[pull], t.docs);
    }
  }

  lemma SkippedTouches(docs: map<Id, D.World>, p: Pull, q: Pull, id: Id)
    requires Skipped(docs, p, q, id)
    ensures q.marked == p.marked && q.run == p.run && q.touched == p.touched && q.disturbed == p.disturbed
  {
  }

  lemma RemoveRacedTouches(s: Store, pull: PullId, id: Id)
    requires Active(s, pull) && id in s.docs && s.pulls[pull].removal.Some? && id in s.pulls[pull].removal.value
    ensures SameTouched(s, RemoveRacedNext(s, pull, id))
  {
    hide FenceHolds, Skipped, RemoveRacedNext, SameTouched, PullProtocol.Superseded;
    var p, t := s.pulls[pull], RemoveRacedNext(s, pull, id);
    if !FenceHolds(s, p) {
      UnfencedRemoveSupersedes(s, pull, id);
      SupersededTouches(s, pull);
    } else {
      RemoveRacedIs(s, pull, id);
      SkippedTouches(s.docs, p, t.pulls[pull], id);
      OneTouches(s, pull, t.pulls[pull], t.docs);
    }
  }

  lemma BeginRemovalTouches(s: Store, pull: PullId, accept: bool)
    requires pull in s.pulls
    ensures SameTouched(s, BeginRemovalNext(s, pull, accept))
  {
    hide OutOfBounds, Present, Held, SameTouched;
    OneTouches(s, pull, BeginRemovalNext(s, pull, accept).pulls[pull], s.docs);
  }

  // ---- a fenced pull never moves a base back ----

  lemma BaseWasBefore(s: Store, p: Pull, id: Id)
    requires PullShape(s, p) && p.marked && FenceHolds(s, p) && id in s.docs && id !in p.disturbed && id !in p.wrote
    ensures id in p.markedAt && s.docs[id].baseRevision <= p.markedAt[id]
  {
    Parts(s, p);
    hide PullShape;
  }

  lemma FetchedUnderFence(s: Store, p: Pull, id: Id)
    requires PullShape(s, p) && p.marked && FenceHolds(s, p) && id in s.docs && id !in p.disturbed && id in p.fetched
    ensures s.docs[id].baseRevision <= p.fetched[id].revision
  {
    Parts(s, p);
    hide PullShape, BasesBefore, RemovalSound, BoundShape, Progress, Touched;
    assert FetchShape(s.docs[id], p, id);
    BaseWasBefore(s, p, id);
  }

  lemma ListedUnderFence(s: Store, p: Pull, id: Id)
    requires PullShape(s, p) && p.marked && FenceHolds(s, p) && id in s.docs && id !in p.disturbed
    requires p.removal.Some? && id in p.removal.value
    ensures id in p.listedAt && s.docs[id].baseRevision <= p.listedAt[id]
  {
    Parts(s, p);
    hide PullShape, BasesBefore, RemovalSound, BoundShape, Progress, Touched, D.LocalEnabled;
    RemovalWasAbsent(s.docs, p, id);
    BaseWasBefore(s, p, id);
  }

  /** Every document's base at or after where it was. */
  predicate BasesForward(docs: map<Id, D.World>, next: map<Id, D.World>) {
    forall i :: i in docs ==> i in next && docs[i].baseRevision <= next[i].baseRevision
  }

  lemma UnfencedWriteNothing(s: Store, pull: PullId, id: Id)
    requires pull in s.pulls && id in s.pulls[pull].fetched && id in s.docs
    requires !FenceHolds(s, s.pulls[pull]) || HoldsVersion(s.docs[id].cell.base, s.pulls[pull].fetched[id].version)
      || s.docs[id].cell.chain != []
    ensures WriteNext(s, pull, id).docs == s.docs
  {
    hide D.Next;
  }

  lemma UnfencedRemoveNothing(s: Store, pull: PullId, id: Id)
    requires pull in s.pulls && s.pulls[pull].removal.Some? && id in s.docs && !FenceHolds(s, s.pulls[pull])
    ensures RemoveNext(s, pull, id).docs == s.docs
  {
    hide D.Next;
  }

  /**
   * The guard under which a pull's write moves a base back: its fence holds over an unheld document whose base
   * was taken at a later revision than the fetch and is not the fetched version.
   */
  predicate WritesBack(s: Store, pull: PullId, id: Id)
    requires pull in s.pulls && id in s.pulls[pull].fetched && id in s.docs
  {
    var p, w := s.pulls[pull], s.docs[id];
    && FenceHolds(s, p) && w.cell.chain == [] && !HoldsVersion(w.cell.base, p.fetched[id].version)
    && p.fetched[id].revision < w.baseRevision
  }

  /** The same for a removal, which rewrites the base of a held document too. */
  predicate RemovesBack(s: Store, pull: PullId, id: Id)
    requires pull in s.pulls && id in s.docs
  {
    FenceHolds(s, s.pulls[pull]) && id in s.pulls[pull].listedAt && s.pulls[pull].listedAt[id] < s.docs[id].baseRevision
  }

  predicate GoesBack(s: Store, step: Step)
    requires Enabled(s, step)
  {
    match step
    case Write(pull, id) => WritesBack(s, pull, id)
    case Remove(pull, id) => RemovesBack(s, pull, id)
    case _ => false
  }

  lemma BaseMoved(docs: map<Id, D.World>, next: map<Id, D.World>, id: Id)
    requires Rebased(docs, next, id)
    ensures BasesForward(docs, next) <==> docs[id].baseRevision <= next[id].baseRevision
  {
  }

  lemma WriteGoesBack(s: Store, pull: PullId, id: Id)
    requires PullsShape(s) && Active(s, pull) && id in s.pulls[pull].fetched && id in s.docs
    ensures BasesForward(s.docs, WriteNext(s, pull, id).docs) <==> !WritesBack(s, pull, id)
    ensures WritesBack(s, pull, id) ==> id in s.pulls[pull].disturbed
  {
    var p := s.pulls[pull];
    assert PullShape(s, p);
    hide PullShape, PullsShape, WriteNext, BasesForward, FenceHolds, HoldsVersion;
    if FenceHolds(s, p) && !HoldsVersion(s.docs[id].cell.base, p.fetched[id].version) && s.docs[id].cell.chain == [] {
      WriteIs(s, pull, id);
      BaseMoved(s.docs, WriteNext(s, pull, id).docs, id);
      if id !in p.disturbed {
        FetchedUnderFence(s, p, id);
      }
    } else {
      UnfencedWriteNothing(s, pull, id);
      SameForward(s.docs);
    }
  }

  lemma SameForward(docs: map<Id, D.World>)
    ensures BasesForward(docs, docs)
  {
  }

  lemma RemovalGoesBack(s: Store, pull: PullId, id: Id)
    requires PullsShape(s) && Active(s, pull) && s.pulls[pull].removal.Some? && id in s.pulls[pull].removal.value
    requires id in s.docs
    ensures BasesForward(s.docs, RemoveNext(s, pull, id).docs) <==> !RemovesBack(s, pull, id)
    ensures RemovesBack(s, pull, id) ==> id in s.pulls[pull].disturbed
  {
    var p := s.pulls[pull];
    assert PullShape(s, p);
    Parts(s, p);
    hide PullShape, PullsShape, RemoveNext, BasesForward, FenceHolds, D.LocalEnabled;
    RemovalWasAbsent(s.docs, p, id);
    hide ReadShape, NameShape;
    if FenceHolds(s, p) {
      RemoveIs(s, pull, id);
      BaseMoved(s.docs, RemoveNext(s, pull, id).docs, id);
      if id !in p.disturbed {
        ListedUnderFence(s, p, id);
      }
    } else {
      UnfencedRemoveNothing(s, pull, id);
      SameForward(s.docs);
    }
  }

  lemma StepGoesBack(s: Store, step: Step)
    requires PullsShape(s) && Enabled(s, step) && !step.DocumentEvent?
    ensures BasesForward(s.docs, Next(s, step).docs) <==> !GoesBack(s, step)
    ensures GoesBack(s, step) ==> step.id in s.pulls[step.pull].disturbed && s.pulls[step.pull].marked
  {
    match step {
      case Write(pull, i) =>
        hide PullsShape, BasesForward, WriteNext;
        WriteGoesBack(s, pull, i);
      case Remove(pull, i) =>
        hide PullsShape, BasesForward, RemoveNext;
        RemovalGoesBack(s, pull, i);
      case _ =>
        hide PullsShape;
        SameDocs(s, step);
    }
  }

  lemma FencedWriteMovesForward(s: Store, pull: PullId, id: Id)
    requires PullsShape(s) && Active(s, pull) && id in s.pulls[pull].fetched && id in s.docs
    requires id !in s.pulls[pull].disturbed
    ensures BasesForward(s.docs, WriteNext(s, pull, id).docs)
  {
    hide PullsShape, WriteNext, BasesForward, WritesBack;
    WriteGoesBack(s, pull, id);
  }

  lemma FencedRemovalMovesForward(s: Store, pull: PullId, id: Id)
    requires PullsShape(s) && Active(s, pull) && s.pulls[pull].removal.Some? && id in s.pulls[pull].removal.value
    requires id in s.docs && id !in s.pulls[pull].disturbed
    ensures BasesForward(s.docs, RemoveNext(s, pull, id).docs)
  {
    hide PullsShape, RemoveNext, BasesForward, RemovesBack;
    RemovalGoesBack(s, pull, id);
  }

  /** The document a step of a pull may write, unless something outside the fence wrote it since the mark. */
  predicate FencedStep(s: Store, step: Step) {
    match step
    case DocumentEvent(_, _) => false
    case Write(pull, id) => pull in s.pulls && id !in s.pulls[pull].disturbed
    case Remove(pull, id) => pull in s.pulls && id !in s.pulls[pull].disturbed
    case _ => true
  }

  /**
   * No step of a pull moves any document's base back to an older authority revision, whatever pulls,
   * commits, deliveries and acknowledgements came before it.
   */
  lemma FencedPullsNeverGoBack(heads: map<Id, SharedBase>, steps: seq<Step>, step: Step)
    requires forall i :: i in heads ==> ServedHead(heads[i])
    requires EnabledSteps(InitialStore(heads), steps)
    requires
      var s := RunSteps(InitialStore(heads), steps);
      Enabled(s, step) && FencedStep(s, step)
    ensures
      var s := RunSteps(InitialStore(heads), steps);
      BasesForward(s.docs, Next(s, step).docs)
  {
    var s := RunSteps(InitialStore(heads), steps);
    EveryRunKeepsStore(heads, steps);
    hide RunSteps, InitialStore, EnabledSteps;
    assert PullsShape(s);
    hide StoreShape, PullsShape;
    StepGoesBack(s, step);
  }

  /**
   * Exactly these steps of a pull move a base back, over every run; and the document was then written outside
   * the fence, by a resolution or a bootstrap, at some step since the pull's mark.
   */
  lemma PullsGoBackExactly(heads: map<Id, SharedBase>, steps: seq<Step>, step: Step)
    requires forall i :: i in heads ==> ServedHead(heads[i])
    requires EnabledSteps(InitialStore(heads), steps)
    requires Enabled(RunSteps(InitialStore(heads), steps), step) && !step.DocumentEvent?
    ensures
      var s := RunSteps(InitialStore(heads), steps);
      && (!BasesForward(s.docs, Next(s, step).docs) <==> GoesBack(s, step))
      && (GoesBack(s, step) ==>
            exists k :: WrittenAt(InitialStore(heads), steps, k, step.pull, s.pulls[step.pull].run, step.id))
  {
    var s := RunSteps(InitialStore(heads), steps);
    EveryRunKeepsStore(heads, steps);
    hide RunSteps, EnabledSteps, WrittenAt, BasesForward, Next, Enabled;
    assert PullsShape(s) && InitialStore(heads).pulls == map[];
    hide StoreShape, PullsShape, InitialStore;
    StepGoesBack(s, step);
    if GoesBack(s, step) {
      DisturbedWasWritten(InitialStore(heads), steps, step.pull, s.pulls[step.pull].run, step.id);
    }
  }

  // ---- a run in which a fenced write goes back ----

  /** The stages of a pull over one document, whose head another writer and then a bootstrap move under it. */
  function RacingPull(first: SharedBase, stage: nat): Pull
    requires first.version.Some? && first.content.Some?
  {
    var begun := BLANK_PULL;
    var marked := begun.(marked := true, markedAt := map["doc" := 0]);
    var looked := marked.(heldTargets := Some({}));
    var listed := looked.(
      listing := Some(map["doc" := first.version.value]), listed := {"doc"}, listedAt := map["doc" := 0]);
    var compared := listed.(compared := {"doc"}, wanted := {"doc"});
    var fetched :=
      compared.(wanted := {}, fetched := map["doc" := Fetched(first.version.value, first.content.value, 0)]);
    match stage
    case 0 => begun
    case 1 => marked
    case 2 => looked
    case 3 => listed
    case 4 => compared
    case 5 => fetched
    case _ => fetched.(disturbed := {"doc"})
  }

  function RacingStore(world: D.World, marked: bool, p: Pull): Store {
    Store(
      map["doc" := world], if marked then Some(Marker(0, false, None)) else None, 0, if marked then 1 else 0,
      map[0 := p])
  }

  function MovedWorld(first: SharedBase, second: SharedBase): D.World {
    D.Initial(first).(history := [first, second])
  }

  function TakenUpWorld(first: SharedBase, second: SharedBase): D.World {
    MovedWorld(first, second).(
      cell := BLANK.(doc := second.content, base := Some(SharedBase(second.version, second.content, None, false))),
      baseRevision := 1)
  }

  function Bootstrap(second: SharedBase): D.Event
    requires second.version.Some? && second.content.Some?
  {
    D.Local(RefreshVerb(second.version.value, second.content.value), 1)
  }

  function RacingSteps(second: SharedBase): seq<Step>
    requires second.version.Some? && second.content.Some?
  {
    [Begin(0), Mark(0), ReadHeld(0), List(0), Compare(0, "doc"), Fetch(0, "doc"),
     DocumentEvent("doc", D.OtherWriter(second)), DocumentEvent("doc", Bootstrap(second))]
  }

  predicate Steps(s: Store, step: Step, t: Store) {
    Enabled(s, step) && Next(s, step) == t
  }

  /** Stores that follow each other, one step apart, are a run. */
  lemma {:induction false} RunOfSteps(stores: seq<Store>, steps: seq<Step>)
    requires |stores| == |steps| + 1
    requires forall k :: 0 <= k < |steps| ==> Steps(stores[k], steps[k], stores[k + 1])
    ensures EnabledSteps(stores[0], steps) && RunSteps(stores[0], steps) == stores[|steps|]
    decreases |steps|
  {
    hide Enabled, Next;
    if steps != [] {
      assert Steps(stores[0], steps[0], stores[1]);
      assert forall k :: 0 <= k < |steps| - 1 ==> stores[1..][k] == stores[k + 1] && steps[1..][k] == steps[k + 1];
      RunOfSteps(stores[1..], steps[1..]);
    }
  }

  predicate RacingHeads(first: SharedBase, second: SharedBase) {
    && ServedHead(first) && ServedHead(second) && first.version.Some? && second.version.Some?
    && first.version != second.version
  }

  lemma PullBegins(first: SharedBase)
    requires ServedHead(first) && first.version.Some?
    ensures
      Steps(InitialStore(map["doc" := first]), Begin(0), RacingStore(D.Initial(first), false, RacingPull(first, 0)))
  {
    assert InitialStore(map["doc" := first]).docs == map["doc" := D.Initial(first)];
  }

  lemma PullMarks(first: SharedBase)
    requires ServedHead(first) && first.version.Some?
    ensures
      Steps(RacingStore(D.Initial(first), false, RacingPull(first, 0)), Mark(0),
            RacingStore(D.Initial(first), true, RacingPull(first, 1)))
  {
    var docs := map["doc" := D.Initial(first)];
    assert Held(docs) == {} && Revisions(docs) == map["doc" := 0];
  }

  lemma PullLooks(first: SharedBase)
    requires ServedHead(first) && first.version.Some?
    ensures
      Steps(RacingStore(D.Initial(first), true, RacingPull(first, 1)), ReadHeld(0),
            RacingStore(D.Initial(first), true, RacingPull(first, 2)))
  {
    assert Held(map["doc" := D.Initial(first)]) == {};
  }

  lemma PullLists(first: SharedBase)
    requires ServedHead(first) && first.version.Some?
    ensures
      Steps(RacingStore(D.Initial(first), true, RacingPull(first, 2)), List(0),
            RacingStore(D.Initial(first), true, RacingPull(first, 3)))
  {
    FirstHeads(first);
    hide HeadsOf, Revisions, D.Initial;
  }

  lemma FirstHeads(first: SharedBase)
    requires ServedHead(first) && first.version.Some?
    ensures
      var docs := map["doc" := D.Initial(first)];
      && HeadsOf(docs) == map["doc" := first.version.value] && HeadsOf(docs).Keys == {"doc"}
      && Revisions(docs) == map["doc" := 0]
  {
    assert Last([first]) == first;
  }

  lemma PullCompares(first: SharedBase)
    requires ServedHead(first) && first.version.Some?
    ensures
      Steps(RacingStore(D.Initial(first), true, RacingPull(first, 3)), Compare(0, "doc"),
            RacingStore(D.Initial(first), true, RacingPull(first, 4)))
  {
    var s := RacingStore(D.Initial(first), true, RacingPull(first, 3));
    var p := RacingPull(first, 3);
    assert {} + {"doc"} == {"doc"};
    assert p.(compared := p.compared + {"doc"}).(wanted := p.wanted + {"doc"}) == RacingPull(first, 4);
    assert CompareNext(s, 0, "doc").pulls == map[0 := RacingPull(first, 4)];
  }

  lemma PullFetches(first: SharedBase)
    requires ServedHead(first) && first.version.Some?
    ensures
      Steps(RacingStore(D.Initial(first), true, RacingPull(first, 4)), Fetch(0, "doc"),
            RacingStore(D.Initial(first), true, RacingPull(first, 5)))
  {
    var s := RacingStore(D.Initial(first), true, RacingPull(first, 4));
    assert Last([first]) == first && {"doc"} - {"doc"} == {};
    assert FetchNext(s, 0, "doc").pulls[0] == RacingPull(first, 5);
    assert FetchNext(s, 0, "doc").pulls == map[0 := RacingPull(first, 5)];
  }

  /** What the one pull remembers of an event that leaves its document unheld. */
  lemma RacingObserves(p: Pull, world: D.World, disturbed: set<Id>)
    requires world.cell.chain == []
    ensures Observe(map[0 := p], map["doc" := world], disturbed) == map[0 := p.(disturbed := p.disturbed + disturbed)]
  {
    assert Held(map["doc" := world]) == {} && p.touched + {} == p.touched;
  }

  lemma HeadMoves(first: SharedBase, second: SharedBase)
    requires RacingHeads(first, second)
    ensures
      Steps(RacingStore(D.Initial(first), true, RacingPull(first, 5)), DocumentEvent("doc", D.OtherWriter(second)),
            RacingStore(MovedWorld(first, second), true, RacingPull(first, 5)))
  {
    var p, v := RacingPull(first, 5), MovedWorld(first, second);
    assert D.Next(D.Initial(first), "doc", D.OtherWriter(second)) == v by {
      assert [first] + [second] == [first, second];
    }
    RacingObserves(p, v, {});
    assert p.(disturbed := p.disturbed + {}) == p;
    assert map["doc" := D.Initial(first)]["doc" := v] == map["doc" := v];
    assert D.Enabled(D.Initial(first), D.OtherWriter(second));
    hide Observe, RacingPull, D.Next, D.Enabled, D.Initial, MovedWorld;
  }

  lemma WorldTakenUp(first: SharedBase, second: SharedBase)
    requires RacingHeads(first, second)
    ensures D.Enabled(MovedWorld(first, second), Bootstrap(second))
    ensures D.Next(MovedWorld(first, second), "doc", Bootstrap(second)) == TakenUpWorld(first, second)
  {
    assert MovedWorld(first, second).minted + {} == {};
  }

  lemma BootstrapTakesItUp(first: SharedBase, second: SharedBase)
    requires RacingHeads(first, second)
    ensures
      Steps(RacingStore(MovedWorld(first, second), true, RacingPull(first, 5)), DocumentEvent("doc", Bootstrap(second)),
            RacingStore(TakenUpWorld(first, second), true, RacingPull(first, 6)))
  {
    var p, v := RacingPull(first, 5), TakenUpWorld(first, second);
    WorldTakenUp(first, second);
    RacingObserves(p, v, {"doc"});
    assert p.(disturbed := p.disturbed + {"doc"}) == RacingPull(first, 6);
    assert map["doc" := MovedWorld(first, second)]["doc" := v] == map["doc" := v];
    hide Observe, RacingPull, D.Next, D.Enabled, TakenUpWorld, MovedWorld;
  }

  lemma RacingRun(first: SharedBase, second: SharedBase)
    requires RacingHeads(first, second)
    ensures EnabledSteps(InitialStore(map["doc" := first]), RacingSteps(second))
    ensures
      RunSteps(InitialStore(map["doc" := first]), RacingSteps(second)) ==
        RacingStore(TakenUpWorld(first, second), true, RacingPull(first, 6))
  {
    hide Steps, RacingStore, RacingPull, InitialStore, EnabledSteps, RunSteps, MovedWorld, TakenUpWorld, Bootstrap;
    PullBegins(first);
    PullMarks(first);
    PullLooks(first);
    PullLists(first);
    PullCompares(first);
    PullFetches(first);
    HeadMoves(first, second);
    BootstrapTakesItUp(first, second);
    var world := D.Initial(first);
    RunOfSteps([
      InitialStore(map["doc" := first]), RacingStore(world, false, RacingPull(first, 0)),
      RacingStore(world, true, RacingPull(first, 1)), RacingStore(world, true, RacingPull(first, 2)),
      RacingStore(world, true, RacingPull(first, 3)), RacingStore(world, true, RacingPull(first, 4)),
      RacingStore(world, true, RacingPull(first, 5)),
        RacingStore(MovedWorld(first, second), true, RacingPull(first, 5)),
      RacingStore(TakenUpWorld(first, second), true, RacingPull(first, 6))], RacingSteps(second));
  }

  /** In this run a bootstrap takes up a head that moved after the pull fetched it, and the pull's write undoes it. */
  lemma UnfencedWriteCanBeUndone(first: SharedBase, second: SharedBase)
    requires RacingHeads(first, second)
    ensures EnabledSteps(InitialStore(map["doc" := first]), RacingSteps(second))
    ensures
      var s := RunSteps(InitialStore(map["doc" := first]), RacingSteps(second));
      && Enabled(s, Step.Write(0, "doc")) && GoesBack(s, Step.Write(0, "doc"))
      && "doc" in s.docs && s.docs["doc"].cell.doc == second.content
      && !BasesForward(s.docs, Next(s, Step.Write(0, "doc")).docs)
  {
    var heads := map["doc" := first];
    RacingRun(first, second);
    var s := RunSteps(InitialStore(heads), RacingSteps(second));
    assert Enabled(s, Step.Write(0, "doc")) && GoesBack(s, Step.Write(0, "doc"))
      && s.docs["doc"].cell.doc == second.content;
    hide RunSteps, InitialStore, EnabledSteps, RacingSteps, Enabled, Next, GoesBack, RacingStore;
    PullsGoBackExactly(heads, RacingSteps(second), Step.Write(0, "doc"));
  }

  // ---- what a listing may remove ----

  lemma {:induction false} SmallerSet<T>(a: set<T>, b: set<T>)
    requires a <= b
    ensures |a| <= |b|
  {
    if a != {} {
      var x :| x in a;
      SmallerSet(a - {x}, b - {x});
    }
  }

  /**
   * Unless its caller accepted a large removal, what one pull deleted is fewer than eight documents, or a
   * listing that named something removed at most half of those present. A document that a local edit held and
   * a resolution or a bootstrap then wrote, both since the mark, is not counted.
   */
  lemma DeletionsStayInBounds(heads: map<Id, SharedBase>, steps: seq<Step>, pull: PullId)
    requires forall i :: i in heads ==> ServedHead(heads[i])
    requires EnabledSteps(InitialStore(heads), steps)
    requires
      var s := RunSteps(InitialStore(heads), steps);
      pull in s.pulls && !s.pulls[pull].accepted
    ensures
      var p := RunSteps(InitialStore(heads), steps).pulls[pull];
      var counted := p.deleted - p.disturbed * p.touched;
      |counted| < 8 || (p.listed != {} && 2 * |counted| <= p.present)
  {
    EveryRunKeepsStore(heads, steps);
    var s := RunSteps(InitialStore(heads), steps);
    var p := s.pulls[pull];
    assert PullShape(s, p) && BoundShape(p);
    hide StoreShape, PullShape, RunSteps;
    SmallerSet(p.deleted - p.disturbed * p.touched, p.unheld);
  }
}
