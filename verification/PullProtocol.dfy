/**
 * Fenced pulls over one store and one authority: a pull marks with a fresh run, lists, compares, fetches,
 * writes each document under its fence, removes what the listing no longer names, and completes over its own
 * marker. Every step is one transaction or one request, and every document's other events interleave freely.
 */
module PullProtocol {
  import opened Records
  import opened Journal
  import opened JournalShape
  import D = Delivery

  type Listing = map<Id, Version>
  type PullId = nat

  /** The pull row: whose run wrote it, and the listing whose digest it recorded when it completed. */
  datatype Marker = Marker(run: nat, completed: bool, digest: Option<Listing>)

  /** A document as a fetch served it, and the authority revision it was served at. */
  datatype Fetched = Fetched(version: Version, content: string, revision: nat)

  datatype Pull = Pull(
    marked: bool,
    run: nat,
    acknowledged: nat,              // the acknowledgement row as read before marking
    superseded: bool,
    consistent: bool,               // every document read back as the listing named it
    listing: Option<Listing>,
    listedAt: map<Id, nat>,         // the revision of each document when it was listed, or found absent since
    listed: set<Id>,                // names still taken as listed
    heldTargets: Option<set<Id>>,   // the names held when the pull looked, before it asked for the listing
    compared: set<Id>,
    matched: set<Id>,               // names seen or written at their listed version
    wanted: set<Id>,
    fetched: map<Id, Fetched>,
    wrote: set<Id>,                 // names whose base this pull wrote
    removal: Option<set<Id>>,       // names still to remove, once removal began
    unheld: set<Id>,                // the unheld names the deletion bound counted
    present: nat,                   // the documents present when it counted
    deleted: set<Id>,
    refused: bool,
    accepted: bool,
    markedAt: map<Id, nat>,         // the revision of each document when this pull marked
    touched: set<Id>,               // documents an unsettled row held at some moment since the mark
    disturbed: set<Id>)             // documents a resolution or a bootstrap wrote since the mark

  datatype Store = Store(docs: map<Id, D.World>, marker: Option<Marker>, acknowledged: nat, nextRun: nat,
      pulls: map<PullId, Pull>)

  datatype Step =
    | DocumentEvent(id: Id, event: D.Event)
    | Begin(pull: PullId)
    | Mark(pull: PullId)
    | ReadHeld(pull: PullId)
    | List(pull: PullId)
    | Compare(pull: PullId, id: Id)
    | Fetch(pull: PullId, id: Id)
    | Write(pull: PullId, id: Id)
    | WriteRaced(pull: PullId, id: Id)
    | BeginRemoval(pull: PullId, accept: bool)
    | Remove(pull: PullId, id: Id)
    | RemoveRaced(pull: PullId, id: Id)
    | Complete(pull: PullId)

  const BLANK_PULL := Pull(false, 0, 0, false, true, None, map[], {}, None, {}, {}, {}, map[], {}, None, {}, 0, {},
      false, false, map[], {}, {})

  function Held(docs: map<Id, D.World>): set<Id> {
    set id | id in docs && docs[id].cell.chain != []
  }

  function Present(docs: map<Id, D.World>): set<Id> {
    set id | id in docs && docs[id].cell.doc.Some?
  }

  function Revision(w: D.World): nat {
    if w.history == [] then 0 else |w.history| - 1
  }

  function Revisions(docs: map<Id, D.World>): map<Id, nat> {
    map id | id in docs :: Revision(docs[id])
  }

  function HeadsOf(docs: map<Id, D.World>): Listing {
    map id | id in docs && docs[id].history != [] && Last(docs[id].history).version.Some? ::
      Last(docs[id].history).version.value
  }

  /** The pull row is still this pull's own unfinished marker. */
  predicate Owns(s: Store, p: Pull) {
    p.marked && s.marker == Some(Marker(p.run, false, None))
  }

  /** The fence: the pull owns its marker and no acknowledgement settled since it read the row. */
  predicate FenceHolds(s: Store, p: Pull) {
    Owns(s, p) && s.acknowledged == p.acknowledged
  }

  /** A listing that would remove at least eight unheld documents, all of them or more than half, is refused. */
  predicate OutOfBounds(listed: nat, present: nat, unheld: nat) {
    unheld >= 8 && (listed == 0 || unheld * 2 > present)
  }

  /** Every pull remembers which documents an unsettled row held, and which were written from outside a fence. */
  function Observe(pulls: map<PullId, Pull>, docs: map<Id, D.World>, disturbed: set<Id>): map<PullId, Pull> {
    map p | p in pulls ::
      pulls[p].(touched := pulls[p].touched + Held(docs), disturbed := pulls[p].disturbed + disturbed)
  }

  function Acknowledges(w: D.World, event: D.Event): bool {
    event.Local? && event.verb.SettleVerb? &&
    match Settle(w.cell, event.verb.requestId, event.verb.answer, event.verb.attempts, event.verb.observed)
    case Settled(_, row) => row.state == Acknowledged
    case _ => false
  }

  /** A base written outside the delivery of a local edit and outside a fence. */
  predicate Unfenced(event: D.Event) {
    event.Local? && (event.verb.ResolveVerb? || event.verb.RefreshVerb? || event.verb.UnlistedVerb?)
  }

  predicate Active(s: Store, pull: PullId) {
    pull in s.pulls && s.pulls[pull].marked && !s.pulls[pull].superseded
  }

  predicate Enabled(s: Store, step: Step) {
    match step
    case DocumentEvent(id, event) => id in s.docs && D.Enabled(s.docs[id], event)
    case Begin(pull) => pull !in s.pulls
    case Mark(pull) => pull in s.pulls && !s.pulls[pull].marked
    case ReadHeld(pull) => Active(s, pull) && s.pulls[pull].heldTargets == None
    case List(pull) => Active(s, pull) && s.pulls[pull].heldTargets.Some? && s.pulls[pull].listing == None
    case Compare(pull, id) =>
      Active(s, pull) && s.pulls[pull].listing.Some? && id in s.pulls[pull].listing.value && id in s.docs
        && id !in s.pulls[pull].compared
    case Fetch(pull, id) => Active(s, pull) && id in s.pulls[pull].wanted && id in s.docs && s.docs[id].history != []
    case Write(pull, id) => Active(s, pull) && id in s.pulls[pull].fetched && id in s.docs
    case WriteRaced(pull, id) => Active(s, pull) && id in s.pulls[pull].fetched && id in s.docs
    case BeginRemoval(pull, accept) =>
      && Active(s, pull) && s.pulls[pull].listing.Some? && s.pulls[pull].removal == None && !s.pulls[pull].refused
      && s.pulls[pull].listing.value.Keys <= s.pulls[pull].compared
      && s.pulls[pull].wanted == {} && s.pulls[pull].fetched == map[]
    case Remove(pull, id) => Active(s, pull) && s.pulls[pull].removal.Some? && id in s.pulls[pull].removal.value
      && id in s.docs
    case RemoveRaced(pull, id) => Active(s, pull) && s.pulls[pull].removal.Some? && id in s.pulls[pull].removal.value
      && id in s.docs
    case Complete(pull) =>
      && Active(s, pull) && Owns(s, s.pulls[pull]) && s.pulls[pull].listing.Some?
      && (s.pulls[pull].refused || s.pulls[pull].removal == Some({}))
  }

  function WithPull(s: Store, pull: PullId, p: Pull): Store {
    s.(pulls := s.pulls[pull := p])
  }

  function Superseded(s: Store, pull: PullId): Store
    requires pull in s.pulls
  {
    WithPull(s, pull, s.pulls[pull].(superseded := true))
  }

  /** A verb of this store on one document, seen by every pull. */
  function DocumentNext(s: Store, id: Id, event: D.Event): Store
    requires id in s.docs
  {
    var docs := s.docs[id := D.Next(s.docs[id], id, event)];
    s.(docs := docs,
       acknowledged := if Acknowledges(s.docs[id], event) then s.acknowledged + 1 else s.acknowledged,
       pulls := Observe(s.pulls, docs, if Unfenced(event) then {id} else {}))
  }

  function MarkNext(s: Store, pull: PullId): Store
    requires pull in s.pulls
  {
    var p := s.pulls[pull].(
      marked := true, run := s.nextRun, markedAt := Revisions(s.docs), touched := Held(s.docs), disturbed := {});
    WithPull(s, pull, p).(marker := Some(Marker(s.nextRun, false, None)), nextRun := s.nextRun + 1)
  }

  function ReadHeldNext(s: Store, pull: PullId): Store
    requires pull in s.pulls
  {
    WithPull(s, pull, s.pulls[pull].(heldTargets := Some(Held(s.docs))))
  }

  function ListNext(s: Store, pull: PullId): Store
    requires pull in s.pulls
  {
    var heads := HeadsOf(s.docs);
    WithPull(s, pull, s.pulls[pull].(listing := Some(heads), listed := heads.Keys, listedAt := Revisions(s.docs)))
  }

  function CompareNext(s: Store, pull: PullId, id: Id): Store
    requires pull in s.pulls && id in s.docs && s.pulls[pull].listing.Some? && id in s.pulls[pull].listing.value
  {
    var p := s.pulls[pull].(compared := s.pulls[pull].compared + {id});
    if p.heldTargets.Some? && id in p.heldTargets.value then WithPull(s, pull, p)
    else if HoldsVersion(s.docs[id].cell.base, p.listing.value[id])
      then WithPull(s, pull, p.(matched := p.matched + {id}))
    else WithPull(s, pull, p.(wanted := p.wanted + {id}))
  }

  function FetchNext(s: Store, pull: PullId, id: Id): Store
    requires pull in s.pulls && id in s.docs && s.docs[id].history != []
  {
    var p := s.pulls[pull].(wanted := s.pulls[pull].wanted - {id});
    var head := Last(s.docs[id].history);
    if head.version == None || head.content == None then
      WithPull(
        s, pull,
        p.(listed := p.listed - {id}, consistent := false, listedAt := p.listedAt[id := Revision(s.docs[id])]))
    else
      var matches := p.listing.Some? && id in p.listing.value && p.listing.value[id] == head.version.value;
      WithPull(
        s, pull,
        p.(consistent := p.consistent && matches,
           fetched := p.fetched[id := Fetched(head.version.value, head.content.value, Revision(s.docs[id]))]))
  }

  /** The guarded write of one fetched head; the fence, the document, its rows and its base are one snapshot. */
  function WriteNext(s: Store, pull: PullId, id: Id): Store
    requires pull in s.pulls && id in s.docs && id in s.pulls[pull].fetched
  {
    var p := s.pulls[pull].(fetched := s.pulls[pull].fetched - {id});
    var head := s.pulls[pull].fetched[id];
    if !FenceHolds(s, p) then Superseded(s, pull)
    else if HoldsVersion(s.docs[id].cell.base, head.version) then WithPull(s, pull, p.(matched := p.matched + {id}))
    else if s.docs[id].cell.chain != [] then WithPull(s, pull, p)
    else
      var docs := s.docs[id := D.Next(s.docs[id], id, D.Local(RefreshVerb(head.version, head.content), head.revision))];
      WithPull(s, pull, p.(matched := p.matched + {id}, wrote := p.wrote + {id})).(docs := docs)
  }

  /** The guard refused: the fence is gone, a local edit holds the document, or it moved otherwise. */
  function WriteRacedNext(s: Store, pull: PullId, id: Id): Store
    requires pull in s.pulls && id in s.docs
  {
    var p := s.pulls[pull].(fetched := s.pulls[pull].fetched - {id});
    if !FenceHolds(s, p) then Superseded(s, pull)
    else if s.docs[id].cell.chain != [] then WithPull(s, pull, p)
    else WithPull(s, pull, p.(consistent := false))
  }

  function BeginRemovalNext(s: Store, pull: PullId, accept: bool): Store
    requires pull in s.pulls
  {
    var p := s.pulls[pull];
    var candidates := Present(s.docs) - p.listed;
    var unheld := candidates - Held(s.docs);
    var counted := p.(unheld := unheld, present := |Present(s.docs)|, accepted := accept);
    if OutOfBounds(|p.listed|, |Present(s.docs)|, |unheld|) && !accept then WithPull(s, pull, counted.(refused := true))
    else WithPull(s, pull, counted.(removal := Some(candidates)))
  }

  function RemoveNext(s: Store, pull: PullId, id: Id): Store
    requires pull in s.pulls && id in s.docs && s.pulls[pull].removal.Some?
  {
    var p := s.pulls[pull].(removal := Some(s.pulls[pull].removal.value - {id}));
    if !FenceHolds(s, p) then Superseded(s, pull)
    else
      var revision := if id in p.listedAt then p.listedAt[id] else 0;
      var docs := s.docs[id := D.Next(s.docs[id], id, D.Local(UnlistedVerb, revision))];
      var deletes := s.docs[id].cell.chain == [] && s.docs[id].cell.doc.Some?;
      WithPull(s, pull, p.(wrote := p.wrote + {id},
          deleted := if deletes then p.deleted + {id} else p.deleted)).(docs := docs)
  }

  function RemoveRacedNext(s: Store, pull: PullId, id: Id): Store
    requires pull in s.pulls && id in s.docs && s.pulls[pull].removal.Some?
  {
    var p := s.pulls[pull].(removal := Some(s.pulls[pull].removal.value - {id}));
    if !FenceHolds(s, p) then Superseded(s, pull)
    else if s.docs[id].cell.chain != [] then WithPull(s, pull, p)
    else WithPull(s, pull, p.(consistent := false))
  }

  /** The digest the completing pull records, if the working copy is the listing's state. */
  function RecordedDigest(p: Pull): Option<Listing> {
    if p.refused || !p.consistent then None else p.listing
  }

  function CompleteNext(s: Store, pull: PullId): Store
    requires pull in s.pulls
  {
    var p := s.pulls[pull];
    s.(marker := Some(Marker(p.run, true, RecordedDigest(p))), pulls := s.pulls - {pull})
  }

  function Next(s: Store, step: Step): Store
    requires Enabled(s, step)
  {
    match step
    case DocumentEvent(id, event) => DocumentNext(s, id, event)
    case Begin(pull) => WithPull(s, pull, BLANK_PULL.(acknowledged := s.acknowledged))
    case Mark(pull) => MarkNext(s, pull)
    case ReadHeld(pull) => ReadHeldNext(s, pull)
    case List(pull) => ListNext(s, pull)
    case Compare(pull, id) => CompareNext(s, pull, id)
    case Fetch(pull, id) => FetchNext(s, pull, id)
    case Write(pull, id) => WriteNext(s, pull, id)
    case WriteRaced(pull, id) => WriteRacedNext(s, pull, id)
    case BeginRemoval(pull, accept) => BeginRemovalNext(s, pull, accept)
    case Remove(pull, id) => RemoveNext(s, pull, id)
    case RemoveRaced(pull, id) => RemoveRacedNext(s, pull, id)
    case Complete(pull) => CompleteNext(s, pull)
  }
}
