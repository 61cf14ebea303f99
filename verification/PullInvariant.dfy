/** What every interleaving of fenced pulls and document events keeps. */
module PullInvariant {
  import opened Records
  import opened Journal
  import opened JournalShape
  import D = Delivery
  import DeliveryInvariant
  import opened PullProtocol

  predicate DocsShape(docs: map<Id, D.World>) {
    forall id :: id in docs ==> D.Consistent(docs[id], id)
  }

  /** What a pull read, and when. */
  predicate ReadShape(docs: map<Id, D.World>, p: Pull) {
    && p.markedAt.Keys == docs.Keys
    && (forall id :: id in docs ==> p.markedAt[id] <= Revision(docs[id]))
    && (p.listing.Some? ==>
          && p.listedAt.Keys == docs.Keys && p.listing.value.Keys <= docs.Keys
          && (forall id :: id in docs ==> p.markedAt[id] <= p.listedAt[id] < |docs[id].history|)
          && (forall id :: id in docs && id !in p.listed ==> docs[id].history[p.listedAt[id]].version == None))
    && p.fetched.Keys <= docs.Keys
    && (forall id :: id in p.fetched ==> FetchShape(docs[id], p, id))
  }

  predicate FetchShape(w: D.World, p: Pull, id: Id)
    requires id in p.fetched && id in p.markedAt
  {
    var head := p.fetched[id];
    && p.markedAt[id] <= head.revision < |w.history|
    && w.history[head.revision].version == Some(head.version) && w.history[head.revision].content == Some(head.content)
    && (p.consistent ==> p.listing.Some? && id in p.listing.value && p.listing.value[id] == head.version)
  }

  /** Which names a pull has dealt with, and how. */
  predicate NameShape(p: Pull) {
    && (p.listing == None ==> p.compared == {} && p.removal == None && p.listed == {})
    && (p.listing.Some? ==>
          && p.listed <= p.listing.value.Keys && p.compared <= p.listing.value.Keys
             && p.listing.value.Keys <= p.listed + p.compared
          && (p.consistent ==> p.listed == p.listing.value.Keys))
    && p.wanted <= p.compared && p.fetched.Keys <= p.compared && p.matched <= p.compared
    && p.wanted !! p.fetched.Keys && p.wanted !! p.wrote && p.fetched.Keys !! p.wrote && p.wanted !! p.matched
       && p.fetched.Keys !! p.matched
    && p.wanted <= p.listed && p.fetched.Keys <= p.listed && (p.heldTargets.Some? ==> p.heldTargets.value <= p.touched)
    && (p.removal == None ==> p.wrote <= p.listed && p.wrote <= p.compared)
    && (p.removal.Some? ==>
          && p.listing.Some? && p.removal.value !! p.listed && p.removal.value !! p.wrote
          && p.wanted == {} && p.fetched == map[] && p.listing.value.Keys <= p.compared)
  }

  predicate Touched(docs: map<Id, D.World>, p: Pull) {
    forall id :: id in docs && docs[id].cell.chain != [] ==> id in p.touched
  }

  /** A document the listing speaks for, as far as this pull has come. */
  predicate DocumentDone(w: D.World, p: Pull, id: Id) {
    && (id in p.matched && p.consistent && p.listing.Some? && id in p.listing.value ==>
         BaseVersion(w.cell.base) == Some(p.listing.value[id]))
    && (p.removal.Some? && id !in p.listed ==> w.cell.doc == None || id in p.removal.value || !p.consistent)
  }

  predicate Undisturbed(p: Pull, id: Id) {
    id !in p.touched && id !in p.disturbed
  }

  predicate Progress(docs: map<Id, D.World>, p: Pull) {
    && (forall id :: id in p.compared ==>
         id in p.matched || id in p.wanted || id in p.fetched || id in p.touched || !p.consistent)
    && (forall id :: id in docs && Undisturbed(p, id) ==> DocumentDone(docs[id], p, id))
  }

  /** No base was taken from after the pull's mark, but where the pull itself wrote it. */
  predicate BasesBefore(docs: map<Id, D.World>, p: Pull) {
    forall id :: id in docs && id !in p.disturbed && id in p.markedAt ==>
      docs[id].baseRevision <= p.markedAt[id] || id in p.wrote
  }

  predicate BoundShape(p: Pull) {
    && (p.removal.Some? ==> p.accepted || !OutOfBounds(|p.listed|, p.present, |p.unheld|))
    && (p.removal == None ==> p.deleted == {})
    && p.deleted <= p.unheld + p.disturbed * p.touched
  }

  predicate RemovalSound(docs: map<Id, D.World>, p: Pull) {
    p.removal.Some? ==>
      forall id :: id in p.removal.value && id in docs && id !in p.unheld ==>
        id in p.touched && (id in p.disturbed || docs[id].cell.chain != [] || docs[id].cell.doc == None)
  }

  predicate PullShape(s: Store, p: Pull) {
    && p.acknowledged <= s.acknowledged
    && BoundShape(p)
    && (p.marked ==>
          && p.run < s.nextRun
          && ReadShape(s.docs, p) && NameShape(p) && Touched(s.docs, p)
          && (Owns(s, p) ==> Progress(s.docs, p))
          && (FenceHolds(s, p) ==> BasesBefore(s.docs, p) && RemovalSound(s.docs, p)))
    && (!p.marked ==> p == BLANK_PULL.(acknowledged := p.acknowledged, touched := p.touched, disturbed := p.disturbed))
  }

  predicate RunsDistinct(s: Store) {
    forall p, q :: p in s.pulls && q in s.pulls && p != q && s.pulls[p].marked && s.pulls[q].marked ==>
      s.pulls[p].run != s.pulls[q].run
  }

  predicate PullsShape(s: Store) {
    && (s.marker.Some? ==> s.marker.value.run < s.nextRun)
    && RunsDistinct(s)
    && (forall p :: p in s.pulls ==> PullShape(s, s.pulls[p]))
  }

  predicate StoreShape(s: Store) {
    DocsShape(s.docs) && PullsShape(s)
  }

  // ---- document events ----

  /** A document no unsettled row holds before or after an event of the store's own is left as it was. */
  lemma UnheldIsLeft(w: D.World, id: Id, event: D.Event)
    requires D.Consistent(w, id) && D.Enabled(w, event) && !Unfenced(event)
    requires w.cell.chain == [] && D.Next(w, id, event).cell.chain == []
    ensures D.Next(w, id, event).cell == w.cell
  {
  }

  lemma HistoryGrows(w: D.World, id: Id, event: D.Event)
    ensures w.history <= D.Next(w, id, event).history
  {
  }

  /** Only an acknowledgement or a write from outside a fence moves where a base was taken from. */
  lemma BaseIsLeft(w: D.World, id: Id, event: D.Event)
    requires !Unfenced(event) && !Acknowledges(w, event)
    ensures D.Next(w, id, event).baseRevision == w.baseRevision
  {
  }

  /** A held document is let go only by an acknowledgement, by a write from outside a fence, or by leaving. */
  lemma HeldOrGone(w: D.World, id: Id, event: D.Event)
    requires D.Consistent(w, id) && D.Enabled(w, event) && !Unfenced(event) && !Acknowledges(w, event)
    requires w.cell.chain != [] || w.cell.doc == None
    ensures D.Next(w, id, event).cell.chain != [] || D.Next(w, id, event).cell.doc == None
  {
    EventCell(w, id, event);
    hide D.Consistent, D.Next, D.Enabled, Apply;
    if event.Local? {
      VerbHoldsOrGone(w.cell, id, event.verb);
    }
  }

  lemma EventCell(w: D.World, id: Id, event: D.Event)
    ensures D.Next(w, id, event).cell == if event.Local? then Apply(w.cell, id, event.verb) else w.cell
  {
    hide Apply;
  }

  predicate Acknowledging(c: Cell, verb: Verb) {
    verb.SettleVerb? &&
    match Settle(c, verb.requestId, verb.answer, verb.attempts, verb.observed)
    case Settled(_, row) => row.state == Acknowledged
    case _ => false
  }

  lemma VerbHoldsOrGone(c: Cell, id: Id, verb: Verb)
    requires !verb.ResolveVerb? && !verb.RefreshVerb? && !verb.UnlistedVerb? && !Acknowledging(c, verb)
    requires c.chain != [] || c.doc == None
    ensures Apply(c, id, verb).chain != [] || Apply(c, id, verb).doc == None
  {
  }

  /** What an event may do to a document without telling a pull: nothing to an unheld one, and no move of its base. */
  predicate Quiet(w: D.World, v: D.World) {
    && (w.cell.chain == [] && v.cell.chain == [] ==> v.cell == w.cell)
    && (w.cell.chain != [] || w.cell.doc == None ==> v.cell.chain != [] || v.cell.doc == None)
    && v.baseRevision == w.baseRevision
  }

  /** The document an event changed, as the pulls see it. */
  predicate Moved(s: Store, t: Store, id: Id, unfenced: bool) {
    && id in s.docs && t.docs.Keys == s.docs.Keys && (forall i :: i in s.docs && i != id ==> t.docs[i] == s.docs[i])
    && s.docs[id].history <= t.docs[id].history
    && t.marker == s.marker && t.nextRun == s.nextRun && s.acknowledged <= t.acknowledged
    && (!unfenced ==> s.docs[id].cell.chain == [] && t.docs[id].cell.chain == [] ==> t.docs[id].cell == s.docs[id].cell)
    && (!unfenced && s.acknowledged == t.acknowledged ==> Quiet(s.docs[id], t.docs[id]))
  }

  predicate Observed(t: Store, p: Pull, q: Pull, id: Id, unfenced: bool) {
    q == p.(touched := p.touched + Held(t.docs), disturbed := p.disturbed + if unfenced then {id} else {})
  }

  /** The store after an event, but for what its pulls remember. */
  lemma EventStore(s: Store, id: Id, event: D.Event)
    requires id in s.docs
    ensures
      var t := DocumentNext(s, id, event);
      && t.docs == s.docs[id := D.Next(s.docs[id], id, event)] && t.marker == s.marker && t.nextRun == s.nextRun
      && t.acknowledged == if Acknowledges(s.docs[id], event) then s.acknowledged + 1 else s.acknowledged
  {
    hide D.Next, Acknowledges, Unfenced, Observe;
  }

  lemma EventMoves(s: Store, id: Id, event: D.Event)
    requires id in s.docs && D.Consistent(s.docs[id], id) && D.Enabled(s.docs[id], event)
    ensures Moved(s, DocumentNext(s, id, event), id, Unfenced(event))
  {
    EventStore(s, id, event);
    hide DocumentNext, D.Next, Unfenced, Acknowledges, D.Consistent, D.Enabled, Quiet, Moved;
    var w := s.docs[id];
    HistoryGrows(w, id, event);
    if !Unfenced(event) {
      EventIsQuiet(w, id, event);
    }
    MovedBy(s, DocumentNext(s, id, event), id, D.Next(w, id, event), Unfenced(event));
  }

  lemma MovedBy(s: Store, t: Store, id: Id, v: D.World, unfenced: bool)
    requires id in s.docs && t.docs == s.docs[id := v] && s.docs[id].history <= v.history
    requires t.marker == s.marker && t.nextRun == s.nextRun && s.acknowledged <= t.acknowledged
    requires !unfenced && s.docs[id].cell.chain == [] && v.cell.chain == [] ==> v.cell == s.docs[id].cell
    requires !unfenced && s.acknowledged == t.acknowledged ==> Quiet(s.docs[id], v)
    ensures Moved(s, t, id, unfenced)
  {
    hide Quiet;
  }

  /** What an event that is neither an acknowledgement nor a write from outside a fence does. */
  lemma EventIsQuiet(w: D.World, id: Id, event: D.Event)
    requires D.Consistent(w, id) && D.Enabled(w, event) && !Unfenced(event)
    ensures w.cell.chain == [] && D.Next(w, id, event).cell.chain == [] ==> D.Next(w, id, event).cell == w.cell
    ensures !Acknowledges(w, event) ==> Quiet(w, D.Next(w, id, event))
  {
    hide D.Consistent, D.Enabled, D.Next, Acknowledges, Unfenced;
    if w.cell.chain == [] && D.Next(w, id, event).cell.chain == [] {
      UnheldIsLeft(w, id, event);
    }
    if !Acknowledges(w, event) {
      BaseIsLeft(w, id, event);
      if w.cell.chain != [] || w.cell.doc == None {
        HeldOrGone(w, id, event);
      }
    }
  }

  lemma ReadStays(docs: map<Id, D.World>, next: map<Id, D.World>, p: Pull, q: Pull)
    requires ReadShape(docs, p) && next.Keys == docs.Keys
    requires forall id :: id in docs ==> docs[id].history <= next[id].history
    requires q == p.(touched := q.touched, disturbed := q.disturbed)
    ensures ReadShape(next, q)
  {
    forall id | id in q.fetched ensures FetchShape(next[id], q, id) {
      assert FetchShape(docs[id], p, id);
    }
  }

  lemma ProgressStays(s: Store, t: Store, id: Id, unfenced: bool, p: Pull, q: Pull)
    requires Moved(s, t, id, unfenced) && Observed(t, p, q, id, unfenced) && Touched(s.docs, p) && Progress(s.docs, p)
    ensures Progress(t.docs, q)
  {
    hide DocumentDone, Quiet;
    forall i | i in t.docs && Undisturbed(q, i) ensures DocumentDone(t.docs[i], q, i) {
      assert t.docs[i].cell.chain != [] ==> i in Held(t.docs);
      assert Undisturbed(p, i) && t.docs[i].cell == s.docs[i].cell;
      DoneSees(s.docs[i], t.docs[i], p, q, i);
    }
  }

  lemma DoneSees(w: D.World, v: D.World, p: Pull, q: Pull, id: Id)
    requires DocumentDone(w, p, id) && v.cell == w.cell && q == p.(touched := q.touched, disturbed := q.disturbed)
    ensures DocumentDone(v, q, id)
  {
  }

  lemma FenceStays(s: Store, t: Store, id: Id, unfenced: bool, p: Pull, q: Pull)
    requires Moved(s, t, id, unfenced) && Observed(t, p, q, id, unfenced) && s.acknowledged == t.acknowledged
    requires BasesBefore(s.docs, p) && RemovalSound(s.docs, p)
    ensures BasesBefore(t.docs, q) && RemovalSound(t.docs, q)
  {
  }

  lemma PullSeesEvent(s: Store, t: Store, id: Id, unfenced: bool, p: Pull, q: Pull)
    requires Moved(s, t, id, unfenced) && Observed(t, p, q, id, unfenced) && PullShape(s, p)
    ensures PullShape(t, q)
  {
    ObservedFields(t, p, q, id, unfenced);
    MovedFields(s, t, id, unfenced);
    if p.marked {
      Parts(s, p);
      hide PullShape;
      MarkedSeesEvent(s, t, id, unfenced, p, q);
    } else {
      hide Moved, Observed;
    }
  }

  lemma MovedFields(s: Store, t: Store, id: Id, unfenced: bool)
    requires Moved(s, t, id, unfenced)
    ensures t.marker == s.marker && t.nextRun == s.nextRun && s.acknowledged <= t.acknowledged
    ensures t.docs.Keys == s.docs.Keys && forall i :: i in s.docs ==> s.docs[i].history <= t.docs[i].history
  {
    hide Quiet;
  }

  lemma ObservedFields(t: Store, p: Pull, q: Pull, id: Id, unfenced: bool)
    requires Observed(t, p, q, id, unfenced)
    ensures q == p.(touched := q.touched, disturbed := q.disturbed)
    ensures p.touched <= q.touched && p.disturbed <= q.disturbed
  {
    hide Held;
  }

  lemma MarkedSeesEvent(s: Store, t: Store, id: Id, unfenced: bool, p: Pull, q: Pull)
    requires Moved(s, t, id, unfenced) && Observed(t, p, q, id, unfenced) && p.marked
    requires q == p.(touched := q.touched, disturbed := q.disturbed)
    requires p.touched <= q.touched && p.disturbed <= q.disturbed
    requires t.marker == s.marker && t.nextRun == s.nextRun && s.acknowledged <= t.acknowledged
    requires t.docs.Keys == s.docs.Keys && forall i :: i in s.docs ==> s.docs[i].history <= t.docs[i].history
    requires p.acknowledged <= s.acknowledged && p.run < s.nextRun
    requires BoundShape(p) && ReadShape(s.docs, p) && NameShape(p) && Touched(s.docs, p)
    requires Owns(s, p) ==> Progress(s.docs, p)
    requires FenceHolds(s, p) ==> BasesBefore(s.docs, p) && RemovalSound(s.docs, p)
    ensures PullShape(t, q)
  {
    hide PullShape, ReadShape, NameShape, Progress, BasesBefore, RemovalSound, BoundShape, Touched, Moved, Observed;
    NamesSeen(p, q);
    ReadStays(s.docs, t.docs, p, q);
    TouchedSees(t, p, q, id, unfenced);
    if Owns(t, q) {
      ProgressStays(s, t, id, unfenced, p, q);
    }
    if FenceHolds(t, q) {
      FenceStays(s, t, id, unfenced, p, q);
    }
    Assembled(t, q);
  }

  lemma NamesSeen(p: Pull, q: Pull)
    requires NameShape(p) && BoundShape(p) && p.touched <= q.touched && p.disturbed <= q.disturbed
    requires q == p.(touched := q.touched, disturbed := q.disturbed)
    ensures NameShape(q) && BoundShape(q)
  {
  }

  lemma TouchedSees(t: Store, p: Pull, q: Pull, id: Id, unfenced: bool)
    requires Observed(t, p, q, id, unfenced)
    ensures Touched(t.docs, q)
  {
    assert forall i :: i in t.docs && t.docs[i].cell.chain != [] ==> i in Held(t.docs);
  }

  lemma DocumentEventKeeps(s: Store, id: Id, event: D.Event)
    requires StoreShape(s) && Enabled(s, DocumentEvent(id, event))
    ensures StoreShape(DocumentNext(s, id, event))
  {
    hide DocsShape, PullsShape, DocumentNext, D.Enabled;
    DocsSeeEvent(s, id, event);
    PullsSeeEvent(s, id, event);
  }

  lemma DocsSeeEvent(s: Store, id: Id, event: D.Event)
    requires DocsShape(s.docs) && id in s.docs && D.Enabled(s.docs[id], event)
    ensures DocsShape(DocumentNext(s, id, event).docs)
  {
    hide D.Consistent, D.Enabled, D.Next, Observe, Acknowledges;
    DeliveryInvariant.EventKeeps(s.docs[id], id, event);
  }

  lemma PullsSeeEvent(s: Store, id: Id, event: D.Event)
    requires DocsShape(s.docs) && PullsShape(s) && id in s.docs && D.Enabled(s.docs[id], event)
    ensures PullsShape(DocumentNext(s, id, event))
  {
    assert D.Consistent(s.docs[id], id);
    hide DocsShape, D.Consistent, D.Enabled, DocumentNext, Moved, Observed, PullsShape, Unfenced;
    EventMoves(s, id, event);
    EventObserved(s, id, event);
    PullsObserve(s, DocumentNext(s, id, event), id, Unfenced(event));
  }

  lemma PullsObserve(s: Store, t: Store, id: Id, unfenced: bool)
    requires PullsShape(s) && Moved(s, t, id, unfenced) && t.pulls.Keys == s.pulls.Keys
    requires forall p :: p in t.pulls ==> Observed(t, s.pulls[p], t.pulls[p], id, unfenced)
    ensures PullsShape(t)
  {
    hide PullShape, Held;
    assert t.marker == s.marker && t.nextRun == s.nextRun;
    forall p | p in t.pulls
      ensures PullShape(t, t.pulls[p])
      ensures t.pulls[p].marked == s.pulls[p].marked && t.pulls[p].run == s.pulls[p].run
    {
      hide Moved;
      assert PullShape(s, s.pulls[p]) && Observed(t, s.pulls[p], t.pulls[p], id, unfenced);
      PullSeesEvent(s, t, id, unfenced, s.pulls[p], t.pulls[p]);
    }
  }

  lemma EventObserved(s: Store, id: Id, event: D.Event)
    requires id in s.docs
    ensures
      var t := DocumentNext(s, id, event);
      && t.pulls.Keys == s.pulls.Keys
      && forall p :: p in t.pulls ==> Observed(t, s.pulls[p], t.pulls[p], id, Unfenced(event))
  {
    hide D.Next, Held, Acknowledges, Unfenced;
  }

  // ---- a pull's own steps ----

  lemma PullStays(s: Store, t: Store, p: Pull)
    requires PullShape(s, p) && t.docs == s.docs && t.acknowledged == s.acknowledged && s.nextRun <= t.nextRun
    requires t.marker == s.marker || (t.marker.Some? && (t.marker.value.run != p.run || t.marker.value.completed))
    ensures PullShape(t, p)
  {
  }

  /** A step of one pull that leaves the documents and the marker leaves the other pulls. */
  lemma OnlyPullMoves(s: Store, pull: PullId, p: Pull)
    requires PullsShape(s) && pull in s.pulls
    requires s.pulls[pull].marked && p.marked && p.run == s.pulls[pull].run && PullShape(s, p)
    ensures PullsShape(WithPull(s, pull, p))
  {
    var t := WithPull(s, pull, p);
    forall q | q in t.pulls ensures PullShape(t, t.pulls[q]) {
      PullStays(s, t, t.pulls[q]);
    }
  }

  /** Every head in the history has a version and bytes, or neither. */
  lemma HistoryServed(w: D.World, id: Id)
    requires D.Consistent(w, id)
    ensures w.history != [] && (forall k :: 0 <= k < |w.history| ==> ServedHead(w.history[k]))
    ensures w.baseRevision < |w.history|
  {
  }

  /** The parts of a pull's shape, together. */
  lemma Assembled(s: Store, q: Pull)
    requires q.marked && q.acknowledged <= s.acknowledged && q.run < s.nextRun
    requires BoundShape(q) && ReadShape(s.docs, q) && NameShape(q) && Touched(s.docs, q)
    requires Owns(s, q) ==> Progress(s.docs, q)
    requires FenceHolds(s, q) ==> BasesBefore(s.docs, q) && RemovalSound(s.docs, q)
    ensures PullShape(s, q)
  {
  }

  lemma FenceSame(docs: map<Id, D.World>, p: Pull, q: Pull)
    requires BasesBefore(docs, p) && RemovalSound(docs, p)
    requires q.markedAt == p.markedAt && q.disturbed == p.disturbed && q.touched == p.touched
    requires q.wrote == p.wrote && q.removal == p.removal && q.unheld == p.unheld
    ensures BasesBefore(docs, q) && RemovalSound(docs, q)
  {
  }

  lemma BoundSame(p: Pull, q: Pull)
    requires BoundShape(p) && q.removal == p.removal && q.deleted == p.deleted && q.unheld == p.unheld
    requires q.disturbed == p.disturbed && q.touched == p.touched && q.accepted == p.accepted && q.present == p.present
    requires p.removal == None || q.listed == p.listed
    ensures BoundShape(q)
  {
  }

  /** A pull that learned something and moved nothing: its shape is what it learned. */
  lemma Learned(s: Store, p: Pull, q: Pull)
    requires PullShape(s, p) && p.marked && q.marked && q.run == p.run && q.acknowledged == p.acknowledged
    requires q.removal == p.removal && q.deleted == p.deleted && q.unheld == p.unheld && q.wrote == p.wrote
    requires q.markedAt == p.markedAt
    requires q.disturbed == p.disturbed && q.touched == p.touched && q.accepted == p.accepted && q.present == p.present
    requires p.removal == None || q.listed == p.listed
    requires ReadShape(s.docs, q) && NameShape(q) && (Owns(s, p) ==> Progress(s.docs, q))
    ensures PullShape(s, q)
  {
    hide PullShape, ReadShape, NameShape, Progress, BasesBefore, RemovalSound, Touched, BoundShape;
    Parts(s, p);
    if FenceHolds(s, q) {
      FenceSame(s.docs, p, q);
    }
    TouchedSame(s.docs, p, q);
    BoundSame(p, q);
    Assembled(s, q);
  }

  lemma TouchedSame(docs: map<Id, D.World>, p: Pull, q: Pull)
    requires Touched(docs, p) && q.touched == p.touched
    ensures Touched(docs, q)
  {
  }

  lemma Parts(s: Store, p: Pull)
    requires PullShape(s, p) && p.marked
    ensures p.acknowledged <= s.acknowledged && p.run < s.nextRun
    ensures BoundShape(p) && ReadShape(s.docs, p) && NameShape(p) && Touched(s.docs, p)
    ensures Owns(s, p) ==> Progress(s.docs, p)
    ensures FenceHolds(s, p) ==> BasesBefore(s.docs, p) && RemovalSound(s.docs, p)
  {
  }

  /** What a pull read is unchanged when it reads nothing new. */
  lemma ReadSame(docs: map<Id, D.World>, p: Pull, q: Pull)
    requires ReadShape(docs, p)
    requires q.markedAt == p.markedAt && q.listing == p.listing && q.listedAt == p.listedAt && q.listed == p.listed
    requires q.fetched.Keys <= p.fetched.Keys && (forall id :: id in q.fetched ==> q.fetched[id] == p.fetched[id])
    requires q.consistent ==> p.consistent
    ensures ReadShape(docs, q)
  {
    forall id | id in q.fetched ensures FetchShape(docs[id], q, id) {
      assert FetchShape(docs[id], p, id);
    }
  }

  lemma HeldReadKeeps(s: Store, pull: PullId)
    requires PullsShape(s) && Enabled(s, ReadHeld(pull))
    ensures PullsShape(ReadHeldNext(s, pull))
  {
    var p, q := s.pulls[pull], ReadHeldNext(s, pull).pulls[pull];
    assert PullShape(s, p);
    Parts(s, p);
    hide PullShape, PullsShape;
    ReadSame(s.docs, p, q);
    HeldRead(s.docs, p, q);
    hide ReadShape, NameShape, Progress, BasesBefore, RemovalSound, Touched, BoundShape;
    if Owns(s, p) {
      HeldProgress(s.docs, p, q);
    }
    Learned(s, p, q);
    OnlyPullMoves(s, pull, q);
  }

  lemma HeldRead(docs: map<Id, D.World>, p: Pull, q: Pull)
    requires NameShape(p) && Touched(docs, p) && q == p.(heldTargets := Some(Held(docs)))
    ensures NameShape(q)
  {
  }

  lemma HeldProgress(docs: map<Id, D.World>, p: Pull, q: Pull)
    requires Progress(docs, p) && q == p.(heldTargets := q.heldTargets)
    ensures Progress(docs, q)
  {
    forall i | i in docs && Undisturbed(q, i) ensures DocumentDone(docs[i], q, i) {
      assert Undisturbed(p, i) && DocumentDone(docs[i], p, i);
    }
  }

  lemma ListedReads(docs: map<Id, D.World>, p: Pull, q: Pull)
    requires ReadShape(docs, p) && NameShape(p) && p.listing == None
    requires forall id :: id in docs ==> docs[id].history != []
    requires q == p.(listing := Some(HeadsOf(docs)), listed := HeadsOf(docs).Keys, listedAt := Revisions(docs))
    ensures ReadShape(docs, q)
  {
    assert p.fetched.Keys == {};
  }

  lemma ListedPull(s: Store, pull: PullId)
    requires PullsShape(s) && Enabled(s, List(pull)) && forall id :: id in s.docs ==> s.docs[id].history != []
    ensures PullsShape(ListNext(s, pull))
  {
    var p, q := s.pulls[pull], ListNext(s, pull).pulls[pull];
    Parts(s, p);
    ListedReads(s.docs, p, q);
    assert NameShape(q) && BoundShape(q);
    if Owns(s, q) {
      forall id | id in s.docs && Undisturbed(q, id) ensures DocumentDone(s.docs[id], q, id) {
      }
    }
    Assembled(s, q);
    OnlyPullMoves(s, pull, q);
  }

  /** A name compared: known held, seen at its listed version, or wanted. */
  predicate ComparedTo(docs: map<Id, D.World>, p: Pull, q: Pull, id: Id) {
    && p.listing.Some? && id in p.listing.value && id in docs && id !in p.compared && p.removal == None
    && (|| (q == p.(compared := p.compared + {id}) && id in p.touched)
        || (q == p.(compared := p.compared + {id}, matched := p.matched + {id})
             && BaseVersion(docs[id].cell.base) == Some(p.listing.value[id]))
        || q == p.(compared := p.compared + {id}, wanted := p.wanted + {id}))
  }

  lemma ComparedProgress(docs: map<Id, D.World>, p: Pull, q: Pull, id: Id)
    requires Progress(docs, p) && ComparedTo(docs, p, q, id)
    ensures Progress(docs, q)
  {
    forall i | i in docs && Undisturbed(q, i) ensures DocumentDone(docs[i], q, i) {
      assert Undisturbed(p, i) && DocumentDone(docs[i], p, i);
    }
  }

  lemma ComparedNames(docs: map<Id, D.World>, p: Pull, q: Pull, id: Id)
    requires NameShape(p) && ComparedTo(docs, p, q, id)
    ensures NameShape(q)
  {
  }

  /** What comparing leaves alone. */
  lemma ComparedFields(docs: map<Id, D.World>, p: Pull, q: Pull, id: Id)
    requires ComparedTo(docs, p, q, id)
    ensures q == p.(compared := q.compared, matched := q.matched, wanted := q.wanted)
  {
  }

  lemma ComparedPull(s: Store, p: Pull, q: Pull, id: Id)
    requires PullShape(s, p) && p.marked && ComparedTo(s.docs, p, q, id)
    ensures PullShape(s, q)
  {
    hide PullShape, ReadShape, NameShape, Progress, ComparedTo;
    ComparedFields(s.docs, p, q, id);
    Parts(s, p);
    ReadSame(s.docs, p, q);
    ComparedNames(s.docs, p, q, id);
    if Owns(s, p) {
      ComparedProgress(s.docs, p, q, id);
    }
    Learned(s, p, q);
  }

  lemma CompareIs(s: Store, pull: PullId, id: Id)
    requires Active(s, pull) && NameShape(s.pulls[pull]) && id in s.docs && id !in s.pulls[pull].compared
    requires s.pulls[pull].listing.Some? && id in s.pulls[pull].listing.value
    ensures
      var q := CompareNext(s, pull, id).pulls[pull];
      ComparedTo(s.docs, s.pulls[pull], q, id) && CompareNext(s, pull, id) == WithPull(s, pull, q) && q.marked
        && q.run == s.pulls[pull].run
  {
  }

  lemma ComparingKeeps(s: Store, pull: PullId, q: Pull, id: Id)
    requires PullsShape(s) && pull in s.pulls && s.pulls[pull].marked && q.marked && q.run == s.pulls[pull].run
    requires ComparedTo(s.docs, s.pulls[pull], q, id)
    ensures PullsShape(WithPull(s, pull, q))
  {
    assert PullShape(s, s.pulls[pull]);
    hide PullShape, PullsShape, ComparedTo;
    ComparedPull(s, s.pulls[pull], q, id);
    OnlyPullMoves(s, pull, q);
  }

  lemma NamesOf(s: Store, pull: PullId)
    requires PullsShape(s) && pull in s.pulls && s.pulls[pull].marked
    ensures NameShape(s.pulls[pull])
  {
    assert PullShape(s, s.pulls[pull]);
    hide NameShape, ReadShape, Progress, BasesBefore, RemovalSound, Touched, BoundShape;
  }

  lemma CompareKeeps(s: Store, pull: PullId, id: Id)
    requires PullsShape(s) && Enabled(s, Compare(pull, id))
    ensures PullsShape(CompareNext(s, pull, id))
  {
    hide PullsShape, ComparedTo, NameShape, CompareNext;
    NamesOf(s, pull);
    CompareIs(s, pull, id);
    ComparingKeeps(s, pull, CompareNext(s, pull, id).pulls[pull], id);
  }

  // ---- fetching ----

  /** A wanted name that is gone since it was listed. */
  predicate FoundGone(docs: map<Id, D.World>, p: Pull, q: Pull, id: Id) {
    && id in docs && id in p.wanted && docs[id].history != [] && Last(docs[id].history).version == None
    && q == p.(wanted := p.wanted - {id}, listed := p.listed - {id}, consistent := false,
         listedAt := p.listedAt[id := Revision(docs[id])])
  }

  /** A wanted name read back at some version. */
  predicate ReadBack(docs: map<Id, D.World>, p: Pull, q: Pull, id: Id) {
    && id in docs && id in p.wanted && docs[id].history != []
    && var head := Last(docs[id].history);
       && head.version.Some? && head.content.Some?
       && q == p.(wanted := p.wanted - {id}, consistent := q.consistent,
                  fetched := p.fetched[id := Fetched(head.version.value, head.content.value, Revision(docs[id]))])
       && (q.consistent ==>
            p.consistent && p.listing.Some? && id in p.listing.value && p.listing.value[id] == head.version.value)
  }

  lemma GoneReads(docs: map<Id, D.World>, p: Pull, q: Pull, id: Id)
    requires ReadShape(docs, p) && FoundGone(docs, p, q, id)
    ensures ReadShape(docs, q)
  {
    forall i | i in q.fetched ensures FetchShape(docs[i], q, i) {
      assert FetchShape(docs[i], p, i);
    }
  }

  lemma GoneNames(docs: map<Id, D.World>, p: Pull, q: Pull, id: Id)
    requires NameShape(p) && FoundGone(docs, p, q, id)
    ensures NameShape(q) && p.removal == None
  {
    assert p.wanted != {};
    if id in p.wrote || id in p.fetched {
      assert false;
    }
  }

  lemma GoneProgress(docs: map<Id, D.World>, p: Pull, q: Pull, id: Id)
    requires Progress(docs, p) && FoundGone(docs, p, q, id)
    ensures Progress(docs, q)
  {
    forall i | i in docs && Undisturbed(q, i) ensures DocumentDone(docs[i], q, i) {
      assert Undisturbed(p, i) && DocumentDone(docs[i], p, i);
    }
  }

  lemma FoundReads(docs: map<Id, D.World>, p: Pull, q: Pull, id: Id)
    requires ReadShape(docs, p) && ReadBack(docs, p, q, id)
    ensures ReadShape(docs, q)
  {
    forall i | i in q.fetched ensures FetchShape(docs[i], q, i) {
      assert i != id ==> FetchShape(docs[i], p, i);
    }
  }

  lemma FoundNames(docs: map<Id, D.World>, p: Pull, q: Pull, id: Id)
    requires NameShape(p) && ReadBack(docs, p, q, id)
    ensures NameShape(q) && p.removal == None
  {
    assert p.wanted != {};
    assert q.fetched.Keys == p.fetched.Keys + {id};
  }

  lemma FoundProgress(docs: map<Id, D.World>, p: Pull, q: Pull, id: Id)
    requires Progress(docs, p) && ReadBack(docs, p, q, id)
    ensures Progress(docs, q)
  {
    forall i | i in docs && Undisturbed(q, i) ensures DocumentDone(docs[i], q, i) {
      assert Undisturbed(p, i) && DocumentDone(docs[i], p, i);
    }
  }

  lemma FetchedPull(s: Store, p: Pull, q: Pull, id: Id)
    requires PullShape(s, p) && p.marked && (FoundGone(s.docs, p, q, id) || ReadBack(s.docs, p, q, id))
    ensures PullShape(s, q)
  {
    Parts(s, p);
    hide PullShape, ReadShape, NameShape, Progress;
    if FoundGone(s.docs, p, q, id) {
      GoneReads(s.docs, p, q, id);
      GoneNames(s.docs, p, q, id);
      if Owns(s, p) {
        GoneProgress(s.docs, p, q, id);
      }
      Learned(s, p, q);
    } else {
      FoundReads(s.docs, p, q, id);
      FoundNames(s.docs, p, q, id);
      if Owns(s, p) {
        FoundProgress(s.docs, p, q, id);
      }
      Learned(s, p, q);
    }
  }

  lemma FetchKeeps(s: Store, pull: PullId, id: Id)
    requires PullsShape(s) && Enabled(s, Fetch(pull, id)) && ServedHead(Last(s.docs[id].history))
    ensures PullsShape(FetchNext(s, pull, id))
  {
    var p, q := s.pulls[pull], FetchNext(s, pull, id).pulls[pull];
    assert PullShape(s, p);
    FetchIs(s, pull, id);
    hide PullShape, PullsShape, FoundGone, ReadBack;
    FetchedPull(s, p, q, id);
    OnlyPullMoves(s, pull, q);
  }

  lemma FetchIs(s: Store, pull: PullId, id: Id)
    requires Enabled(s, Fetch(pull, id)) && ServedHead(Last(s.docs[id].history))
    ensures
      var q := FetchNext(s, pull, id).pulls[pull];
      && (FoundGone(s.docs, s.pulls[pull], q, id) || ReadBack(s.docs, s.pulls[pull], q, id))
      && FetchNext(s, pull, id) == WithPull(s, pull, q) && q.marked && q.run == s.pulls[pull].run
  {
  }

  // ---- steps that write nothing ----

  /** A pull that lost its fence only remembers so. */
  lemma SupersededPull(s: Store, p: Pull)
    requires PullShape(s, p) && p.marked
    ensures PullShape(s, p.(superseded := true))
  {
    Parts(s, p);
    var q := p.(superseded := true);
    ReadSame(s.docs, p, q);
    NamesSame(p, q);
    hide PullShape, ReadShape, NameShape;
    if Owns(s, p) {
      ProgressSame(s.docs, p, q);
    }
    Learned(s, p, q);
  }

  lemma NamesSame(p: Pull, q: Pull)
    requires NameShape(p) && q == p.(superseded := q.superseded, consistent := q.consistent)
    requires (q.consistent ==> p.consistent)
    ensures NameShape(q)
  {
  }

  lemma ProgressSame(docs: map<Id, D.World>, p: Pull, q: Pull)
    requires Progress(docs, p) && q == p.(superseded := q.superseded, consistent := q.consistent)
    requires (q.consistent ==> p.consistent)
    ensures Progress(docs, q)
  {
    forall i | i in docs && Undisturbed(q, i) ensures DocumentDone(docs[i], q, i) {
      assert Undisturbed(p, i) && DocumentDone(docs[i], p, i);
    }
  }

  lemma SupersededKeeps(s: Store, pull: PullId)
    requires PullsShape(s) && pull in s.pulls && s.pulls[pull].marked
    ensures PullsShape(PullProtocol.Superseded(s, pull))
  {
    assert PullShape(s, s.pulls[pull]);
    hide PullShape, PullsShape;
    SupersededPull(s, s.pulls[pull]);
    OnlyPullMoves(s, pull, s.pulls[pull].(superseded := true));
  }

  /** A fetched head dropped: already held, held by a local edit, or found moved. */
  predicate Dropped(docs: map<Id, D.World>, p: Pull, q: Pull, id: Id) {
    && id in docs && id in p.fetched
    && q == p.(fetched := p.fetched - {id}, matched := q.matched, consistent := q.consistent)
    && (q.consistent ==> p.consistent)
    && ((q.matched == p.matched && (!q.consistent || docs[id].cell.chain != []))
        || (q.matched == p.matched + {id} && BaseVersion(docs[id].cell.base) == Some(p.fetched[id].version)))
  }

  lemma DroppedReads(docs: map<Id, D.World>, p: Pull, q: Pull, id: Id)
    requires ReadShape(docs, p) && Dropped(docs, p, q, id)
    ensures ReadShape(docs, q)
  {
    ReadSame(docs, p, q);
  }

  lemma DroppedNames(docs: map<Id, D.World>, p: Pull, q: Pull, id: Id)
    requires NameShape(p) && Dropped(docs, p, q, id)
    ensures NameShape(q) && p.removal == None
  {
    assert q.fetched.Keys == p.fetched.Keys - {id};
    assert id in p.fetched.Keys;
  }

  lemma DroppedProgress(docs: map<Id, D.World>, p: Pull, q: Pull, id: Id)
    requires Progress(docs, p) && Dropped(docs, p, q, id) && Touched(docs, p) && id in p.markedAt
    requires FetchShape(docs[id], p, id)
    ensures Progress(docs, q)
  {
    forall i | i in docs && Undisturbed(q, i) ensures DocumentDone(docs[i], q, i) {
      assert Undisturbed(p, i) && DocumentDone(docs[i], p, i);
    }
  }

  lemma DroppedPull(s: Store, p: Pull, q: Pull, id: Id)
    requires PullShape(s, p) && p.marked && Dropped(s.docs, p, q, id)
    ensures PullShape(s, q)
  {
    Parts(s, p);
    assert FetchShape(s.docs[id], p, id);
    hide PullShape, ReadShape, NameShape, Progress, Touched, FetchShape;
    DroppedReads(s.docs, p, q, id);
    DroppedNames(s.docs, p, q, id);
    if Owns(s, p) {
      DroppedProgress(s.docs, p, q, id);
    }
    Learned(s, p, q);
  }

  // ---- steps that write under the fence ----

  /** A document whose base a pull rewrote: its rows and the authority's history are untouched. */
  predicate Rebased(docs: map<Id, D.World>, next: map<Id, D.World>, id: Id) {
    && id in docs && next.Keys == docs.Keys && (forall i :: i in docs && i != id ==> next[i] == docs[i])
    && next[id].history == docs[id].history && next[id].cell.chain == docs[id].cell.chain
  }

  lemma RebasedReads(docs: map<Id, D.World>, next: map<Id, D.World>, id: Id, p: Pull)
    requires Rebased(docs, next, id) && ReadShape(docs, p)
    ensures ReadShape(next, p)
  {
    assert forall i :: i in docs ==> next[i].history == docs[i].history;
    SameHistories(docs, next, p);
  }

  lemma SameHistories(docs: map<Id, D.World>, next: map<Id, D.World>, p: Pull)
    requires ReadShape(docs, p) && next.Keys == docs.Keys
    requires forall i :: i in docs ==> next[i].history == docs[i].history
    ensures ReadShape(next, p)
  {
    forall i | i in p.fetched ensures FetchShape(next[i], p, i) {
      assert FetchShape(docs[i], p, i);
    }
  }

  lemma RebasedTouched(docs: map<Id, D.World>, next: map<Id, D.World>, id: Id, p: Pull)
    requires Rebased(docs, next, id) && Touched(docs, p)
    ensures Touched(next, p)
  {
    forall i | i in next && next[i].cell.chain != [] ensures i in p.touched {
      assert docs[i].cell.chain != [];
    }
  }

  /** Another pull sees only that a document it does not own moved. */
  lemma OtherPullRebased(s: Store, t: Store, id: Id, p: Pull)
    requires PullShape(s, p) && Rebased(s.docs, t.docs, id) && t.marker == s.marker && t.acknowledged == s.acknowledged
    requires t.nextRun == s.nextRun
    requires p.marked ==> !Owns(s, p)
    ensures PullShape(t, p)
  {
    if p.marked {
      Parts(s, p);
      hide ReadShape, NameShape, Touched, BoundShape, Rebased;
      RebasedReads(s.docs, t.docs, id, p);
      RebasedTouched(s.docs, t.docs, id, p);
    }
  }

  lemma OnlyOwnerWrites(s: Store, t: Store, pull: PullId, id: Id)
    requires PullsShape(s) && pull in s.pulls && Owns(s, s.pulls[pull])
    requires Rebased(s.docs, t.docs, id) && pull in t.pulls && t == WithPull(s, pull, t.pulls[pull]).(docs := t.docs)
    requires t.pulls[pull].marked && t.pulls[pull].run == s.pulls[pull].run && PullShape(t, t.pulls[pull])
    ensures PullsShape(t)
  {
    hide PullShape, Rebased;
    forall q | q in t.pulls ensures PullShape(t, t.pulls[q]) {
      if q != pull {
        OtherPullRebased(s, t, id, s.pulls[q]);
      }
    }
  }

  /** A fetched head written over an unheld document. */
  predicate WroteHead(docs: map<Id, D.World>, next: map<Id, D.World>, p: Pull, q: Pull, id: Id) {
    && Rebased(docs, next, id) && id in p.fetched
    && BaseVersion(next[id].cell.base) == Some(p.fetched[id].version)
    && q == p.(fetched := p.fetched - {id}, matched := p.matched + {id}, wrote := p.wrote + {id})
  }

  lemma WroteNames(docs: map<Id, D.World>, next: map<Id, D.World>, p: Pull, q: Pull, id: Id)
    requires NameShape(p) && WroteHead(docs, next, p, q, id)
    ensures NameShape(q) && p.removal == None
  {
    assert q.fetched.Keys == p.fetched.Keys - {id};
    assert id in p.fetched.Keys;
  }

  lemma WroteProgress(docs: map<Id, D.World>, next: map<Id, D.World>, p: Pull, q: Pull, id: Id)
    requires id in docs && Progress(docs, p) && WroteHead(docs, next, p, q, id) && p.removal == None && id in p.markedAt
    requires FetchShape(docs[id], p, id)
    ensures Progress(next, q)
  {
    forall i | i in next && Undisturbed(q, i) ensures DocumentDone(next[i], q, i) {
      assert Undisturbed(p, i) && DocumentDone(docs[i], p, i);
    }
  }

  lemma WroteFields(docs: map<Id, D.World>, next: map<Id, D.World>, p: Pull, q: Pull, id: Id)
    requires WroteHead(docs, next, p, q, id)
    ensures Rebased(docs, next, id) && id in p.fetched
    ensures q == p.(fetched := q.fetched, matched := q.matched, wrote := q.wrote) && q.fetched.Keys <= p.fetched.Keys
    ensures forall i :: i in q.fetched ==> q.fetched[i] == p.fetched[i]
  {
    hide Rebased;
  }

  lemma WrotePull(s: Store, t: Store, p: Pull, q: Pull, id: Id)
    requires PullShape(s, p) && p.marked && WroteHead(s.docs, t.docs, p, q, id)
    requires t.marker == s.marker && t.acknowledged == s.acknowledged && t.nextRun == s.nextRun
    ensures PullShape(t, q)
  {
    Parts(s, p);
    assert FetchShape(s.docs[id], p, id);
    WroteFields(s.docs, t.docs, p, q, id);
    hide PullShape, ReadShape, NameShape, Progress, Touched, FetchShape, Rebased, RemovalSound, BoundShape, BasesBefore;
    hide WroteHead;
    ReadSame(s.docs, p, q);
    RebasedReads(s.docs, t.docs, id, q);
    WroteNames(s.docs, t.docs, p, q, id);
    TouchedSame(s.docs, p, q);
    RebasedTouched(s.docs, t.docs, id, q);
    BoundSame(p, q);
    if Owns(t, q) {
      WroteProgress(s.docs, t.docs, p, q, id);
    }
    if FenceHolds(t, q) {
      WroteBases(s.docs, t.docs, p, q, id);
    }
    Assembled(t, q);
  }

  lemma WroteBases(docs: map<Id, D.World>, next: map<Id, D.World>, p: Pull, q: Pull, id: Id)
    requires BasesBefore(docs, p) && WroteHead(docs, next, p, q, id) && p.removal == None
    ensures BasesBefore(next, q) && RemovalSound(next, q)
  {
  }

  lemma RefreshedDocument(w: D.World, id: Id, version: Version, content: string, revision: nat)
    requires w.cell.chain == []
    ensures
      var v := D.Next(w, id, D.Local(RefreshVerb(version, content), revision));
      && v == w.(cell := w.cell.(doc := Some(content), base := v.cell.base), baseRevision := revision)
      && BaseVersion(v.cell.base) == Some(version)
  {
    var v := D.Next(w, id, D.Local(RefreshVerb(version, content), revision));
    assert v.minted == w.minted;
  }

  lemma WriteIs(s: Store, pull: PullId, id: Id)
    requires Active(s, pull) && id in s.pulls[pull].fetched && id in s.docs
    requires FenceHolds(s, s.pulls[pull]) && !HoldsVersion(s.docs[id].cell.base, s.pulls[pull].fetched[id].version)
    requires s.docs[id].cell.chain == []
    ensures
      var p, t := s.pulls[pull], WriteNext(s, pull, id);
      var head := p.fetched[id];
      && pull in t.pulls && WroteHead(s.docs, t.docs, p, t.pulls[pull], id)
      && t == WithPull(s, pull, t.pulls[pull]).(docs := t.docs)
      && t.docs[id].baseRevision == head.revision
  {
    var head := s.pulls[pull].fetched[id];
    RefreshedDocument(s.docs[id], id, head.version, head.content, head.revision);
    hide D.Next;
  }

  lemma WriteDropsIs(s: Store, pull: PullId, id: Id)
    requires Active(s, pull) && id in s.pulls[pull].fetched && id in s.docs && FenceHolds(s, s.pulls[pull])
    requires HoldsVersion(s.docs[id].cell.base, s.pulls[pull].fetched[id].version) || s.docs[id].cell.chain != []
    ensures
      var q := WriteNext(s, pull, id).pulls[pull];
      && WriteNext(s, pull, id) == WithPull(s, pull, q) && Dropped(s.docs, s.pulls[pull], q, id) && q.marked
         && q.run == s.pulls[pull].run
  {
    hide D.Next;
  }

  lemma DropKeeps(s: Store, pull: PullId, q: Pull, id: Id)
    requires PullsShape(s) && pull in s.pulls && s.pulls[pull].marked && q.marked && q.run == s.pulls[pull].run
    requires Dropped(s.docs, s.pulls[pull], q, id)
    ensures PullsShape(WithPull(s, pull, q))
  {
    assert PullShape(s, s.pulls[pull]);
    hide PullShape, PullsShape, Dropped;
    DroppedPull(s, s.pulls[pull], q, id);
    OnlyPullMoves(s, pull, q);
  }

  lemma WriteKeeps(s: Store, pull: PullId, id: Id)
    requires PullsShape(s) && Enabled(s, Step.Write(pull, id))
    ensures PullsShape(WriteNext(s, pull, id))
  {
    hide PullsShape, Dropped, WroteHead, D.Next;
    if !FenceHolds(s, s.pulls[pull]) {
      SupersededKeeps(s, pull);
    } else if HoldsVersion(s.docs[id].cell.base, s.pulls[pull].fetched[id].version) || s.docs[id].cell.chain != [] {
      hide WriteNext;
      WriteDropsIs(s, pull, id);
      DropKeeps(s, pull, WriteNext(s, pull, id).pulls[pull], id);
    } else {
      hide WriteNext;
      WriteIs(s, pull, id);
      WriteUnderFence(s, WriteNext(s, pull, id), pull, id);
    }
  }

  lemma WriteUnderFence(s: Store, t: Store, pull: PullId, id: Id)
    requires PullsShape(s) && pull in s.pulls && pull in t.pulls && FenceHolds(s, s.pulls[pull])
    requires WroteHead(s.docs, t.docs, s.pulls[pull], t.pulls[pull], id)
    requires t == WithPull(s, pull, t.pulls[pull]).(docs := t.docs)
    ensures PullsShape(t)
  {
    var p := s.pulls[pull];
    assert PullShape(s, p);
    hide PullShape, PullsShape;
    WrotePull(s, t, p, t.pulls[pull], id);
    OnlyOwnerWrites(s, t, pull, id);
  }

  lemma WriteRacedIs(s: Store, pull: PullId, id: Id)
    requires Active(s, pull) && id in s.pulls[pull].fetched && id in s.docs && FenceHolds(s, s.pulls[pull])
    ensures
      var q := WriteRacedNext(s, pull, id).pulls[pull];
      && WriteRacedNext(s, pull, id) == WithPull(s, pull, q) && Dropped(s.docs, s.pulls[pull], q, id) && q.marked
         && q.run == s.pulls[pull].run
  {
  }

  lemma WriteRacedKeeps(s: Store, pull: PullId, id: Id)
    requires PullsShape(s) && Enabled(s, WriteRaced(pull, id))
    ensures PullsShape(WriteRacedNext(s, pull, id))
  {
    hide PullsShape, Dropped;
    if !FenceHolds(s, s.pulls[pull]) {
      SupersededKeeps(s, pull);
    } else {
      WriteRacedIs(s, pull, id);
      hide WriteRacedNext;
      DropKeeps(s, pull, WriteRacedNext(s, pull, id).pulls[pull], id);
    }
  }

  // ---- removal ----

  predicate RemovalBegun(docs: map<Id, D.World>, p: Pull, q: Pull) {
    && p.removal == None && p.listing.Some? && p.listing.value.Keys <= p.compared && p.wanted == {}
       && p.fetched == map[]
    && (|| q == p.(unheld := q.unheld, present := q.present, accepted := q.accepted, refused := true)
        || (&& q == p.(unheld := q.unheld, present := q.present, accepted := q.accepted, removal := q.removal)
            && q.unheld == Present(docs) - p.listed - Held(docs) && q.removal == Some(Present(docs) - p.listed)
            && (q.accepted || !OutOfBounds(|p.listed|, q.present, |q.unheld|))))
  }

  lemma BegunParts(docs: map<Id, D.World>, p: Pull, q: Pull)
    requires RemovalBegun(docs, p, q) && NameShape(p) && BoundShape(p) && Touched(docs, p)
    ensures NameShape(q) && BoundShape(q) && Touched(docs, q) && RemovalSound(docs, q)
  {
  }

  lemma BegunFence(docs: map<Id, D.World>, p: Pull, q: Pull)
    requires RemovalBegun(docs, p, q) && BasesBefore(docs, p)
    ensures BasesBefore(docs, q)
  {
  }

  lemma BegunProgress(docs: map<Id, D.World>, p: Pull, q: Pull)
    requires RemovalBegun(docs, p, q) && Progress(docs, p)
    ensures Progress(docs, q)
  {
    forall i | i in docs && Undisturbed(q, i) ensures DocumentDone(docs[i], q, i) {
      assert Undisturbed(p, i) && DocumentDone(docs[i], p, i);
      assert docs[i].cell.doc.Some? ==> i in Present(docs);
    }
  }

  lemma BegunPull(s: Store, p: Pull, q: Pull)
    requires PullShape(s, p) && p.marked && RemovalBegun(s.docs, p, q)
    ensures PullShape(s, q) && q.marked && q.run == p.run
  {
    Parts(s, p);
    ReadSame(s.docs, p, q);
    hide PullShape, ReadShape, NameShape, Progress, Touched, BasesBefore, RemovalSound, BoundShape;
    BegunParts(s.docs, p, q);
    if Owns(s, q) {
      BegunProgress(s.docs, p, q);
    }
    if FenceHolds(s, q) {
      BegunFence(s.docs, p, q);
    }
    Assembled(s, q);
  }

  lemma RemovalRefusedIs(s: Store, pull: PullId, accept: bool)
    requires Enabled(s, BeginRemoval(pull, accept)) && BeginRemovalNext(s, pull, accept).pulls[pull].refused
    ensures
      var q := BeginRemovalNext(s, pull, accept).pulls[pull];
      RemovalBegun(s.docs, s.pulls[pull], q) && BeginRemovalNext(s, pull, accept) == WithPull(s, pull, q)
  {
    hide Present, Held;
  }

  lemma RemovalAllowedIs(s: Store, pull: PullId, accept: bool)
    requires Enabled(s, BeginRemoval(pull, accept)) && !BeginRemovalNext(s, pull, accept).pulls[pull].refused
    ensures
      var q := BeginRemovalNext(s, pull, accept).pulls[pull];
      RemovalBegun(s.docs, s.pulls[pull], q) && BeginRemovalNext(s, pull, accept) == WithPull(s, pull, q)
  {
    hide Present, Held;
  }

  lemma BegunFields(docs: map<Id, D.World>, p: Pull, q: Pull)
    requires RemovalBegun(docs, p, q)
    ensures q.marked == p.marked && q.run == p.run
  {
  }

  lemma BeginRemovalKeeps(s: Store, pull: PullId, accept: bool)
    requires PullsShape(s) && Enabled(s, BeginRemoval(pull, accept))
    ensures PullsShape(BeginRemovalNext(s, pull, accept))
  {
    var p, q := s.pulls[pull], BeginRemovalNext(s, pull, accept).pulls[pull];
    assert PullShape(s, p);
    if q.refused {
      RemovalRefusedIs(s, pull, accept);
    } else {
      RemovalAllowedIs(s, pull, accept);
    }
    BegunFields(s.docs, p, q);
    hide PullShape, PullsShape, RemovalBegun, BeginRemovalNext;
    BegunPull(s, p, q);
    OnlyPullMoves(s, pull, q);
  }

  /** A name struck off the removal without a deletion: held by a local edit, or found moved. */
  predicate Skipped(docs: map<Id, D.World>, p: Pull, q: Pull, id: Id) {
    && p.removal.Some? && id in p.removal.value && id in docs
    && q == p.(removal := Some(p.removal.value - {id}), consistent := q.consistent)
    && (q.consistent ==> p.consistent && docs[id].cell.chain != [])
  }

  lemma SkippedParts(docs: map<Id, D.World>, p: Pull, q: Pull, id: Id)
    requires Skipped(docs, p, q, id) && NameShape(p) && BoundShape(p) && Touched(docs, p)
    ensures NameShape(q) && BoundShape(q) && Touched(docs, q)
  {
  }

  lemma SkippedProgress(docs: map<Id, D.World>, p: Pull, q: Pull, id: Id)
    requires Skipped(docs, p, q, id) && Progress(docs, p) && Touched(docs, p)
    ensures Progress(docs, q)
  {
    forall i | i in docs && Undisturbed(q, i) ensures DocumentDone(docs[i], q, i) {
      assert Undisturbed(p, i) && DocumentDone(docs[i], p, i);
    }
  }

  lemma SkippedPull(s: Store, p: Pull, q: Pull, id: Id)
    requires PullShape(s, p) && p.marked && Skipped(s.docs, p, q, id)
    ensures PullShape(s, q)
  {
    Parts(s, p);
    ReadSame(s.docs, p, q);
    SkippedParts(s.docs, p, q, id);
    hide PullShape, ReadShape, NameShape, Progress, Touched, BoundShape;
    if Owns(s, q) {
      SkippedProgress(s.docs, p, q, id);
    }
    Assembled(s, q);
  }

  lemma RemoveRacedIs(s: Store, pull: PullId, id: Id)
    requires Active(s, pull) && s.pulls[pull].removal.Some? && id in s.pulls[pull].removal.value && id in s.docs
    requires FenceHolds(s, s.pulls[pull])
    ensures
      var q := RemoveRacedNext(s, pull, id).pulls[pull];
      && RemoveRacedNext(s, pull, id) == WithPull(s, pull, q) && Skipped(s.docs, s.pulls[pull], q, id) && q.marked
         && q.run == s.pulls[pull].run
  {
  }

  lemma SkipKeeps(s: Store, pull: PullId, q: Pull, id: Id)
    requires PullsShape(s) && pull in s.pulls && s.pulls[pull].marked && q.marked && q.run == s.pulls[pull].run
    requires Skipped(s.docs, s.pulls[pull], q, id)
    ensures PullsShape(WithPull(s, pull, q))
  {
    assert PullShape(s, s.pulls[pull]);
    hide PullShape, PullsShape, Skipped;
    SkippedPull(s, s.pulls[pull], q, id);
    OnlyPullMoves(s, pull, q);
  }

  lemma RemoveRacedKeeps(s: Store, pull: PullId, id: Id)
    requires PullsShape(s) && Enabled(s, RemoveRaced(pull, id))
    ensures PullsShape(RemoveRacedNext(s, pull, id))
  {
    hide PullsShape, Skipped;
    if !FenceHolds(s, s.pulls[pull]) {
      SupersededKeeps(s, pull);
    } else {
      RemoveRacedIs(s, pull, id);
      hide RemoveRacedNext;
      SkipKeeps(s, pull, RemoveRacedNext(s, pull, id).pulls[pull], id);
    }
  }

  /** An unlisted name handled under the fence: deleted with its base, or held with a base that says it is gone. */
  predicate Unlisted(docs: map<Id, D.World>, next: map<Id, D.World>, p: Pull, q: Pull, id: Id) {
    && Rebased(docs, next, id) && p.removal.Some? && id in p.removal.value
    && (docs[id].cell.chain == [] ==> next[id].cell.doc == None)
    && (docs[id].cell.chain != [] ==> next[id].cell.doc == docs[id].cell.doc)
    && q == p.(removal := Some(p.removal.value - {id}), wrote := p.wrote + {id}, deleted := q.deleted)
    && q.deleted == (if docs[id].cell.chain == [] && docs[id].cell.doc.Some? then p.deleted + {id} else p.deleted)
  }

  lemma UnlistedParts(docs: map<Id, D.World>, next: map<Id, D.World>, p: Pull, q: Pull, id: Id)
    requires Unlisted(docs, next, p, q, id) && NameShape(p) && BoundShape(p) && Touched(docs, p)
    requires RemovalSound(docs, p)
    ensures NameShape(q) && BoundShape(q) && Touched(docs, q)
  {
  }

  lemma UnlistedProgress(docs: map<Id, D.World>, next: map<Id, D.World>, p: Pull, q: Pull, id: Id)
    requires Unlisted(docs, next, p, q, id) && Progress(docs, p) && Touched(docs, p) && NameShape(p)
    ensures Progress(next, q)
  {
    forall i | i in next && Undisturbed(q, i) ensures DocumentDone(next[i], q, i) {
      assert Undisturbed(p, i) && DocumentDone(docs[i], p, i);
    }
  }

  lemma UnlistedFence(docs: map<Id, D.World>, next: map<Id, D.World>, p: Pull, q: Pull, id: Id)
    requires Unlisted(docs, next, p, q, id) && BasesBefore(docs, p) && RemovalSound(docs, p)
    ensures BasesBefore(next, q) && RemovalSound(next, q)
  {
  }

  lemma UnlistedPull(s: Store, t: Store, p: Pull, q: Pull, id: Id)
    requires PullShape(s, p) && p.marked && FenceHolds(s, p) && Unlisted(s.docs, t.docs, p, q, id)
    requires t.marker == s.marker && t.acknowledged == s.acknowledged && t.nextRun == s.nextRun
    ensures PullShape(t, q)
  {
    Parts(s, p);
    ReadSame(s.docs, p, q);
    UnlistedParts(s.docs, t.docs, p, q, id);
    UnlistedProgress(s.docs, t.docs, p, q, id);
    UnlistedFence(s.docs, t.docs, p, q, id);
    hide PullShape, ReadShape, NameShape, Progress, Touched, BoundShape, BasesBefore, RemovalSound, Rebased;
    RebasedReads(s.docs, t.docs, id, q);
    RebasedTouched(s.docs, t.docs, id, q);
    Assembled(t, q);
  }

  lemma UnlistedDocument(w: D.World, id: Id, revision: nat)
    ensures
      var v := D.Next(w, id, D.Local(UnlistedVerb, revision));
      && v == w.(cell := w.cell.(doc := v.cell.doc, base := v.cell.base), baseRevision := revision)
      && v.cell.doc == (if w.cell.chain == [] then None else w.cell.doc)
      && BaseVersion(v.cell.base) == None
  {
    var v := D.Next(w, id, D.Local(UnlistedVerb, revision));
    assert v.minted == w.minted;
  }

  lemma RemoveIs(s: Store, pull: PullId, id: Id)
    requires Active(s, pull) && s.pulls[pull].removal.Some? && id in s.pulls[pull].removal.value && id in s.docs
    requires FenceHolds(s, s.pulls[pull])
    ensures
      var p, t := s.pulls[pull], RemoveNext(s, pull, id);
      && pull in t.pulls && Unlisted(s.docs, t.docs, p, t.pulls[pull], id)
      && t == WithPull(s, pull, t.pulls[pull]).(docs := t.docs)
      && t.docs[id].baseRevision == (if id in p.listedAt then p.listedAt[id] else 0)
  {
    var p := s.pulls[pull];
    UnlistedDocument(s.docs[id], id, if id in p.listedAt then p.listedAt[id] else 0);
    hide D.Next;
  }

  lemma RemoveUnderFence(s: Store, t: Store, pull: PullId, id: Id)
    requires PullsShape(s) && pull in s.pulls && pull in t.pulls && FenceHolds(s, s.pulls[pull])
    requires Unlisted(s.docs, t.docs, s.pulls[pull], t.pulls[pull], id)
    requires t == WithPull(s, pull, t.pulls[pull]).(docs := t.docs)
    ensures PullsShape(t)
  {
    var p := s.pulls[pull];
    assert PullShape(s, p);
    hide PullShape, PullsShape;
    UnlistedPull(s, t, p, t.pulls[pull], id);
    OnlyOwnerWrites(s, t, pull, id);
  }

  lemma RemoveKeeps(s: Store, pull: PullId, id: Id)
    requires PullsShape(s) && Enabled(s, Remove(pull, id))
    ensures PullsShape(RemoveNext(s, pull, id))
  {
    hide PullsShape, D.Next, Unlisted;
    if FenceHolds(s, s.pulls[pull]) {
      RemoveIs(s, pull, id);
      hide RemoveNext;
      RemoveUnderFence(s, RemoveNext(s, pull, id), pull, id);
    } else {
      SupersededKeeps(s, pull);
    }
  }

  // ---- marking and completing ----

  lemma BeginKeeps(s: Store, pull: PullId)
    requires PullsShape(s) && Enabled(s, Begin(pull))
    ensures PullsShape(Next(s, Begin(pull)))
  {
    var t := Next(s, Begin(pull));
    forall q | q in t.pulls ensures PullShape(t, t.pulls[q]) {
      if q != pull {
        PullStays(s, t, s.pulls[q]);
      }
    }
  }

  lemma MarkedPull(s: Store, t: Store, p: Pull)
    requires t.docs == s.docs && t.acknowledged == s.acknowledged && t.nextRun == s.nextRun + 1
    requires
      p ==
        BLANK_PULL.(acknowledged := p.acknowledged, marked := true, run := s.nextRun, markedAt := Revisions(s.docs),
                    touched := Held(s.docs))
    requires p.acknowledged <= s.acknowledged
    requires forall id :: id in s.docs ==> s.docs[id].baseRevision <= Revision(s.docs[id])
    ensures PullShape(t, p)
  {
    assert ReadShape(t.docs, p) && NameShape(p) && BoundShape(p);
    assert Touched(t.docs, p);
    Assembled(t, p);
  }

  /** A pull other than the one that marks: its run is older than the fresh one. */
  lemma MarkLeaves(s: Store, t: Store, p: Pull)
    requires PullShape(s, p) && t.docs == s.docs && t.acknowledged == s.acknowledged && t.nextRun == s.nextRun + 1
    requires t.marker == Some(Marker(s.nextRun, false, None))
    ensures PullShape(t, p) && (p.marked ==> p.run < s.nextRun)
  {
    if p.marked {
      PullStays(s, t, p);
    }
  }

  lemma MarkKeeps(s: Store, pull: PullId)
    requires PullsShape(s) && Enabled(s, Mark(pull))
    requires forall id :: id in s.docs ==> s.docs[id].baseRevision <= Revision(s.docs[id])
    ensures PullsShape(MarkNext(s, pull))
  {
    var t := MarkNext(s, pull);
    assert PullShape(s, s.pulls[pull]);
    MarkedPull(s, t, t.pulls[pull]);
    hide PullShape, Revisions, Held;
    forall q | q in t.pulls
      ensures PullShape(t, t.pulls[q]) && (q != pull && t.pulls[q].marked ==> t.pulls[q].run < s.nextRun)
    {
      if q != pull {
        MarkLeaves(s, t, s.pulls[q]);
      }
    }
  }

  lemma CompleteKeeps(s: Store, pull: PullId)
    requires PullsShape(s) && Enabled(s, Complete(pull))
    ensures PullsShape(CompleteNext(s, pull))
  {
    var t := CompleteNext(s, pull);
    assert PullShape(s, s.pulls[pull]);
    forall q | q in t.pulls ensures PullShape(t, t.pulls[q]) {
      PullStays(s, t, s.pulls[q]);
    }
  }
}
