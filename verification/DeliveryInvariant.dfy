/** Every event keeps a document's journal, its ledger and the authority's memory consistent. */
module DeliveryInvariant {
  import opened Records
  import opened Journal
  import opened JournalShape
  import opened Delivery

  // ---- rows ----

  lemma {:induction false} IndexOfAppended(rows: seq<Intent>, row: Intent, id: RequestId)
    ensures IndexOf(rows, id) < |rows| ==> IndexOf(rows + [row], id) == IndexOf(rows, id)
    ensures IndexOf(rows, id) == |rows| && row.requestId == id ==> IndexOf(rows + [row], id) == |rows|
  {
    if rows != [] {
      assert (rows + [row])[1..] == rows[1..] + [row];
      IndexOfAppended(rows[1..], row, id);
    }
  }

  lemma NamedIndex(rows: seq<Intent>, id: RequestId)
    ensures Named(rows, id) <==> IndexOf(rows, id) < |rows|
  {
  }

  /** A replaced row that keeps its identity and bytes carries what it carried. */
  lemma RowKept(rows: seq<Intent>, k: nat, row: Intent, edit: Edit)
    requires k < |rows|
    requires row.requestId == rows[k].requestId && row.kind == rows[k].kind && row.content == rows[k].content
    ensures Carries(rows, edit) ==> Carries(rows[k := row], edit)
    ensures forall id :: Named(rows, id) <==> Named(rows[k := row], id)
  {
    var next := rows[k := row];
    if Carries(rows, edit) {
      var j :| 0 <= j < |rows| && rows[j].requestId == edit.carrier && rows[j].kind == edit.kind
        && rows[j].content == edit.content;
      assert next[j].requestId == edit.carrier && next[j].kind == edit.kind && next[j].content == edit.content;
    }
    forall id ensures Named(rows, id) <==> Named(next, id) {
      if Named(rows, id) {
        var j :| 0 <= j < |rows| && rows[j].requestId == id;
        assert next[j].requestId == id;
      }
      if Named(next, id) {
        var j :| 0 <= j < |rows| && next[j].requestId == id;
        assert rows[j].requestId == id;
      }
    }
  }

  lemma ServedStays(w: World, v: World, version: Version)
    requires w.history <= v.history && Served(w, version)
    ensures Served(v, version)
  {
    var k :| 0 <= k < |w.history| && w.history[k].version == Some(version);
    assert v.history[k].version == Some(version);
  }

  // ---- events outside the working copy ----

  lemma PremisesStay(w: World, v: World)
    requires Premises(w) && w.history <= v.history && v.cell == w.cell
    requires forall id :: id in v.submitted ==>
      (id in w.submitted && v.submitted[id] == w.submitted[id]) || ServedOrNone(w, v.submitted[id].base)
    ensures Premises(v)
  {
    forall version | Served(w, version) ensures Served(v, version) {
      ServedStays(w, v, version);
    }
  }

  lemma DeliveriesStay(w: World, v: World)
    requires Deliveries(w) && v.cell == w.cell && v.submitted == w.submitted && v.late == w.late
    requires forall id :: NotApplied(w, id) ==> NotApplied(v, id)
    requires forall k :: 0 <= k < |w.cell.chain| ==> FirstCall(v, w.cell.chain[k])
    ensures Deliveries(v)
  {
    hide NotApplied, Payload, FirstCall;
    forall k | 0 <= k < |v.cell.chain| ensures RowDelivery(v, v.cell.chain[k]) {
      assert RowDelivery(w, w.cell.chain[k]);
    }
  }

  lemma EditsStay(w: World, v: World)
    requires LedgerShape(w) && v.cell == w.cell && v.ledger == w.ledger && v.minted == w.minted && w.late <= v.late
    requires forall id :: Withdrawn(w, id) && NotApplied(w, id) ==> NotApplied(v, id)
    ensures LedgerShape(v)
  {
    hide NotApplied, Carries, Retained, Named;
    forall i | 0 <= i < |v.ledger| ensures v.ledger[i].carrier in v.minted && Kept(v, i) {
      assert Kept(w, i);
    }
  }

  /** What was recorded speaks of a history that only grows and of requests that do not change. */
  lemma RecordsStay(w: World, v: World)
    requires RecordsShape(w) && v.recorded == w.recorded && w.history <= v.history
    requires forall id :: id in w.recorded ==> id in v.submitted && v.submitted[id] == w.submitted[id]
    ensures RecordsShape(v)
  {
    forall id | id in v.recorded ensures RecordShape(v, id) {
      assert RecordShape(w, id);
    }
  }

  lemma IdentitiesStay(w: World, v: World)
    requires Identities(w) && v.cell == w.cell && w.minted <= v.minted
    ensures Identities(v)
  {
  }

  /** The authority learned, served or denied something; nothing was sent and no request it refused came back. */
  lemma LearnedKeeps(w: World, v: World, target: Id)
    requires Consistent(w, target) && AuthorityShape(v)
    requires w.history <= v.history
    requires v == w.(history := v.history, open := v.open, recorded := v.recorded, calls := v.calls)
    requires forall id :: NotApplied(w, id) ==> NotApplied(v, id)
    requires forall k :: 0 <= k < |w.cell.chain| ==> FirstCall(v, w.cell.chain[k])
    ensures Consistent(v, target)
  {
    hide Shape, AuthorityShape, Identities, Deliveries, Premises, LedgerShape, NotApplied, Withdrawn, FirstCall;
    PremisesStay(w, v);
    DeliveriesStay(w, v);
    EditsStay(w, v);
    IdentitiesStay(w, v);
  }

  /** What is submitted names a base the authority served, or none. */
  lemma SubmittedPremise(w: World, target: Id, requestId: RequestId)
    requires ChainShape(w.cell, target) && Premises(w) && Enabled(w, Submit(requestId))
    ensures IndexOf(w.cell.chain, requestId) == 0 && ServedOrNone(w, w.cell.chain[0].base)
  {
    assert KnownPremise(w, w.cell.chain[0]);
  }

  /** A delivery of the first row, in the call that claimed it. */
  predicate Sends(w: World, v: World) {
    && w.cell.chain != []
    && var id := w.cell.chain[0].requestId;
       v == w.(submitted := w.submitted[id := Payload(w.cell.chain[0])], open := w.open + multiset{id},
               calls := w.calls[id := if CallOf(w, id) == Unsent then SentOnce else Unclear])
  }

  lemma SubmitKeeps(w: World, target: Id, requestId: RequestId)
    requires Consistent(w, target) && Enabled(w, Submit(requestId))
    ensures Consistent(Next(w, target, Submit(requestId)), target)
  {
    assert ChainShape(w.cell, target);
    hide Shape, ChainShape, AuthorityShape, Identities, Deliveries, Premises, LedgerShape;
    SubmittedPremise(w, target, requestId);
    hide ServedOrNone, Payload;
    SentRowKeeps(w, Next(w, target, Submit(requestId)), target);
  }

  /** What is sent again is what was sent before. */
  lemma SubmittedAgain(w: World, target: Id, requestId: RequestId)
    requires Consistent(w, target) && Enabled(w, Submit(requestId)) && requestId in w.submitted
    ensures Next(w, target, Submit(requestId)).submitted == w.submitted
  {
    assert RowDelivery(w, w.cell.chain[IndexOf(w.cell.chain, requestId)]);
    hide Shape, AuthorityShape, Identities, Premises, LedgerShape, Payload, NotApplied;
  }

  lemma SentRowKeeps(w: World, v: World, target: Id)
    requires Consistent(w, target) && Sends(w, v) && w.cell.chain[0].state == InFlight
    requires ServedOrNone(w, w.cell.chain[0].base)
    ensures Consistent(v, target)
  {
    SentAuthority(w, v, target);
    assert ChainShape(w.cell, target) && OpenShape(w);
    hide AuthorityShape, Shape, Payload, FirstCall, OpenShape, ChainShape;
    SentDeliveries(w, v, target);
    NamedFirst(w.cell);
    hide Deliveries, Identities, RowDelivery;
    PremisesStay(w, v);
    hide Premises, Named;
    SentLedger(w, v);
  }

  lemma NamedFirst(c: Cell)
    ensures c.chain != [] ==> Named(c.chain, c.chain[0].requestId)
  {
  }

  lemma SentAuthority(w: World, v: World, target: Id)
    requires Consistent(w, target) && Sends(w, v) && w.cell.chain[0].state == InFlight
    ensures AuthorityShape(v) && Identities(v) && Shape(v.cell, target)
  {
    hide Premises, LedgerShape, Shape, Payload, RecordsShape, HistoryShape;
    SentRequests(w, v);
    hide Deliveries, RequestShape, RowDelivery;
    RecordsSent(w, v);
    SentHistory(w, v);
    IdentitiesStay(w, v);
  }

  lemma SentHistory(w: World, v: World)
    requires HistoryShape(w) && v.history == w.history && v.baseRevision == w.baseRevision
    ensures HistoryShape(v)
  {
  }

  lemma SentRequests(w: World, v: World)
    requires RequestShape(w) && Identities(w) && Deliveries(w) && Sends(w, v)
    ensures RequestShape(v) && forall id :: id in w.submitted ==> v.submitted[id] == w.submitted[id]
  {
    assert w.cell.chain[0].requestId in w.minted && RowDelivery(w, w.cell.chain[0]);
    hide Identities, Deliveries, NotApplied, FirstCall;
  }

  lemma RecordsSent(w: World, v: World)
    requires RecordsShape(w) && Sends(w, v)
    requires forall id :: id in w.submitted ==> v.submitted[id] == w.submitted[id]
    ensures RecordsShape(v)
  {
    assert forall id :: id in w.recorded ==> RecordShape(w, id);
    hide Payload, RecordsShape;
    RecordsStay(w, v);
  }

  lemma SentDeliveries(w: World, v: World, target: Id)
    requires Deliveries(w) && Identities(w) && OpenShape(w) && ChainShape(w.cell, target)
    requires Sends(w, v) && w.cell.chain[0].state == InFlight
    ensures Deliveries(v)
  {
    assert |w.cell.chain| == 2 ==> w.cell.chain[1].state == Pending;
    hide Identities, ChainShape;
    forall k | 0 <= k < |w.cell.chain| ensures RowDelivery(v, w.cell.chain[k]) {
      assert RowDelivery(w, w.cell.chain[k]);
    }
  }

  lemma SentLedger(w: World, v: World)
    requires LedgerShape(w) && Sends(w, v) && Named(w.cell.chain, w.cell.chain[0].requestId)
    ensures LedgerShape(v)
  {
    assert forall id :: Withdrawn(w, id) && NotApplied(w, id) ==> NotApplied(v, id);
    hide NotApplied, Withdrawn, LedgerShape;
    EditsStay(w, v);
  }

  /** An outcome recorded for an identity the authority still held open. */
  lemma RecordingKeeps(w: World, v: World, target: Id, requestId: RequestId, recorded: Recorded)
    requires Consistent(w, target) && requestId in w.open && requestId !in w.recorded && w.history <= v.history
    requires forall k :: |w.history| <= k < |v.history| ==> ServedHead(v.history[k])
    requires v ==
      w.(history := v.history, open := w.open - multiset{requestId}, recorded := w.recorded[requestId := recorded])
    requires RecordShape(v, requestId)
    ensures Consistent(v, target)
  {
    assert OpenShape(w);
    hide Shape, Identities, Deliveries, Premises, LedgerShape, AuthorityShape, RecordShape, NotApplied, ServedHead;
    hide FirstCall, OpenShape;
    RecordingAuthority(w, v, requestId, recorded);
    RecordingApplies(w, v, requestId);
    RecordingCalls(w, v, requestId);
    LearnedKeeps(w, v, target);
  }

  lemma RecordingCalls(w: World, v: World, requestId: RequestId)
    requires Deliveries(w) && OpenShape(w) && requestId in w.open && requestId !in w.recorded
    requires v.cell == w.cell && v.calls == w.calls && v.submitted == w.submitted
    requires v.open == w.open - multiset{requestId}
    requires forall id :: id in v.recorded <==> id in w.recorded || id == requestId
    ensures forall k :: 0 <= k < |w.cell.chain| ==> FirstCall(v, w.cell.chain[k])
  {
    forall k | 0 <= k < |w.cell.chain| ensures FirstCall(v, w.cell.chain[k]) {
      assert RowDelivery(w, w.cell.chain[k]);
    }
  }

  lemma RecordingApplies(w: World, v: World, requestId: RequestId)
    requires requestId in w.open && requestId !in w.recorded && v.open == w.open - multiset{requestId}
    requires forall id :: id != requestId ==>
      (id in v.recorded <==> id in w.recorded) && (id in w.recorded ==> v.recorded[id] == w.recorded[id])
    ensures forall id :: NotApplied(w, id) ==> NotApplied(v, id)
  {
  }

  lemma RecordingAuthority(w: World, v: World, requestId: RequestId, recorded: Recorded)
    requires AuthorityShape(w) && requestId in w.open && requestId !in w.recorded && w.history <= v.history
    requires forall k :: |w.history| <= k < |v.history| ==> ServedHead(v.history[k])
    requires v ==
      w.(history := v.history, open := w.open - multiset{requestId}, recorded := w.recorded[requestId := recorded])
    requires RecordShape(v, requestId)
    ensures AuthorityShape(v)
  {
    hide ServedHead, RecordShape, HistoryShape, RequestShape, RecordsShape;
    RecordingHistory(w, v);
    RecordingRecords(w, v, requestId, recorded);
    SameRequests(w, v);
  }

  lemma RecordingHistory(w: World, v: World)
    requires HistoryShape(w) && w.history <= v.history && v.baseRevision == w.baseRevision
    requires forall k :: |w.history| <= k < |v.history| ==> ServedHead(v.history[k])
    ensures HistoryShape(v)
  {
    hide ServedHead;
  }

  lemma SameRequests(w: World, v: World)
    requires RequestShape(w) && v.submitted == w.submitted && w.minted <= v.minted
    ensures RequestShape(v)
  {
  }

  lemma RecordingRecords(w: World, v: World, requestId: RequestId, recorded: Recorded)
    requires RecordsShape(w) && requestId !in w.recorded && w.history <= v.history
    requires v.submitted == w.submitted && v.recorded == w.recorded[requestId := recorded]
    requires RecordShape(v, requestId)
    ensures RecordsShape(v)
  {
    forall id | id in v.recorded ensures RecordShape(v, id) {
      assert id != requestId ==> RecordShape(w, id);
    }
  }

  lemma CommitsKeeps(w: World, target: Id, requestId: RequestId, stored: SharedBase)
    requires Consistent(w, target) && Enabled(w, Commits(requestId, stored))
    ensures Consistent(Next(w, target, Commits(requestId, stored)), target)
  {
    hide Shape, Identities, Deliveries, Premises, LedgerShape;
    var v := Next(w, target, Commits(requestId, stored));
    RecordingKeeps(w, v, target, requestId, v.recorded[requestId]);
  }

  lemma ConflictsKeeps(w: World, target: Id, requestId: RequestId)
    requires Consistent(w, target) && Enabled(w, Conflicts(requestId))
    ensures Consistent(Next(w, target, Conflicts(requestId)), target)
  {
    hide Shape, Identities, Deliveries, Premises, LedgerShape;
    var v := Next(w, target, Conflicts(requestId));
    RecordingKeeps(w, v, target, requestId, v.recorded[requestId]);
  }

  lemma RefusesKeeps(w: World, target: Id, requestId: RequestId, code: string)
    requires Consistent(w, target) && Enabled(w, Refuses(requestId, code))
    ensures Consistent(Next(w, target, Refuses(requestId, code)), target)
  {
    assert requestId in w.submitted;
    hide Shape, Identities, Deliveries, Premises, LedgerShape;
    var v := Next(w, target, Refuses(requestId, code));
    RecordingKeeps(w, v, target, requestId, v.recorded[requestId]);
  }

  lemma DeniesKeeps(w: World, target: Id, requestId: RequestId)
    requires Consistent(w, target) && Enabled(w, Denies(requestId))
    ensures Consistent(Next(w, target, Denies(requestId)), target)
  {
    var v := Next(w, target, Denies(requestId));
    DeniedAuthority(w, v, requestId);
    DeniedCalls(w, v, requestId);
    hide Shape, AuthorityShape, Identities, Deliveries, Premises, LedgerShape, FirstCall;
    assert forall id :: NotApplied(w, id) ==> NotApplied(v, id);
    LearnedKeeps(w, v, target);
  }

  /** One delivery of this identity is denied, and the call that made it alone may settle with that. */
  predicate Denying(w: World, v: World, requestId: RequestId) {
    && requestId in w.open
    && v == w.(open := w.open - multiset{requestId},
               calls := if CallOf(w, requestId) == SentOnce then w.calls[requestId := Denied] else w.calls)
  }

  lemma DeniedAuthority(w: World, v: World, requestId: RequestId)
    requires AuthorityShape(w) && Denying(w, v, requestId)
    ensures AuthorityShape(v)
  {
    assert forall id :: id in w.recorded ==> RecordShape(w, id);
    hide RecordsShape;
    RecordsStay(w, v);
    hide ServedHead;
  }

  lemma DeniedCalls(w: World, v: World, requestId: RequestId)
    requires Deliveries(w) && OpenShape(w) && Denying(w, v, requestId)
    ensures forall k :: 0 <= k < |w.cell.chain| ==> FirstCall(v, w.cell.chain[k])
  {
    forall k | 0 <= k < |w.cell.chain| ensures FirstCall(v, w.cell.chain[k]) {
      assert RowDelivery(w, w.cell.chain[k]);
    }
  }

  lemma OtherWriterKeeps(w: World, target: Id, head: SharedBase)
    requires Consistent(w, target) && ServedHead(head)
    ensures Consistent(Next(w, target, OtherWriter(head)), target)
  {
    var v := Next(w, target, OtherWriter(head));
    ServedAuthority(w, v, head);
    ServedCalls(w, v);
    hide Shape, AuthorityShape, Identities, Deliveries, Premises, LedgerShape, FirstCall;
    LearnedKeeps(w, v, target);
  }

  lemma ServedAuthority(w: World, v: World, head: SharedBase)
    requires AuthorityShape(w) && ServedHead(head) && v == w.(history := w.history + [head])
    ensures AuthorityShape(v)
  {
    assert forall id :: id in w.recorded ==> RecordShape(w, id);
    hide RecordsShape;
    RecordsStay(w, v);
    hide ServedHead;
  }

  lemma ServedCalls(w: World, v: World)
    requires Deliveries(w) && v == w.(history := v.history)
    ensures forall k :: 0 <= k < |w.cell.chain| ==> FirstCall(v, w.cell.chain[k])
  {
    forall k | 0 <= k < |w.cell.chain| ensures FirstCall(v, w.cell.chain[k]) {
      assert RowDelivery(w, w.cell.chain[k]);
    }
  }

  // ---- local edits ----

  /** The authority's memory, and what was sent to it. */
  predicate SameAuthority(w: World, v: World) {
    && v.history == w.history && v.recorded == w.recorded && v.submitted == w.submitted && v.open == w.open
    && w.late <= v.late
  }

  lemma AuthorityStays(w: World, v: World)
    requires AuthorityShape(w) && SameAuthority(w, v) && w.minted <= v.minted && v.baseRevision < |v.history|
    ensures AuthorityShape(v)
  {
    assert forall id :: id in w.recorded ==> RecordShape(w, id);
    hide RecordsShape;
    RecordsStay(w, v);
    hide ServedHead;
  }

  lemma SameAnswers(w: World, v: World)
    requires SameAuthority(w, v)
    ensures forall id :: NotApplied(v, id) <==> NotApplied(w, id)
    ensures forall version :: Served(v, version) <==> Served(w, version)
  {
  }

  lemma RowStays(w: World, v: World, row: Intent)
    requires RowDelivery(w, row) && SameAuthority(w, v) && (v.calls == w.calls || row.state != InFlight)
    ensures RowDelivery(v, row)
  {
  }

  /** A row never sent, as every fresh row is. */
  lemma FreshRow(w: World, v: World, row: Intent)
    requires AuthorityShape(w) && SameAuthority(w, v) && NeverSent(row) && row.requestId !in w.minted
    ensures RowDelivery(v, row)
  {
  }

  /** A row that may be replaced was not applied and never will be, unless a denial settled it under a later claim. */
  lemma ReplaceableRow(w: World, row: Intent)
    requires RowDelivery(w, row) && Replaceable(row) && OpenShape(w)
    ensures NotApplied(w, row.requestId) || row.requestId in w.late
  {
  }

  /** The verbs that mint no identity and make no local edit. */
  predicate Plain(verb: Verb) {
    !verb.CommitVerb? && !verb.DeleteVerb? && !verb.FoldVerb? && !verb.ResolveVerb?
  }

  lemma PlainNext(w: World, target: Id, verb: Verb, revision: nat)
    requires Plain(verb)
    ensures
      Next(w, target, Local(verb, revision)) ==
        w.(cell := Apply(w.cell, target, verb), calls := CallsAfter(w, verb), late := LateAfter(w, verb),
           baseRevision := BaseRevisionAfter(w, target, verb, revision))
  {
    hide Apply, BaseRevisionAfter, CallsAfter, LateAfter;
    assert w.minted + {} == w.minted;
  }

  /** One edit in the ledger after a later edit takes over the latest replaceable row. */
  lemma ReplacedEditKept(w: World, v: World, i: nat)
    requires |w.cell.chain| <= 2 && Identities(w) && i < |w.ledger| && Kept(w, i) && w.ledger[i].carrier in w.minted
    requires w.cell.chain != [] && Replaceable(Last(w.cell.chain)) ==>
      NotApplied(w, Last(w.cell.chain).requestId) || Last(w.cell.chain).requestId in w.late
    requires |v.ledger| == |w.ledger| + 1 && v.ledger[i] == ReplaceLatest(w.cell, w.ledger)[i]
    requires v.cell.settled == w.cell.settled && v.cell.receipts == w.cell.receipts
    requires w.minted <= v.minted && SameAuthority(w, v)
    requires KeptRows(w.cell) <= v.cell.chain
    requires forall k :: |KeptRows(w.cell)| <= k < |v.cell.chain| ==> v.cell.chain[k].requestId !in w.minted
    ensures Kept(v, i)
  {
    SameAnswers(w, v);
    hide NotApplied, SameAuthority;
    LatestLeaves(w, v);
    hide Identities, KeptRows, Carries, Named, Retained;
    assert Kept(w, i);
  }

  /** Every row an edit leaves behind it is journaled as before; the one it takes over is not. */
  lemma LatestLeaves(w: World, v: World)
    requires |w.cell.chain| <= 2 && Identities(w)
    requires KeptRows(w.cell) <= v.cell.chain
    requires forall k :: |KeptRows(w.cell)| <= k < |v.cell.chain| ==> v.cell.chain[k].requestId !in w.minted
    ensures forall id :: id in w.minted ==>
      (Named(v.cell.chain, id) <==>
         Named(w.cell.chain, id) && !(w.cell.chain != [] && Replaceable(Last(w.cell.chain))
             && Last(w.cell.chain).requestId == id))
    ensures forall edit: Edit :: Named(v.cell.chain, edit.carrier) && Carries(w.cell.chain, edit) ==>
      Carries(v.cell.chain, edit)
  {
    var kept := KeptRows(w.cell);
    assert forall k :: 0 <= k < |kept| ==> kept[k] == w.cell.chain[k] && v.cell.chain[k] == kept[k];
  }

  lemma LedgerReplaced(w: World, v: World, target: Id)
    requires Consistent(w, target)
    requires |v.ledger| == |w.ledger| + 1 && v.ledger[..|w.ledger|] == ReplaceLatest(w.cell, w.ledger)
    requires v.cell.settled == w.cell.settled && v.cell.receipts == w.cell.receipts
    requires w.minted <= v.minted && SameAuthority(w, v)
    requires KeptRows(w.cell) <= v.cell.chain
    requires forall k :: |KeptRows(w.cell)| <= k < |v.cell.chain| ==> v.cell.chain[k].requestId !in w.minted
    ensures forall i :: 0 <= i < |w.ledger| ==> v.ledger[i].carrier in v.minted && Kept(v, i)
  {
    ReplaceableLatest(w, target);
    assert |w.cell.chain| <= 2;
    hide Shape, AuthorityShape, Identities, Deliveries, Premises, SameAuthority, NotApplied, Kept, KeptRows;
    forall i | 0 <= i < |w.ledger| ensures v.ledger[i].carrier in v.minted && Kept(v, i) {
      assert v.ledger[i] == v.ledger[..|w.ledger|][i];
      ReplacedEditKept(w, v, i);
    }
  }

  lemma ReplaceableLatest(w: World, target: Id)
    requires Consistent(w, target)
    ensures w.cell.chain != [] && Replaceable(Last(w.cell.chain)) ==>
      NotApplied(w, Last(w.cell.chain).requestId) || Last(w.cell.chain).requestId in w.late
  {
    hide Shape, Identities, Premises, LedgerShape, Replaceable, RowDelivery, OpenShape, NotApplied;
    if w.cell.chain != [] && Replaceable(Last(w.cell.chain)) {
      ReplaceableRow(w, Last(w.cell.chain));
    }
  }

  /** The premise an edit takes when it becomes the first unsettled row. */
  lemma ComposedPremise(w: World, v: World, target: Id, requestId: RequestId, now: nat, content: string,
                        posture: Option<Posture>)
    requires ChainShape(w.cell, target) && Premises(w) && KeptRows(w.cell) == []
    requires v.history == w.history && v.cell.settled == w.cell.settled
    ensures KnownPremise(v, Journaled(ComposeIntent(w.cell, target, requestId, now).(bodyReplace := posture), content))
    ensures
      var deletion := ComposeDeletion(w.cell, target, requestId, now);
      deletion.Some? ==> KnownPremise(v, Journaled(deletion.value, content))
  {
    if w.cell.chain == [] {
      assert ServedOrNone(v, BaseVersion(w.cell.base)) by { PremisesServed(w, v, BaseVersion(w.cell.base)); }
    } else {
      var latest := w.cell.chain[0];
      assert KnownPremise(w, latest) && Last(w.cell.chain) == latest;
      if ServedOrNone(w, latest.base) {
        PremisesServed(w, v, latest.base);
      }
    }
  }

  lemma PremisesServed(w: World, v: World, version: Option<Version>)
    requires ServedOrNone(w, version) && v.history == w.history
    ensures ServedOrNone(v, version)
  {
  }

  lemma CommitKeeps(w: World, target: Id, requestId: RequestId, now: nat, content: string, posture: Option<Posture>,
                    revision: nat)
    requires Consistent(w, target) && Enabled(w, Local(CommitVerb(requestId, now, content, posture), revision))
    ensures Consistent(Next(w, target, Local(CommitVerb(requestId, now, content, posture), revision)), target)
  {
    CommitKeepsShape(w.cell, target, requestId, now, content, posture);
    assert ChainShape(w.cell, target);
    hide Shape, ChainShape, AuthorityShape, Identities, Deliveries, Premises, LedgerShape, KnownPremise, ReplaceLatest;
    var v := Next(w, target, Local(CommitVerb(requestId, now, content, posture), revision));
    hide ComposeIntent, KeptRows;
    assert Front(v.cell.chain) == KeptRows(w.cell);
    if KeptRows(w.cell) == [] {
      var composed := ComposeIntent(w.cell, target, requestId, now);
      ComposedPremise(w, v, target, requestId, now, content, ComposedBodyReplace(composed.bodyReplace, posture));
    }
    AppendedRowKeeps(w, v, target);
  }

  /** A new never-sent row behind what the edit kept, with the ledger entry that carries it. */
  lemma AppendedRowKeeps(w: World, v: World, target: Id)
    requires Consistent(w, target) && Shape(v.cell, target)
    requires v == w.(cell := w.cell.(doc := v.cell.doc, chain := v.cell.chain), minted := v.minted, ledger := v.ledger)
    requires v.cell.chain != [] && Front(v.cell.chain) == KeptRows(w.cell)
    requires NeverSent(Last(v.cell.chain)) && Last(v.cell.chain).requestId !in w.minted
    requires v.minted == w.minted + {Last(v.cell.chain).requestId}
    requires KeptRows(w.cell) == [] ==> KnownPremise(v, v.cell.chain[0])
    requires
      var row := Last(v.cell.chain);
      v.ledger == ReplaceLatest(w.cell, w.ledger) + [Edit(row.kind, row.content, row.requestId, None, false)]
    ensures Consistent(v, target)
  {
    assert |v.cell.chain| <= 2;
    hide Shape, AuthorityShape, Identities, Deliveries, Premises, LedgerShape, KnownPremise;
    KeptRowsStay(w, v, target);
    AppendedLedger(w, v, target);
    assert w.baseRevision < |w.history| by { BaseInHistory(w); }
    AuthorityStays(w, v);
  }

  lemma BaseInHistory(w: World)
    requires AuthorityShape(w)
    ensures w.baseRevision < |w.history|
  {
  }

  lemma AppendedLedger(w: World, v: World, target: Id)
    requires Consistent(w, target) && |v.cell.chain| <= 2
    requires v == w.(cell := w.cell.(doc := v.cell.doc, chain := v.cell.chain), minted := v.minted, ledger := v.ledger)
    requires v.cell.chain != [] && Front(v.cell.chain) == KeptRows(w.cell)
    requires Last(v.cell.chain).requestId !in w.minted && v.minted == w.minted + {Last(v.cell.chain).requestId}
    requires
      var row := Last(v.cell.chain);
      v.ledger == ReplaceLatest(w.cell, w.ledger) + [Edit(row.kind, row.content, row.requestId, None, false)]
    ensures LedgerShape(v)
  {
    hide Shape, AuthorityShape, Identities, Deliveries, Premises, Kept, ReplaceLatest, KeptRows;
    var kept := KeptRows(w.cell);
    assert v.cell.chain == kept + [Last(v.cell.chain)];
    LedgerReplaced(w, v, target);
    LastCarried(v);
  }

  /** The edit just made is carried by the row just journaled. */
  lemma LastCarried(v: World)
    requires v.ledger != [] && v.cell.chain != []
    requires Last(v.ledger) ==
      Edit(Last(v.cell.chain).kind, Last(v.cell.chain).content, Last(v.cell.chain).requestId, None, false)
    ensures Kept(v, |v.ledger| - 1)
  {
    assert v.cell.chain[|v.cell.chain| - 1].requestId == Last(v.ledger).carrier;
    assert Carries(v.cell.chain, Last(v.ledger));
  }

  lemma KeptRowsStay(w: World, v: World, target: Id)
    requires Consistent(w, target)
    requires v.cell == w.cell.(doc := v.cell.doc, chain := v.cell.chain) && SameAuthority(w, v) && v.calls == w.calls
    requires v.cell.chain != [] && v.minted == w.minted + {Last(v.cell.chain).requestId}
    requires Front(v.cell.chain) == KeptRows(w.cell)
    requires NeverSent(Last(v.cell.chain)) && Last(v.cell.chain).requestId !in w.minted
    requires KeptRows(w.cell) == [] ==> KnownPremise(v, v.cell.chain[0])
    ensures Deliveries(v) && Premises(v) && Identities(v)
  {
    hide Shape, AuthorityShape, Identities, Deliveries, Premises, LedgerShape, KnownPremise;
    KeptRowsAre(w.cell, v.cell.chain);
    hide KeptRows;
    KeptDeliveries(w, v);
    KeptIdentities(w, v);
    KeptPremises(w, v);
  }

  lemma KeptRowsAre(c: Cell, next: seq<Intent>)
    requires next != [] && Front(next) == KeptRows(c)
    ensures |KeptRows(c)| == |next| - 1 <= |c.chain| && forall k :: 0 <= k < |next| - 1 ==> next[k] == c.chain[k]
  {
    assert forall k :: 0 <= k < |next| - 1 ==> Front(next)[k] == KeptRows(c)[k];
  }

  lemma KeptDeliveries(w: World, v: World)
    requires Deliveries(w) && AuthorityShape(w) && SameAuthority(w, v) && v.calls == w.calls
    requires v.cell.chain != [] && |v.cell.chain| - 1 <= |w.cell.chain|
    requires forall k :: 0 <= k < |v.cell.chain| - 1 ==> v.cell.chain[k] == w.cell.chain[k]
    requires NeverSent(Last(v.cell.chain)) && Last(v.cell.chain).requestId !in w.minted
    ensures Deliveries(v)
  {
    hide AuthorityShape, SameAuthority, RowDelivery;
    forall k | 0 <= k < |v.cell.chain| ensures RowDelivery(v, v.cell.chain[k]) {
      if k < |v.cell.chain| - 1 {
        RowStays(w, v, w.cell.chain[k]);
      } else {
        FreshRow(w, v, v.cell.chain[k]);
      }
    }
  }

  lemma KeptIdentities(w: World, v: World)
    requires Identities(w) && v.cell.settled == w.cell.settled
    requires v.cell.chain != [] && |v.cell.chain| - 1 <= |w.cell.chain|
    requires v.minted == w.minted + {Last(v.cell.chain).requestId} && Last(v.cell.chain).requestId !in w.minted
    requires forall k :: 0 <= k < |v.cell.chain| - 1 ==> v.cell.chain[k] == w.cell.chain[k]
    ensures Identities(v)
  {
  }

  lemma KeptPremises(w: World, v: World)
    requires Premises(w) && v.cell.base == w.cell.base && v.cell.settled == w.cell.settled && SameAuthority(w, v)
    requires v.cell.chain != [] && (|v.cell.chain| == 1 ==> KnownPremise(v, v.cell.chain[0]))
    requires |v.cell.chain| > 1 ==> w.cell.chain != [] && v.cell.chain[0] == w.cell.chain[0]
    ensures Premises(v)
  {
    SameAnswers(w, v);
    hide Served;
  }

  lemma PremisesStayButFirst(w: World, v: World)
    requires Premises(w) && SameAuthority(w, v) && v.cell.settled == w.cell.settled && v.cell.base == w.cell.base
    requires v.cell.chain != [] ==>
      KnownPremise(v, v.cell.chain[0]) || (w.cell.chain != [] && v.cell.chain[0] == w.cell.chain[0])
    ensures Premises(v)
  {
    SameAnswers(w, v);
    hide Served;
  }

  lemma CollapseKeeps(w: World, v: World, target: Id)
    requires Consistent(w, target) && Shape(v.cell, target)
    requires v ==
      w.(cell := w.cell.(doc := v.cell.doc, chain := KeptRows(w.cell)), minted := v.minted, ledger := v.ledger)
    requires w.minted <= v.minted
    requires |v.ledger| == |w.ledger| + 1 && v.ledger[..|w.ledger|] == ReplaceLatest(w.cell, w.ledger)
    requires Last(v.ledger).kind == Delete && Last(v.ledger).nothing && Last(v.ledger).replacedBy == None
    requires Last(v.ledger).carrier in v.minted && |KeptRows(w.cell)| < 2
    ensures Consistent(v, target)
  {
    hide Shape, AuthorityShape, Identities, Deliveries, Premises, LedgerShape, KnownPremise, ReplaceLatest;
    var kept := KeptRows(w.cell);
    assert forall k :: 0 <= k < |kept| ==> kept[k] == w.cell.chain[k];
    hide KeptRows;
    FewerRows(w, v);
    BaseInHistory(w);
    AuthorityStays(w, v);
    CollapsedLedger(w, v, target);
  }

  lemma CollapsedLedger(w: World, v: World, target: Id)
    requires Consistent(w, target)
    requires v ==
      w.(cell := w.cell.(doc := v.cell.doc, chain := KeptRows(w.cell)), minted := v.minted, ledger := v.ledger)
    requires w.minted <= v.minted && |KeptRows(w.cell)| < 2
    requires |v.ledger| == |w.ledger| + 1 && v.ledger[..|w.ledger|] == ReplaceLatest(w.cell, w.ledger)
    requires Last(v.ledger).kind == Delete && Last(v.ledger).nothing && Last(v.ledger).replacedBy == None
    requires Last(v.ledger).carrier in v.minted
    ensures LedgerShape(v)
  {
    hide Shape, AuthorityShape, Identities, Deliveries, Premises, KeptRows, Named, Carries, Retained;
    LedgerReplaced(w, v, target);
  }

  /** Fewer rows, each where it was. */
  lemma FewerRows(w: World, v: World)
    requires Deliveries(w) && Premises(w) && Identities(w) && w.minted <= v.minted
    requires SameAuthority(w, v) && v.calls == w.calls
    requires v.cell == w.cell.(doc := v.cell.doc, chain := v.cell.chain) && |v.cell.chain| <= |w.cell.chain|
    requires |v.cell.chain| == 2 ==> |w.cell.chain| == 2
    requires forall k :: 0 <= k < |v.cell.chain| ==> v.cell.chain[k] == w.cell.chain[k]
    ensures Deliveries(v) && Premises(v) && Identities(v)
  {
    PremisesStayButFirst(w, v);
    hide Premises, SameAuthority, RowDelivery;
    forall k | 0 <= k < |v.cell.chain| ensures RowDelivery(v, v.cell.chain[k]) {
      RowStays(w, v, w.cell.chain[k]);
    }
  }

  lemma DeleteKeeps(w: World, target: Id, requestId: RequestId, now: nat, revision: nat)
    requires Consistent(w, target) && Enabled(w, Local(DeleteVerb(requestId, now), revision))
    ensures Consistent(Next(w, target, Local(DeleteVerb(requestId, now), revision)), target)
  {
    DeleteKeepsShape(w.cell, target, requestId, now);
    assert ChainShape(w.cell, target);
    hide Shape, ChainShape, AuthorityShape, Identities, Deliveries, Premises, LedgerShape, KnownPremise;
    hide ReplaceLatest, ComposeDeletion;
    var v := Next(w, target, Local(DeleteVerb(requestId, now), revision));
    match DeleteLocal(w.cell, target, requestId, now)
    case Deleted(after, intent) => DeletedKeeps(w, v, target, requestId, now);
    case _ => IdleKeeps(w, v, target);
  }

  lemma DeletedKeeps(w: World, v: World, target: Id, requestId: RequestId, now: nat)
    requires Consistent(w, target) && Shape(v.cell, target) && requestId !in w.minted
    requires DeleteLocal(w.cell, target, requestId, now).Deleted?
    requires
      v ==
        w.(cell := DeleteLocal(w.cell, target, requestId, now).cell, minted := w.minted + {requestId},
           ledger := LedgerAfter(w, target, DeleteVerb(requestId, now)))
    ensures Consistent(v, target)
  {
    assert |v.cell.chain| <= 2 && ChainShape(w.cell, target);
    ComposedDeletion(w.cell, target, requestId, now);
    hide Shape, ChainShape, AuthorityShape, Identities, Deliveries, Premises, LedgerShape, KnownPremise;
    hide ReplaceLatest, ComposeDeletion, KeptRows;
    match ComposeDeletion(w.cell, target, requestId, now)
    case Some(intent) =>
      assert Front(v.cell.chain) == KeptRows(w.cell);
      if KeptRows(w.cell) == [] {
        ComposedPremise(w, v, target, requestId, now, DELETION_CONTENT, None);
      }
      AppendedRowKeeps(w, v, target);
    case None =>
      assert v.cell.chain == KeptRows(w.cell);
      CollapseKeeps(w, v, target);
  }

  lemma ComposedDeletion(c: Cell, target: Id, requestId: RequestId, now: nat)
    requires ChainShape(c, target)
    ensures
      var intent := ComposeDeletion(c, target, requestId, now);
      && (intent.Some? ==> intent.value.requestId == requestId && intent.value.kind == Delete)
      && (intent == None ==> |KeptRows(c)| < 2)
  {
  }

  /** A verb that changed nothing but the identities it minted. */
  lemma IdleKeeps(w: World, v: World, target: Id)
    requires Consistent(w, target)
    requires w.minted <= v.minted && v == w.(minted := v.minted)
    ensures Consistent(v, target)
  {
    hide Shape, AuthorityShape, Identities, Deliveries, Premises, LedgerShape;
    BaseInHistory(w);
    AuthorityStays(w, v);
    IdentitiesStay(w, v);
    FewerRows(w, v);
    IdleLedger(w, v);
  }

  lemma IdleLedger(w: World, v: World)
    requires LedgerShape(w) && w.minted <= v.minted && v == w.(minted := v.minted)
    ensures LedgerShape(v)
  {
    forall i | 0 <= i < |v.ledger| ensures v.ledger[i].carrier in v.minted && Kept(v, i) {
      assert Kept(w, i);
    }
  }

  // ---- delivery ----

  /** The first row moved on, with its identity and bytes, perhaps into a new call. */
  predicate FirstRowMoved(w: World, v: World, row: Intent) {
    && w.cell.chain != [] && w.late <= v.late
    && v == w.(cell := w.cell.(chain := w.cell.chain[0 := row]), calls := v.calls, late := v.late)
    && row.requestId == w.cell.chain[0].requestId && row.kind == w.cell.chain[0].kind
    && row.content == w.cell.chain[0].content
  }

  lemma UpdatedRowKeeps(w: World, v: World, target: Id, row: Intent)
    requires Consistent(w, target) && Shape(v.cell, target)
    requires FirstRowMoved(w, v, row) && RowDelivery(v, row) && KnownPremise(w, row)
    ensures Consistent(v, target)
  {
    SecondWaits(w.cell, target);
    hide Shape, AuthorityShape, Identities, Deliveries, Premises, LedgerShape, RowDelivery, KnownPremise;
    BaseInHistory(w);
    AuthorityStays(w, v);
    UpdatedRows(w, v, row);
    UpdatedLedger(w, v, row);
  }

  lemma SecondWaits(c: Cell, target: Id)
    requires Shape(c, target)
    ensures forall k :: 1 <= k < |c.chain| ==> c.chain[k].state == Pending
  {
  }

  lemma UpdatedRows(w: World, v: World, row: Intent)
    requires Deliveries(w) && Premises(w) && Identities(w) && FirstRowMoved(w, v, row)
    requires forall k :: 1 <= k < |w.cell.chain| ==> w.cell.chain[k].state == Pending
    requires RowDelivery(v, row) && KnownPremise(w, row)
    ensures Deliveries(v) && Premises(v) && Identities(v)
  {
    SamePremise(w, v, row);
    PremisesStayButFirst(w, v);
    hide Premises, RowDelivery, KnownPremise;
    forall k | 0 <= k < |v.cell.chain| ensures RowDelivery(v, v.cell.chain[k]) {
      if k > 0 {
        RowStays(w, v, w.cell.chain[k]);
      }
    }
  }

  lemma SamePremise(w: World, v: World, row: Intent)
    requires KnownPremise(w, row) && v.history == w.history && v.cell.settled == w.cell.settled
    ensures KnownPremise(v, row)
  {
    if ServedOrNone(w, row.base) {
      PremisesServed(w, v, row.base);
    }
  }

  lemma UpdatedLedger(w: World, v: World, row: Intent)
    requires LedgerShape(w) && FirstRowMoved(w, v, row)
    ensures LedgerShape(v)
  {
    SameAnswers(w, v);
    hide SameAuthority, NotApplied;
    forall i | 0 <= i < |v.ledger| ensures v.ledger[i].carrier in v.minted && Kept(v, i) {
      assert Kept(w, i);
      RowKept(w.cell.chain, 0, row, w.ledger[i]);
      hide Named, Carries;
    }
  }

  /** A claim replaces a local premise by the version the authority committed. */
  lemma ClaimedPremise(w: World, target: Id, row: Intent)
    requires Premises(w) && w.cell.chain != []
    requires Claim(w.cell, w.cell.chain[0].requestId).Claimed? && row == Claim(w.cell, w.cell.chain[0].requestId).row
    ensures ServedOrNone(w, row.base)
  {
    var intent := w.cell.chain[0];
    assert KnownPremise(w, intent);
    if intent.after.Some? {
      var p := IndexOf(w.cell.settled, intent.after.value);
      assert p < |w.cell.settled| ==> w.cell.settled[p].acknowledgedVersion.Some?;
    }
  }

  /** What is delivered after a claim is what the row was claimed as; a row never sent may take its premise then. */
  lemma ClaimedRow(w: World, v: World, target: Id)
    requires ChainShape(w.cell, target) && Deliveries(w) && w.cell.chain != []
    requires Claim(w.cell, w.cell.chain[0].requestId).Claimed?
    requires v == w.(cell := v.cell, calls := w.calls[w.cell.chain[0].requestId := Unsent])
    ensures
      var row := Claim(w.cell, w.cell.chain[0].requestId).row;
      && RowDelivery(v, row)
      && Claim(w.cell, w.cell.chain[0].requestId).cell == w.cell.(chain := w.cell.chain[0 := row])
      && row.requestId == w.cell.chain[0].requestId && row.kind == w.cell.chain[0].kind
      && row.content == w.cell.chain[0].content
  {
    assert RowDelivery(w, w.cell.chain[0]);
    hide FirstCall;
    assert CallOf(v, w.cell.chain[0].requestId) == Unsent;
    FreshCall(v, Claim(w.cell, w.cell.chain[0].requestId).row);
  }

  lemma FreshCall(v: World, row: Intent)
    requires CallOf(v, row.requestId) == Unsent && (row.attempts == 1 ==> row.requestId !in v.submitted)
    ensures FirstCall(v, row)
  {
  }

  lemma ClaimKeeps(w: World, target: Id, requestId: RequestId, revision: nat)
    requires Consistent(w, target) && Enabled(w, Local(ClaimVerb(requestId), revision))
    ensures Consistent(Next(w, target, Local(ClaimVerb(requestId), revision)), target)
  {
    ClaimKeepsShape(w.cell, target, requestId);
    ClaimNext(w, target, requestId, revision);
    hide Consistent, Claim, Next, Enabled, Apply, Shape;
    if Claim(w.cell, requestId).Claimed? {
      ClaimedKeeps(w, Next(w, target, Local(ClaimVerb(requestId), revision)), target, requestId);
    }
  }

  lemma ClaimNext(w: World, target: Id, requestId: RequestId, revision: nat)
    ensures Next(w, target, Local(ClaimVerb(requestId), revision)).cell == Apply(w.cell, target, ClaimVerb(requestId))
    ensures Next(w, target, Local(ClaimVerb(requestId), revision)) ==
      match Claim(w.cell, requestId)
      case Claimed(after, _) => w.(cell := after, calls := w.calls[requestId := Unsent])
      case _ => w
  {
    PlainNext(w, target, ClaimVerb(requestId), revision);
    hide Claim, Next;
  }

  lemma ClaimedKeeps(w: World, v: World, target: Id, requestId: RequestId)
    requires Consistent(w, target) && Claim(w.cell, requestId).Claimed? && Shape(v.cell, target)
    requires v == w.(cell := Claim(w.cell, requestId).cell, calls := w.calls[requestId := Unsent])
    ensures Consistent(v, target)
  {
    assert ChainShape(w.cell, target);
    OnlyFirstClaimed(w.cell, target, requestId);
    hide Shape, ChainShape, AuthorityShape, Identities, Deliveries, Premises, LedgerShape, RowDelivery, KnownPremise;
    hide Claim;
    ClaimedRow(w, v, target);
    var row := Claim(w.cell, requestId).row;
    ClaimedPremise(w, target, row);
    ServedPremise(w, row);
    hide ServedOrNone;
    UpdatedRowKeeps(w, v, target, row);
  }

  lemma ServedPremise(w: World, row: Intent)
    requires ServedOrNone(w, row.base)
    ensures KnownPremise(w, row)
  {
  }

  lemma OnlyFirstClaimed(c: Cell, target: Id, requestId: RequestId)
    requires ChainShape(c, target) && Claim(c, requestId).Claimed?
    ensures c.chain != [] && requestId == c.chain[0].requestId
  {
    assert c.chain != [];
    assert IndexOf(c.chain, c.chain[0].requestId) == 0;
  }

  /** A requeued row: pending again, with at least the attempts it had, under the same identity and bytes. */
  predicate Requeued(w: World, row: Intent) {
    && w.cell.chain != [] && w.cell.chain[0].attempts >= 1
    && row == w.cell.chain[0].(state := Pending)
  }

  lemma RequeuedKeeps(w: World, v: World, target: Id, row: Intent)
    requires Consistent(w, target) && Shape(v.cell, target)
    requires Requeued(w, row) && v == w.(cell := w.cell.(chain := w.cell.chain[0 := row]))
    ensures Consistent(v, target)
  {
    RequeuedRow(w, v, row);
    hide Shape, AuthorityShape, Identities, Deliveries, Premises, LedgerShape, RowDelivery, KnownPremise;
    UpdatedRowKeeps(w, v, target, row);
  }

  lemma RequeuedRow(w: World, v: World, row: Intent)
    requires Deliveries(w) && Premises(w) && Requeued(w, row) && v == w.(cell := v.cell)
    ensures RowDelivery(v, row) && KnownPremise(w, row)
  {
    assert RowDelivery(w, w.cell.chain[0]) && KnownPremise(w, w.cell.chain[0]);
  }

  lemma ResumeKeeps(w: World, target: Id, requestId: RequestId, revision: nat)
    requires Consistent(w, target) && Enabled(w, Local(ResumeVerb(requestId), revision))
    ensures Consistent(Next(w, target, Local(ResumeVerb(requestId), revision)), target)
  {
    RequeueKeepsShape(w.cell, target, requestId);
    FirstRequeued(w.cell, target, requestId);
    PlainNext(w, target, ResumeVerb(requestId), revision);
    hide Consistent, Resume, Reclaim, Next, Enabled, Shape, RequeuedFrom;
    RequeueVerbKeeps(w, Next(w, target, Local(ResumeVerb(requestId), revision)), target);
  }

  lemma ReclaimKeeps(w: World, target: Id, requestId: RequestId, revision: nat)
    requires Consistent(w, target) && Enabled(w, Local(ReclaimVerb(requestId), revision))
    ensures Consistent(Next(w, target, Local(ReclaimVerb(requestId), revision)), target)
  {
    RequeueKeepsShape(w.cell, target, requestId);
    FirstRequeued(w.cell, target, requestId);
    PlainNext(w, target, ReclaimVerb(requestId), revision);
    hide Consistent, Resume, Reclaim, Next, Enabled, Shape, RequeuedFrom;
    RequeueVerbKeeps(w, Next(w, target, Local(ReclaimVerb(requestId), revision)), target);
  }

  lemma RequeueVerbKeeps(w: World, v: World, target: Id)
    requires Consistent(w, target) && Shape(v.cell, target) && v == w.(cell := v.cell)
    requires RequeuedFrom(w.cell, v.cell)
    ensures Consistent(v, target)
  {
    hide Consistent, Shape;
    if v.cell != w.cell {
      RequeuedKeeps(w, v, target, v.cell.chain[0]);
    }
  }

  /** What an acknowledgement says the authority holds, and at which revision. */
  lemma AcknowledgedServed(w: World, target: Id, answer: Outcome)
    requires AuthorityShape(w) && Deliveries(w) && w.cell.chain != []
    requires SettleAgainstIntent(answer, w.cell.chain[0]).Committed? && Answered(w, w.cell.chain[0].requestId, answer)
    requires w.cell.chain[0].local == VersionOf(w.cell.chain[0].content)
    ensures
      var row := w.cell.chain[0];
      && row.requestId in w.recorded && w.recorded[row.requestId].at < |w.history|
      && (row.kind == Write ==>
            w.history[w.recorded[row.requestId].at].version == Some(SettleAgainstIntent(answer, row).version))
  {
    assert RowDelivery(w, w.cell.chain[0]);
    assert RecordShape(w, w.cell.chain[0].requestId);
  }

  /** The first row leaves the unsettled ones, acknowledged at a version. */
  predicate FirstAcknowledged(w: World, v: World, row: Intent, version: Version) {
    && w.cell.chain != []
    && v == w.(cell := v.cell, baseRevision := v.baseRevision)
    && v.cell == w.cell.(base := v.cell.base, settled := w.cell.settled + [row], chain := w.cell.chain[1..])
    && row.requestId == w.cell.chain[0].requestId && row.kind == w.cell.chain[0].kind
    && row.content == w.cell.chain[0].content && row.local == w.cell.chain[0].local
    && row.acknowledgedVersion == Some(version)
    && BaseVersion(v.cell.base) == if row.kind == Write then Some(version) else None
  }

  lemma AcknowledgeKeeps(w: World, v: World, target: Id, row: Intent, version: Version)
    requires Consistent(w, target) && Shape(v.cell, target) && v.baseRevision < |w.history|
    requires FirstAcknowledged(w, v, row, version) && (row.kind == Write ==> Served(w, version))
    ensures Consistent(v, target)
  {
    assert ChainShape(w.cell, target);
    hide Shape, ChainShape, AuthorityShape, Identities, Deliveries, Premises, LedgerShape;
    AuthorityStays(w, v);
    AcknowledgedLedger(w, v, target, row, version);
    AcknowledgedRows(w, v, target, row, version);
  }

  lemma AcknowledgedRows(w: World, v: World, target: Id, row: Intent, version: Version)
    requires Premises(w) && Identities(w) && Deliveries(w) && ChainShape(w.cell, target)
    requires FirstAcknowledged(w, v, row, version) && (row.kind == Write ==> Served(w, version))
    ensures Premises(v) && Identities(v) && Deliveries(v)
  {
    assert |w.cell.chain| <= 2;
    if v.cell.chain != [] {
      SuccessorPremise(w, v, target, row);
    }
    hide ChainShape, Premises, KnownPremise, RowDelivery;
    AcknowledgedPremises(w, v, row, version);
    hide Served;
    AcknowledgedIdentities(w, v, row);
    hide Identities;
    forall k | 0 <= k < |v.cell.chain| ensures RowDelivery(v, v.cell.chain[k]) {
      RowStays(w, v, w.cell.chain[k + 1]);
    }
  }

  lemma AcknowledgedPremises(w: World, v: World, row: Intent, version: Version)
    requires Premises(w) && FirstAcknowledged(w, v, row, version) && (row.kind == Write ==> Served(w, version))
    requires v.cell.chain != [] ==> KnownPremise(v, v.cell.chain[0])
    ensures Premises(v)
  {
    SameAnswers(w, v);
    hide Served, KnownPremise;
    assert forall k :: 0 <= k < |v.cell.settled| ==>
      if k < |w.cell.settled| then v.cell.settled[k] == w.cell.settled[k] else v.cell.settled[k] == row;
  }

  lemma AcknowledgedIdentities(w: World, v: World, row: Intent)
    requires Identities(w) && w.cell.chain != [] && |w.cell.chain| <= 2 && row.requestId == w.cell.chain[0].requestId
    requires v.minted == w.minted && v.cell.settled == w.cell.settled + [row] && v.cell.chain == w.cell.chain[1..]
    ensures Identities(v)
  {
    assert forall k :: 0 <= k < |v.cell.settled| ==> k < |w.cell.settled| || v.cell.settled[k] == row;
    assert forall id :: Named(v.cell.settled, id) ==> Named(w.cell.settled, id) || id == row.requestId;
  }

  /** The successor's premise is the row just acknowledged, which its claim will replace with what was committed. */
  lemma SuccessorPremise(w: World, v: World, target: Id, row: Intent)
    requires Identities(w) && ChainShape(w.cell, target) && |w.cell.chain| == 2
    requires v.cell.settled == w.cell.settled + [row]
    requires row.requestId == w.cell.chain[0].requestId && row.kind == w.cell.chain[0].kind
    requires row.local == w.cell.chain[0].local
    ensures KnownPremise(v, w.cell.chain[1])
  {
    IndexOfAppended(w.cell.settled, row, row.requestId);
    NamedIndex(w.cell.settled, row.requestId);
    var next := w.cell.chain[1];
    assert Waits(next, w.cell.chain[0]);
    var p := IndexOf(v.cell.settled, row.requestId);
    assert p == |w.cell.settled| && v.cell.settled[p] == row;
    assert next.base.Some? ==>
      0 <= p < |v.cell.settled| && p == IndexOf(v.cell.settled, next.after.value) && v.cell.settled[p].kind == Write;
  }

  lemma AcknowledgedLedger(w: World, v: World, target: Id, row: Intent, version: Version)
    requires Consistent(w, target) && FirstAcknowledged(w, v, row, version)
    ensures LedgerShape(v)
  {
    SecondIsOther(w, target);
    hide Shape, AuthorityShape, Identities, Deliveries, Premises;
    forall i | 0 <= i < |w.ledger| ensures Kept(v, i) {
      assert Kept(w, i);
      hide Kept;
      MovedEdit(w, v, row, version, i);
    }
  }

  lemma SecondIsOther(w: World, target: Id)
    requires Consistent(w, target) && w.cell.chain != []
    ensures |w.cell.chain| in {1, 2}
    ensures |w.cell.chain| == 2 ==> w.cell.chain[0].requestId != w.cell.chain[1].requestId
  {
  }

  lemma MovedEdit(w: World, v: World, row: Intent, version: Version, i: nat)
    requires i < |w.ledger| && Kept(w, i) && FirstAcknowledged(w, v, row, version)
    requires |w.cell.chain| in {1, 2} && (|w.cell.chain| == 2 ==>
        w.cell.chain[0].requestId != w.cell.chain[1].requestId)
    ensures Kept(v, i)
  {
    SameAnswers(w, v);
    hide NotApplied;
    MovedNames(w, v, row);
    MovedBytes(w, v, row, w.ledger[i]);
  }

  lemma MovedNames(w: World, v: World, row: Intent)
    requires |w.cell.chain| in {1, 2} && row.requestId == w.cell.chain[0].requestId
    requires v.cell.settled == w.cell.settled + [row] && v.cell.chain == w.cell.chain[1..]
    ensures forall id :: Named(w.cell.chain, id) <==> id == row.requestId || Named(v.cell.chain, id)
    ensures forall id :: Named(v.cell.settled, id) <==> id == row.requestId || Named(w.cell.settled, id)
  {
    forall id ensures Named(w.cell.chain, id) <==> id == row.requestId || Named(v.cell.chain, id) {
      assert w.cell.chain[0].requestId == row.requestId;
      if |w.cell.chain| == 2 {
        assert v.cell.chain[0] == w.cell.chain[1];
      }
    }
    forall id ensures Named(v.cell.settled, id) <==> id == row.requestId || Named(w.cell.settled, id) {
      assert v.cell.settled[|w.cell.settled|] == row;
      if k :| 0 <= k < |w.cell.settled| && w.cell.settled[k].requestId == id {
        assert v.cell.settled[k] == w.cell.settled[k];
      }
    }
  }

  lemma MovedBytes(w: World, v: World, row: Intent, edit: Edit)
    requires |w.cell.chain| in {1, 2} && row.requestId == w.cell.chain[0].requestId
    requires row.kind == w.cell.chain[0].kind && row.content == w.cell.chain[0].content
    requires v.cell.settled == w.cell.settled + [row] && v.cell.chain == w.cell.chain[1..]
    requires |w.cell.chain| == 2 ==> w.cell.chain[0].requestId != w.cell.chain[1].requestId
    ensures Carries(w.cell.settled, edit) ==> Carries(v.cell.settled, edit)
    ensures Carries(w.cell.chain, edit) ==>
      if edit.carrier == row.requestId then Carries(v.cell.settled, edit) else Carries(v.cell.chain, edit)
  {
    assert v.cell.settled[|w.cell.settled|] == row;
    if Carries(w.cell.settled, edit) {
      var k :| 0 <= k < |w.cell.settled| && w.cell.settled[k].requestId == edit.carrier
               && w.cell.settled[k].kind == edit.kind && w.cell.settled[k].content == edit.content;
      assert v.cell.settled[k] == w.cell.settled[k];
    }
    if |w.cell.chain| == 2 {
      assert v.cell.chain[0] == w.cell.chain[1];
    }
  }

  lemma SettleKeeps(w: World, target: Id, requestId: RequestId, answer: Outcome, attempts: nat, observed: SharedBase,
                    revision: nat)
    requires Consistent(w, target) && Enabled(w, Local(SettleVerb(requestId, answer, attempts, observed), revision))
    ensures Consistent(Next(w, target, Local(SettleVerb(requestId, answer, attempts, observed), revision)), target)
  {
    SettleKeepsShape(w.cell, target, requestId, answer, attempts, observed);
    if Settle(w.cell, requestId, answer, attempts, observed).Settled? {
      FirstSettles(w.cell, target, requestId, answer, attempts, observed);
    }
    PlainNext(w, target, SettleVerb(requestId, answer, attempts, observed), revision);
    OnlyDenialsAreLate(w, requestId, answer, attempts, observed);
    hide Shape, AuthorityShape, Identities, Deliveries, Premises, LedgerShape, Settle, Answered, Next, LateAfter;
    var v := Next(w, target, Local(SettleVerb(requestId, answer, attempts, observed), revision));
    match Settle(w.cell, requestId, answer, attempts, observed)
    case Settled(after, row) =>
      if row.state == Acknowledged {
        SettledCommitted(w, v, target, answer, attempts, observed);
      } else {
        SettledOtherwise(w, v, target, answer, attempts, observed);
      }
    case _ =>
      IdleKeeps(w, v, target);
  }

  lemma OnlyDenialsAreLate(w: World, requestId: RequestId, answer: Outcome, attempts: nat, observed: SharedBase)
    ensures w.late <= LateAfter(w, SettleVerb(requestId, answer, attempts, observed))
    ensures
      match Settle(w.cell, requestId, answer, attempts, observed)
      case Settled(_, row) =>
        row.state == Acknowledged ==> LateAfter(w, SettleVerb(requestId, answer, attempts, observed)) == w.late
      case _ => LateAfter(w, SettleVerb(requestId, answer, attempts, observed)) == w.late
  {
  }

  lemma FirstSettles(c: Cell, target: Id, requestId: RequestId, answer: Outcome, attempts: nat, observed: SharedBase)
    requires Shape(c, target) && Settle(c, requestId, answer, attempts, observed).Settled?
    ensures c.chain != [] && c.chain[0].requestId == requestId
  {
    assert IndexOf(c.chain, requestId) == 0;
  }

  /** An answer other than a commit leaves the first row where it is, in the state it says. */
  lemma SettledRow(w: World, v: World, target: Id, answer: Outcome, attempts: nat, observed: SharedBase)
    requires ChainShape(w.cell, target) && AuthorityShape(w) && Deliveries(w) && Premises(w)
    requires w.cell.chain != [] && attempts >= 1
    requires Answered(w, w.cell.chain[0].requestId, answer)
    requires Settle(w.cell, w.cell.chain[0].requestId, answer, attempts, observed).Settled?
    requires Settle(w.cell, w.cell.chain[0].requestId, answer, attempts, observed).row.state != Acknowledged
    requires
      v == w.(cell := v.cell, late := LateAfter(w, SettleVerb(w.cell.chain[0].requestId, answer, attempts, observed)))
    ensures
      var settled := Settle(w.cell, w.cell.chain[0].requestId, answer, attempts, observed);
      && settled.cell == w.cell.(chain := w.cell.chain[0 := settled.row])
      && RowDelivery(v, settled.row) && KnownPremise(w, settled.row)
      && settled.row.requestId == w.cell.chain[0].requestId && settled.row.kind == w.cell.chain[0].kind
      && settled.row.content == w.cell.chain[0].content
  {
    assert IndexOf(w.cell.chain, w.cell.chain[0].requestId) == 0;
    assert RowDelivery(w, w.cell.chain[0]) && KnownPremise(w, w.cell.chain[0]);
  }

  lemma SettledOtherwise(w: World, v: World, target: Id, answer: Outcome, attempts: nat, observed: SharedBase)
    requires Consistent(w, target) && Shape(v.cell, target) && w.cell.chain != [] && attempts >= 1
    requires Answered(w, w.cell.chain[0].requestId, answer)
    requires Settle(w.cell, w.cell.chain[0].requestId, answer, attempts, observed).Settled?
    requires Settle(w.cell, w.cell.chain[0].requestId, answer, attempts, observed).row.state != Acknowledged
    requires
      v ==
        w.(cell := Settle(w.cell, w.cell.chain[0].requestId, answer, attempts, observed).cell,
           late := LateAfter(w, SettleVerb(w.cell.chain[0].requestId, answer, attempts, observed)))
    ensures Consistent(v, target)
  {
    assert ChainShape(w.cell, target);
    hide Shape, ChainShape, AuthorityShape, Identities, Deliveries, Premises, LedgerShape, Answered;
    OnlyDenialsAreLate(w, w.cell.chain[0].requestId, answer, attempts, observed);
    hide RowDelivery, KnownPremise, Settle, LateAfter;
    SettledRow(w, v, target, answer, attempts, observed);
    UpdatedRowKeeps(w, v, target, Settle(w.cell, w.cell.chain[0].requestId, answer, attempts, observed).row);
  }

  lemma SettledCommitted(w: World, v: World, target: Id, answer: Outcome, attempts: nat, observed: SharedBase)
    requires Consistent(w, target) && Shape(v.cell, target) && w.cell.chain != []
    requires Answered(w, w.cell.chain[0].requestId, answer)
    requires Settle(w.cell, w.cell.chain[0].requestId, answer, attempts, observed).Settled?
    requires Settle(w.cell, w.cell.chain[0].requestId, answer, attempts, observed).row.state == Acknowledged
    requires w.cell.chain[0].requestId in w.recorded ==> v.baseRevision == w.recorded[w.cell.chain[0].requestId].at
    requires
      v ==
        w.(cell := Settle(w.cell, w.cell.chain[0].requestId, answer, attempts, observed).cell,
           baseRevision := v.baseRevision)
    ensures Consistent(v, target)
  {
    assert w.cell.chain[0].local == VersionOf(w.cell.chain[0].content) && w.cell.chain[0].state != Acknowledged;
    hide Shape, AuthorityShape, Identities, Deliveries, Premises, LedgerShape, Answered;
    AcknowledgedIs(w.cell, answer, attempts, observed);
    hide Settle;
    AcknowledgedServed(w, target, answer);
    var row := Settle(w.cell, w.cell.chain[0].requestId, answer, attempts, observed).row;
    AcknowledgeKeeps(w, v, target, row, SettleAgainstIntent(answer, w.cell.chain[0]).version);
  }

  /** What a committed answer makes of the first row and of the base. */
  lemma AcknowledgedIs(c: Cell, answer: Outcome, attempts: nat, observed: SharedBase)
    requires c.chain != [] && c.chain[0].state != Acknowledged
    requires Settle(c, c.chain[0].requestId, answer, attempts, observed).Settled?
    requires Settle(c, c.chain[0].requestId, answer, attempts, observed).row.state == Acknowledged
    ensures SettleAgainstIntent(answer, c.chain[0]).Committed?
    ensures
      var after := Settle(c, c.chain[0].requestId, answer, attempts, observed).cell;
      var row := Settle(c, c.chain[0].requestId, answer, attempts, observed).row;
      var version := SettleAgainstIntent(answer, c.chain[0]).version;
      && after == c.(base := after.base, settled := c.settled + [row], chain := c.chain[1..])
      && row == c.chain[0].(state := Acknowledged, attempts := attempts, acknowledgedVersion := Some(version))
      && BaseVersion(after.base) == if row.kind == Write then Some(version) else None
  {
    assert IndexOf(c.chain, c.chain[0].requestId) == 0;
    assert c.chain[..0] + c.chain[1..] == c.chain[1..];
  }

  // ---- retiring a chain ----

  /** The unsettled rows leave together, for at most one fresh row on a premise the authority served. */
  lemma RetiredRowsKeep(w: World, v: World, target: Id)
    requires Consistent(w, target) && SameAuthority(w, v)
    requires v.cell.settled == w.cell.settled && |v.cell.chain| <= 1
    requires w.minted <= v.minted && ServedOrNone(w, BaseVersion(v.cell.base))
    requires v.cell.chain != [] ==>
      && NeverSent(v.cell.chain[0])
      && v.cell.chain[0].requestId in v.minted
      && v.cell.chain[0].requestId !in w.minted
      && ServedOrNone(w, v.cell.chain[0].base)
    ensures Deliveries(v) && Premises(v) && Identities(v) && (v.baseRevision < |v.history| ==> AuthorityShape(v))
  {
    hide Shape, AuthorityShape, Deliveries, LedgerShape;
    SameAnswers(w, v);
    hide Served;
    assert forall k :: 0 <= k < |w.cell.settled| ==> Named(w.cell.settled, w.cell.settled[k].requestId);
    if v.baseRevision < |v.history| {
      AuthorityStays(w, v);
    }
    RetiredDeliveries(w, v);
  }

  lemma RetiredDeliveries(w: World, v: World)
    requires AuthorityShape(w) && SameAuthority(w, v) && |v.cell.chain| <= 1
    requires v.cell.chain != [] ==> NeverSent(v.cell.chain[0]) && v.cell.chain[0].requestId !in w.minted
    ensures Deliveries(v)
  {
    hide AuthorityShape, SameAuthority, RowDelivery;
    if v.cell.chain != [] {
      FreshRow(w, v, v.cell.chain[0]);
    }
  }

  lemma FoldedEdit(w: World, v: World, target: Id, successor: RequestId, requestId: RequestId, i: nat)
    requires Identities(w) && Foldable(w.cell, successor) && requestId !in w.minted && i < |w.ledger|
    requires Kept(w, i) && w.ledger[i].carrier in w.minted && NotApplied(w, w.cell.chain[0].requestId)
    requires w.ledger[i].carrier == w.cell.chain[0].requestId ==> i < |w.ledger| - 1
    requires v.minted == w.minted + {requestId} && SameAuthority(w, v)
    requires v.cell.settled == w.cell.settled && v.cell.receipts == w.cell.receipts
    requires v.cell.chain == [] ==> w.cell.chain[1].kind == Delete
    requires v.cell.chain != [] ==>
      && |v.cell.chain| == 1
      && v.cell.chain[0].requestId == requestId
      && v.cell.chain[0].kind == w.cell.chain[1].kind
      && v.cell.chain[0].content == w.cell.chain[1].content
    requires
      var replaced := Replace(w.ledger, w.cell.chain[0].requestId, |w.ledger| - 1);
      v.ledger == Carry(replaced, successor, if v.cell.chain == [] then None else Some(requestId))
    ensures v.ledger[i].carrier in v.minted && Kept(v, i)
  {
    SameAnswers(w, v);
    hide NotApplied, SameAuthority;
    var edit, head, second := w.ledger[i], w.cell.chain[0], w.cell.chain[1];
    assert Named(w.cell.chain, head.requestId) && Named(w.cell.chain, second.requestId);
    assert forall id :: Named(w.cell.chain, id) <==> id == head.requestId || id == second.requestId;
  }

  lemma FoldKeeps(w: World, target: Id, successor: RequestId, requestId: RequestId, now: nat, revision: nat)
    requires Consistent(w, target) && Enabled(w, Local(FoldVerb(successor, requestId, now), revision))
    ensures Consistent(Next(w, target, Local(FoldVerb(successor, requestId, now), revision)), target)
  {
    FoldKeepsShape(w.cell, target, successor, requestId, now);
    hide Shape, AuthorityShape, Identities, Deliveries, Premises, LedgerShape;
    var v := Next(w, target, Local(FoldVerb(successor, requestId, now), revision));
    if Foldable(w.cell, successor) {
      FoldedIs(w, v, target, successor, requestId, now, revision);
      hide Foldable, Next;
      FoldedKeeps(w, v, target, successor, requestId);
    } else {
      IdleKeeps(w, v, target);
    }
  }

  /** What a fold makes of the chain and of the ledger. */
  predicate Folded(w: World, v: World, successor: RequestId, requestId: RequestId) {
    && Foldable(w.cell, successor) && w.ledger != []
    && v == w.(cell := w.cell.(chain := v.cell.chain), minted := w.minted + {requestId}, ledger := v.ledger)
    && (v.cell.chain == [] ==> w.cell.chain[1].kind == Delete)
    && (v.cell.chain != [] ==>
          && |v.cell.chain| == 1 && NeverSent(v.cell.chain[0]) && v.cell.chain[0].requestId == requestId
          && v.cell.chain[0].kind == w.cell.chain[1].kind && v.cell.chain[0].content == w.cell.chain[1].content
          && v.cell.chain[0].base == w.cell.chain[0].base)
    && var replaced := Replace(w.ledger, w.cell.chain[0].requestId, |w.ledger| - 1);
       v.ledger == Carry(replaced, successor, if v.cell.chain == [] then None else Some(requestId))
  }

  lemma FoldedIs(w: World, v: World, target: Id, successor: RequestId, requestId: RequestId, now: nat, revision: nat)
    requires LedgerShape(w) && Foldable(w.cell, successor)
    requires v == Next(w, target, Local(FoldVerb(successor, requestId, now), revision))
    ensures Folded(w, v, successor, requestId)
  {
    assert w.ledger != [];
    hide LedgerShape;
  }

  lemma FoldedKeeps(w: World, v: World, target: Id, successor: RequestId, requestId: RequestId)
    requires Consistent(w, target) && Shape(v.cell, target) && requestId !in w.minted
    requires Folded(w, v, successor, requestId)
    ensures Consistent(v, target)
  {
    FoldedHead(w, target, successor);
    hide Shape, AuthorityShape, Identities, Deliveries, Premises, LedgerShape, Foldable, NotApplied;
    BaseInHistory(w);
    RetiredRowsKeep(w, v, target);
    FoldedLedger(w, v, target, successor, requestId);
  }

  /** A refused head was not applied, and stands on a premise the authority served. */
  lemma FoldedHead(w: World, target: Id, successor: RequestId)
    requires Consistent(w, target) && Foldable(w.cell, successor)
    ensures NotApplied(w, w.cell.chain[0].requestId) && ServedOrNone(w, w.cell.chain[0].base)
    ensures ServedOrNone(w, BaseVersion(w.cell.base))
    ensures w.ledger != [] && Last(w.ledger).carrier == w.cell.chain[1].requestId
    ensures w.cell.chain[0].requestId != w.cell.chain[1].requestId
  {
    assert RowDelivery(w, w.cell.chain[0]) && KnownPremise(w, w.cell.chain[0]);
    hide AuthorityShape, Identities, Deliveries, Kept;
    assert w.cell.chain[0].attempts >= 1;
    assert Identities(w) ==> w.cell.chain[0].requestId != w.cell.chain[1].requestId by { SecondIsOther(w, target); }
  }

  lemma FoldedLedger(w: World, v: World, target: Id, successor: RequestId, requestId: RequestId)
    requires LedgerShape(w) && Identities(w) && requestId !in w.minted && Folded(w, v, successor, requestId)
    requires NotApplied(w, w.cell.chain[0].requestId) && Last(w.ledger).carrier == w.cell.chain[1].requestId
    requires w.cell.chain[0].requestId != w.cell.chain[1].requestId
    ensures LedgerShape(v)
  {
    hide Identities, Kept, NotApplied, Foldable;
    assert |v.ledger| == |w.ledger|;
    forall i | 0 <= i < |v.ledger| ensures v.ledger[i].carrier in v.minted && Kept(v, i) {
      FoldedEdit(w, v, target, successor, requestId, i);
    }
  }

  lemma ResolvedEdit(w: World, v: World, target: Id, i: nat, receipt: Receipt)
    requires i < |w.ledger| && Kept(w, i) && w.ledger[i].carrier in w.minted
    requires SameAuthority(w, v) && w.minted <= v.minted
    requires v.cell.settled == w.cell.settled && v.cell.receipts == w.cell.receipts + [receipt]
    requires receipt.retired == w.cell.chain
    requires forall k :: 0 <= k < |v.cell.chain| ==> v.cell.chain[k].requestId !in w.minted
    requires |v.ledger| >= |w.ledger| && v.ledger[i] == w.ledger[i]
    ensures v.ledger[i].carrier in v.minted && Kept(v, i)
  {
    SameAnswers(w, v);
    hide NotApplied, SameAuthority;
    var edit := w.ledger[i];
    assert v.cell.receipts[|w.cell.receipts|].retired == w.cell.chain;
    if Retained(w.cell.receipts, edit) {
      var k :| 0 <= k < |w.cell.receipts| && Carries(w.cell.receipts[k].retired, edit);
      assert v.cell.receipts[k] == w.cell.receipts[k];
    }
  }

  /** What a resolution makes of the cell and of the ledger. */
  predicate Resolved(w: World, v: World, served: SharedBase, requestId: RequestId) {
    && v == w.(cell := v.cell, minted := w.minted + {requestId}, baseRevision := v.baseRevision, ledger := v.ledger)
    && v.cell.settled == w.cell.settled && |v.cell.chain| <= 1 && BaseVersion(v.cell.base) == served.version
    && (v.cell.chain != [] ==>
          && NeverSent(v.cell.chain[0]) && v.cell.chain[0].requestId == requestId
          && v.cell.chain[0].base == served.version)
    && v.cell.receipts != [] && v.cell.receipts == w.cell.receipts + [Last(v.cell.receipts)]
    && Last(v.cell.receipts).retired == w.cell.chain
    && v.ledger == if v.cell.chain == [] then w.ledger
                   else w.ledger + [Edit(v.cell.chain[0].kind, v.cell.chain[0].content, requestId, None, false)]
  }

  lemma ResolvedIs(w: World, v: World, target: Id, choice: Choice, served: SharedBase, authored: Authored,
                   revision: nat)
    requires ResolveConflict(w.cell, target, choice, served, authored).Some?
    requires v == Next(w, target, Local(ResolveVerb(choice, served, authored), revision))
    ensures Resolved(w, v, served, authored.requestId) && v.baseRevision == revision
  {
    hide Resolvable;
  }

  lemma ResolvedKeeps(w: World, v: World, target: Id, served: SharedBase, requestId: RequestId)
    requires Consistent(w, target) && Shape(v.cell, target) && requestId !in w.minted
    requires Resolved(w, v, served, requestId) && ServedOrNone(w, served.version) && v.baseRevision < |w.history|
    ensures Consistent(v, target)
  {
    hide Shape, AuthorityShape, Identities, Deliveries, Premises, LedgerShape, Served;
    RetiredRowsKeep(w, v, target);
    ResolvedLedger(w, v, target, served, requestId);
  }

  lemma ResolvedLedger(w: World, v: World, target: Id, served: SharedBase, requestId: RequestId)
    requires LedgerShape(w) && requestId !in w.minted && Resolved(w, v, served, requestId)
    ensures LedgerShape(v)
  {
    hide Kept;
    forall i | 0 <= i < |v.ledger| ensures v.ledger[i].carrier in v.minted && Kept(v, i) {
      if i < |w.ledger| {
        ResolvedEdit(w, v, target, i, Last(v.cell.receipts));
      } else {
        LastCarried(v);
      }
    }
  }

  lemma ResolveKeeps(w: World, target: Id, choice: Choice, served: SharedBase, authored: Authored, revision: nat)
    requires Consistent(w, target) && Enabled(w, Local(ResolveVerb(choice, served, authored), revision))
    ensures Consistent(Next(w, target, Local(ResolveVerb(choice, served, authored), revision)), target)
  {
    ResolveKeepsShape(w.cell, target, choice, served, authored);
    hide Shape, AuthorityShape, Identities, Deliveries, Premises, LedgerShape, ResolveConflict;
    var v := Next(w, target, Local(ResolveVerb(choice, served, authored), revision));
    match ResolveConflict(w.cell, target, choice, served, authored)
    case Some(after) =>
      assert served.version.Some? ==> Served(w, served.version.value);
      ResolvedIs(w, v, target, choice, served, authored, revision);
      hide Next, Resolved;
      ResolvedKeeps(w, v, target, served, authored.requestId);
    case None =>
      IdleKeeps(w, v, target);
  }

  // ---- the authority's side arriving ----

  lemma BaseMovedKeeps(w: World, v: World, target: Id)
    requires Consistent(w, target) && Shape(v.cell, target)
    requires v == w.(cell := w.cell.(doc := v.cell.doc, base := v.cell.base), baseRevision := v.baseRevision)
    requires v.baseRevision < |w.history| && ServedOrNone(w, BaseVersion(v.cell.base))
    ensures Consistent(v, target)
  {
    hide Shape, AuthorityShape, Identities, Deliveries, Premises, LedgerShape;
    AuthorityStays(w, v);
    BaseMovedRows(w, v);
    BaseMovedLedger(w, v);
  }

  lemma BaseMovedRows(w: World, v: World)
    requires Identities(w) && Deliveries(w) && Premises(w)
    requires v == w.(cell := w.cell.(doc := v.cell.doc, base := v.cell.base), baseRevision := v.baseRevision)
    requires ServedOrNone(w, BaseVersion(v.cell.base))
    ensures Identities(v) && Deliveries(v) && Premises(v)
  {
    SameAnswers(w, v);
    hide Served, RowDelivery;
    forall k | 0 <= k < |v.cell.chain| ensures RowDelivery(v, v.cell.chain[k]) {
      RowStays(w, v, w.cell.chain[k]);
    }
  }

  lemma BaseMovedLedger(w: World, v: World)
    requires LedgerShape(w)
    requires v == w.(cell := w.cell.(doc := v.cell.doc, base := v.cell.base), baseRevision := v.baseRevision)
    ensures LedgerShape(v)
  {
    forall i | 0 <= i < |v.ledger| ensures Kept(v, i) {
      assert Kept(w, i);
    }
  }

  lemma RefreshKeeps(w: World, target: Id, version: Version, content: string, revision: nat)
    requires Consistent(w, target) && Enabled(w, Local(RefreshVerb(version, content), revision))
    ensures Consistent(Next(w, target, Local(RefreshVerb(version, content), revision)), target)
  {
    StepKeepsShape(w.cell, target, RefreshVerb(version, content));
    BaseInHistory(w);
    BaseServed(w);
    PlainNext(w, target, RefreshVerb(version, content), revision);
    assert Served(w, version);
    hide Shape, AuthorityShape, Identities, Deliveries, Premises, LedgerShape, Next, Served;
    var v := Next(w, target, Local(RefreshVerb(version, content), revision));
    BaseMovedKeeps(w, v, target);
  }

  lemma BaseServed(w: World)
    requires Premises(w)
    ensures ServedOrNone(w, BaseVersion(w.cell.base))
  {
  }

  lemma UnlistedKeeps(w: World, target: Id, revision: nat)
    requires Consistent(w, target) && Enabled(w, Local(UnlistedVerb, revision))
    ensures Consistent(Next(w, target, Local(UnlistedVerb, revision)), target)
  {
    StepKeepsShape(w.cell, target, UnlistedVerb);
    PlainNext(w, target, UnlistedVerb, revision);
    hide Shape, AuthorityShape, Identities, Deliveries, Premises, LedgerShape, Next;
    BaseMovedKeeps(w, Next(w, target, Local(UnlistedVerb, revision)), target);
  }

  lemma EventKeeps(w: World, target: Id, event: Event)
    requires Consistent(w, target) && Enabled(w, event)
    ensures Consistent(Next(w, target, event), target)
  {
    hide Consistent, Enabled, Next;
    match event
    case Submit(requestId) => SubmitKeeps(w, target, requestId);
    case Commits(requestId, stored) => CommitsKeeps(w, target, requestId, stored);
    case Conflicts(requestId) => ConflictsKeeps(w, target, requestId);
    case Refuses(requestId, code) => RefusesKeeps(w, target, requestId, code);
    case Denies(requestId) => DeniesKeeps(w, target, requestId);
    case OtherWriter(head) =>
      EnabledWriter(w, head);
      OtherWriterKeeps(w, target, head);
    case Local(verb, revision) => VerbKeeps(w, target, verb, revision);
  }

  lemma EnabledWriter(w: World, head: SharedBase)
    requires Enabled(w, OtherWriter(head))
    ensures ServedHead(head)
  {
  }

  lemma VerbKeeps(w: World, target: Id, verb: Verb, revision: nat)
    requires Consistent(w, target) && Enabled(w, Local(verb, revision))
    ensures Consistent(Next(w, target, Local(verb, revision)), target)
  {
    hide Consistent, Enabled, Next;
    match verb
    case CommitVerb(requestId, now, content, posture) =>
      CommitKeeps(w, target, requestId, now, content, posture, revision);
    case DeleteVerb(requestId, now) => DeleteKeeps(w, target, requestId, now, revision);
    case ClaimVerb(requestId) => ClaimKeeps(w, target, requestId, revision);
    case SettleVerb(requestId, answer, attempts, observed) =>
      SettleKeeps(w, target, requestId, answer, attempts, observed, revision);
    case ResumeVerb(requestId) => ResumeKeeps(w, target, requestId, revision);
    case ReclaimVerb(requestId) => ReclaimKeeps(w, target, requestId, revision);
    case FoldVerb(successor, requestId, now) => FoldKeeps(w, target, successor, requestId, now, revision);
    case ResolveVerb(choice, served, authored) => ResolveKeeps(w, target, choice, served, authored, revision);
    case RefreshVerb(version, content) => RefreshKeeps(w, target, version, content, revision);
    case UnlistedVerb => UnlistedKeeps(w, target, revision);
  }
}
