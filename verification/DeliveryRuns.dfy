/** What every run of local edits, deliveries, lost answers and other writers guarantees. */
module DeliveryRuns {
  import opened Records
  import opened Journal
  import opened JournalShape
  import opened Delivery
  import opened DeliveryInvariant

  predicate EnabledRun(w: World, target: Id, events: seq<Event>)
    decreases |events|
  {
    events == [] || (Enabled(w, events[0]) && EnabledRun(Next(w, target, events[0]), target, events[1..]))
  }

  function RunEvents(w: World, target: Id, events: seq<Event>): World
    decreases |events|
  {
    if events == [] then w else RunEvents(Next(w, target, events[0]), target, events[1..])
  }

  lemma {:induction false} RunKeeps(w: World, target: Id, events: seq<Event>)
    requires Consistent(w, target) && EnabledRun(w, target, events)
    ensures Consistent(RunEvents(w, target, events), target)
    decreases |events|
  {
    if events != [] {
      EventKeeps(w, target, events[0]);
      RunKeeps(Next(w, target, events[0]), target, events[1..]);
    }
  }

  lemma EveryRunIsConsistent(head: SharedBase, target: Id, events: seq<Event>)
    requires ServedHead(head) && EnabledRun(Initial(head), target, events)
    ensures Consistent(RunEvents(Initial(head), target, events), target)
  {
    RunKeeps(Initial(head), target, events);
  }

  /** An intent in flight, and every request ever sent, stands on nothing or on a version the authority served. */
  lemma InFlightBaseWasServed(head: SharedBase, target: Id, events: seq<Event>)
    requires ServedHead(head) && EnabledRun(Initial(head), target, events)
    ensures
      var w := RunEvents(Initial(head), target, events);
      && (forall k :: 0 <= k < |w.cell.chain| && w.cell.chain[k].state == InFlight ==>
           ServedOrNone(w, w.cell.chain[k].base))
      && (forall id :: id in w.submitted ==> ServedOrNone(w, w.submitted[id].base))
  {
    EveryRunIsConsistent(head, target, events);
    hide RunEvents, EnabledRun;
    ServedInFlight(RunEvents(Initial(head), target, events), target);
  }

  lemma ServedInFlight(w: World, target: Id)
    requires Consistent(w, target)
    ensures forall k :: 0 <= k < |w.cell.chain| && w.cell.chain[k].state == InFlight ==>
      ServedOrNone(w, w.cell.chain[k].base)
    ensures forall id :: id in w.submitted ==> ServedOrNone(w, w.submitted[id].base)
  {
    hide AuthorityShape, Identities, Deliveries, LedgerShape;
    if w.cell.chain != [] {
      assert KnownPremise(w, w.cell.chain[0]);
    }
  }

  /**
   * Every local edit's bytes are journaled, acknowledged or in a resolution receipt, or a later edit took its
   * place: while the authority had not applied it and held no delivery of it, or after a denial that settled it
   * when it had been claimed more than once. A deletion may have had nothing to send.
   */
  lemma NoLocalEditIsLost(head: SharedBase, target: Id, events: seq<Event>, i: nat)
    requires ServedHead(head) && EnabledRun(Initial(head), target, events)
    requires i < |RunEvents(Initial(head), target, events).ledger|
    ensures
      var w := RunEvents(Initial(head), target, events);
      var edit := w.ledger[i];
      || Carries(w.cell.chain, edit) || Carries(w.cell.settled, edit) || Retained(w.cell.receipts, edit)
      || (&& edit.replacedBy.Some? && i < edit.replacedBy.value < |w.ledger| && Withdrawn(w, edit.carrier)
          && (NotApplied(w, edit.carrier) || edit.carrier in w.late))
      || (edit.nothing && edit.kind == Delete)
  {
    EveryRunIsConsistent(head, target, events);
    assert Kept(RunEvents(Initial(head), target, events), i);
  }

  // ---- what a run never takes back ----

  lemma AppendedNames(rows: seq<Intent>, row: Intent, id: RequestId)
    ensures Named(rows + [row], id) <==> Named(rows, id) || row.requestId == id
  {
    var next := rows + [row];
    if Named(rows, id) {
      var k :| 0 <= k < |rows| && rows[k].requestId == id;
      assert next[k].requestId == id;
    }
    if row.requestId == id {
      assert next[|rows|].requestId == id;
    }
  }

  lemma KeptNames(c: Cell, id: RequestId)
    ensures Named(KeptRows(c), id) ==> Named(c.chain, id)
  {
    if Named(KeptRows(c), id) {
      var k :| 0 <= k < |KeptRows(c)| && KeptRows(c)[k].requestId == id;
      assert c.chain[k].requestId == id;
    }
  }

  /** A verb journals no identity but those already unsettled and the one it mints. */
  lemma VerbNames(c: Cell, target: Id, verb: Verb, id: RequestId)
    requires Shape(c, target)
    ensures Named(Apply(c, target, verb).chain, id) ==> Named(c.chain, id) || id in MintedBy(verb)
    ensures Named(Apply(c, target, verb).settled, id) ==> Named(c.settled, id) || Named(c.chain, id)
  {
    hide Named, Shape;
    match verb
    case CommitVerb(requestId, now, content, posture) =>
      KeptNames(c, id);
      hide KeptRows, ComposeIntent;
      AppendedNames(KeptRows(c), Last(CommitLocal(c, target, requestId, now, content, posture).chain), id);
    case DeleteVerb(requestId, now) => DeleteNames(c, target, requestId, now, id);
    case SettleVerb(requestId, answer, attempts, observed) =>
      SettleNames(c, target, requestId, answer, attempts, observed, id);
    case FoldVerb(_, _, _) => FreshNames(c, target, verb, id);
    case ResolveVerb(_, _, _) => FreshNames(c, target, verb, id);
    case RefreshVerb(_, _) =>
    case UnlistedVerb =>
    case _ => RowNames(c, target, verb, id);
  }

  lemma FreshNames(c: Cell, target: Id, verb: Verb, id: RequestId)
    requires verb.FoldVerb? || verb.ResolveVerb?
    ensures Named(Apply(c, target, verb).chain, id) ==> Named(c.chain, id) || id in MintedBy(verb)
    ensures Apply(c, target, verb).settled == c.settled
  {
    hide Foldable, Resolvable;
  }

  lemma DeleteNames(c: Cell, target: Id, requestId: RequestId, now: nat, id: RequestId)
    ensures Named(Apply(c, target, DeleteVerb(requestId, now)).chain, id) ==> Named(c.chain, id) || id == requestId
    ensures Apply(c, target, DeleteVerb(requestId, now)).settled == c.settled
  {
    KeptNames(c, id);
    if DeleteLocal(c, target, requestId, now).Deleted? && DeleteLocal(c, target, requestId, now).intent.Some? {
      AppendedNames(KeptRows(c), Last(DeleteLocal(c, target, requestId, now).cell.chain), id);
    }
  }

  lemma RowNames(c: Cell, target: Id, verb: Verb, id: RequestId)
    requires verb.ClaimVerb? || verb.ResumeVerb? || verb.ReclaimVerb?
    ensures Named(Apply(c, target, verb).chain, id) ==> Named(c.chain, id)
    ensures Apply(c, target, verb).settled == c.settled
  {
    var after := Apply(c, target, verb);
    assert |after.chain| == |c.chain| && forall k :: 0 <= k < |c.chain| ==>
      after.chain[k].requestId == c.chain[k].requestId;
  }

  lemma SettleNames(c: Cell, target: Id, requestId: RequestId, answer: Outcome, attempts: nat, observed: SharedBase,
                    id: RequestId)
    requires Shape(c, target)
    ensures Named(Apply(c, target, SettleVerb(requestId, answer, attempts, observed)).chain, id) ==> Named(c.chain, id)
    ensures Named(Apply(c, target, SettleVerb(requestId, answer, attempts, observed)).settled, id) ==>
      Named(c.settled, id) || Named(c.chain, id)
  {
    if Settle(c, requestId, answer, attempts, observed).Settled? {
      FirstSettles(c, target, requestId, answer, attempts, observed);
      SettledIs(c, requestId, answer, attempts, observed);
      hide Shape, Settle;
      var settled := Settle(c, requestId, answer, attempts, observed);
      AppendedNames(c.settled, settled.row, id);
      if Named(settled.cell.chain, id) {
        var k :| 0 <= k < |settled.cell.chain| && settled.cell.chain[k].requestId == id;
        assert c.chain[if settled.row.state == Acknowledged then k + 1 else k].requestId == id;
      }
    }
  }

  /** A settlement moves the first row on where it stands, or to the acknowledged ones. */
  lemma SettledIs(c: Cell, requestId: RequestId, answer: Outcome, attempts: nat, observed: SharedBase)
    requires Settle(c, requestId, answer, attempts, observed).Settled? && c.chain != []
    requires c.chain[0].requestId == requestId
    ensures
      var settled := Settle(c, requestId, answer, attempts, observed);
      && settled.row.requestId == requestId
      && if settled.row.state == Acknowledged
         then settled.cell.chain == c.chain[1..] && settled.cell.settled == c.settled + [settled.row]
         else settled.cell.chain == c.chain[0 := settled.row] && settled.cell.settled == c.settled
  {
    assert IndexOf(c.chain, requestId) == 0;
    assert c.chain[..0] + c.chain[1..] == c.chain[1..];
  }

  /** What is withdrawn is never sent again; what the authority holds nothing of it never applies. */
  lemma WithdrawnStays(w: World, target: Id, event: Event, id: RequestId)
    requires Consistent(w, target) && Enabled(w, event) && Withdrawn(w, id)
    ensures Withdrawn(Next(w, target, event), id)
    ensures id !in w.submitted ==> id !in Next(w, target, event).submitted
    ensures NotApplied(w, id) ==> NotApplied(Next(w, target, event), id)
  {
    hide AuthorityShape, Identities, Deliveries, Premises, LedgerShape;
    match event
    case Local(verb, revision) =>
      VerbNames(w.cell, target, verb, id);
      hide Shape, Apply, LedgerAfter, BaseRevisionAfter, CallsAfter, LateAfter;
      assert id !in MintedBy(verb);
    case Submit(requestId) =>
      NamedIndex(w.cell.chain, requestId);
    case _ =>
  }

  /** An edit's own bytes never change in the ledger, and an edit once replaced stays replaced. */
  lemma LedgerStays(w: World, target: Id, event: Event, i: nat)
    requires i < |w.ledger|
    ensures
      var v := Next(w, target, event);
      && i < |v.ledger| && v.ledger[i].kind == w.ledger[i].kind && v.ledger[i].content == w.ledger[i].content
      && (w.ledger[i].replacedBy.Some? ==> v.ledger[i].replacedBy == w.ledger[i].replacedBy)
  {
    hide Apply, BaseRevisionAfter, CallsAfter, LateAfter, LedgerAfter;
    if event.Local? {
      VerbLedger(w, target, event.verb, i);
    }
  }

  lemma VerbLedger(w: World, target: Id, verb: Verb, i: nat)
    requires i < |w.ledger|
    ensures
      var ledger := LedgerAfter(w, target, verb);
      && i < |ledger| && ledger[i].kind == w.ledger[i].kind && ledger[i].content == w.ledger[i].content
      && (w.ledger[i].replacedBy.Some? ==> ledger[i].replacedBy == w.ledger[i].replacedBy)
  {
    hide DeleteLocal, FoldedIntent, ResolveConflict;
    assert ReplaceLatest(w.cell, w.ledger)[i].kind == w.ledger[i].kind;
  }

  lemma SubmittedStays(w: World, target: Id, event: Event, id: RequestId)
    requires Consistent(w, target) && Enabled(w, event) && id in w.submitted
    ensures id in Next(w, target, event).submitted && Next(w, target, event).submitted[id] == w.submitted[id]
  {
    hide Consistent, Apply, LedgerAfter, BaseRevisionAfter, CallsAfter, LateAfter, Payload;
    if event.Submit? && event.requestId == id {
      SubmittedAgain(w, target, event.requestId);
    }
  }

  /** An identity travels with one payload for ever, however often its row is claimed, reclaimed or resumed. */
  lemma {:induction false} RequestsNeverChange(w: World, target: Id, events: seq<Event>, id: RequestId)
    requires Consistent(w, target) && EnabledRun(w, target, events) && id in w.submitted
    ensures id in RunEvents(w, target, events).submitted
    ensures RunEvents(w, target, events).submitted[id] == w.submitted[id]
    decreases |events|
  {
    if events != [] {
      EventKeeps(w, target, events[0]);
      SubmittedStays(w, target, events[0], id);
      RequestsNeverChange(Next(w, target, events[0]), target, events[1..], id);
    }
  }

  /**
   * No continuation makes the authority apply a withdrawn row that it did not apply and holds no delivery of;
   * one removed before it was ever submitted is never submitted.
   */
  lemma {:induction false} WithdrawnForGood(w: World, target: Id, events: seq<Event>, id: RequestId)
    requires Consistent(w, target) && EnabledRun(w, target, events) && Withdrawn(w, id) && NotApplied(w, id)
    ensures
      var v := RunEvents(w, target, events);
      Withdrawn(v, id) && NotApplied(v, id) && !Applied(v, id) && (id !in w.submitted ==> id !in v.submitted)
    decreases |events|
  {
    if events != [] {
      EventKeeps(w, target, events[0]);
      WithdrawnStays(w, target, events[0], id);
      WithdrawnForGood(Next(w, target, events[0]), target, events[1..], id);
    }
  }

  /** A run after which the authority has applied this identity. */
  predicate Lands(w: World, target: Id, events: seq<Event>, id: RequestId) {
    EnabledRun(w, target, events) && Applied(RunEvents(w, target, events), id)
  }

  /** Exactly a withdrawn row the authority applied, or still holds a delivery of, can be applied in some run. */
  lemma WithdrawnMayLand(w: World, target: Id, id: RequestId)
    requires Consistent(w, target) && Withdrawn(w, id)
    ensures (exists events :: Lands(w, target, events, id)) <==> !NotApplied(w, id)
  {
    if NotApplied(w, id) {
      forall events | EnabledRun(w, target, events) ensures !Lands(w, target, events, id) {
        WithdrawnForGood(w, target, events, id);
      }
    } else if id in w.recorded {
      assert Lands(w, target, [], id);
    } else {
      HeldLands(w, target, id);
    }
  }

  /** A head at this version, or none. */
  function HeadAt(version: Option<Version>): SharedBase {
    SharedBase(version, if version.Some? then Some("bytes") else None, None, false)
  }

  /** One event from one world to the next. */
  predicate Moves(w: World, target: Id, event: Event, v: World) {
    Enabled(w, event) && Next(w, target, event) == v
  }

  /** Worlds that follow each other, one event apart, are a run. */
  lemma {:induction false} RunOfMoves(target: Id, worlds: seq<World>, events: seq<Event>)
    requires |worlds| == |events| + 1
    requires forall k :: 0 <= k < |events| ==> Moves(worlds[k], target, events[k], worlds[k + 1])
    ensures EnabledRun(worlds[0], target, events) && RunEvents(worlds[0], target, events) == worlds[|events|]
    decreases |events|
  {
    hide Enabled, Next;
    if events != [] {
      assert Moves(worlds[0], target, events[0], worlds[1]);
      assert forall k :: 0 <= k < |events| - 1 ==> worlds[1..][k] == worlds[k + 1] && events[1..][k] == events[k + 1];
      RunOfMoves(target, worlds[1..], events[1..]);
    }
  }

  lemma {:induction false} RunsJoin(w: World, target: Id, first: seq<Event>, second: seq<Event>)
    requires EnabledRun(w, target, first) && EnabledRun(RunEvents(w, target, first), target, second)
    ensures EnabledRun(w, target, first + second)
    ensures RunEvents(w, target, first + second) == RunEvents(RunEvents(w, target, first), target, second)
    decreases |first|
  {
    hide Enabled, Next;
    if first == [] {
      assert first + second == second;
    } else {
      assert (first + second)[1..] == first[1..] + second;
      RunsJoin(Next(w, target, first[0]), target, first[1..], second);
    }
  }

  /** A delivery the authority holds is applied once the head is again at the request's base. */
  lemma HeldLands(w: World, target: Id, id: RequestId)
    requires AuthorityShape(w) && id in w.open && id !in w.recorded
    ensures exists events :: Lands(w, target, events, id)
  {
    assert id in w.submitted;
    hide AuthorityShape;
    var request := w.submitted[id];
    var moves, commits := OtherWriter(HeadAt(request.base)), CommitsFor(id, request);
    var v := Next(w, target, moves);
    var u := Next(v, target, commits);
    HeadMoves(w, target, request.base);
    HeldCommits(v, target, id);
    hide Moves, Applied, Next, Enabled, HeadAt, CommitsFor;
    RunOfMoves(target, [w, v, u], [moves, commits]);
    assert Lands(w, target, [moves, commits], id);
  }

  lemma HeadMoves(w: World, target: Id, version: Option<Version>)
    ensures
      var v := Next(w, target, OtherWriter(HeadAt(version)));
      && Moves(w, target, OtherWriter(HeadAt(version)), v)
      && v == w.(history := w.history + [HeadAt(version)]) && HeadAt(version).version == version
  {
  }

  function CommitsFor(id: RequestId, request: Intent): Event {
    Commits(id, HeadAt(if request.kind == Write then Some(request.local) else None))
  }

  lemma HeldCommits(w: World, target: Id, id: RequestId)
    requires id in w.open && id !in w.recorded && id in w.submitted
    requires w.history != [] && Last(w.history).version == w.submitted[id].base
    ensures
      var v := Next(w, target, CommitsFor(id, w.submitted[id]));
      Moves(w, target, CommitsFor(id, w.submitted[id]), v) && Applied(v, id)
  {
  }

  // ---- a denial that was not the last word ----

  const NOTHING_SERVED := SharedBase(None, None, None, false)

  /** A new document's row, as often claimed as this. */
  function DeniedRow(target: Id, content: string, attempts: nat, state: RowState): Intent {
    Journaled(NewIntent(1, Write, target, None, None, 0, None, None, None), content).(
      attempts := attempts, state := state, refusal := if state == Refused then Some("FORBIDDEN") else None)
  }

  /** The row's document, with so many of its deliveries open and one call to deliver it. */
  function DeniedWorld(row: Intent, open: nat, calls: map<RequestId, Call>): World {
    World(
      Cell(Some(row.content), None, [], [row], []), [NOTHING_SERVED], map[],
      if calls == map[] || (open == 0 && calls == map[1 := Unsent]) then map[] else map[1 := Payload(row)],
      multiset{}[1 := open], calls, if row.state == Refused && row.attempts > 1 then {1} else {}, {1}, 0,
      [Edit(Write, row.content, 1, None, false)])
  }

  function FirstEdit(first: string): Event {
    Local(CommitVerb(1, 0, first, None), 0)
  }

  function LaterEdit(second: string): Event {
    Local(CommitVerb(2, 0, second, None), 0)
  }

  function FirstLands(first: string): Event {
    Commits(1, SharedBase(Some(VersionOf(first)), Some(first), None, false))
  }

  function Settles(answer: Outcome, attempts: nat): Event {
    Local(SettleVerb(1, answer, attempts, NOTHING_SERVED), 0)
  }

  /** Claimed, delivered, and never answered, so many times. */
  function LostDeliveries(n: nat): seq<Event> {
    if n == 0 then []
    else LostDeliveries(n - 1) + [Local(ClaimVerb(1), 0), Submit(1), Settles(NoAnswer, n)]
  }

  /** The edit, all claims but the last lost, and the last one's delivery denied. */
  function DeniedAt(first: string, n: nat): seq<Event>
    requires n >= 1
  {
    [FirstEdit(first)] + LostDeliveries(n - 1) + [Local(ClaimVerb(1), 0), Submit(1), Denies(1)]
  }

  function DeniedEvents(first: string, second: string, n: nat): seq<Event>
    requires n >= 1
  {
    DeniedAt(first, n) + [Settles(RefusedWith("FORBIDDEN"), n), LaterEdit(second), FirstLands(first)]
  }

  /** The row pending after so many claims, each of whose deliveries is still open. */
  function LostWorld(target: Id, first: string, n: nat): World {
    DeniedWorld(DeniedRow(target, first, n, Pending), n, if n == 0 then map[] else map[1 := SentOnce])
  }

  /** The row in flight under this claim, whose own delivery was denied while the earlier ones are open. */
  function DeniedInFlight(target: Id, first: string, n: nat): World
    requires n >= 1
  {
    DeniedWorld(DeniedRow(target, first, n, InFlight), n - 1, map[1 := Denied])
  }

  lemma DeniedStart(target: Id, first: string)
    requires first != ""
    ensures Moves(Initial(NOTHING_SERVED), target, FirstEdit(first), LostWorld(target, first, 0))
  {
    assert multiset{}[1 := 0] == multiset{};
  }

  lemma DeniedClaims(target: Id, first: string, n: nat)
    ensures
      Moves(LostWorld(target, first, n), target, Local(ClaimVerb(1), 0),
            DeniedWorld(DeniedRow(target, first, n + 1, InFlight), n, map[1 := Unsent]))
  {
    var w := LostWorld(target, first, n);
    assert w.minted + {} == w.minted && w.calls[1 := Unsent] == map[1 := Unsent];
  }

  lemma DeniedSubmits(target: Id, first: string, n: nat)
    ensures
      Moves(DeniedWorld(DeniedRow(target, first, n + 1, InFlight), n, map[1 := Unsent]), target, Submit(1),
            DeniedWorld(DeniedRow(target, first, n + 1, InFlight), n + 1, map[1 := SentOnce]))
  {
    assert multiset{}[1 := n] + multiset{1} == multiset{}[1 := n + 1];
    assert map[1 := Unsent][1 := SentOnce] == map[1 := SentOnce];
  }

  lemma AnswerLost(target: Id, first: string, n: nat)
    ensures
      Moves(DeniedWorld(DeniedRow(target, first, n + 1, InFlight), n + 1, map[1 := SentOnce]), target,
            Settles(NoAnswer, n + 1), LostWorld(target, first, n + 1))
  {
    var w := DeniedWorld(DeniedRow(target, first, n + 1, InFlight), n + 1, map[1 := SentOnce]);
    assert w.minted + {} == w.minted;
  }

  lemma LastDenied(target: Id, first: string, n: nat)
    ensures
      Moves(DeniedWorld(DeniedRow(target, first, n + 1, InFlight), n + 1, map[1 := SentOnce]), target, Denies(1),
            DeniedInFlight(target, first, n + 1))
  {
    assert multiset{}[1 := n + 1] - multiset{1} == multiset{}[1 := n];
    assert map[1 := SentOnce][1 := Denied] == map[1 := Denied];
  }

  lemma DenialSettles(target: Id, first: string, n: nat)
    requires n >= 2
    ensures
      Moves(DeniedInFlight(target, first, n), target, Settles(RefusedWith("FORBIDDEN"), n),
            DeniedWorld(DeniedRow(target, first, n, Refused), n - 1, map[1 := Denied]))
  {
    var w := DeniedInFlight(target, first, n);
    assert w.minted + {} == w.minted && {} + {1} == {1};
  }

  lemma {:induction false} DeliveriesLost(target: Id, first: string, n: nat)
    ensures EnabledRun(LostWorld(target, first, 0), target, LostDeliveries(n))
    ensures RunEvents(LostWorld(target, first, 0), target, LostDeliveries(n)) == LostWorld(target, first, n)
  {
    hide Moves, DeniedWorld, LostWorld, EnabledRun, RunEvents;
    if n == 0 {
      RunOfMoves(target, [LostWorld(target, first, 0)], []);
    } else {
      DeliveriesLost(target, first, n - 1);
      DeniedClaims(target, first, n - 1);
      DeniedSubmits(target, first, n - 1);
      AnswerLost(target, first, n - 1);
      var turn := [Local(ClaimVerb(1), 0), Submit(1), Settles(NoAnswer, n)];
      var claimed := DeniedWorld(DeniedRow(target, first, n, InFlight), n - 1, map[1 := Unsent]);
      var sent := DeniedWorld(DeniedRow(target, first, n, InFlight), n, map[1 := SentOnce]);
      RunOfMoves(target, [LostWorld(target, first, n - 1), claimed, sent, LostWorld(target, first, n)], turn);
      RunsJoin(LostWorld(target, first, 0), target, LostDeliveries(n - 1), turn);
    }
  }

  lemma DenialReached(target: Id, first: string, n: nat)
    requires first != "" && n >= 1
    ensures EnabledRun(Initial(NOTHING_SERVED), target, DeniedAt(first, n))
    ensures RunEvents(Initial(NOTHING_SERVED), target, DeniedAt(first, n)) == DeniedInFlight(target, first, n)
  {
    hide Moves, DeniedWorld, LostWorld, DeniedInFlight, Initial, EnabledRun, RunEvents, LostDeliveries, FirstEdit;
    DeniedStart(target, first);
    RunOfMoves(target, [Initial(NOTHING_SERVED), LostWorld(target, first, 0)], [FirstEdit(first)]);
    DeliveriesLost(target, first, n - 1);
    RunsJoin(Initial(NOTHING_SERVED), target, [FirstEdit(first)], LostDeliveries(n - 1));
    DeniedClaims(target, first, n - 1);
    DeniedSubmits(target, first, n - 1);
    LastDenied(target, first, n - 1);
    var turn := [Local(ClaimVerb(1), 0), Submit(1), Denies(1)];
    var claimed := DeniedWorld(DeniedRow(target, first, n, InFlight), n - 1, map[1 := Unsent]);
    var sent := DeniedWorld(DeniedRow(target, first, n, InFlight), n, map[1 := SentOnce]);
    RunOfMoves(target, [LostWorld(target, first, n - 1), claimed, sent, DeniedInFlight(target, first, n)], turn);
    RunsJoin(Initial(NOTHING_SERVED), target, [FirstEdit(first)] + LostDeliveries(n - 1), turn);
  }

  /** If the row in flight was claimed so often, the denial its call may settle with says it was not applied. */
  predicate DefiniteIn(w: World, n: nat, code: string) {
    w.cell.chain != [] && w.cell.chain[0].state == InFlight && w.cell.chain[0].attempts == n
      && Answered(w, w.cell.chain[0].requestId, RefusedWith(code)) ==>
      NotApplied(w, w.cell.chain[0].requestId)
  }

  /** In every reachable world a denial of a row claimed so often says that the authority will never apply it. */
  ghost predicate DenialDefinite(n: nat) {
    forall head: SharedBase, target: Id, events: seq<Event>, code: string ::
      ServedHead(head) && EnabledRun(Initial(head), target, events) && code in AUTHORIZATION_REFUSAL_CODES ==>
        DefiniteIn(RunEvents(Initial(head), target, events), n, code)
  }

  lemma FirstDenialIsDefinite(w: World, target: Id, code: string)
    requires Consistent(w, target) && code in AUTHORIZATION_REFUSAL_CODES
    ensures DefiniteIn(w, 1, code)
  {
    if w.cell.chain != [] {
      assert RowDelivery(w, w.cell.chain[0]);
    }
  }

  /** A denial is definite exactly for a row claimed once: what the caller knows before it delivers. */
  lemma DenialIsDefiniteExactly(n: nat)
    requires n >= 1
    ensures DenialDefinite(n) <==> n == 1
  {
    if n == 1 {
      forall head: SharedBase, target: Id, events: seq<Event>, code: string
        | ServedHead(head) && EnabledRun(Initial(head), target, events) && code in AUTHORIZATION_REFUSAL_CODES
        ensures DefiniteIn(RunEvents(Initial(head), target, events), n, code)
      {
        EveryRunIsConsistent(head, target, events);
        hide EnabledRun, RunEvents, Initial, DefiniteIn;
        FirstDenialIsDefinite(RunEvents(Initial(head), target, events), target, code);
      }
    } else {
      DenialReached("doc", "first", n);
      assert !DefiniteIn(DeniedInFlight("doc", "first", n), n, "FORBIDDEN");
      hide EnabledRun, RunEvents, Initial, DefiniteIn, DeniedInFlight;
      assert !DefiniteIn(RunEvents(Initial(NOTHING_SERVED), "doc", DeniedAt("first", n)), n, "FORBIDDEN");
    }
  }

  /** The working document is the second edit; the first was replaced, left the journal, and is what is served. */
  predicate LandedLate(w: World, first: string, second: string) {
    && w.cell.doc == Some(second) && |w.ledger| == 2
    && w.ledger[0].content == first && w.ledger[0].replacedBy == Some(1)
    && Withdrawn(w, w.ledger[0].carrier) && Applied(w, w.ledger[0].carrier)
    && w.history != [] && Last(w.history).content == Some(first)
  }

  /** The row as the denial left it, with its earlier deliveries still open. */
  function RefusedWorld(target: Id, first: string, n: nat): World
    requires n >= 2
  {
    DeniedWorld(DeniedRow(target, first, n, Refused), n - 1, map[1 := Denied])
  }

  /** The later edit replaces the refused row, which the authority has not applied. */
  predicate Replaced(v: World, first: string, second: string) {
    && v.cell.doc == Some(second) && |v.cell.chain| == 1 && v.cell.chain[0].requestId == 2 && v.cell.settled == []
    && v.minted == {1, 2} && |v.ledger| == 2 && v.ledger[0] == Edit(Write, first, 1, Some(1), false)
    && v.history == [NOTHING_SERVED] && v.recorded == map[] && 1 in v.open
    && 1 in v.submitted && v.submitted[1].kind == Write && v.submitted[1].base == None
  }

  lemma LaterEditReplaces(target: Id, first: string, second: string, n: nat)
    requires first != "" && second != "" && n >= 2
    ensures
      var v := Next(RefusedWorld(target, first, n), target, LaterEdit(second));
      Moves(RefusedWorld(target, first, n), target, LaterEdit(second), v) && Replaced(v, first, second)
  {
    var w := RefusedWorld(target, first, n);
    assert Last(w.cell.chain) == w.cell.chain[0] && Front(w.cell.chain) == [];
  }

  lemma FirstDeliveryLands(v: World, target: Id, first: string, second: string)
    requires first != "" && Replaced(v, first, second)
    ensures
      var u := Next(v, target, FirstLands(first));
      Moves(v, target, FirstLands(first), u) && LandedLate(u, first, second)
  {
  }

  /**
   * A denial is not the last word where a claim before it was never answered, however many there were: the later
   * edit replaces the row as one the authority did not apply, and the authority then applies it.
   */
  lemma DeniedRowMayLand(target: Id, first: string, second: string, n: nat)
    requires first != "" && second != "" && n >= 2
    ensures EnabledRun(Initial(NOTHING_SERVED), target, DeniedEvents(first, second, n))
    ensures LandedLate(RunEvents(Initial(NOTHING_SERVED), target, DeniedEvents(first, second, n)), first, second)
  {
    hide Moves, DeniedWorld, DeniedInFlight, Initial, EnabledRun, RunEvents, LandedLate, DeniedAt, Replaced;
    DenialReached(target, first, n);
    DenialSettles(target, first, n);
    LaterEditReplaces(target, first, second, n);
    var w := RefusedWorld(target, first, n);
    var v := Next(w, target, LaterEdit(second));
    FirstDeliveryLands(v, target, first, second);
    hide Next, LaterEdit, FirstLands, Settles;
    var ends := [Settles(RefusedWith("FORBIDDEN"), n), LaterEdit(second), FirstLands(first)];
    RunOfMoves(target, [DeniedInFlight(target, first, n), w, v, Next(v, target, FirstLands(first))], ends);
    RunsJoin(Initial(NOTHING_SERVED), target, DeniedAt(first, n), ends);
  }

  /** A run only adds to the ledger. */
  lemma {:induction false} EditsNeverChange(w: World, target: Id, events: seq<Event>, i: nat)
    requires i < |w.ledger|
    ensures
      var v := RunEvents(w, target, events);
      && i < |v.ledger| && v.ledger[i].kind == w.ledger[i].kind && v.ledger[i].content == w.ledger[i].content
      && (w.ledger[i].replacedBy.Some? ==> v.ledger[i].replacedBy == w.ledger[i].replacedBy)
    decreases |events|
  {
    if events != [] {
      LedgerStays(w, target, events[0], i);
      EditsNeverChange(Next(w, target, events[0]), target, events[1..], i);
    }
  }
}
