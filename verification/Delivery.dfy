/**
 * One document's journal against the shared authority: claims, submissions, recorded outcomes, lost answers,
 * other writers, and a ledger of every local edit.
 *
 * The authority compares and swaps on a request's base and remembers one outcome per request identity. A
 * recorded refusal says the request was not applied; a denial for lost permission speaks of one delivery only,
 * and an earlier delivery of the same request may still land. Any event may be followed by any other: a realm
 * that dies leaves its row in flight, to be settled late by another realm or reclaimed.
 */
module Delivery {
  import opened Records
  import opened Journal
  import opened JournalShape

  /** A recorded answer, and the authority revision it speaks of. */
  datatype Recorded = Recorded(outcome: Outcome, at: nat)

  /**
   * A local edit as it was made. `carrier` is the row that carries it now; `replacedBy` the later edit that
   * took its place; `nothing` says the edit was a deletion that left nothing to send.
   */
  datatype Edit = Edit(kind: Kind, content: string, carrier: RequestId, replacedBy: Option<nat>, nothing: bool)

  /** What the call that claimed a row last knows of its own deliveries. */
  datatype Call = Unsent | SentOnce | Denied | Unclear

  datatype World = World(
    cell: Cell,
    history: seq<SharedBase>,               // every head the authority has served, oldest first
    recorded: map<RequestId, Recorded>,
    submitted: map<RequestId, Intent>,      // what was ever sent under each identity
    open: multiset<RequestId>,              // the deliveries the authority may still act on
    calls: map<RequestId, Call>,            // the latest call to deliver each identity
    late: set<RequestId>,                   // identities a denial settled after more than one claim
    minted: set<RequestId>,
    baseRevision: nat,                      // the revision the shared base was taken from
    ledger: seq<Edit>)

  datatype Event =
    | Local(verb: Verb, revision: nat)      // `revision` is the one a verb that reads the authority read
    | Submit(requestId: RequestId)
    | Commits(requestId: RequestId, stored: SharedBase)
    | Conflicts(requestId: RequestId)
    | Refuses(requestId: RequestId, code: string)
    | Denies(requestId: RequestId)          // one delivery is refused for lost permission, and nothing is recorded
    | OtherWriter(head: SharedBase)

  /** What travels under an identity: everything but the delivery's own progress. */
  function Payload(row: Intent): Intent {
    row.(attempts := 0, state := Pending, acknowledgedVersion := None, remote := None, refusal := None)
  }

  function CommittedAs(kind: Kind, stored: SharedBase): Version {
    if kind == Write && stored.version.Some? then stored.version.value
    else if stored.tombstone.Some? then stored.tombstone.value else DELETION_VERSION
  }

  /**
   * The answer a call may settle with: a recorded one, none, or a denial of the only delivery it made. A denial
   * of a delivery made after an unclear one in the same call is no answer.
   */
  predicate Answered(w: World, requestId: RequestId, answer: Outcome) {
    match answer
    case NoAnswer => true
    case RefusedWith(code) =>
      if code in AUTHORIZATION_REFUSAL_CODES then requestId in w.calls && w.calls[requestId] == Denied
      else requestId in w.recorded && w.recorded[requestId].outcome == answer
    case _ => requestId in w.recorded && w.recorded[requestId].outcome == answer
  }

  predicate LocalEnabled(w: World, verb: Verb, revision: nat) {
    && Admissible(verb)
    && revision < |w.history|
    && match verb
       case CommitVerb(requestId, _, _, _) => requestId !in w.minted
       case DeleteVerb(requestId, _) => requestId !in w.minted
       case FoldVerb(_, requestId, _) => requestId !in w.minted
       case SettleVerb(requestId, answer, attempts, _) => Answered(w, requestId, answer)
       case ResolveVerb(_, served, authored) =>
         && authored.requestId !in w.minted
         && served.version == w.history[revision].version && served.content == w.history[revision].content
       case RefreshVerb(version, content) => w.history[revision].version == Some(version)
         && w.history[revision].content == Some(content)
       case UnlistedVerb => w.history[revision].version == None
       case _ => true
  }

  predicate Enabled(w: World, event: Event) {
    match event
    case Local(verb, revision) => LocalEnabled(w, verb, revision)
    case Submit(requestId) =>
      var k := IndexOf(w.cell.chain, requestId);
      k < |w.cell.chain| && w.cell.chain[k].state == InFlight
    case Commits(requestId, stored) =>
      && requestId in w.open && requestId in w.submitted && requestId !in w.recorded && w.history != []
      && w.submitted[requestId].base == Last(w.history).version
      && ServedHead(stored) && (stored.version.Some? <==> w.submitted[requestId].kind == Write)
    case Conflicts(requestId) =>
      && requestId in w.open && requestId in w.submitted && requestId !in w.recorded && w.history != []
      && (w.submitted[requestId].base != Last(w.history).version || Last(w.history).version == None)
    case Refuses(requestId, code) =>
      requestId in w.open && requestId !in w.recorded && code !in AUTHORIZATION_REFUSAL_CODES
    case Denies(requestId) => requestId in w.open
    case OtherWriter(head) => ServedHead(head)
  }

  // ---- the ledger ----

  /** The edit carried by this row is taken over by the edit at `later`. */
  function Replace(ledger: seq<Edit>, row: RequestId, later: nat): (r: seq<Edit>)
    ensures |r| == |ledger|
  {
    seq(|ledger|, (i: int) requires 0 <= i < |ledger| =>
      if ledger[i].carrier == row && ledger[i].replacedBy == None then ledger[i].(replacedBy := Some(later))
      else ledger[i])
  }

  /** The edit carried by one row is carried by another, or leaves nothing to carry. */
  function Carry(ledger: seq<Edit>, row: RequestId, next: Option<RequestId>): (r: seq<Edit>)
    ensures |r| == |ledger|
  {
    seq(|ledger|, (i: int) requires 0 <= i < |ledger| =>
      if ledger[i].carrier != row then ledger[i]
      else match next case Some(id) => ledger[i].(carrier := id) case None => ledger[i].(nothing := true))
  }

  function ReplaceLatest(c: Cell, ledger: seq<Edit>): (r: seq<Edit>)
    ensures |r| == |ledger|
  {
    if c.chain != [] && Replaceable(Last(c.chain)) then Replace(ledger, Last(c.chain).requestId, |ledger|) else ledger
  }

  function LedgerAfter(w: World, target: Id, verb: Verb): seq<Edit> {
    match verb
    case CommitVerb(requestId, _, content, _) =>
      ReplaceLatest(w.cell, w.ledger) + [Edit(Write, content, requestId, None, false)]
    case DeleteVerb(requestId, now) =>
      (match DeleteLocal(w.cell, target, requestId, now)
       case Deleted(_, intent) =>
         ReplaceLatest(w.cell, w.ledger) + [Edit(Delete, DELETION_CONTENT, requestId, None, intent.None?)]
       case _ => w.ledger)
    case FoldVerb(successor, requestId, now) =>
      if !Foldable(w.cell, successor) || w.ledger == [] then w.ledger
      else
        var replaced := Replace(w.ledger, w.cell.chain[0].requestId, |w.ledger| - 1);
        var next := FoldedIntent(w.cell.chain[0], w.cell.chain[1], requestId, now);
        Carry(replaced, successor, if next.Some? then Some(requestId) else None)
    case ResolveVerb(choice, served, authored) =>
      (match ResolveConflict(w.cell, target, choice, served, authored)
       case Some(after) =>
         if after.chain == [] then w.ledger
         else w.ledger + [Edit(after.chain[0].kind, after.chain[0].content, authored.requestId, None, false)]
       case None => w.ledger)
    case _ => w.ledger
  }

  function MintedBy(verb: Verb): set<RequestId> {
    match verb
    case CommitVerb(requestId, _, _, _) => {requestId}
    case DeleteVerb(requestId, _) => {requestId}
    case FoldVerb(_, requestId, _) => {requestId}
    case ResolveVerb(_, _, authored) => {authored.requestId}
    case _ => {}
  }

  /** The revision the shared base speaks of after a verb; only a verb that writes the base moves it. */
  function BaseRevisionAfter(w: World, target: Id, verb: Verb, revision: nat): nat {
    match verb
    case SettleVerb(requestId, answer, attempts, observed) =>
      (match Settle(w.cell, requestId, answer, attempts, observed)
       case Settled(_, row) => if row.state == Acknowledged && requestId in w.recorded then w.recorded[requestId].at
         else w.baseRevision
       case _ => w.baseRevision)
    case ResolveVerb(choice, served, authored) =>
      if ResolveConflict(w.cell, target, choice, served, authored).Some? then revision else w.baseRevision
    case RefreshVerb(_, _) => if w.cell.chain == [] then revision else w.baseRevision
    case UnlistedVerb => revision
    case _ => w.baseRevision
  }

  /** A claim that takes its row starts a new call to deliver it. */
  function CallsAfter(w: World, verb: Verb): map<RequestId, Call> {
    if verb.ClaimVerb? && Claim(w.cell, verb.requestId).Claimed? then w.calls[verb.requestId := Unsent] else w.calls
  }

  function CallOf(w: World, requestId: RequestId): Call {
    if requestId in w.calls then w.calls[requestId] else Unclear
  }

  /** A denial settles a row whose claim was not its first. */
  function LateAfter(w: World, verb: Verb): set<RequestId> {
    match verb
    case SettleVerb(requestId, answer, _, _) =>
      var k := IndexOf(w.cell.chain, requestId);
      if k < |w.cell.chain| && w.cell.chain[k].state == InFlight && w.cell.chain[k].attempts > 1 && Denial(answer)
      then w.late + {requestId}
      else w.late
    case _ => w.late
  }

  predicate Denial(answer: Outcome) {
    answer.RefusedWith? && answer.code in AUTHORIZATION_REFUSAL_CODES
  }

  function Next(w: World, target: Id, event: Event): World {
    match event
    case Local(verb, revision) =>
      w.(cell := Apply(w.cell, target, verb), calls := CallsAfter(w, verb), late := LateAfter(w, verb),
         minted := w.minted + MintedBy(verb),
         baseRevision := BaseRevisionAfter(w, target, verb, revision), ledger := LedgerAfter(w, target, verb))
    case Submit(requestId) =>
      var k := IndexOf(w.cell.chain, requestId);
      if k == |w.cell.chain| then w
      else
        w.(submitted := w.submitted[requestId := Payload(w.cell.chain[k])],
           open := w.open + multiset{requestId},
           calls := w.calls[requestId := if CallOf(w, requestId) == Unsent then SentOnce else Unclear])
    case Commits(requestId, stored) =>
      if requestId !in w.submitted then w
      else
          w.(history := w.history + [stored], open := w.open - multiset{requestId},
             recorded := w.recorded[
               requestId := Recorded(Committed(CommittedAs(w.submitted[requestId].kind, stored)), |w.history|)])
    case Conflicts(requestId) =>
      if w.history == [] then w
      else
        w.(open := w.open - multiset{requestId},
             recorded := w.recorded[
               requestId := Recorded(ConflictWith(Last(w.history).version, Last(w.history).tombstone),
                                     |w.history| - 1)])
    case Refuses(requestId, code) =>
      if w.history == [] then w
      else
        w.(open := w.open - multiset{requestId},
           recorded := w.recorded[requestId := Recorded(RefusedWith(code), |w.history| - 1)])
    case Denies(requestId) =>
      w.(open := w.open - multiset{requestId},
         calls := if CallOf(w, requestId) == SentOnce then w.calls[requestId := Denied] else w.calls)
    case OtherWriter(head) => w.(history := w.history + [head])
  }

  function Initial(head: SharedBase): World {
    World(BLANK, [head], map[], map[], multiset{}, map[], {}, {}, 0, [])
  }

  // ---- what every reachable world keeps ----

  predicate Applied(w: World, requestId: RequestId) {
    requestId in w.recorded && w.recorded[requestId].outcome.Committed?
  }

  /** The authority has not applied this identity and holds no delivery of it to apply. */
  predicate NotApplied(w: World, requestId: RequestId) {
    if requestId in w.recorded then !w.recorded[requestId].outcome.Committed? else requestId !in w.open
  }

  /** A version the authority really served for this document. */
  predicate Served(w: World, version: Version) {
    exists k :: 0 <= k < |w.history| && w.history[k].version == Some(version)
  }

  predicate HistoryShape(w: World) {
    && w.history != []
    && (forall k :: 0 <= k < |w.history| ==> ServedHead(w.history[k]))
    && w.baseRevision < |w.history|
  }

  predicate RequestShape(w: World) {
    && w.submitted.Keys <= w.minted
    && forall id :: id in w.submitted ==> w.submitted[id].requestId == id
  }

  predicate RecordsShape(w: World) {
    forall id :: id in w.recorded ==> RecordShape(w, id)
  }

  /** The authority holds and remembers only what was sent. */
  predicate OpenShape(w: World) {
    (forall id :: id in w.open ==> id in w.submitted) && (forall id :: id in w.recorded ==> id in w.submitted)
  }

  predicate AuthorityShape(w: World) {
    HistoryShape(w) && RequestShape(w) && RecordsShape(w) && OpenShape(w)
  }

  predicate RecordShape(w: World, id: RequestId)
    requires id in w.recorded
  {
    && id in w.submitted
    && w.recorded[id].at < |w.history|
    && match w.recorded[id].outcome
       case Committed(version) => w.submitted[id].kind == Write ==>
         w.history[w.recorded[id].at].version == Some(version)
       case ConflictWith(actual, _) => w.history[w.recorded[id].at].version == actual
       case _ => true
  }

  predicate Named(rows: seq<Intent>, id: RequestId) {
    exists k :: 0 <= k < |rows| && rows[k].requestId == id
  }

  predicate Identities(w: World) {
    && (forall k :: 0 <= k < |w.cell.chain| ==>
         w.cell.chain[k].requestId in w.minted && !Named(w.cell.settled, w.cell.chain[k].requestId))
    && (forall k :: 0 <= k < |w.cell.settled| ==> w.cell.settled[k].requestId in w.minted)
    && (|w.cell.chain| == 2 ==> w.cell.chain[0].requestId != w.cell.chain[1].requestId)
  }

  /** What the call of a row's first claim knows of its delivery is all there is to know of it. */
  predicate FirstCall(w: World, row: Intent) {
    row.state == InFlight && row.attempts == 1 ==>
      match CallOf(w, row.requestId)
      case Unsent => row.requestId !in w.submitted
      case SentOnce => w.open[row.requestId] <= 1 && (row.requestId in w.recorded ==> row.requestId !in w.open)
      case Denied => row.requestId !in w.open && row.requestId !in w.recorded
      case Unclear => true
  }

  /**
   * A row never claimed was never sent; one that was sent was sent as it stands. A conflict or a content refusal
   * was not applied, and neither was a row denied under its first claim.
   */
  predicate RowDelivery(w: World, row: Intent) {
    && (row.attempts == 0 ==> row.requestId !in w.submitted)
    && (row.requestId in w.submitted ==> w.submitted[row.requestId] == Payload(row))
    && (row.state == Conflict || IsContentRefusal(row) ==> NotApplied(w, row.requestId))
    && (row.state == Refused ==> NotApplied(w, row.requestId) || row.requestId in w.late)
    && FirstCall(w, row)
  }

  predicate Deliveries(w: World) {
    forall k :: 0 <= k < |w.cell.chain| ==> RowDelivery(w, w.cell.chain[k])
  }

  predicate ServedOrNone(w: World, version: Option<Version>) {
    version.Some? ==> Served(w, version.value)
  }

  /** A never-sent successor may still name its predecessor's local version; its claim replaces that. */
  predicate KnownPremise(w: World, row: Intent) {
    || ServedOrNone(w, row.base)
    || (row.attempts == 0 && row.after.Some? && row.base.Some? &&
        exists p ::
          0 <= p < |w.cell.settled| && p == IndexOf(w.cell.settled, row.after.value) && w.cell.settled[p].kind == Write
            && row.base == Some(w.cell.settled[p].local))
  }

  predicate Premises(w: World) {
    && ServedOrNone(w, BaseVersion(w.cell.base))
    && (forall k :: 0 <= k < |w.cell.settled| ==>
          w.cell.settled[k].acknowledgedVersion.Some? &&
          (w.cell.settled[k].kind == Write ==> Served(w, w.cell.settled[k].acknowledgedVersion.value)))
    && (w.cell.chain != [] ==> KnownPremise(w, w.cell.chain[0]))
    && (forall id :: id in w.submitted ==> ServedOrNone(w, w.submitted[id].base))
  }

  predicate Carries(rows: seq<Intent>, edit: Edit) {
    exists k ::
      0 <= k < |rows| && rows[k].requestId == edit.carrier && rows[k].kind == edit.kind
        && rows[k].content == edit.content
  }

  predicate Retained(receipts: seq<Receipt>, edit: Edit) {
    exists k :: 0 <= k < |receipts| && Carries(receipts[k].retired, edit)
  }

  /** Taken out of the journal without an acknowledgement. */
  predicate Withdrawn(w: World, id: RequestId) {
    id in w.minted && !Named(w.cell.chain, id) && !Named(w.cell.settled, id)
  }

  /**
   * Where a local edit is: journaled, acknowledged or retained with its bytes, or withdrawn for a later edit.
   * The authority did not apply what it withdrew, unless a denial settled it under a later claim than its first.
   */
  predicate Kept(w: World, i: nat)
    requires i < |w.ledger|
  {
    var edit := w.ledger[i];
    if edit.replacedBy.Some? then
      && i < edit.replacedBy.value < |w.ledger| && Withdrawn(w, edit.carrier)
      && (NotApplied(w, edit.carrier) || edit.carrier in w.late)
    else if edit.nothing then edit.kind == Delete
    else if Named(w.cell.chain, edit.carrier) then Carries(w.cell.chain, edit)
    else Carries(w.cell.settled, edit) || Retained(w.cell.receipts, edit)
  }

  predicate LedgerShape(w: World) {
    && (forall i :: 0 <= i < |w.ledger| ==> w.ledger[i].carrier in w.minted && Kept(w, i))
    && (|w.cell.chain| == 2 ==>
         w.ledger != [] && Last(w.ledger).carrier == w.cell.chain[1].requestId && Last(w.ledger).replacedBy == None)
  }

  predicate Consistent(w: World, target: Id) {
    && Shape(w.cell, target)
    && AuthorityShape(w)
    && Identities(w)
    && Deliveries(w)
    && Premises(w)
    && LedgerShape(w)
  }
}
