/**
 * The body-mode verbs over one document's evidence: local commits, claims with their preparation, settlement
 * of each outcome, requeueing, resolution, and the retirement of acknowledged history. What each one leaves
 * is what the validator accepts.
 */
module BodyJournal {
  import opened Records
  import opened BodyEvidence

  /** The shared base a commit stands on, and the served head a resolution adopts. */
  datatype Head = Head(version: Version, content: string)

  datatype BodyOutcome = ReceiptArrived(receipt: Receipt) | ConflictFound | WasRefused(code: string) | NothingKnown

  // ---- composing a commit ----

  function LatestUnsettled(rows: seq<Row>): Option<Row> {
    if rows == [] then None
    else if rows[|rows| - 1].state != Acknowledged then Some(rows[|rows| - 1])
    else LatestUnsettled(rows[..|rows| - 1])
  }

  lemma {:induction false} LatestIsLatest(rows: seq<Row>)
    requires Ordered(rows)
    ensures match LatestUnsettled(rows)
            case Some(latest) =>
              && latest in rows && latest.state != Acknowledged
              && forall row :: row in rows && row.state != Acknowledged ==> row.sequence <= latest.sequence
            case None => forall row :: row in rows ==> row.state == Acknowledged
  {
    if rows != [] {
      var last, front := rows[|rows| - 1], rows[..|rows| - 1];
      assert rows == front + [last];
      LatestIsLatest(front);
    }
  }

  function Without(rows: seq<Row>, id: RequestId): seq<Row> {
    if rows == [] then []
    else Without(rows[..|rows| - 1], id) + if rows[|rows| - 1].requestId == id then [] else [rows[|rows| - 1]]
  }

  function Settled(rows: seq<Row>): seq<Row> {
    if rows == [] then []
    else Settled(rows[..|rows| - 1]) + if rows[|rows| - 1].state == Acknowledged then [rows[|rows| - 1]] else []
  }

  lemma {:induction false} WithoutRows(rows: seq<Row>, id: RequestId)
    requires Ordered(rows)
    ensures Ordered(Without(rows, id))
    ensures forall row :: row in Without(rows, id) <==> row in rows && row.requestId != id
  {
    if rows != [] {
      var last, front := rows[|rows| - 1], rows[..|rows| - 1];
      assert rows == front + [last];
      WithoutRows(front, id);
    }
  }

  lemma {:induction false} SettledRows(rows: seq<Row>)
    requires Ordered(rows)
    ensures Ordered(Settled(rows))
    ensures forall row :: row in Settled(rows) <==> row in rows && row.state == Acknowledged
  {
    if rows != [] {
      var last, front := rows[|rows| - 1], rows[..|rows| - 1];
      assert rows == front + [last];
      SettledRows(front);
    }
  }

  /** The latest unsettled row, when it was never attempted and nothing was prepared for it. */
  function Superseded(e: Evidence): Option<Row> {
    match LatestUnsettled(e.rows)
    case Some(latest) =>
      if latest.state == Pending && latest.attempts == 0 && latest.requestId in e.descriptors
         && e.descriptors[latest.requestId].prepared == None && e.descriptors[latest.requestId].receipt == None
      then Some(latest) else None
    case None => None
  }

  /** The row a commit journals: in place of the row it supersedes, after the latest, or on the shared base. */
  function FreshRow(e: Evidence, requestId: RequestId, target: Id, sequence: nat, raw: string, now: nat,
                    shared: Option<Head>): Row {
    var latest, superseded := LatestUnsettled(e.rows), Superseded(e);
    var after := if superseded.Some? then superseded.value.after else if latest.Some? then Some(latest.value.requestId)
      else None;
    var base :=
      if superseded.Some? then superseded.value.base else if latest.Some? then Some(latest.value.local)
      else if shared.Some? then Some(shared.value.version) else None;
    var baseContent :=
      if superseded.Some? then superseded.value.baseContent else if latest.Some? then Some(latest.value.content)
      else if shared.Some? then Some(shared.value.content) else None;
    Row(requestId, target, base, baseContent, VersionOf(raw), raw, now, 0, Pending, sequence, after, None, None)
  }

  function FreshDescriptor(m: Mode, row: Row, body: string): Descriptor {
    Descriptor(
      row.requestId, row.target, m.scope, m.edition, body, if row.after.Some? then None else row.base, None, None)
  }

  /** The evidence once a row and its descriptor are journaled, in place of the superseded pair. */
  function CommittedEvidence(e: Evidence, row: Row, d: Descriptor): Evidence {
    match Superseded(e)
    case Some(gone) =>
      Evidence(Without(e.rows, gone.requestId) + [row], (e.descriptors - {gone.requestId})[row.requestId := d])
    case None => Evidence(e.rows + [row], e.descriptors[row.requestId := d])
  }

  /** Nothing follows a row that never had a receipt and is not followed by an unsettled one. */
  lemma NothingFollowsSuperseded(c: Codec, m: Mode, e: Evidence, other: Row)
    requires ValidEvidence(c, m, e) && Superseded(e).Some? && other in e.rows
    ensures other.after != Some(Superseded(e).value.requestId)
  {
    LatestIsLatest(e.rows);
    var gone := Superseded(e).value;
    assert ValidRow(c, m, e, other) && ValidRow(c, m, e, gone);
  }

  lemma SupersededRetires(c: Codec, m: Mode, e: Evidence)
    requires ValidEvidence(c, m, e) && Superseded(e).Some?
    ensures
      var gone := Superseded(e).value;
      ValidEvidence(c, m, Evidence(Without(e.rows, gone.requestId), e.descriptors - {gone.requestId}))
  {
    var gone := Superseded(e).value;
    var next := Evidence(Without(e.rows, gone.requestId), e.descriptors - {gone.requestId});
    WithoutRows(e.rows, gone.requestId);
    LatestIsLatest(e.rows);
    forall row | row in next.rows
      ensures row.requestId in next.descriptors && next.descriptors[row.requestId] == e.descriptors[row.requestId]
      ensures row.after.Some? && HasRow(e.rows, row.after.value) ==> HasRow(next.rows, row.after.value)
    {
      assert ValidRow(c, m, e, row);
      NothingFollowsSuperseded(c, m, e, row);
    }
    FewerRowsKeep(c, m, e, next);
  }

  /** What a store knows of the identities its rows name. */
  predicate Fresh(e: Evidence, id: RequestId) {
    !HasRow(e.rows, id) && id !in e.descriptors && forall row :: row in e.rows ==> row.after != Some(id)
  }

  lemma FreshRowFollows(c: Codec, m: Mode, e: Evidence, requestId: RequestId, target: Id, sequence: nat, raw: string,
                        now: nat, shared: Option<Head>, body: string)
    requires ValidEvidence(c, m, e) && Fresh(e, requestId)
    requires forall other :: other in e.rows ==> other.sequence < sequence
    ensures
      var row := FreshRow(e, requestId, target, sequence, raw, now, shared);
      && (row.after.Some? ==> HasRow(e.rows, row.after.value) && (Superseded(e).Some? ==>
           row.after != Some(Superseded(e).value.requestId)))
      && (forall prior :: prior in e.rows && Some(prior.requestId) == row.after ==>
            && prior.requestId in e.descriptors
            && Follows(c, m, row, FreshDescriptor(m, row, body), prior, e.descriptors[prior.requestId]))
  {
    var row := FreshRow(e, requestId, target, sequence, raw, now, shared);
    LatestIsLatest(e.rows);
    if Superseded(e).Some? {
      NothingFollowsSuperseded(c, m, e, Superseded(e).value);
      assert ValidRow(c, m, e, Superseded(e).value);
    }
    forall prior | prior in e.rows && Some(prior.requestId) == row.after
      ensures prior.requestId in e.descriptors
      ensures Follows(c, m, row, FreshDescriptor(m, row, body), prior, e.descriptors[prior.requestId])
    {
      assert ValidRow(c, m, e, prior);
      if Superseded(e) == None {
        SameIdentity(e.rows, prior, LatestUnsettled(e.rows).value);
      } else {
        assert
          Follows(c, m, Superseded(e).value, e.descriptors[Superseded(e).value.requestId], prior,
                  e.descriptors[prior.requestId]);
      }
    }
  }

  /** A commit whose own record validates leaves evidence that does, whether it supersedes, chains or stands alone. */
  lemma CommitKeepsEvidence(c: Codec, m: Mode, e: Evidence, requestId: RequestId, target: Id, sequence: nat,
                            raw: string, now: nat, shared: Option<Head>, body: string)
    requires ValidEvidence(c, m, e) && Fresh(e, requestId)
    requires forall other :: other in e.rows ==> other.sequence < sequence
    requires
      var row := FreshRow(e, requestId, target, sequence, raw, now, shared);
      ValidRecord(c, m, row, FreshDescriptor(m, row, body))
    ensures
      var row := FreshRow(e, requestId, target, sequence, raw, now, shared);
      ValidEvidence(c, m, CommittedEvidence(e, row, FreshDescriptor(m, row, body)))
  {
    var row := FreshRow(e, requestId, target, sequence, raw, now, shared);
    var d := FreshDescriptor(m, row, body);
    FreshRowFollows(c, m, e, requestId, target, sequence, raw, now, shared, body);
    if Superseded(e).Some? {
      var gone := Superseded(e).value;
      SupersededRetires(c, m, e);
      WithoutRows(e.rows, gone.requestId);
      CommitAfterRetiring(c, m, e, gone.requestId, row, d);
    } else {
      hide ValidRecord, Follows, FreshRow, FreshDescriptor;
      assert row.after != Some(row.requestId) && row.requestId == requestId && row.sequence == sequence by {
        FreshFields(e, requestId, target, sequence, raw, now, shared);
      }
      MoreRowsKeep(c, m, e, row, d);
    }
  }

  lemma FreshFields(e: Evidence, requestId: RequestId, target: Id, sequence: nat, raw: string, now: nat,
                    shared: Option<Head>)
    requires Fresh(e, requestId) && Ordered(e.rows)
    ensures
      var row := FreshRow(e, requestId, target, sequence, raw, now, shared);
      row.after != Some(requestId) && row.requestId == requestId && row.sequence == sequence
  {
    LatestIsLatest(e.rows);
  }

  lemma CommitAfterRetiring(c: Codec, m: Mode, e: Evidence, gone: RequestId, row: Row, d: Descriptor)
    requires Ordered(e.rows) && ValidEvidence(c, m, Evidence(Without(e.rows, gone), e.descriptors - {gone}))
    requires Fresh(e, row.requestId)
    requires forall other :: other in Without(e.rows, gone) <==> other in e.rows && other.requestId != gone
    requires ValidRecord(c, m, row, d) && forall other :: other in e.rows ==> other.sequence < row.sequence
    requires row.after.Some? ==> HasRow(e.rows, row.after.value) && row.after != Some(gone)
    requires forall prior :: prior in e.rows && Some(prior.requestId) == row.after ==>
      prior.requestId in e.descriptors && Follows(c, m, row, d, prior, e.descriptors[prior.requestId])
    ensures ValidEvidence(c, m, Evidence(Without(e.rows, gone) + [row], (e.descriptors - {gone})[row.requestId := d]))
  {
    hide ValidRecord, Follows, ValidEvidence;
    var left := Evidence(Without(e.rows, gone), e.descriptors - {gone});
    if row.after.Some? {
      var prior :| prior in e.rows && prior.requestId == row.after.value;
      assert prior in left.rows;
    }
    MoreRowsKeep(c, m, left, row, d);
  }

  // ---- delivery ----

  /**
   * The preparation a claim persists: the one there is, or one derived now; none while its predecessor is unsettled.
   */
  function PreparationFor(c: Codec, m: Mode, e: Evidence, row: Row, d: Descriptor): Option<Prepared> {
    if d.prepared.Some? then d.prepared
    else
      match row.after
      case None => if d.initialVersion.Some? then PrepareInitial(c, m, row, d.body, d.initialVersion.value) else None
      case Some(id) =>
        if && id in e.descriptors
           && (exists prior :: prior in e.rows && prior.requestId == id && prior.state == Acknowledged)
           && e.descriptors[id].prepared.Some? && e.descriptors[id].receipt.Some?
        then PrepareNext(c, m, row, d.body, e.descriptors[id].prepared.value, e.descriptors[id].receipt.value)
        else None
  }

  /**
   * A claim's own preparation never fails to validate: it waits for its predecessor's receipt, and for nothing else.
   */
  lemma PreparationNeverFails(c: Codec, m: Mode, e: Evidence, row: Row)
    requires ValidEvidence(c, m, e) && row in e.rows && row.state == Pending
    requires forall prior :: prior in e.rows && Some(prior.requestId) == row.after ==> prior.target == row.target
    ensures row.requestId in e.descriptors
    ensures PreparationFor(c, m, e, row, e.descriptors[row.requestId]).Some? <==>
      || row.attempts > 0
      || row.after == None
      || exists prior :: prior in e.rows && prior.requestId == row.after.value && prior.state == Acknowledged
  {
    assert ValidRow(c, m, e, row);
    if row.attempts == 0 && row.after.Some? {
      if prior :| prior in e.rows && prior.requestId == row.after.value && prior.state == Acknowledged {
        assert ValidRow(c, m, e, prior);
        assert Follows(c, m, row, e.descriptors[row.requestId], prior, e.descriptors[prior.requestId]);
      }
    }
  }

  lemma PreparedRecord(c: Codec, m: Mode, e: Evidence, row: Row, p: Prepared)
    requires ValidEvidence(c, m, e) && row in e.rows && row.state == Pending && row.requestId in e.descriptors
    requires PreparationFor(c, m, e, row, e.descriptors[row.requestId]) == Some(p)
    ensures
      var claimed := row.(state := InFlight, attempts := row.attempts + 1);
      var d := e.descriptors[row.requestId].(prepared := Some(p));
      && ValidRecord(c, m, claimed, d)
      && forall prior :: prior in e.rows && Some(prior.requestId) == row.after ==>
           prior.requestId in e.descriptors && Follows(c, m, claimed, d, prior, e.descriptors[prior.requestId])
  {
    assert ValidRow(c, m, e, row);
    var d := e.descriptors[row.requestId];
    if row.after.Some? {
      forall prior | prior in e.rows && Some(prior.requestId) == row.after
        ensures prior.requestId in e.descriptors
        ensures
          Follows(c, m, row.(state := InFlight, attempts := row.attempts + 1), d.(prepared := Some(p)), prior,
                  e.descriptors[prior.requestId])
      {
        assert ValidRow(c, m, e, prior) && Follows(c, m, row, d, prior, e.descriptors[prior.requestId]);
      }
      if d.prepared == None {
        var prior :| prior in e.rows && prior.requestId == row.after.value && prior.state == Acknowledged;
        assert ValidRow(c, m, e, prior);
      }
    }
  }

  function OutcomeRow(c: Codec, row: Row, prepared: Prepared, outcome: BodyOutcome, attempts: nat): Row {
    match outcome
    case ReceiptArrived(receipt) =>
      if ValidReceipt(c, prepared, receipt)
      then row.(state := Acknowledged, attempts := attempts, acknowledgedVersion := Some(receipt.version))
      else row.(state := Pending, attempts := attempts)
    case ConflictFound => row.(state := Conflict, attempts := attempts)
    case WasRefused(code) => row.(state := Refused, attempts := attempts, refusal := Some(code))
    case NothingKnown => row.(state := Pending, attempts := attempts)
  }

  /** A receipt that does not bind its preparation is no receipt. */
  function OutcomeDescriptor(c: Codec, d: Descriptor, prepared: Prepared, outcome: BodyOutcome): Descriptor {
    if outcome.ReceiptArrived? && ValidReceipt(c, prepared, outcome.receipt) then d.(receipt := Some(outcome.receipt))
    else d
  }

  /**
   * An outcome's row and descriptor validate together: an acknowledgement has its receipt, and nothing else has one.
   */
  lemma OutcomeRecord(c: Codec, m: Mode, e: Evidence, row: Row, outcome: BodyOutcome, attempts: nat)
    requires ValidEvidence(c, m, e) && row in e.rows && row.state == InFlight && attempts >= 1
    ensures row.requestId in e.descriptors && e.descriptors[row.requestId].prepared.Some?
    ensures
      var prepared := e.descriptors[row.requestId].prepared.value;
      var next, d := OutcomeRow(c, row, prepared, outcome, attempts),
        OutcomeDescriptor(c, e.descriptors[row.requestId], prepared, outcome);
      && ValidRecord(c, m, next, d) && Progressed(row, next)
      && forall prior :: prior in e.rows && Some(prior.requestId) == row.after ==>
           prior.requestId in e.descriptors && Follows(c, m, next, d, prior, e.descriptors[prior.requestId])
  {
    assert ValidRow(c, m, e, row);
  }

  predicate MayRequeue(row: Row) {
    row.state == InFlight || (row.state == Refused && row.refusal.Some?
        && row.refusal.value in AUTHORIZATION_REFUSAL_CODES)
  }

  lemma RequeuedRecord(c: Codec, m: Mode, e: Evidence, row: Row)
    requires ValidEvidence(c, m, e) && row in e.rows && MayRequeue(row)
    ensures row.requestId in e.descriptors
    ensures
      var next, d := row.(state := Pending), e.descriptors[row.requestId];
      && ValidRecord(c, m, next, d) && Progressed(row, next)
      && forall prior :: prior in e.rows && Some(prior.requestId) == row.after ==>
           prior.requestId in e.descriptors && Follows(c, m, next, d, prior, e.descriptors[prior.requestId])
  {
    assert ValidRow(c, m, e, row);
  }

  // ---- what each verb leaves ----

  ghost predicate ClaimedAt(c: Codec, m: Mode, before: Evidence, after: Evidence, k: nat, requestId: RequestId,
                            claimed: Option<Prepared>) {
    && k < |before.rows| && before.rows[k].requestId == requestId && before.rows[k].state == Pending
       && requestId in before.descriptors
    && PreparationFor(c, m, before, before.rows[k], before.descriptors[requestId]) == claimed
    && after.rows == before.rows[k := before.rows[k].(state := InFlight, attempts := before.rows[k].attempts + 1)]
    && after.descriptors == before.descriptors[requestId := before.descriptors[requestId].(prepared := claimed)]
  }

  ghost predicate SettledAt(c: Codec, before: Evidence, after: Evidence, k: nat, requestId: RequestId,
                            outcome: BodyOutcome, attempts: nat) {
    && k < |before.rows| && before.rows[k].requestId == requestId && before.rows[k].state == InFlight
    && requestId in before.descriptors && before.descriptors[requestId].prepared.Some?
    && var prepared := before.descriptors[requestId].prepared.value;
       && after.rows == before.rows[k := OutcomeRow(c, before.rows[k], prepared, outcome, attempts)]
       && after.descriptors ==
            before.descriptors[requestId := OutcomeDescriptor(c, before.descriptors[requestId], prepared, outcome)]
  }

  ghost predicate RequeuedAt(before: seq<Row>, after: seq<Row>, k: nat, requestId: RequestId) {
    && k < |before| && before[k].requestId == requestId && MayRequeue(before[k])
    && after == before[k := before[k].(state := Pending)]
  }

  // ---- resolution ----

  predicate ContentRefused(row: Row) {
    row.state == Refused && row.refusal.Some? && row.refusal.value !in AUTHORIZATION_REFUSAL_CODES
  }

  function Unsettled(rows: seq<Row>): seq<Row> {
    if rows == [] then []
    else Unsettled(rows[..|rows| - 1]) + if rows[|rows| - 1].state == Acknowledged then [] else [rows[|rows| - 1]]
  }

  /**
   * The complete unsettled journal as one dependent chain whose head the authority answered, ending in the document.
   */
  predicate ResolvableChain(chain: seq<Row>, document: Option<string>) {
    && chain != [] && (chain[0].state == Conflict || ContentRefused(chain[0]))
    && (forall k :: 0 <= k < |chain| ==>
         chain[k].state == Conflict || chain[k].state == Refused
           || (chain[k].state == Pending && chain[k].attempts == 0))
    && (forall k :: 1 <= k < |chain| ==>
         chain[k].after == Some(chain[k - 1].requestId) && chain[k].base == Some(chain[k - 1].local))
    && document == Some(chain[|chain| - 1].content)
  }

  function SettledDescriptors(e: Evidence): map<RequestId, Descriptor> {
    map id | id in e.descriptors && HasRow(Settled(e.rows), id) :: e.descriptors[id]
  }

  /** Taking every unsettled row out leaves the acknowledged rows with their predecessors. */
  lemma UnsettledRetire(c: Codec, m: Mode, e: Evidence)
    requires ValidEvidence(c, m, e)
    ensures ValidEvidence(c, m, Evidence(Settled(e.rows), SettledDescriptors(e)))
  {
    var next := Evidence(Settled(e.rows), SettledDescriptors(e));
    SettledRows(e.rows);
    forall row | row in next.rows
      ensures row.requestId in next.descriptors && next.descriptors[row.requestId] == e.descriptors[row.requestId]
      ensures row.after.Some? && HasRow(e.rows, row.after.value) ==> HasRow(next.rows, row.after.value)
    {
      assert ValidRow(c, m, e, row);
      if row.after.Some? && HasRow(e.rows, row.after.value) {
        var prior :| prior in e.rows && prior.requestId == row.after.value;
        assert
          && ValidRow(c, m, e, prior)
          && Follows(c, m, row, e.descriptors[row.requestId], prior, e.descriptors[prior.requestId]);
      }
    }
    FewerRowsKeep(c, m, e, next);
  }

  function ResolvedRow(requestId: RequestId, target: Id, sequence: nat, served: Head, raw: string, now: nat): Row {
    Row(
      requestId, target, Some(served.version), Some(served.content), VersionOf(raw), raw, now, 0, Pending, sequence,
      None, None, None)
  }

  lemma ResolvedRecord(c: Codec, m: Mode, requestId: RequestId, target: Id, sequence: nat, served: Head, raw: string,
                       body: string, now: nat)
    requires c.carries(raw, body)
    ensures
      var row := ResolvedRow(requestId, target, sequence, served, raw, now);
      && ValidRecord(c, m, row, FreshDescriptor(m, row, body))
      && row.requestId == requestId && row.target == target && row.sequence == sequence && row.after == None
  {
  }

  lemma ResolvedKeeps(c: Codec, m: Mode, e: Evidence, row: Row, d: Descriptor)
    requires ValidEvidence(c, m, e) && Fresh(e, row.requestId) && row.after == None && ValidRecord(c, m, row, d)
    requires forall other :: other in e.rows ==> other.sequence < row.sequence
    ensures ValidEvidence(c, m, Evidence(Settled(e.rows) + [row], SettledDescriptors(e)[row.requestId := d]))
  {
    UnsettledRetire(c, m, e);
    SettledRows(e.rows);
    MoreRowsKeep(c, m, Evidence(Settled(e.rows), SettledDescriptors(e)), row, d);
  }

  // ---- retirement of acknowledged history ----

  function NewestAcknowledged(rows: seq<Row>): (k: nat)
    ensures k <= |rows|
    ensures k < |rows| ==> rows[k].state == Acknowledged
    ensures forall j :: k < j < |rows| ==> rows[j].state != Acknowledged
    ensures k == |rows| ==> forall j :: 0 <= j < |rows| ==> rows[j].state != Acknowledged
  {
    if rows == [] then 0
    else if rows[|rows| - 1].state == Acknowledged then |rows| - 1
    else
      var k := NewestAcknowledged(rows[..|rows| - 1]);
      if k == |rows| - 1 then |rows| else k
  }

  /** Nothing retires while an unsettled row is older than the newest acknowledged one or names an older row. */
  predicate MayRetire(rows: seq<Row>, newest: nat) {
    && 0 < newest < |rows| && rows[newest].state == Acknowledged
    && (forall k :: 0 <= k < newest ==> rows[k].state == Acknowledged)
    && (forall j, k :: newest < k < |rows| && 0 <= j < newest ==> rows[k].after != Some(rows[j].requestId))
  }

  function RetiredEvidence(e: Evidence, newest: nat): Evidence
    requires newest <= |e.rows|
  {
    Evidence(e.rows[newest..], map id | id in e.descriptors && HasRow(e.rows[newest..], id) :: e.descriptors[id])
  }

  lemma KeptRows(rows: seq<Row>, newest: nat)
    requires newest <= |rows|
    ensures forall j :: newest <= j < |rows| ==> HasRow(rows[newest..], rows[j].requestId)
  {
    forall j | newest <= j < |rows| ensures HasRow(rows[newest..], rows[j].requestId) {
      assert rows[newest..][j - newest] == rows[j];
    }
  }

  /** Only the newest acknowledged row can lose its predecessor. */
  lemma OnlyNewestLoses(rows: seq<Row>, newest: nat, k: nat)
    requires MayRetire(rows, newest) && newest <= k < |rows| && rows[k].after.Some?
    requires HasRow(rows, rows[k].after.value) && !HasRow(rows[newest..], rows[k].after.value)
    ensures k == newest
  {
    KeptRows(rows, newest);
    var prior :| prior in rows && prior.requestId == rows[k].after.value;
    var j :| 0 <= j < |rows| && rows[j] == prior;
  }

  lemma NewestIsOldest(rows: seq<Row>, newest: nat)
    requires Ordered(rows) && MayRetire(rows, newest)
    ensures newest < |rows| && rows[newest].state == Acknowledged
    ensures forall other :: other in rows[newest..] ==> other.sequence >= rows[newest].sequence
  {
    assert forall k :: newest <= k < |rows| ==> rows[newest..][k - newest] == rows[k];
  }

  lemma RetainedRow(c: Codec, m: Mode, e: Evidence, newest: nat, row: Row)
    requires ValidEvidence(c, m, e) && MayRetire(e.rows, newest) && row in e.rows[newest..]
    ensures
      var next := RetiredEvidence(e, newest);
      && row in e.rows && row.requestId in next.descriptors
         && next.descriptors[row.requestId] == e.descriptors[row.requestId]
      && (row.after.Some? && HasRow(e.rows, row.after.value) && !HasRow(next.rows, row.after.value) ==>
            row.state == Acknowledged && forall other :: other in next.rows ==> other.sequence >= row.sequence)
  {
    hide ValidRecord, Follows, MayLackPredecessor;
    assert HasRow(e.rows[newest..], row.requestId);
    NewestIsOldest(e.rows, newest);
    var i :| 0 <= i < |e.rows[newest..]| && e.rows[newest..][i] == row;
    assert e.rows[newest + i] == row;
    assert ValidRow(c, m, e, row);
    if row.after.Some? && HasRow(e.rows, row.after.value) && !HasRow(e.rows[newest..], row.after.value) {
      OnlyNewestLoses(e.rows, newest, newest + i);
    }
  }

  /** What is left after retirement validates on its own, so the re-check before it never fails. */
  lemma RetirementKeepsEvidence(c: Codec, m: Mode, e: Evidence, newest: nat)
    requires ValidEvidence(c, m, e) && MayRetire(e.rows, newest)
    ensures ValidEvidence(c, m, RetiredEvidence(e, newest))
  {
    assert newest <= |e.rows| && Ordered(e.rows[newest..]);
    hide ValidEvidence, HasRow, MayRetire, Ordered;
    var next := RetiredEvidence(e, newest);
    forall row | row in next.rows
      ensures row in e.rows && row.requestId in next.descriptors
      ensures next.descriptors[row.requestId] == e.descriptors[row.requestId]
      ensures row.after.Some? && HasRow(e.rows, row.after.value) && !HasRow(next.rows, row.after.value) ==>
        row.state == Acknowledged && forall other :: other in next.rows ==> other.sequence >= row.sequence
    {
      RetainedRow(c, m, e, newest, row);
    }
    FewerRowsKeep(c, m, e, next);
  }

  /** No unsettled row, and no predecessor of one, is ever among the retired. */
  lemma RetirementSparesTheUnsettled(c: Codec, m: Mode, e: Evidence, newest: nat, row: Row)
    requires ValidEvidence(c, m, e) && MayRetire(e.rows, newest) && row in e.rows && row.state != Acknowledged
    ensures row in e.rows[newest..]
    ensures row.after.Some? ==> HasRow(e.rows[newest..], row.after.value)
  {
    hide ValidRecord, Follows;
    var k :| 0 <= k < |e.rows| && e.rows[k] == row;
    assert k > newest && e.rows[newest..][k - newest] == row;
    assert ValidRow(c, m, e, row);
    if row.after.Some? {
      var prior :| prior in e.rows && prior.requestId == row.after.value;
      var j :| 0 <= j < |e.rows| && e.rows[j] == prior;
      assert j >= newest;
      assert e.rows[newest..][j - newest] == prior;
    }
  }

  /**
   * What is charged against the journal's capacity, however each part is encoded: rows, descriptors, and what is
   * reserved for the evidence every unsettled row still lacks.
   */
  function Charge(c: Costs, e: Evidence, keys: seq<RequestId>): nat {
    RowCharge(c, e.rows) + KeyCharge(c, e.descriptors, keys) + Reserved(c, e.rows, e.descriptors)
  }

  datatype Costs = Costs(
    rowBytes: Row -> nat,
    descriptorBytes: (RequestId, Option<Descriptor>) -> nat,
    reserve: (Row, Option<Descriptor>) -> nat)

  function DescriptorOf(descriptors: map<RequestId, Descriptor>, id: RequestId): Option<Descriptor> {
    if id in descriptors then Some(descriptors[id]) else None
  }

  function RowCharge(c: Costs, rows: seq<Row>): nat {
    if rows == [] then 0 else c.rowBytes(rows[0]) + 1 + RowCharge(c, rows[1..])
  }

  /** A key that was read and holds nothing is still charged, as an absence. */
  function KeyCharge(c: Costs, descriptors: map<RequestId, Descriptor>, keys: seq<RequestId>): nat {
    if keys == [] then 0
    else c.descriptorBytes(keys[0], DescriptorOf(descriptors, keys[0])) + 1 + KeyCharge(c, descriptors, keys[1..])
  }

  function Reserved(c: Costs, rows: seq<Row>, descriptors: map<RequestId, Descriptor>): nat {
    if rows == [] then 0
    else
      (if rows[0].state == Acknowledged then 0 else c.reserve(rows[0], DescriptorOf(descriptors, rows[0].requestId)))
      + Reserved(c, rows[1..], descriptors)
  }

  lemma {:induction false} FewerRowsCharge(c: Costs, rows: seq<Row>, newest: nat)
    requires newest <= |rows|
    ensures RowCharge(c, rows[newest..]) <= RowCharge(c, rows)
  {
    if newest > 0 {
      assert rows[1..][newest - 1..] == rows[newest..];
      FewerRowsCharge(c, rows[1..], newest - 1);
    } else {
      assert rows[0..] == rows;
    }
  }

  lemma {:induction false} FewerDescriptorsCharge(c: Costs, fewer: map<RequestId, Descriptor>,
                                                  descriptors: map<RequestId, Descriptor>, keys: seq<RequestId>)
    requires forall id :: id in fewer ==> id in descriptors && fewer[id] == descriptors[id]
    requires forall id, d :: c.descriptorBytes(id, None) <= c.descriptorBytes(id, Some(d))
    ensures KeyCharge(c, fewer, keys) <= KeyCharge(c, descriptors, keys)
  {
    if keys != [] {
      FewerDescriptorsCharge(c, fewer, descriptors, keys[1..]);
    }
  }

  /** Acknowledged rows reserve nothing. */
  lemma {:induction false} AcknowledgedReserveNothing(c: Costs, rows: seq<Row>, newest: nat,
                                                      descriptors: map<RequestId, Descriptor>)
    requires newest <= |rows| && forall k :: 0 <= k < newest ==> rows[k].state == Acknowledged
    ensures Reserved(c, rows[newest..], descriptors) == Reserved(c, rows, descriptors)
  {
    if newest > 0 {
      assert rows[1..][newest - 1..] == rows[newest..];
      AcknowledgedReserveNothing(c, rows[1..], newest - 1, descriptors);
    } else {
      assert rows[0..] == rows;
    }
  }

  lemma {:induction false} SameReserve(c: Costs, rows: seq<Row>, fewer: map<RequestId, Descriptor>,
                                       descriptors: map<RequestId, Descriptor>)
    requires forall row :: row in rows ==>
      DescriptorOf(fewer, row.requestId) == DescriptorOf(descriptors, row.requestId)
    ensures Reserved(c, rows, fewer) == Reserved(c, rows, descriptors)
  {
    if rows != [] {
      SameReserve(c, rows[1..], fewer, descriptors);
    }
  }

  /**
   * Retirement never raises the charge: rows leave, a removed descriptor is charged as an absence, and every
   * unsettled row reserves what it did.
   */
  lemma RetirementLowersTheCharge(c: Costs, e: Evidence, newest: nat, keys: seq<RequestId>)
    requires MayRetire(e.rows, newest)
    requires forall id, d :: c.descriptorBytes(id, None) <= c.descriptorBytes(id, Some(d))
    ensures Charge(c, RetiredEvidence(e, newest), keys) <= Charge(c, e, keys)
    ensures
      var next := RetiredEvidence(e, newest);
      Reserved(c, next.rows, next.descriptors) == Reserved(c, e.rows, e.descriptors)
  {
    var next := RetiredEvidence(e, newest);
    FewerRowsCharge(c, e.rows, newest);
    FewerDescriptorsCharge(c, next.descriptors, e.descriptors, keys);
    AcknowledgedReserveNothing(c, e.rows, newest, e.descriptors);
    forall row | row in next.rows
      ensures DescriptorOf(next.descriptors, row.requestId) == DescriptorOf(e.descriptors, row.requestId)
    {
      assert HasRow(next.rows, row.requestId);
    }
    SameReserve(c, next.rows, next.descriptors, e.descriptors);
  }

  // ---- identities and sequences ----

  /** The rows are this document's, sequences and identities are spent once, and each descriptor has its row. */
  ghost predicate Named(e: Evidence, target: Id, nextSequence: nat, minted: set<RequestId>) {
    && (forall row :: row in e.rows ==>
          row.target == target && row.sequence < nextSequence && row.requestId in minted
            && (row.after.Some? ==> row.after.value in minted))
    && (forall id :: id in e.descriptors ==> id in minted && HasRow(e.rows, id))
  }

  lemma RowsOrdered(c: Codec, m: Mode, e: Evidence)
    requires ValidEvidence(c, m, e)
    ensures Ordered(e.rows)
  {
  }

  lemma NamedFresh(e: Evidence, target: Id, nextSequence: nat, minted: set<RequestId>, id: RequestId)
    requires Named(e, target, nextSequence, minted) && id !in minted
    ensures Fresh(e, id) && forall other :: other in e.rows ==> other.sequence < nextSequence
  {
  }

  lemma AppendedNamed(e: Evidence, row: Row, d: Descriptor, target: Id, nextSequence: nat, minted: set<RequestId>)
    requires Named(e, target, nextSequence, minted) && row.target == target && row.sequence == nextSequence
    requires row.after.Some? ==> row.after.value in minted
    ensures
      Named(Evidence(e.rows + [row], e.descriptors[row.requestId := d]), target, nextSequence + 1,
            minted + {row.requestId})
  {
    var next := Evidence(e.rows + [row], e.descriptors[row.requestId := d]);
    assert row in next.rows;
    forall id | id in next.descriptors ensures HasRow(next.rows, id) {
      if id != row.requestId {
        var other :| other in e.rows && other.requestId == id;
        assert other in next.rows;
      }
    }
  }

  lemma FewerNamed(e: Evidence, next: Evidence, target: Id, nextSequence: nat, minted: set<RequestId>)
    requires Named(e, target, nextSequence, minted) && forall row :: row in next.rows ==> row in e.rows
    requires forall id :: id in next.descriptors ==> id in e.descriptors && HasRow(next.rows, id)
    ensures Named(next, target, nextSequence, minted)
  {
  }

  lemma WithoutNamed(e: Evidence, gone: RequestId, target: Id, nextSequence: nat, minted: set<RequestId>)
    requires Ordered(e.rows) && Named(e, target, nextSequence, minted)
    ensures Named(Evidence(Without(e.rows, gone), e.descriptors - {gone}), target, nextSequence, minted)
  {
    var next := Evidence(Without(e.rows, gone), e.descriptors - {gone});
    WithoutRows(e.rows, gone);
    forall id | id in next.descriptors ensures HasRow(next.rows, id) {
      var other :| other in e.rows && other.requestId == id;
      assert other in next.rows;
    }
    FewerNamed(e, next, target, nextSequence, minted);
  }

  lemma SettledNamed(e: Evidence, target: Id, nextSequence: nat, minted: set<RequestId>)
    requires Ordered(e.rows) && Named(e, target, nextSequence, minted)
    ensures Named(Evidence(Settled(e.rows), SettledDescriptors(e)), target, nextSequence, minted)
  {
    SettledRows(e.rows);
    FewerNamed(e, Evidence(Settled(e.rows), SettledDescriptors(e)), target, nextSequence, minted);
  }

  lemma RetiredNamed(e: Evidence, newest: nat, target: Id, nextSequence: nat, minted: set<RequestId>)
    requires newest <= |e.rows| && Named(e, target, nextSequence, minted)
    ensures Named(RetiredEvidence(e, newest), target, nextSequence, minted)
  {
    FewerNamed(e, RetiredEvidence(e, newest), target, nextSequence, minted);
  }

  lemma ProgressNamed(e: Evidence, k: nat, row: Row, d: Descriptor, target: Id, nextSequence: nat,
                      minted: set<RequestId>)
    requires Named(e, target, nextSequence, minted) && k < |e.rows| && Progressed(e.rows[k], row)
    ensures Named(Evidence(e.rows[k := row], e.descriptors[row.requestId := d]), target, nextSequence, minted)
  {
    SameRows(e.rows, k, row);
  }

  /** What a commit is admitted on: a known premise, and bytes that carry the body. */
  lemma CommitAdmitted(c: Codec, m: Mode, e: Evidence, requestId: RequestId, target: Id, sequence: nat, raw: string,
                       now: nat, shared: Option<Head>, body: string)
    requires ValidEvidence(c, m, e)
    ensures
      var row := FreshRow(e, requestId, target, sequence, raw, now, shared);
      (row.after.Some? || row.base.Some?) && ValidRecord(c, m, row, FreshDescriptor(m, row, body))
      <==> c.carries(raw, body) && (LatestUnsettled(e.rows).Some? || shared.Some?)
  {
    LatestIsLatest(e.rows);
    assert LatestUnsettled(e.rows).Some? ==> ValidRow(c, m, e, LatestUnsettled(e.rows).value);
  }

  lemma FreshAfter(e: Evidence, requestId: RequestId, target: Id, sequence: nat, raw: string, now: nat,
                   shared: Option<Head>, minted: set<RequestId>)
    requires Ordered(e.rows) && Named(e, target, sequence, minted)
    ensures
      var row := FreshRow(e, requestId, target, sequence, raw, now, shared);
      row.target == target && row.sequence == sequence && row.requestId == requestId
        && (row.after.Some? ==> row.after.value in minted)
  {
    LatestIsLatest(e.rows);
  }

  // ---- the store's one document ----

  class Journal {
    const codec: Codec
    const mode: Mode
    const target: Id
    var rows: seq<Row>
    var descriptors: map<RequestId, Descriptor>
    var nextSequence: nat
    ghost var minted: set<RequestId>

    ghost function View(): Evidence
      reads this
    {
      Evidence(rows, descriptors)
    }

    /** Every read of this journal finds evidence it accepts, and nothing beside it. */
    ghost predicate Valid()
      reads this
    {
      ValidEvidence(codec, mode, View()) && Named(View(), target, nextSequence, minted)
    }

    constructor (codec: Codec, mode: Mode, target: Id)
      ensures Valid() && View() == Evidence([], map[]) && this.codec == codec && this.mode == mode
      ensures this.target == target
    {
      this.codec, this.mode, this.target := codec, mode, target;
      rows, descriptors, nextSequence, minted := [], map[], 0, {};
    }

    method Find(requestId: RequestId) returns (k: nat)
      ensures k <= |rows|
      ensures k < |rows| ==> rows[k].requestId == requestId
      ensures k == |rows| ==> !HasRow(rows, requestId)
    {
      k := 0;
      while k < |rows| && rows[k].requestId != requestId
        invariant k <= |rows| && forall j :: 0 <= j < k ==> rows[j].requestId != requestId
      {
        k := k + 1;
      }
    }

    /** Journal a body edit; refused without a premise or when its own record would not validate. */
    method Commit(requestId: RequestId, raw: string, body: string, now: nat, shared: Option<Head>)
        returns (journaled: bool)
      requires Valid() && requestId !in minted
      modifies this
      ensures Valid() && minted == (if journaled then old(minted) + {requestId} else old(minted))
      ensures journaled <==> codec.carries(raw, body) && (LatestUnsettled(old(rows)).Some? || shared.Some?)
      ensures !journaled ==> View() == old(View())
      ensures journaled ==>
        var row := FreshRow(old(View()), requestId, target, old(nextSequence), raw, now, shared);
        View() == CommittedEvidence(old(View()), row, FreshDescriptor(mode, row, body))
    {
      hide ValidEvidence, ValidRecord, FreshRow, FreshDescriptor, Superseded, LatestUnsettled, Without, Named, Fresh;
      hide Ordered;
      var e := Evidence(rows, descriptors);
      RowsOrdered(codec, mode, e);
      var row := FreshRow(e, requestId, target, nextSequence, raw, now, shared);
      var d := FreshDescriptor(mode, row, body);
      CommitAdmitted(codec, mode, e, requestId, target, nextSequence, raw, now, shared, body);
      if (row.after == None && row.base == None) || !ValidRecord(codec, mode, row, d) {
        return false;
      }
      NamedFresh(e, target, nextSequence, minted, requestId);
      CommitKeepsEvidence(codec, mode, e, requestId, target, nextSequence, raw, now, shared, body);
      FreshAfter(e, requestId, target, nextSequence, raw, now, shared, minted);
      var gone := Superseded(e);
      if gone.Some? {
        WithoutNamed(e, gone.value.requestId, target, nextSequence, minted);
        rows, descriptors := Without(rows, gone.value.requestId), descriptors - {gone.value.requestId};
      }
      AppendedNamed(Evidence(rows, descriptors), row, d, target, nextSequence, minted);
      rows, descriptors := rows + [row], descriptors[requestId := d];
      nextSequence := nextSequence + 1;
      minted := minted + {requestId};
      journaled := true;
    }

    /** Claim a pending row with its durable preparation; it waits while its predecessor has no receipt. */
    method Claim(requestId: RequestId) returns (claimed: Option<Prepared>)
      requires Valid()
      modifies this`rows, this`descriptors
      ensures Valid()
      ensures claimed == None ==> View() == old(View())
      ensures claimed.Some? ==> exists k :: ClaimedAt(codec, mode, old(View()), View(), k, requestId, claimed)
    {
      var k := Find(requestId);
      if k == |rows| || rows[k].state != Pending {
        return None;
      }
      var e := Evidence(rows, descriptors);
      var row := rows[k];
      PreparationNeverFails(codec, mode, e, row);
      claimed := PreparationFor(codec, mode, e, row, descriptors[requestId]);
      if claimed.Some? {
        PreparedRecord(codec, mode, e, row, claimed.value);
        Record(k, row.(state := InFlight, attempts := row.attempts + 1), descriptors[requestId].(prepared := claimed));
        assert ClaimedAt(codec, mode, e, View(), k, requestId, claimed);
      }
    }

    /** Settle an in-flight row against what its delivery learned; a receipt that does not bind it is no answer. */
    method Settle(requestId: RequestId, outcome: BodyOutcome, attempts: nat) returns (settled: bool)
      requires Valid() && attempts >= 1
      modifies this`rows, this`descriptors
      ensures Valid()
      ensures !settled ==>
        && View() == old(View())
        && !exists k :: 0 <= k < |old(rows)| && old(rows)[k].requestId == requestId && old(rows)[k].state == InFlight
      ensures settled ==> exists k :: SettledAt(codec, old(View()), View(), k, requestId, outcome, attempts)
    {
      var k := Find(requestId);
      if k == |rows| || rows[k].state != InFlight {
        if k < |rows| {
          assert forall j :: 0 <= j < |rows| && rows[j].requestId == requestId ==> j == k;
        }
        return false;
      }
      OutcomeRecord(codec, mode, View(), rows[k], outcome, attempts);
      ghost var was := View();
      var prepared := descriptors[requestId].prepared.value;
      Record(k, OutcomeRow(codec, rows[k], prepared, outcome, attempts),
          OutcomeDescriptor(codec, descriptors[requestId], prepared, outcome));
      assert SettledAt(codec, was, View(), k, requestId, outcome, attempts);
      settled := true;
    }

    /** Requeue a row refused for lost permission, or one a dead realm left in flight, with its attempts. */
    method Requeue(requestId: RequestId) returns (requeued: bool)
      requires Valid()
      modifies this`rows, this`descriptors
      ensures Valid() && descriptors == old(descriptors)
      ensures !requeued ==> rows == old(rows)
      ensures requeued ==> exists k :: RequeuedAt(old(rows), rows, k, requestId)
    {
      var k := Find(requestId);
      if k == |rows| || !MayRequeue(rows[k]) {
        return false;
      }
      RequeuedRecord(codec, mode, View(), rows[k]);
      hide ValidEvidence, Named, ValidRecord, Follows;
      ghost var was := rows;
      Record(k, rows[k].(state := Pending), descriptors[requestId]);
      assert RequeuedAt(was, rows, k, requestId);
      requeued := true;
    }

    /** One row's progress and its descriptor, in one transaction. */
    method Record(k: nat, row: Row, d: Descriptor)
      requires Valid() && k < |rows| && rows[k].state != Acknowledged && Progressed(rows[k], row)
      requires ValidRecord(codec, mode, row, d)
      requires forall prior :: prior in rows && Some(prior.requestId) == row.after ==>
        prior.requestId in descriptors && Follows(codec, mode, row, d, prior, descriptors[prior.requestId])
      modifies this`rows, this`descriptors
      ensures Valid() && rows == old(rows)[k := row] && descriptors == old(descriptors)[row.requestId := d]
    {
      ProgressKeeps(codec, mode, View(), k, row, d);
      ProgressNamed(View(), k, row, d, target, nextSequence, minted);
      hide ValidEvidence, Named;
      rows, descriptors := rows[k := row], descriptors[row.requestId := d];
    }

    /** Retire the reviewed chain with its descriptors, and journal one fresh update unless the head is taken. */
    method Resolve(document: Option<string>, replacement: Option<(RequestId, string, string)>, served: Option<Head>,
                   now: nat) returns (resolved: bool)
      requires Valid() && (replacement.Some? ==> replacement.value.0 !in minted)
      modifies this
      ensures Valid()
      ensures resolved <==> ResolvableChain(Unsettled(old(rows)), document) && (replacement.Some? ==>
          served.Some? && codec.carries(replacement.value.1, replacement.value.2))
      ensures !resolved ==> View() == old(View())
      ensures resolved && replacement == None ==>
        View() == Evidence(Settled(old(rows)), SettledDescriptors(old(View())))
      ensures resolved && replacement.Some? ==>
        var row := ResolvedRow(replacement.value.0, target, old(nextSequence), served.value, replacement.value.1, now);
        View() == Evidence(Settled(old(rows)) + [row],
            SettledDescriptors(old(View()))[row.requestId := FreshDescriptor(mode, row, replacement.value.2)])
    {
      hide ValidEvidence, Named, Settled, SettledDescriptors, ResolvableChain, Unsettled, Ordered, ValidRecord, Fresh;
      hide ResolvedRow, FreshDescriptor;
      if
        || !ResolvableChain(Unsettled(rows), document)
        || (replacement.Some? && (served == None || !codec.carries(replacement.value.1, replacement.value.2)))
      {
        return false;
      }
      var e := Evidence(rows, descriptors);
      RowsOrdered(codec, mode, e);
      UnsettledRetire(codec, mode, e);
      SettledNamed(e, target, nextSequence, minted);
      if replacement.Some? {
        var row := ResolvedRow(replacement.value.0, target, nextSequence, served.value, replacement.value.1, now);
        var d := FreshDescriptor(mode, row, replacement.value.2);
        ResolvedRecord(
          codec, mode, replacement.value.0, target, nextSequence, served.value, replacement.value.1,
          replacement.value.2, now);
        NamedFresh(e, target, nextSequence, minted, row.requestId);
        ResolvedKeeps(codec, mode, e, row, d);
        AppendedNamed(Evidence(Settled(rows), SettledDescriptors(e)), row, d, target, nextSequence, minted);
        rows, descriptors := Settled(rows) + [row], SettledDescriptors(e)[row.requestId := d];
        nextSequence := nextSequence + 1;
        minted := minted + {row.requestId};
      } else {
        rows, descriptors := Settled(rows), SettledDescriptors(e);
      }
      resolved := true;
    }

    /** Retire acknowledged history older than the newest acknowledged row, or leave everything where it is. */
    method RetireAcknowledged() returns (retired: nat)
      requires Valid()
      modifies this`rows, this`descriptors
      ensures Valid()
      ensures if MayRetire(old(rows), NewestAcknowledged(old(rows)))
              then retired == NewestAcknowledged(old(rows)) && View() == RetiredEvidence(old(View()), retired)
              else retired == 0 && View() == old(View())
    {
      hide ValidEvidence, Named, RetiredEvidence, MayRetire;
      var newest := NewestAcknowledged(rows);
      var e := Evidence(rows, descriptors);
      if !MayRetire(rows, newest) {
        return 0;
      }
      RetirementKeepsEvidence(codec, mode, e, newest);
      RetiredNamed(e, newest, target, nextSequence, minted);
      var next := RetiredEvidence(e, newest);
      rows, descriptors := next.rows, next.descriptors;
      retired := newest;
    }
  }
}
