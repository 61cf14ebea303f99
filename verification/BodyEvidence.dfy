/**
 * Body-mode delivery evidence of one document: its journal rows, one descriptor for each, and the validator
 * every read runs over all of them. A descriptor holds the edit's body, its durable preparation once the row
 * is attempted, and the authority's receipt once it is acknowledged.
 */
module BodyEvidence {
  import opened Records

  datatype Mode = Mode(scope: string, edition: string)

  /** What the document codec says of bytes and a body: the bytes are a typed document with that body. */
  datatype Codec = Codec(carries: (string, string) -> bool)

  datatype Row = Row(
    requestId: RequestId, target: Id, base: Option<Version>, baseContent: Option<string>, local: Version,
      content: string,
    createdAt: nat, attempts: nat, state: RowState, sequence: nat, after: Option<RequestId>,
    acknowledgedVersion: Option<Version>, refusal: Option<string>)

  datatype Predecessor = Predecessor(requestId: RequestId, acknowledgedVersion: Version)

  datatype Prepared = Prepared(
    scope: string, edition: string, requestId: RequestId, target: Id, body: string, expectedVersion: Version,
    local: Version, content: string, createdAt: nat, predecessor: Option<Predecessor>)

  datatype Receipt = Receipt(
    scope: string, requestId: RequestId, target: Id, expectedVersion: Version, body: string, version: Version,
      content: string)

  datatype Descriptor = Descriptor(
    requestId: RequestId, target: Id, scope: string, edition: string, body: string, initialVersion: Option<Version>,
    prepared: Option<Prepared>, receipt: Option<Receipt>)

  datatype Evidence = Evidence(rows: seq<Row>, descriptors: map<RequestId, Descriptor>)

  // ---- the delivery codec ----

  predicate ValidPrepared(c: Codec, p: Prepared) {
    && c.carries(p.content, p.body) && VersionOf(p.content) == p.local
    && (p.predecessor.Some? ==>
         p.predecessor.value.requestId != p.requestId && p.predecessor.value.acknowledgedVersion == p.expectedVersion)
  }

  predicate ValidReceipt(c: Codec, p: Prepared, r: Receipt) {
    && r.scope == p.scope && r.requestId == p.requestId && r.target == p.target
       && r.expectedVersion == p.expectedVersion && r.body == p.body
    && c.carries(r.content, r.body)
  }

  /** A first row's preparation stands on its initial premise; refused when it would not validate. */
  function PrepareInitial(c: Codec, m: Mode, row: Row, body: string, expected: Version): Option<Prepared> {
    var p := Prepared(
      m.scope, m.edition, row.requestId, row.target, body, expected, row.local, row.content, row.createdAt, None);
    if ValidPrepared(c, p) then Some(p) else None
  }

  /** A successor's preparation derives its premise from its predecessor's preparation and receipt. */
  function PrepareNext(c: Codec, m: Mode, row: Row, body: string, prior: Prepared, receipt: Receipt): Option<Prepared> {
    var p := Prepared(
      m.scope, m.edition, row.requestId, row.target, body, receipt.version, row.local, row.content, row.createdAt,
      Some(Predecessor(prior.requestId, receipt.version)));
    if && ValidPrepared(c, prior) && ValidReceipt(c, prior, receipt) && ValidPrepared(c, p)
       && m.scope == prior.scope && row.target == prior.target && m.edition == prior.edition
       && row.requestId != prior.requestId
    then Some(p) else None
  }

  // ---- the validator ----

  predicate BindsPrepared(m: Mode, row: Row, d: Descriptor, p: Prepared) {
    && p.requestId == row.requestId && p.target == row.target && p.local == row.local && p.content == row.content
    && p.createdAt == row.createdAt && p.scope == m.scope && p.edition == m.edition && p.body == d.body
    && (row.after == None ==> Some(p.expectedVersion) == d.initialVersion && p.predecessor == None)
    && (row.after.Some? ==> p.predecessor.Some? && Some(p.predecessor.value.requestId) == row.after)
  }

  predicate ValidRecord(c: Codec, m: Mode, row: Row, d: Descriptor) {
    && (row.state != Pending ==> row.attempts > 0)
    && d.requestId == row.requestId && d.target == row.target && d.scope == m.scope && d.edition == m.edition
    && VersionOf(row.content) == row.local && c.carries(row.content, d.body)
    && row.base.Some?
    && d.initialVersion == (if row.after == None then row.base else None)
    && (d.prepared.Some? <==> row.attempts > 0)
    && (d.prepared.Some? ==> ValidPrepared(c, d.prepared.value) && BindsPrepared(m, row, d, d.prepared.value))
    && (d.receipt.Some? <==> row.state == Acknowledged)
    && (d.receipt.Some? ==>
          d.prepared.Some? && ValidReceipt(c, d.prepared.value, d.receipt.value)
            && row.acknowledgedVersion == Some(d.receipt.value.version))
  }

  predicate HasRow(rows: seq<Row>, id: RequestId) {
    exists row :: row in rows && row.requestId == id
  }

  /** A row follows its predecessor's bytes, and its preparation follows its predecessor's receipt. */
  predicate Follows(c: Codec, m: Mode, row: Row, d: Descriptor, prior: Row, e: Descriptor) {
    && prior.sequence < row.sequence && Some(prior.local) == row.base && Some(prior.content) == row.baseContent
    && (d.prepared.Some? ==>
          e.prepared.Some? && e.receipt.Some?
            && d.prepared == PrepareNext(c, m, row, d.prepared.value.body, e.prepared.value, e.receipt.value))
  }

  /** A predecessor may be gone only for the oldest row, once that is acknowledged with its receipt. */
  predicate MayLackPredecessor(rows: seq<Row>, row: Row, d: Descriptor) {
    && row.state == Acknowledged && d.receipt.Some?
    && (forall other :: other in rows ==> other.sequence >= row.sequence)
    && row.baseContent.Some? && Some(VersionOf(row.baseContent.value)) == row.base
  }

  predicate ValidRow(c: Codec, m: Mode, e: Evidence, row: Row) {
    && row.requestId in e.descriptors && ValidRecord(c, m, row, e.descriptors[row.requestId])
    && (row.after.Some? ==>
          && (forall prior :: prior in e.rows && Some(prior.requestId) == row.after ==>
                prior.requestId in e.descriptors
                  && Follows(c, m, row, e.descriptors[row.requestId], prior, e.descriptors[prior.requestId]))
          && (!HasRow(e.rows, row.after.value) ==> MayLackPredecessor(e.rows, row, e.descriptors[row.requestId])))
  }

  /** What the store itself keeps: rows in the order of their sequence, under distinct identities. */
  predicate Ordered(rows: seq<Row>) {
    forall i, j :: 0 <= i < j < |rows| ==> rows[i].sequence < rows[j].sequence && rows[i].requestId != rows[j].requestId
  }

  predicate ValidEvidence(c: Codec, m: Mode, e: Evidence) {
    Ordered(e.rows) && forall row :: row in e.rows ==> ValidRow(c, m, e, row)
  }

  lemma SameIdentity(rows: seq<Row>, first: Row, second: Row)
    requires Ordered(rows) && first in rows && second in rows && first.requestId == second.requestId
    ensures first == second
  {
    var i, j :| 0 <= i < |rows| && rows[i] == first && 0 <= j < |rows| && rows[j] == second;
    assert i == j;
  }

  // ---- what every writer relies on ----

  /** Leaving rows out keeps the rest valid when each keeps its predecessor, or no longer needs it. */
  lemma FewerRowsKeep(c: Codec, m: Mode, e: Evidence, next: Evidence)
    requires ValidEvidence(c, m, e) && Ordered(next.rows)
    requires forall row :: row in next.rows ==>
      && row in e.rows
      && row.requestId in next.descriptors
      && next.descriptors[row.requestId] == e.descriptors[row.requestId]
      && (row.after.Some? && HasRow(e.rows, row.after.value) && !HasRow(next.rows, row.after.value) ==>
            row.state == Acknowledged && forall other :: other in next.rows ==> other.sequence >= row.sequence)
    ensures ValidEvidence(c, m, next)
  {
    forall row | row in next.rows ensures ValidRow(c, m, next, row) {
      assert ValidRow(c, m, e, row);
      if row.after.Some? && !HasRow(next.rows, row.after.value) {
        if HasRow(e.rows, row.after.value) {
          var prior :| prior in e.rows && prior.requestId == row.after.value;
          assert
            && ValidRow(c, m, e, prior)
            && Follows(c, m, row, e.descriptors[row.requestId], prior, e.descriptors[prior.requestId]);
        }
        assert MayLackPredecessor(next.rows, row, next.descriptors[row.requestId]);
      }
    }
  }

  /** A fresh row at the end keeps the rest valid. */
  lemma MoreRowsKeep(c: Codec, m: Mode, e: Evidence, row: Row, d: Descriptor)
    requires ValidEvidence(c, m, e) && !HasRow(e.rows, row.requestId) && row.requestId !in e.descriptors
    requires forall other :: other in e.rows ==> other.sequence < row.sequence && other.after != Some(row.requestId)
    requires row.after != Some(row.requestId) && ValidRecord(c, m, row, d)
    requires row.after.Some? ==> HasRow(e.rows, row.after.value)
    requires forall prior :: prior in e.rows && Some(prior.requestId) == row.after ==>
      Follows(c, m, row, d, prior, e.descriptors[prior.requestId])
    ensures ValidEvidence(c, m, Evidence(e.rows + [row], e.descriptors[row.requestId := d]))
  {
    var next := Evidence(e.rows + [row], e.descriptors[row.requestId := d]);
    assert Ordered(next.rows) by {
      assert forall i :: 0 <= i < |e.rows| ==> e.rows[i] in e.rows;
    }
    forall other | other in next.rows ensures ValidRow(c, m, next, other) {
      if other != row {
        assert ValidRow(c, m, e, other);
        StillFollows(c, m, e, next, other, row);
      } else {
        assert forall prior :: prior in next.rows && Some(prior.requestId) == row.after ==> prior in e.rows;
        if row.after.Some? {
          var prior :| prior in e.rows && prior.requestId == row.after.value;
          assert prior in next.rows;
        }
      }
    }
  }

  lemma StillFollows(c: Codec, m: Mode, e: Evidence, next: Evidence, other: Row, row: Row)
    requires ValidRow(c, m, e, other) && other in e.rows && next.rows == e.rows + [row]
    requires forall r :: r in e.rows ==>
      r.requestId in e.descriptors && r.requestId in next.descriptors
        && next.descriptors[r.requestId] == e.descriptors[r.requestId]
    requires other.sequence < row.sequence && other.after != Some(row.requestId)
    ensures ValidRow(c, m, next, other)
  {
    hide ValidRecord, Follows;
    if other.after.Some? && HasRow(e.rows, other.after.value) {
      var prior :| prior in e.rows && prior.requestId == other.after.value;
      assert prior in next.rows;
    }
  }

  /** A row whose progress changed, with everything its history is made of left alone. */
  predicate Progressed(row: Row, next: Row) {
    next ==
      row.(state := next.state, attempts := next.attempts, acknowledgedVersion := next.acknowledgedVersion,
           refusal := next.refusal)
  }

  /**
   * Progress on one row keeps the evidence valid when its own record does, its preparation follows from its
   * predecessor's, and what its successors derived from stays: a preparation and a receipt, once there.
   */
  lemma ProgressKeeps(c: Codec, m: Mode, e: Evidence, k: nat, row: Row, d: Descriptor)
    requires ValidEvidence(c, m, e) && k < |e.rows| && e.rows[k].state != Acknowledged
    requires Progressed(e.rows[k], row) && ValidRecord(c, m, row, d)
    requires forall prior :: prior in e.rows && Some(prior.requestId) == row.after ==>
      Follows(c, m, row, d, prior, e.descriptors[prior.requestId])
    ensures ValidEvidence(c, m, Evidence(e.rows[k := row], e.descriptors[row.requestId := d]))
  {
    var next := Evidence(e.rows[k := row], e.descriptors[row.requestId := d]);
    assert e.rows[k] in e.rows && ValidRow(c, m, e, e.rows[k]);
    forall i | 0 <= i < |next.rows| ensures ValidRow(c, m, next, next.rows[i]) {
      assert e.rows[i] in e.rows && ValidRow(c, m, e, e.rows[i]);
      if i != k {
        OthersStay(c, m, e, next, k, i, row, d);
      } else {
        ItselfStays(c, m, e, next, k, row, d);
      }
    }
  }

  lemma OthersStay(c: Codec, m: Mode, e: Evidence, next: Evidence, k: nat, i: nat, row: Row, d: Descriptor)
    requires ValidEvidence(c, m, e) && k < |e.rows| && i < |e.rows| && i != k && e.rows[k].state != Acknowledged
    requires Progressed(e.rows[k], row)
    requires next == Evidence(e.rows[k := row], e.descriptors[row.requestId := d])
    ensures ValidRow(c, m, next, e.rows[i])
  {
    var other := e.rows[i];
    assert other in e.rows && e.rows[k] in e.rows && ValidRow(c, m, e, other) && ValidRow(c, m, e, e.rows[k]);
    assert other.requestId != row.requestId;
    if other.after == Some(row.requestId) {
      // Nothing was prepared after a row without a receipt.
      assert Follows(c, m, other, e.descriptors[other.requestId], e.rows[k], e.descriptors[row.requestId]);
      assert e.descriptors[other.requestId].prepared == None;
    }
    SameRows(e.rows, k, row);
    if other.after.Some? {
      forall prior | prior in next.rows && Some(prior.requestId) == other.after
        ensures prior.requestId in next.descriptors
        ensures Follows(c, m, other, next.descriptors[other.requestId], prior, next.descriptors[prior.requestId])
      {
      }
    }
  }

  lemma SameRows(rows: seq<Row>, k: nat, row: Row)
    requires k < |rows| && Progressed(rows[k], row)
    ensures forall id :: HasRow(rows, id) ==> HasRow(rows[k := row], id)
    ensures forall other :: other in rows[k := row] ==> other == row || other in rows
    ensures rows[k] in rows && row in rows[k := row]
  {
    var next := rows[k := row];
    assert next[k] == row;
    forall id | HasRow(rows, id) ensures HasRow(next, id) {
      var i :| 0 <= i < |rows| && rows[i].requestId == id;
      assert next[i] in next && next[i].requestId == id;
    }
  }

  lemma ItselfStays(c: Codec, m: Mode, e: Evidence, next: Evidence, k: nat, row: Row, d: Descriptor)
    requires ValidEvidence(c, m, e) && k < |e.rows| && e.rows[k].state != Acknowledged && Progressed(e.rows[k], row)
    requires ValidRecord(c, m, row, d)
    requires forall prior :: prior in e.rows && Some(prior.requestId) == row.after ==>
      Follows(c, m, row, d, prior, e.descriptors[prior.requestId])
    requires next == Evidence(e.rows[k := row], e.descriptors[row.requestId := d])
    ensures ValidRow(c, m, next, row)
  {
    assert e.rows[k] in e.rows && ValidRow(c, m, e, e.rows[k]);
    SameRows(e.rows, k, row);
    if row.after.Some? {
      assert HasRow(e.rows, row.after.value) && row.after != Some(row.requestId);
      forall prior | prior in next.rows && Some(prior.requestId) == row.after
        ensures prior.requestId in next.descriptors && Follows(c, m, row, d, prior, next.descriptors[prior.requestId])
      {
        assert prior in e.rows && ValidRow(c, m, e, prior);
      }
    }
  }
}
