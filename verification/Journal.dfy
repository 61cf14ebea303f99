/**
 * One document's cell of the working copy and the transactions the exact-mode verbs run over it.
 *
 * `settled` and `chain` are the acknowledged and the unsettled rows of the document's journal, each in
 * commit order. A verb's journal read and the transaction it composes are one step.
 */
module Journal {
  import opened Records

  datatype Choice = KeepLocal | TakeRemote | Revise

  /** What a resolution retired, kept with its content. */
  datatype Receipt = Receipt(id: RequestId, choice: Choice, retired: seq<Intent>, replacement: Option<RequestId>)

  datatype Cell = Cell(doc: Option<string>, base: Option<SharedBase>, settled: seq<Intent>, chain: seq<Intent>,
      receipts: seq<Receipt>)

  const BLANK := Cell(None, None, [], [], [])

  function Last<T>(rows: seq<T>): T
    requires rows != []
  {
    rows[|rows| - 1]
  }

  function Front<T>(rows: seq<T>): seq<T>
    requires rows != []
  {
    rows[..|rows| - 1]
  }

  /** The position of the row with this identity, or `|rows|`. */
  function IndexOf(rows: seq<Intent>, requestId: RequestId): (k: nat)
    ensures k <= |rows|
    ensures k < |rows| ==> rows[k].requestId == requestId
    ensures forall j :: 0 <= j < k ==> rows[j].requestId != requestId
  {
    if rows == [] then 0 else if rows[0].requestId == requestId then 0 else 1 + IndexOf(rows[1..], requestId)
  }

  // ---- local edits ----

  /** The rows a new edit leaves behind it: all of them, or all but the latest it supersedes. */
  function KeptRows(c: Cell): seq<Intent> {
    if c.chain != [] && Replaceable(Last(c.chain)) then Front(c.chain) else c.chain
  }

  /** How a new local write relates to the rows already journaled for its document. */
  function ComposeIntent(c: Cell, target: Id, requestId: RequestId, now: nat): NewIntent {
    if c.chain == [] then
      var version := BaseVersion(c.base);
      NewIntent(
        requestId, Write, target, version, if c.base.Some? then c.base.value.content else None, now, None,
        if version == None && c.base.Some? then c.base.value.tombstone else None, None)
    else
      var latest := Last(c.chain);
      if Replaceable(latest) then SupersedingIntent(Write, latest, requestId, now).value
      else
        NewIntent(requestId, Write, target, ChainedBase(latest), ChainedBaseContent(latest), now,
                  Some(latest.requestId), None, None)
  }

  function CommitLocal(c: Cell, target: Id, requestId: RequestId, now: nat, content: string,
                       posture: Option<Posture>): Cell {
    var composed := ComposeIntent(c, target, requestId, now);
    var intent := composed.(bodyReplace := ComposedBodyReplace(composed.bodyReplace, posture));
    c.(doc := Some(content), chain := KeptRows(c) + [Journaled(intent, content)])
  }

  datatype DeleteResult = NoDocument | ResolveFirst | Deleted(cell: Cell, intent: Option<NewIntent>)

  /** The deletion to journal against what the document stands on, or none when there is nothing to delete. */
  function ComposeDeletion(c: Cell, target: Id, requestId: RequestId, now: nat): Option<NewIntent> {
    if c.chain == [] then
      if BaseVersion(c.base).Some?
      then Some(NewIntent(requestId, Delete, target, BaseVersion(c.base), c.base.value.content, now, None, None, None))
      else None
    else
      var latest := Last(c.chain);
      if Replaceable(latest) then SupersedingIntent(Delete, latest, requestId, now)
      else
        Some(NewIntent(
          requestId, Delete, target, Some(latest.local), Some(latest.content), now, Some(latest.requestId), None,
          None))
  }

  function DeleteLocal(c: Cell, target: Id, requestId: RequestId, now: nat): DeleteResult {
    if c.doc == None then NoDocument
    else if c.chain != [] && Last(c.chain).state == Conflict then ResolveFirst
    else
      var intent := ComposeDeletion(c, target, requestId, now);
      Deleted(c.(doc := None, chain := KeptRows(c) + if intent.Some? then [Journaled(intent.value, DELETION_CONTENT)]
          else []), intent)
  }

  // ---- delivery ----

  datatype ClaimResult = Blocked | ClaimedElsewhere | Claimed(cell: Cell, row: Intent)

  /** Claim a pending row for delivery: the attempt is counted before anything leaves. */
  function Claim(c: Cell, requestId: RequestId): ClaimResult {
    var k := IndexOf(c.chain, requestId);
    if k == |c.chain| || c.chain[k].state != Pending then ClaimedElsewhere
    else
      var intent := c.chain[k];
      if intent.after.Some? && IndexOf(c.chain, intent.after.value) < |c.chain| then Blocked
      else
        var p := if intent.after.Some? then IndexOf(c.settled, intent.after.value) else |c.settled|;
        var rebased := if p < |c.settled| && intent.attempts == 0 then ChainedPremise(intent, c.settled[p]) else intent;
        var row := rebased.(state := InFlight, attempts := intent.attempts + 1);
        Claimed(c.(chain := c.chain[k := row]), row)
  }

  datatype SettleResult = SettledElsewhere | Settled(cell: Cell, row: Intent)

  /** Settle an in-flight row against an answer; `observed` is the head a conflict reads back. */
  function Settle(c: Cell, requestId: RequestId, answer: Outcome, attempts: nat, observed: SharedBase): SettleResult {
    var k := IndexOf(c.chain, requestId);
    if k == |c.chain| || c.chain[k].state != InFlight then SettledElsewhere
    else
      var current := c.chain[k];
      match SettleAgainstIntent(answer, current)
      case Committed(version) =>
        var row := current.(state := Acknowledged, attempts := attempts, acknowledgedVersion := Some(version));
        var base :=
          if current.kind == Delete
          then SharedBase(None, None, if version != DELETION_VERSION then Some(version) else None, false)
          else SharedBase(Some(version), Some(current.content), None, version != current.local);
        Settled(c.(base := Some(base), settled := c.settled + [row], chain := c.chain[..k] + c.chain[k + 1..]), row)
      case ConflictWith(actual, tombstone) =>
        Advanced(c, k, current.(state := Conflict, attempts := attempts, remote := Some(observed)))
      case RefusedWith(code) => Advanced(c, k, current.(state := Refused, attempts := attempts, refusal := Some(code)))
      case NoAnswer => Advanced(c, k, current.(state := Pending, attempts := attempts))
  }

  function Advanced(c: Cell, k: nat, row: Intent): SettleResult
    requires k < |c.chain|
  {
    Settled(c.(chain := c.chain[k := row]), row)
  }

  /** Requeue a row refused for lost permission, with its attempts. */
  function Resume(c: Cell, requestId: RequestId): Cell {
    var k := IndexOf(c.chain, requestId);
    if k == |c.chain| || !IsAuthorizationRefusal(c.chain[k]) then c
    else c.(chain := c.chain[k := c.chain[k].(state := Pending)])
  }

  /** Requeue a row a dead realm left in flight; it may have been delivered, so it keeps at least one attempt. */
  function Reclaim(c: Cell, requestId: RequestId): Cell {
    var k := IndexOf(c.chain, requestId);
    if k == |c.chain| || c.chain[k].state != InFlight then c
    else
      var attempts := if c.chain[k].attempts < 1 then 1 else c.chain[k].attempts;
      c.(chain := c.chain[k := c.chain[k].(state := Pending, attempts := attempts)])
  }

  // ---- a refused head and the edit that waited on it ----

  predicate Foldable(c: Cell, successor: RequestId) {
    && |c.chain| == 2
    && IsContentRefusal(c.chain[0])
    && c.chain[1].requestId == successor
    && NeverSent(c.chain[1])
    && c.chain[1].after == Some(c.chain[0].requestId)
    && c.doc == (if c.chain[1].kind == Delete then None else Some(c.chain[1].content))
  }

  function FoldedIntent(head: Intent, successor: Intent, requestId: RequestId, now: nat): Option<NewIntent> {
    match SupersedingIntent(successor.kind, head, requestId, now)
    case None => None
    case Some(intent) =>
      if successor.kind == Delete then Some(intent)
      else Some(intent.(bodyReplace := ComposedBodyReplace(intent.bodyReplace, successor.bodyReplace)))
  }

  /** Retire a refused head and its never-sent successor for one fresh intent over the same bytes. */
  function FoldRefusedChain(c: Cell, successor: RequestId, requestId: RequestId, now: nat): Option<Cell> {
    if !Foldable(c, successor) then None
    else
      var intent := FoldedIntent(c.chain[0], c.chain[1], requestId, now);
      Some(c.(chain := if intent.Some? then [Journaled(intent.value, c.chain[1].content)] else []))
  }

  // ---- conflict resolution ----

  /** One dependent chain headed by a recorded conflict, whose last row is the working document. */
  predicate Resolvable(c: Cell) {
    && c.chain != []
    && c.chain[0].state == Conflict
    && (forall k :: 0 <= k < |c.chain| ==>
         c.chain[k].state == Conflict || c.chain[k].state == Refused || NeverSent(c.chain[k]))
    && (forall k :: 1 <= k < |c.chain| ==>
         c.chain[k].after == Some(c.chain[k - 1].requestId) && c.chain[k].base == ChainedBase(c.chain[k - 1]))
    && c.doc == (if Last(c.chain).kind == Delete then None else Some(Last(c.chain).content))
  }

  /** The shared head as served, with the deletion the recorded conflict named when it serves none. */
  function ReviewedRemote(served: SharedBase, head: Intent): SharedBase {
    if served.version == None && head.remote.Some? && head.remote.value.version == None
      && head.remote.value.tombstone.Some?
    then served.(tombstone := head.remote.value.tombstone) else served
  }

  datatype Authored = Authored(requestId: RequestId, now: nat, content: string)

  /**
   * Resolve the chain against the head `served`. Keeping or revising a write authors fresh bytes; keeping a
   * deletion journals it again unless nothing is served any more; taking the head adopts it.
   */
  function ResolveConflict(c: Cell, target: Id, choice: Choice, served: SharedBase, authored: Authored): Option<Cell> {
    if !Resolvable(c) || (Last(c.chain).kind == Delete && choice == Revise) then None
    else
      var deleting := Last(c.chain).kind == Delete;
      var base := SharedBase(served.version, served.content, None, false);
      var intent :=
        if choice == TakeRemote || (deleting && served.version == None) then None
        else if deleting then
          Some(NewIntent(
            authored.requestId, Delete, target, served.version, served.content, authored.now, None, None, None))
        else
          Some(NewIntent(
            authored.requestId, Write, target, served.version, served.content, authored.now, None,
            if served.version == None then ReviewedRemote(served, c.chain[0]).tombstone else None,
            Some(Posture(true, false))));
      var doc := if choice == TakeRemote then served.content else if deleting then None else Some(authored.content);
      var receipt := Receipt(
        c.chain[0].requestId, choice, c.chain, if intent.Some? then Some(authored.requestId) else None);
      Some(Cell(
        doc, Some(base), c.settled,
        if intent.Some? then [Journaled(intent.value, if deleting then DELETION_CONTENT else authored.content)] else [],
        c.receipts + [receipt]))
  }

  // ---- the authority's side arriving ----

  /** A fetched head written over a document no local edit holds. */
  function Refresh(c: Cell, version: Version, content: string): Option<Cell> {
    if c.chain != [] then None
    else Some(c.(doc := Some(content), base := Some(SharedBase(Some(version), Some(content), None, false))))
  }

  /** A document a listing no longer names: removed with its base, or held with a base that says it is gone. */
  function RemoveUnlisted(c: Cell): Cell {
    if c.chain != [] then
      c.(base := Some(SharedBase(None, if c.base.Some? then c.base.value.content else None, None, false)))
    else c.(doc := None, base := None)
  }
}
