/**
 * What every run of the exact-mode verbs keeps about one document: at most two unsettled rows, of which only
 * the first was ever claimed, the last of which is the working document; and a document without unsettled
 * rows that is exactly its shared base.
 */
module JournalShape {
  import opened Records
  import opened Journal

  /** One transaction of the working copy on one document, with whatever its environment supplied. */
  datatype Verb =
    | CommitVerb(requestId: RequestId, now: nat, content: string, posture: Option<Posture>)
    | DeleteVerb(requestId: RequestId, now: nat)
    | ClaimVerb(requestId: RequestId)
    | SettleVerb(requestId: RequestId, answer: Outcome, attempts: nat, observed: SharedBase)
    | ResumeVerb(requestId: RequestId)
    | ReclaimVerb(requestId: RequestId)
    | FoldVerb(successor: RequestId, requestId: RequestId, now: nat)
    | ResolveVerb(choice: Choice, served: SharedBase, authored: Authored)
    | RefreshVerb(version: Version, content: string)
    | UnlistedVerb

  /** A verb that finds its premise gone changes nothing. */
  function Apply(c: Cell, target: Id, verb: Verb): Cell {
    match verb
    case CommitVerb(requestId, now, content, posture) => CommitLocal(c, target, requestId, now, content, posture)
    case DeleteVerb(requestId, now) =>
      (match DeleteLocal(c, target, requestId, now) case Deleted(after, _) => after case _ => c)
    case ClaimVerb(requestId) => (match Claim(c, requestId) case Claimed(after, _) => after case _ => c)
    case SettleVerb(requestId, answer, attempts, observed) =>
      (match Settle(c, requestId, answer, attempts, observed) case Settled(after, _) => after case _ => c)
    case ResumeVerb(requestId) => Resume(c, requestId)
    case ReclaimVerb(requestId) => Reclaim(c, requestId)
    case FoldVerb(successor, requestId, now) =>
      (match FoldRefusedChain(c, successor, requestId, now) case Some(after) => after case None => c)
    case ResolveVerb(choice, served, authored) =>
      (match ResolveConflict(c, target, choice, served, authored) case Some(after) => after case None => c)
    case RefreshVerb(version, content) => (match Refresh(c, version, content) case Some(after) => after case None => c)
    case UnlistedVerb => RemoveUnlisted(c)
  }

  /** A head as a read serves it: a version with its bytes, or neither. */
  predicate ServedHead(head: SharedBase) {
    (head.version == None <==> head.content == None) && head.content != Some("")
  }

  /** Documents are never empty, and a settlement's attempts count the claim before it. */
  predicate Admissible(verb: Verb) {
    match verb
    case CommitVerb(_, _, content, _) => content != ""
    case SettleVerb(_, _, attempts, _) => attempts >= 1
    case ResolveVerb(_, served, authored) => ServedHead(served) && authored.content != ""
    case RefreshVerb(_, content) => content != ""
    case _ => true
  }

  predicate RowShape(row: Intent, target: Id) {
    && row.target == target
    && row.state != Acknowledged
    && row.local == VersionOf(row.content)
    && (row.kind == Delete ==> row.content == DELETION_CONTENT && row.base.Some?)
    && (row.kind == Write ==> row.content != DELETION_CONTENT)
    && (row.state != Pending ==> row.attempts >= 1)
  }

  /** The second unsettled row: never claimed, waiting on the first, against the first's own version. */
  predicate Waits(second: Intent, first: Intent) {
    && NeverSent(second)
    && second.after == Some(first.requestId)
    && second.base == ChainedBase(first)
    && second.baseContent == ChainedBaseContent(first)
    && (second.kind == Delete ==> first.kind == Write)
  }

  predicate ChainShape(c: Cell, target: Id) {
    && |c.chain| <= 2
    && (forall k :: 0 <= k < |c.chain| ==> RowShape(c.chain[k], target))
    && (|c.chain| == 2 ==> c.chain[0].attempts >= 1 && Waits(c.chain[1], c.chain[0]))
  }

  /** The working document is the last unsettled edit, or exactly the shared base when there is none. */
  predicate DocumentShape(c: Cell) {
    if c.chain != [] then c.doc == (if Last(c.chain).kind == Delete then None else Some(Last(c.chain).content))
    else (c.doc == None <==> BaseVersion(c.base) == None) && (c.doc.Some? ==> c.base.value.content == c.doc)
  }

  /** A first row that creates its document stands over a base that names none. */
  predicate PremiseShape(c: Cell) {
    c.chain != [] && c.chain[0].base == None ==> BaseVersion(c.base) == None
  }

  predicate Shape(c: Cell, target: Id) {
    ChainShape(c, target) && DocumentShape(c) && PremiseShape(c)
  }

  lemma CommitKeepsShape(c: Cell, target: Id, requestId: RequestId, now: nat, content: string, posture: Option<Posture>)
    requires Shape(c, target) && content != ""
    ensures Shape(CommitLocal(c, target, requestId, now, content, posture), target)
  {
    var after := CommitLocal(c, target, requestId, now, content, posture);
    assert Last(after.chain).content == content && Last(after.chain).kind == Write;
    if |c.chain| == 2 {
      assert after.chain[0] == c.chain[0];
    } else if |c.chain| == 1 && !Replaceable(c.chain[0]) {
      assert after.chain[0] == c.chain[0];
    }
  }

  lemma DeleteKeepsShape(c: Cell, target: Id, requestId: RequestId, now: nat)
    requires Shape(c, target)
    ensures Shape(Apply(c, target, DeleteVerb(requestId, now)), target)
  {
    if c.doc.Some? {
      if |c.chain| == 2 {
        DeleteOverSecondKeepsShape(c, target, requestId, now);
      } else if |c.chain| == 1 {
        DeleteOverFirstKeepsShape(c, target, requestId, now);
      }
    }
  }

  lemma DeleteOverFirstKeepsShape(c: Cell, target: Id, requestId: RequestId, now: nat)
    requires Shape(c, target) && c.doc.Some? && |c.chain| == 1
    ensures Shape(Apply(c, target, DeleteVerb(requestId, now)), target)
  {
    var first := c.chain[0];
    assert Front(c.chain) == [];
    if Replaceable(first) {
      var intent := SupersedingIntent(Delete, first, requestId, now);
      assert intent.Some? ==> RowShape(Journaled(intent.value, DELETION_CONTENT), target);
    }
  }

  lemma DeleteOverSecondKeepsShape(c: Cell, target: Id, requestId: RequestId, now: nat)
    requires Shape(c, target) && c.doc.Some? && |c.chain| == 2
    ensures Shape(Apply(c, target, DeleteVerb(requestId, now)), target)
  {
    var intent := SupersedingIntent(Delete, c.chain[1], requestId, now);
    assert Front(c.chain) == [c.chain[0]];
    if intent.Some? {
      assert Waits(Journaled(intent.value, DELETION_CONTENT), c.chain[0]);
    }
  }

  /** The first row moved on under its identity and bytes, on the premise it had or one the authority named. */
  lemma FirstMovedShape(c: Cell, target: Id, row: Intent)
    requires Shape(c, target) && c.chain != [] && RowShape(row, target) && row.attempts >= 1
    requires row.requestId == c.chain[0].requestId && row.kind == c.chain[0].kind
    requires row.content == c.chain[0].content && (row.base == None ==> c.chain[0].base == None)
    ensures Shape(c.(chain := c.chain[0 := row]), target)
  {
    var next := c.chain[0 := row];
    assert Last(next).kind == Last(c.chain).kind && Last(next).content == Last(c.chain).content;
  }

  lemma ClaimKeepsShape(c: Cell, target: Id, requestId: RequestId)
    requires Shape(c, target)
    ensures Shape(Apply(c, target, ClaimVerb(requestId)), target)
  {
    if Claim(c, requestId).Claimed? {
      FirstClaimed(c, target, requestId);
      hide Claim, Shape, RowShape;
      FirstMovedShape(c, target, Claim(c, requestId).row);
    }
  }

  /** Only the first unsettled row is ever claimed. */
  lemma FirstClaimed(c: Cell, target: Id, requestId: RequestId)
    requires Shape(c, target) && Claim(c, requestId).Claimed?
    ensures
      var row := Claim(c, requestId).row;
      && c.chain != [] && Claim(c, requestId).cell == c.(chain := c.chain[0 := row])
      && RowShape(row, target) && row.attempts >= 1
      && row.requestId == c.chain[0].requestId && row.kind == c.chain[0].kind
      && row.content == c.chain[0].content && (row.base == None ==> c.chain[0].base == None)
  {
    hide DocumentShape, PremiseShape;
    assert IndexOf(c.chain, requestId) == 0;
  }

  lemma SettleKeepsShape(c: Cell, target: Id, requestId: RequestId, answer: Outcome, attempts: nat,
                         observed: SharedBase)
    requires Shape(c, target) && attempts >= 1
    ensures Shape(Apply(c, target, SettleVerb(requestId, answer, attempts, observed)), target)
  {
    if Settle(c, requestId, answer, attempts, observed).Settled? {
      FirstSettled(c, target, requestId, answer, attempts, observed);
      var settled := Settle(c, requestId, answer, attempts, observed);
      hide Settle;
      if settled.row.state == Acknowledged {
        AcknowledgedShape(c, settled.cell, target, settled.row);
      } else {
        hide Shape, RowShape;
        FirstMovedShape(c, target, settled.row);
      }
    }
  }

  /** Only the first unsettled row is ever settled: it moves on, or leaves with the base it is acknowledged at. */
  lemma FirstSettled(c: Cell, target: Id, requestId: RequestId, answer: Outcome, attempts: nat, observed: SharedBase)
    requires Shape(c, target) && attempts >= 1 && Settle(c, requestId, answer, attempts, observed).Settled?
    ensures
      var settled := Settle(c, requestId, answer, attempts, observed);
      var row, base := settled.row, settled.cell.base;
      && c.chain != [] && row.kind == c.chain[0].kind && row.content == c.chain[0].content
      && if row.state == Acknowledged then
           && settled.cell == c.(base := base, settled := c.settled + [row], chain := c.chain[1..]) && base.Some?
           && if row.kind == Delete then base.value.version == None
              else base.value.version.Some? && base.value.content == Some(row.content)
         else
           && settled.cell == c.(chain := c.chain[0 := row]) && RowShape(row, target) && row.attempts >= 1
           && row.requestId == c.chain[0].requestId && row.base == c.chain[0].base
  {
    hide DocumentShape, PremiseShape;
    assert IndexOf(c.chain, requestId) == 0;
    assert c.chain[..0] + c.chain[1..] == c.chain[1..];
  }

  lemma AcknowledgedShape(c: Cell, after: Cell, target: Id, row: Intent)
    requires Shape(c, target) && c.chain != [] && row.kind == c.chain[0].kind && row.content == c.chain[0].content
    requires after == c.(base := after.base, settled := after.settled, chain := c.chain[1..]) && after.base.Some?
    requires
      if row.kind == Delete then after.base.value.version == None
      else after.base.value.version.Some? && after.base.value.content == Some(row.content)
    ensures Shape(after, target)
  {
  }

  lemma RequeueKeepsShape(c: Cell, target: Id, requestId: RequestId)
    requires Shape(c, target)
    ensures Shape(Resume(c, requestId), target) && Shape(Reclaim(c, requestId), target)
  {
    FirstRequeued(c, target, requestId);
    if c.chain != [] && c.chain[0].attempts >= 1 {
      assert RowShape(c.chain[0].(state := Pending), target);
      hide Shape, RowShape, Resume, Reclaim;
      FirstMovedShape(c, target, c.chain[0].(state := Pending));
    }
  }

  /** Only a first row that left at least once is ever requeued. */
  lemma FirstRequeued(c: Cell, target: Id, requestId: RequestId)
    requires Shape(c, target)
    ensures RequeuedFrom(c, Resume(c, requestId)) && RequeuedFrom(c, Reclaim(c, requestId))
  {
    hide DocumentShape, PremiseShape;
  }

  predicate RequeuedFrom(c: Cell, after: Cell) {
    || after == c
    || (c.chain != [] && c.chain[0].attempts >= 1 && after == c.(chain := c.chain[0 := c.chain[0].(state := Pending)]))
  }

  lemma FoldKeepsShape(c: Cell, target: Id, successor: RequestId, requestId: RequestId, now: nat)
    requires Shape(c, target)
    ensures Shape(Apply(c, target, FoldVerb(successor, requestId, now)), target)
  {
  }

  lemma ResolveKeepsShape(c: Cell, target: Id, choice: Choice, served: SharedBase, authored: Authored)
    requires Shape(c, target) && ServedHead(served) && authored.content != ""
    ensures Shape(Apply(c, target, ResolveVerb(choice, served, authored)), target)
  {
    hide Resolvable, Shape, ReviewedRemote;
    match ResolveConflict(c, target, choice, served, authored)
    case Some(after) => ResolvedShape(c, after, target, choice, served, authored);
    case None =>
  }

  lemma ResolvedShape(c: Cell, after: Cell, target: Id, choice: Choice, served: SharedBase, authored: Authored)
    requires ServedHead(served) && authored.content != ""
    requires ResolveConflict(c, target, choice, served, authored) == Some(after)
    ensures Shape(after, target)
  {
    hide Resolvable, ReviewedRemote;
    assert |after.chain| <= 1 && (after.chain != [] ==> Last(after.chain) == after.chain[0]);
  }

  lemma StepKeepsShape(c: Cell, target: Id, verb: Verb)
    requires Shape(c, target) && Admissible(verb)
    ensures Shape(Apply(c, target, verb), target)
  {
    match verb
    case CommitVerb(requestId, now, content, posture) => CommitKeepsShape(c, target, requestId, now, content, posture);
    case DeleteVerb(requestId, now) => DeleteKeepsShape(c, target, requestId, now);
    case ClaimVerb(requestId) => ClaimKeepsShape(c, target, requestId);
    case SettleVerb(requestId, answer, attempts, observed) =>
      SettleKeepsShape(c, target, requestId, answer, attempts, observed);
    case ResumeVerb(requestId) => RequeueKeepsShape(c, target, requestId);
    case ReclaimVerb(requestId) => RequeueKeepsShape(c, target, requestId);
    case FoldVerb(successor, requestId, now) => FoldKeepsShape(c, target, successor, requestId, now);
    case ResolveVerb(choice, served, authored) => ResolveKeepsShape(c, target, choice, served, authored);
    case RefreshVerb(version, content) =>
    case UnlistedVerb =>
  }

  function Run(c: Cell, target: Id, verbs: seq<Verb>): Cell
    decreases |verbs|
  {
    if verbs == [] then c else Run(Apply(c, target, verbs[0]), target, verbs[1..])
  }

  /** From an empty working copy, under any answers and any interleaving of one document's verbs. */
  lemma {:induction false} EveryRunKeepsShape(c: Cell, target: Id, verbs: seq<Verb>)
    requires Shape(c, target)
    requires forall k :: 0 <= k < |verbs| ==> Admissible(verbs[k])
    ensures Shape(Run(c, target, verbs), target)
    decreases |verbs|
  {
    if verbs != [] {
      StepKeepsShape(c, target, verbs[0]);
      EveryRunKeepsShape(Apply(c, target, verbs[0]), target, verbs[1..]);
    }
  }
}
