/**
 * The working copy as its store holds it: documents, shared bases and resolution receipts by document, and one
 * journal of every document's rows in commit order. Each verb changes the store in place; what it makes of one
 * document is the cell's own transaction, and every other document is left as it was.
 */
module WorkingCopy {
  import opened Records
  import opened Journal
  import opened JournalShape

  // ---- one document's rows of the journal ----

  /** A document's acknowledged rows, or its unsettled ones, in commit order. */
  function Pick(rows: seq<Intent>, id: Id, settled: bool): seq<Intent> {
    if rows == [] then []
    else (if rows[0].target == id && (rows[0].state == Acknowledged) == settled then [rows[0]]
        else []) + Pick(rows[1..], id, settled)
  }

  lemma {:induction false} PickJoins(first: seq<Intent>, second: seq<Intent>, id: Id, settled: bool)
    ensures Pick(first + second, id, settled) == Pick(first, id, settled) + Pick(second, id, settled)
  {
    if first == [] {
      assert first + second == second;
    } else {
      assert first + second == [first[0]] + (first[1..] + second);
      assert (first + second)[1..] == first[1..] + second;
      PickJoins(first[1..], second, id, settled);
    }
  }

  lemma {:induction false} PickedRows(rows: seq<Intent>, id: Id, settled: bool)
    ensures forall row :: row in Pick(rows, id, settled) <==>
      row in rows && row.target == id && (row.state == Acknowledged) == settled
  {
    if rows != [] {
      PickedRows(rows[1..], id, settled);
      assert rows == [rows[0]] + rows[1..];
    }
  }

  predicate Distinct(rows: seq<Intent>) {
    forall i, j :: 0 <= i < j < |rows| ==> rows[i].requestId != rows[j].requestId
  }

  /** Of one document's rows, the acknowledged ones come first. */
  predicate SettledFirst(rows: seq<Intent>) {
    forall i, j :: 0 <= i < j < |rows| && rows[i].target == rows[j].target && rows[j].state == Acknowledged ==>
      rows[i].state == Acknowledged
  }

  lemma {:induction false} IndexOfMiddle(before: seq<Intent>, row: Intent, after: seq<Intent>)
    requires forall r :: r in before ==> r.requestId != row.requestId
    ensures IndexOf(before + [row] + after, row.requestId) == |before|
  {
    var rows := before + [row] + after;
    if before != [] {
      assert before[0] in before && rows[1..] == before[1..] + [row] + after;
      IndexOfMiddle(before[1..], row, after);
    }
  }

  /** Around one row: what a document's rows are before it, and after it. */
  lemma PickAround(rows: seq<Intent>, k: nat, id: Id, settled: bool)
    requires k < |rows|
    ensures Pick(rows, id, settled) ==
      Pick(rows[..k], id, settled) + Pick([rows[k]], id, settled) + Pick(rows[k + 1..], id, settled)
  {
    assert rows == rows[..k] + [rows[k]] + rows[k + 1..];
    PickJoins(rows[..k] + [rows[k]], rows[k + 1..], id, settled);
    PickJoins(rows[..k], [rows[k]], id, settled);
  }

  lemma PickOne(row: Intent, id: Id, settled: bool)
    ensures Pick([row], id, settled) == if row.target == id && (row.state == Acknowledged) == settled then [row] else []
  {
    assert [row][1..] == [];
  }

  /** A row replaced where it stands, in a document's rows. */
  lemma PickReplaced(rows: seq<Intent>, k: nat, row: Intent, id: Id, settled: bool)
    requires k < |rows|
    ensures Pick(rows[k := row], id, settled) ==
      Pick(rows[..k], id, settled) + Pick([row], id, settled) + Pick(rows[k + 1..], id, settled)
  {
    var next := rows[k := row];
    PickAround(next, k, id, settled);
    assert next[..k] == rows[..k] && next[k + 1..] == rows[k + 1..];
  }

  lemma PickRemoved(rows: seq<Intent>, k: nat, id: Id, settled: bool)
    requires k < |rows|
    ensures Pick(rows[..k] + rows[k + 1..], id, settled) ==
      Pick(rows[..k], id, settled) + Pick(rows[k + 1..], id, settled)
  {
    PickJoins(rows[..k], rows[k + 1..], id, settled);
  }

  /** An unsettled row's place among its document's unsettled rows. */
  lemma PlaceInChain(rows: seq<Intent>, k: nat)
    requires k < |rows| && Distinct(rows) && rows[k].state != Acknowledged
    ensures
      var id := rows[k].target;
      var at := |Pick(rows[..k], id, false)|;
      && IndexOf(Pick(rows, id, false), rows[k].requestId) == at < |Pick(rows, id, false)|
      && Pick(rows, id, false)[at] == rows[k]
      && Pick(rows, id, false)[..at] == Pick(rows[..k], id, false)
         && Pick(rows, id, false)[at + 1..] == Pick(rows[k + 1..], id, false)
  {
    var id := rows[k].target;
    PickAround(rows, k, id, false);
    PickOne(rows[k], id, false);
    PickedRows(rows[..k], id, false);
    IndexOfMiddle(Pick(rows[..k], id, false), rows[k], Pick(rows[k + 1..], id, false));
  }

  lemma {:induction false} NotInChain(rows: seq<Intent>, requestId: RequestId)
    requires forall r :: r in rows ==> r.requestId != requestId
    ensures IndexOf(rows, requestId) == |rows|
  {
    if rows != [] {
      assert rows[0] in rows;
      NotInChain(rows[1..], requestId);
    }
  }

  lemma {:induction false} NothingPicked(rows: seq<Intent>, id: Id, settled: bool)
    requires forall row :: row in rows && row.target == id ==> (row.state == Acknowledged) != settled
    ensures Pick(rows, id, settled) == []
  {
    if rows != [] {
      assert rows[0] in rows;
      NothingPicked(rows[1..], id, settled);
    }
  }

  /** Every acknowledged row of a document stands before an unsettled one. */
  lemma NoneSettledAfter(rows: seq<Intent>, k: nat)
    requires k < |rows| && SettledFirst(rows) && rows[k].state != Acknowledged
    ensures Pick(rows[k + 1..], rows[k].target, true) == []
  {
    var rest := rows[k + 1..];
    forall row | row in rest && row.target == rows[k].target ensures row.state != Acknowledged {
      var j :| 0 <= j < |rest| && rest[j] == row;
      assert rows[k + 1 + j] == row;
    }
    NothingPicked(rest, rows[k].target, true);
  }

  /** Where an unsettled row stands among its document's. */
  function PlaceOf(rows: seq<Intent>, k: nat): nat
    requires k < |rows|
  {
    IndexOf(Pick(rows, rows[k].target, false), rows[k].requestId)
  }

  lemma ProgressPicks(rows: seq<Intent>, k: nat, row: Intent, id: Id, settled: bool)
    requires k < |rows| && Distinct(rows) && rows[k].state != Acknowledged && row.state != Acknowledged
    requires row.target == rows[k].target
    ensures PlaceOf(rows, k) < |Pick(rows, row.target, false)|
    ensures Pick(rows[k := row], id, settled) ==
      if id == row.target && !settled then Pick(rows, id, false)[PlaceOf(rows, k) := row] else Pick(rows, id, settled)
  {
    hide Pick, IndexOf, SettledFirst;
    PlaceInChain(rows, k);
    PickReplaced(rows, k, row, id, settled);
    PickAround(rows, k, id, settled);
    PickOne(row, id, settled);
    PickOne(rows[k], id, settled);
  }

  lemma AcknowledgedHere(rows: seq<Intent>, k: nat, row: Intent)
    requires k < |rows| && Distinct(rows) && rows[k].state != Acknowledged && row.state == Acknowledged
    requires row.target == rows[k].target
    ensures
      var at, chain := PlaceOf(rows, k), Pick(rows, row.target, false);
      at < |chain| && Pick(rows[k := row], row.target, false) == chain[..at] + chain[at + 1..]
  {
    hide Pick, IndexOf, Distinct;
    PlaceInChain(rows, k);
    PickReplaced(rows, k, row, row.target, false);
    PickOne(row, row.target, false);
  }

  lemma AcknowledgedThere(rows: seq<Intent>, k: nat, row: Intent, id: Id, settled: bool)
    requires k < |rows| && SettledFirst(rows) && rows[k].state != Acknowledged && row.state == Acknowledged
    requires row.target == rows[k].target
    requires id != row.target || settled
    ensures Pick(rows[k := row], id, settled) == if id == row.target then Pick(rows, id, true) + [row]
      else Pick(rows, id, settled)
  {
    hide Pick, SettledFirst;
    NoneSettledAfter(rows, k);
    PickReplaced(rows, k, row, id, settled);
    PickOne(row, id, settled);
    PickAround(rows, k, id, settled);
    PickOne(rows[k], id, settled);
  }

  lemma AcknowledgedPicks(rows: seq<Intent>, k: nat, row: Intent, id: Id, settled: bool)
    requires k < |rows| && Distinct(rows) && SettledFirst(rows) && rows[k].state != Acknowledged
    requires row.state == Acknowledged && row.target == rows[k].target
    ensures
      var at, chain := PlaceOf(rows, k), Pick(rows, row.target, false);
      && at < |chain|
      && Pick(rows[k := row], id, settled) ==
           if id != row.target then Pick(rows, id, settled)
           else if settled then Pick(rows, id, true) + [row]
           else chain[..at] + chain[at + 1..]
  {
    hide Pick, PlaceOf, SettledFirst, Distinct;
    AcknowledgedHere(rows, k, row);
    if id != row.target || settled {
      AcknowledgedThere(rows, k, row, id, settled);
    }
  }

  lemma RemovedPicks(rows: seq<Intent>, k: nat, id: Id, settled: bool)
    requires k < |rows| && Distinct(rows) && rows[k].state != Acknowledged
    ensures
      var at, chain := PlaceOf(rows, k), Pick(rows, rows[k].target, false);
      && at < |chain|
      && Pick(rows[..k] + rows[k + 1..], id, settled) == if id == rows[k].target
         && !settled then chain[..at] + chain[at + 1..] else Pick(rows, id, settled)
  {
    hide Pick, IndexOf, SettledFirst;
    PlaceInChain(rows, k);
    PickRemoved(rows, k, id, settled);
    PickAround(rows, k, id, settled);
    PickOne(rows[k], id, settled);
  }

  lemma ProgressEverywhere(rows: seq<Intent>, k: nat, row: Intent)
    requires k < |rows| && Distinct(rows) && rows[k].state != Acknowledged && row.state != Acknowledged
    requires row.target == rows[k].target
    ensures PlaceOf(rows, k) < |Pick(rows, row.target, false)|
    ensures forall id, settled ::
      Pick(rows[k := row], id, settled) ==
        if id == row.target && !settled then Pick(rows, id, false)[PlaceOf(rows, k) := row] else Pick(rows, id, settled)
  {
    hide Pick, PlaceOf, Distinct;
    ProgressPicks(rows, k, row, row.target, false);
    forall id, settled
      ensures Pick(rows[k := row], id, settled) ==
        if id == row.target && !settled then Pick(rows, id, false)[PlaceOf(rows, k) := row] else Pick(rows, id, settled)
    {
      ProgressPicks(rows, k, row, id, settled);
    }
  }

  lemma AcknowledgedEverywhere(rows: seq<Intent>, k: nat, row: Intent)
    requires k < |rows| && Distinct(rows) && SettledFirst(rows) && rows[k].state != Acknowledged
    requires row.state == Acknowledged
    requires row.target == rows[k].target && PlaceOf(rows, k) == 0
    ensures Pick(rows, row.target, false) != []
    ensures forall id, settled ::
      Pick(rows[k := row], id, settled) ==
        if id != row.target then Pick(rows, id, settled) else if settled then Pick(rows, id, true) + [row]
        else Pick(rows, row.target, false)[1..]
  {
    hide Pick, PlaceOf, Distinct, SettledFirst;
    AcknowledgedPicks(rows, k, row, row.target, false);
    var chain := Pick(rows, row.target, false);
    assert chain[..0] + chain[1..] == chain[1..];
    forall id, settled
      ensures Pick(rows[k := row], id, settled) ==
        if id != row.target then Pick(rows, id, settled) else if settled then Pick(rows, id, true) + [row]
        else chain[1..]
    {
      AcknowledgedPicks(rows, k, row, id, settled);
    }
  }

  lemma AppendedEverywhere(rows: seq<Intent>, row: Intent)
    requires row.state != Acknowledged
    ensures forall id, settled ::
      Pick(rows + [row], id, settled) ==
        if id == row.target && !settled then Pick(rows, id, false) + [row] else Pick(rows, id, settled)
  {
    forall id, settled
      ensures
        Pick(rows + [row], id, settled) ==
          if id == row.target && !settled then Pick(rows, id, false) + [row] else Pick(rows, id, settled)
    {
      AppendedPicks(rows, row, id, settled);
    }
  }

  lemma RemovedEverywhere(rows: seq<Intent>, k: nat)
    requires k < |rows| && Distinct(rows) && rows[k].state != Acknowledged
    ensures
      var at, chain := PlaceOf(rows, k), Pick(rows, rows[k].target, false);
      && at < |chain|
      && forall id, settled :: Pick(rows[..k] + rows[k + 1..], id, settled) ==
           if id == rows[k].target && !settled then chain[..at] + chain[at + 1..] else Pick(rows, id, settled)
  {
    hide Pick, PlaceOf, Distinct;
    RemovedPicks(rows, k, rows[k].target, false);
    forall id, settled
      ensures
        var at, chain := PlaceOf(rows, k), Pick(rows, rows[k].target, false);
        Pick(rows[..k] + rows[k + 1..], id, settled) ==
          if id == rows[k].target && !settled then chain[..at] + chain[at + 1..] else Pick(rows, id, settled)
    {
      RemovedPicks(rows, k, id, settled);
    }
  }

  lemma RowsRemoved(rows: seq<Intent>, k: nat)
    requires k < |rows| && Distinct(rows) && SettledFirst(rows)
    ensures
      var next := rows[..k] + rows[k + 1..];
      && Distinct(next) && SettledFirst(next)
      && forall row :: row in next <==> row in rows && row.requestId != rows[k].requestId
  {
    var next := rows[..k] + rows[k + 1..];
    forall i, j | 0 <= i < j < |next|
      ensures next[i].requestId != next[j].requestId
      ensures next[i].target == next[j].target && next[j].state == Acknowledged ==> next[i].state == Acknowledged
    {
      var a, b := if i < k then i else i + 1, if j < k then j else j + 1;
      assert next[i] == rows[a] && next[j] == rows[b];
    }
    RemainingRows(rows, k);
  }

  lemma RemainingRows(rows: seq<Intent>, k: nat)
    requires k < |rows| && Distinct(rows)
    ensures forall row :: row in rows[..k] + rows[k + 1..] <==> row in rows && row.requestId != rows[k].requestId
  {
    var next := rows[..k] + rows[k + 1..];
    hide Distinct;
    assert rows == rows[..k] + [rows[k]] + rows[k + 1..];
    forall row | row in next ensures row.requestId != rows[k].requestId {
      var i :| 0 <= i < |next| && next[i] == row;
      var j := if i < k then i else i + 1;
      assert row == rows[j] && j != k;
      OtherIdentity(rows, j, k);
    }
  }

  lemma OtherIdentity(rows: seq<Intent>, j: nat, k: nat)
    requires Distinct(rows) && j < |rows| && k < |rows| && j != k
    ensures rows[j].requestId != rows[k].requestId
  {
  }

  lemma AppendedPicks(rows: seq<Intent>, row: Intent, id: Id, settled: bool)
    requires row.state != Acknowledged
    ensures
      Pick(rows + [row], id, settled) ==
        if id == row.target && !settled then Pick(rows, id, false) + [row] else Pick(rows, id, settled)
  {
    PickJoins(rows, [row], id, settled);
    PickOne(row, id, settled);
  }

  /** The first unsettled row of its document stands before every other of its rows that is not acknowledged. */
  lemma FirstInPlace(rows: seq<Intent>, k: nat)
    requires k < |rows| && Distinct(rows) && SettledFirst(rows) && rows[k].state != Acknowledged
    requires PlaceOf(rows, k) == 0
    ensures forall i :: 0 <= i < k && rows[i].target == rows[k].target ==> rows[i].state == Acknowledged
  {
    PlaceInChain(rows, k);
    PickedRows(rows[..k], rows[k].target, false);
    forall i | 0 <= i < k && rows[i].target == rows[k].target ensures rows[i].state == Acknowledged {
      assert rows[..k][i] == rows[i];
    }
  }

  // ---- the store ----

  datatype Removal = NothingThere | ResolveItFirst | Removed

  /** What a delivery learned, the attempts it made, and the head a conflict read back. */
  datatype Delivered = Delivered(outcome: Outcome, attempts: nat, observed: SharedBase)

  /** A chain a push folded: the never-sent edit retired with its head, and the row that carries it now. */
  datatype Rebase = Rebase(successor: RequestId, replacement: Option<RequestId>)

  datatype PushReport = PushReport(paused: bool, settled: seq<RequestId>, skipped: seq<RequestId>, rebased: seq<Rebase>)

  predicate Accounted(report: PushReport, requestId: RequestId) {
    || requestId in report.settled
    || requestId in report.skipped
    || exists r :: r in report.rebased && r.successor == requestId
  }

  ghost predicate Extends(before: PushReport, after: PushReport) {
    forall id :: Accounted(before, id) ==> Accounted(after, id)
  }

  /** The settlement of one delivery: its attempts never go below what the claim recorded. */
  function SettleOf(requestId: RequestId, claimed: Intent, delivered: Delivered): Verb {
    var attempts := if delivered.attempts > claimed.attempts then delivered.attempts else claimed.attempts;
    SettleVerb(requestId, delivered.outcome, attempts, delivered.observed)
  }

  /** The row's predecessor is still unsettled. */
  predicate Waiting(c: Cell, row: Intent) {
    row.after.Some? && IndexOf(c.chain, row.after.value) < |c.chain|
  }

  // ---- what is done to the store, by a push and by everyone else ----

  /** A transaction of another realm, a local edit, or a pull's write. */
  datatype Move =
    | EditMove(id: Id, now: nat, content: string, posture: Option<Posture>)
    | DeleteMove(id: Id, now: nat)
    | ClaimMove(requestId: RequestId)
    | SettleMove(requestId: RequestId, answer: Outcome, attempts: nat, observed: SharedBase)
    | ReclaimMove(requestId: RequestId)
    | ResumeMove(requestId: RequestId)
    | FoldMove(successor: RequestId, now: nat)
    | ResolveMove(id: Id, choice: Choice, served: SharedBase, now: nat, content: string)
    | RefreshMove(id: Id, version: Version, content: string)
    | UnlistMove(id: Id)

  /** The identity a move mints is the store's next one when it is made. */
  datatype Act = OwnAct(verb: Verb) | OtherAct(move: Move, requestId: RequestId)

  function VerbOf(act: Act): Verb {
    match act
    case OwnAct(verb) => verb
    case OtherAct(move, requestId) =>
      match move
      case EditMove(_, now, content, posture) => CommitVerb(requestId, now, content, posture)
      case DeleteMove(_, now) => DeleteVerb(requestId, now)
      case ClaimMove(id) => ClaimVerb(id)
      case SettleMove(id, answer, attempts, observed) => SettleVerb(id, answer, attempts, observed)
      case ReclaimMove(id) => ReclaimVerb(id)
      case ResumeMove(id) => ResumeVerb(id)
      case FoldMove(successor, now) => FoldVerb(successor, requestId, now)
      case ResolveMove(_, choice, served, now, content) =>
        ResolveVerb(choice, served, Authored(requestId, now, content))
      case RefreshMove(_, version, content) => RefreshVerb(version, content)
      case UnlistMove(_) => UnlistedVerb
  }

  /** The one document a move writes; a move about a row finds its document by the row. */
  function Written(move: Move): Option<Id> {
    match move
    case EditMove(id, _, _, _) => Some(id)
    case DeleteMove(id, _) => Some(id)
    case ResolveMove(id, _, _, _, _) => Some(id)
    case RefreshMove(id, _, _) => Some(id)
    case UnlistMove(id) => Some(id)
    case _ => None
  }

  predicate MoveAdmissible(move: Move) {
    match move
    case EditMove(_, _, content, _) => content != ""
    case SettleMove(_, _, attempts, _) => attempts >= 1
    case ResolveMove(_, _, served, _, content) => ServedHead(served) && content != ""
    case RefreshMove(_, _, content) => content != ""
    case _ => true
  }

  /** What an act makes of one document. */
  function Acted(c: Cell, id: Id, act: Act): Cell {
    if act.OtherAct? && Written(act.move).Some? && Written(act.move).value != id then c else Apply(c, id, VerbOf(act))
  }

  function RunActs(c: Cell, id: Id, acts: seq<Act>): Cell {
    if acts == [] then c else Acted(RunActs(c, id, Front(acts)), id, Last(acts))
  }

  /** The acts of a push are claims, settlements and folds; every other act is one of these moves. */
  ghost predicate PushTrace(acts: seq<Act>, others: iset<Move>) {
    forall act :: act in acts ==>
      if act.OwnAct? then act.verb.ClaimVerb? || act.verb.SettleVerb? || act.verb.FoldVerb? else act.move in others
  }

  ghost function MovesOf(moves: seq<Move>): iset<Move> {
    iset move | move in moves
  }

  /** Everything anyone else does in the turns of a push. */
  ghost function AllMoves(between: nat -> seq<Move>, during: nat -> seq<Move>): iset<Move> {
    iset t: nat, move | move in between(t) || move in during(t) :: move
  }

  predicate NobodyElse(acts: seq<Act>, id: Id) {
    forall act :: act in acts && act.OtherAct? ==> Written(act.move) != Some(id)
  }

  /** Each of these moves once, in order, and then this settlement. */
  predicate Awaited(acts: seq<Act>, moves: seq<Move>, settle: Verb) {
    && |acts| == |moves| + 1 && Last(acts) == OwnAct(settle)
    && forall k :: 0 <= k < |moves| ==> acts[k].OtherAct? && acts[k].move == moves[k]
  }

  predicate SettlesIn(c: Cell, verb: Verb) {
    verb.SettleVerb? && Journal.Settle(c, verb.requestId, verb.answer, verb.attempts, verb.observed).Settled?
  }

  predicate SkippedIn(before: PushReport, report: PushReport, requestId: RequestId) {
    report == before.(skipped := before.skipped + [requestId])
  }

  lemma NoActs()
    ensures forall c, id :: RunActs(c, id, []) == c
    ensures forall others :: PushTrace([], others)
  {
  }

  lemma ActsThen(acts: seq<Act>, act: Act)
    ensures forall c, id :: RunActs(c, id, acts + [act]) == Acted(RunActs(c, id, acts), id, act)
  {
    assert Front(acts + [act]) == acts;
  }

  lemma OneAct(act: Act)
    ensures forall c, id :: RunActs(c, id, [act]) == Acted(c, id, act)
  {
    NoActs();
    ActsThen([], act);
    assert [] + [act] == [act];
  }

  lemma {:induction false} RunActsJoin(c: Cell, id: Id, first: seq<Act>, second: seq<Act>)
    ensures RunActs(c, id, first + second) == RunActs(RunActs(c, id, first), id, second)
  {
    if second == [] {
      assert first + second == first;
    } else {
      assert first + second == (first + Front(second)) + [Last(second)];
      ActsThen(first + Front(second), Last(second));
      RunActsJoin(c, id, first, Front(second));
    }
  }

  lemma TurnJoins(trace: seq<Act>, turn: seq<Act>, others: iset<Move>, moves: iset<Move>)
    requires PushTrace(trace, others) && PushTrace(turn, moves) && moves <= others
    ensures PushTrace(trace + turn, others)
    ensures forall c, id :: RunActs(c, id, trace + turn) == RunActs(RunActs(c, id, trace), id, turn)
  {
    forall c, id ensures RunActs(c, id, trace + turn) == RunActs(RunActs(c, id, trace), id, turn) {
      RunActsJoin(c, id, trace, turn);
    }
  }

  lemma TurnMoves(between: nat -> seq<Move>, during: nat -> seq<Move>, t: nat)
    ensures MovesOf(between(t)) + MovesOf(during(t)) <= AllMoves(between, during)
  {
  }

  lemma MoreMoves(acts: seq<Act>, moves: iset<Move>, others: iset<Move>)
    requires PushTrace(acts, moves) && moves <= others
    ensures PushTrace(acts, others)
  {
  }

  lemma OthersTrace(acts: seq<Act>, moves: seq<Move>)
    requires |acts| == |moves| && forall k :: 0 <= k < |acts| ==> acts[k].OtherAct? && acts[k].move == moves[k]
    ensures PushTrace(acts, MovesOf(moves))
  {
  }

  lemma StillAccounted(before: PushReport, report: PushReport, ids: seq<RequestId>)
    requires Extends(before, report) && forall id :: id in ids ==> Accounted(before, id)
    ensures forall id :: id in ids ==> Accounted(report, id)
  {
    hide Accounted;
  }

  lemma AwaitedTrace(acts: seq<Act>, moves: seq<Move>, settle: Verb)
    requires Awaited(acts, moves, settle) && settle.SettleVerb?
    ensures PushTrace(acts, MovesOf(moves))
  {
    forall act | act in acts
      ensures if act.OwnAct? then act.verb == settle else act.move in moves
    {
      var k :| 0 <= k < |acts| && acts[k] == act;
    }
  }

  /** A claimed turn: the claim, then what came after it. */
  lemma ClaimedTurn(requestId: RequestId, acts: seq<Act>)
    requires acts != []
    ensures forall moves, settle :: Awaited(acts, moves, settle) && settle.SettleVerb? ==>
      PushTrace([OwnAct(ClaimVerb(requestId))] + acts, MovesOf(moves))
    ensures
      var claim := OwnAct(ClaimVerb(requestId));
      && Front([claim] + acts) == [claim] + Front(acts) && ([claim] + acts)[1..] == acts
      && (forall c, id :: RunActs(c, id, [claim] + acts) == RunActs(Apply(c, id, ClaimVerb(requestId)), id, acts))
      && (forall c, id ::
            RunActs(c, id, [claim] + Front(acts)) == RunActs(Apply(c, id, ClaimVerb(requestId)), id, Front(acts)))
  {
    var claim := OwnAct(ClaimVerb(requestId));
    hide Apply, RunActs;
    OneAct(claim);
    forall moves, settle | Awaited(acts, moves, settle) && settle.SettleVerb?
      ensures PushTrace([claim] + acts, MovesOf(moves))
    {
      AwaitedTrace(acts, moves, settle);
    }
    forall c, id
      ensures RunActs(c, id, [claim] + acts) == RunActs(Apply(c, id, ClaimVerb(requestId)), id, acts)
      ensures RunActs(c, id, [claim] + Front(acts)) == RunActs(Apply(c, id, ClaimVerb(requestId)), id, Front(acts))
    {
      RunActsJoin(c, id, [claim], acts);
      RunActsJoin(c, id, [claim], Front(acts));
    }
  }

  /** A push changes no working document and no receipt: only the moves that write a document do. */
  lemma {:induction false} TraceKeepsDocument(c: Cell, id: Id, acts: seq<Act>, others: iset<Move>)
    requires PushTrace(acts, others) && NobodyElse(acts, id)
    ensures RunActs(c, id, acts).doc == c.doc && RunActs(c, id, acts).receipts == c.receipts
  {
    if acts != [] {
      TraceKeepsDocument(c, id, Front(acts), others);
      ActKeepsDocument(RunActs(c, id, Front(acts)), id, Last(acts));
    }
  }

  lemma ActKeepsDocument(c: Cell, id: Id, act: Act)
    requires if act.OwnAct? then act.verb.ClaimVerb? || act.verb.SettleVerb? || act.verb.FoldVerb?
             else Written(act.move) != Some(id)
    ensures Acted(c, id, act).doc == c.doc && Acted(c, id, act).receipts == c.receipts
  {
    hide Apply;
    if act.OwnAct? || Written(act.move) == None {
      RowVerbKeepsDocument(c, id, VerbOf(act));
    }
  }

  /** A verb about one row moves that row, the base, or both. */
  lemma RowVerbKeepsDocument(c: Cell, id: Id, verb: Verb)
    requires verb.ClaimVerb? || verb.SettleVerb? || verb.FoldVerb? || verb.ReclaimVerb? || verb.ResumeVerb?
    ensures Apply(c, id, verb).doc == c.doc && Apply(c, id, verb).receipts == c.receipts
  {
    hide Foldable, FoldedIntent, ChainedPremise, IndexOf;
  }

  lemma TraceKeepsDocuments(acts: seq<Act>, others: iset<Move>)
    requires PushTrace(acts, others)
    ensures forall c, id :: NobodyElse(acts, id) ==>
      RunActs(c, id, acts).doc == c.doc && RunActs(c, id, acts).receipts == c.receipts
  {
    hide RunActs, NobodyElse, PushTrace;
    forall c, id | NobodyElse(acts, id)
      ensures RunActs(c, id, acts).doc == c.doc && RunActs(c, id, acts).receipts == c.receipts
    {
      TraceKeepsDocument(c, id, acts, others);
    }
  }

  predicate NotSecond(c: Cell, requestId: RequestId) {
    forall k :: 1 <= k < |c.chain| ==> c.chain[k].requestId != requestId
  }

  predicate Mints(verb: Verb, requestId: RequestId) {
    match verb
    case CommitVerb(id, _, _, _) => id == requestId
    case DeleteVerb(id, _) => id == requestId
    case FoldVerb(_, id, _) => id == requestId
    case ResolveVerb(_, _, authored) => authored.requestId == requestId
    case _ => false
  }

  /** Rows join a chain at its end: a row that waits on none never comes to wait on one. */
  lemma VerbKeepsFirst(c: Cell, id: Id, verb: Verb, requestId: RequestId)
    requires Shape(c, id) && NotSecond(c, requestId) && !Mints(verb, requestId)
    ensures NotSecond(Apply(c, id, verb), requestId)
  {
    hide DocumentShape, PremiseShape, RowShape, Foldable, Resolvable;
    if verb.SettleVerb? && c.chain != [] {
      assert IndexOf(c.chain, verb.requestId) <= |c.chain|;
    }
  }

  lemma FirstIsNotFolded(c: Cell, requestId: RequestId)
    requires NotSecond(c, requestId)
    ensures !Foldable(c, requestId)
  {
  }

  lemma CommitApplies(c: Cell, id: Id, requestId: RequestId, now: nat, content: string, posture: Option<Posture>)
    ensures Apply(c, id, CommitVerb(requestId, now, content, posture)) ==
      Journal.CommitLocal(c, id, requestId, now, content, posture)
  {
  }

  lemma Unclaimed(requestId: RequestId)
    ensures forall c, id :: !Journal.Claim(c, requestId).Claimed? ==> Apply(c, id, ClaimVerb(requestId)) == c
  {
    hide Journal.Claim;
  }

  /** No claim takes a row that is gone or that waits. */
  lemma NothingToClaim(store: Store, requestId: RequestId, k: nat)
    requires Distinct(store.journal) && FoundAt(store.journal, requestId, k)
    requires k < |store.journal| ==> Waiting(store.CellOf(store.journal[k].target), store.journal[k])
    ensures forall id :: !Journal.Claim(store.CellOf(id), requestId).Claimed?
  {
    NamesElsewhere(store.journal, requestId, k);
    hide Pick, IndexOf, Distinct, Journal.Claim;
    forall id ensures !Journal.Claim(store.CellOf(id), requestId).Claimed? {
      if k < |store.journal| && id == store.journal[k].target && store.journal[k].state != Acknowledged {
        WaitingRow(store, k);
      } else {
        NoRowToClaim(store, id, requestId);
      }
    }
  }

  lemma NoRowToClaim(store: Store, id: Id, requestId: RequestId)
    requires IndexOf(Pick(store.journal, id, false), requestId) == |Pick(store.journal, id, false)|
    ensures !Journal.Claim(store.CellOf(id), requestId).Claimed?
  {
  }

  lemma WaitingRow(store: Store, k: nat)
    requires k < |store.journal| && Distinct(store.journal) && store.journal[k].state != Acknowledged
    requires Waiting(store.CellOf(store.journal[k].target), store.journal[k])
    ensures !Journal.Claim(store.CellOf(store.journal[k].target), store.journal[k].requestId).Claimed?
  {
    PlaceInChain(store.journal, k);
  }

  predicate PausesOn(outcome: Outcome) {
    outcome.RefusedWith? && outcome.code in AUTHORIZATION_REFUSAL_CODES
  }

  class Store {
    var docs: map<Id, string>
    var bases: map<Id, SharedBase>
    var journal: seq<Intent>
    var receipts: map<Id, seq<Receipt>>
    var nextRequest: RequestId

    /** One document as the verbs see it. */
    function CellOf(id: Id): Cell
      reads this
    {
      Cell(if id in docs then Some(docs[id]) else None, if id in bases then Some(bases[id]) else None,
           Pick(journal, id, true), Pick(journal, id, false), if id in receipts then receipts[id] else [])
    }

    ghost predicate Rows()
      reads this
    {
      Distinct(journal) && SettledFirst(journal) && forall row :: row in journal ==> row.requestId < nextRequest
    }

    ghost predicate Valid()
      reads this
    {
      Rows() && forall id :: Shape(CellOf(id), id)
    }

    /** A row that waits on no other, and never will. */
    ghost predicate NeverSecond(requestId: RequestId)
      reads this
    {
      requestId < nextRequest && forall id :: NotSecond(CellOf(id), requestId)
    }

    constructor ()
      ensures Valid() && forall id :: CellOf(id) == BLANK
    {
      docs, bases, journal, receipts, nextRequest := map[], map[], [], map[], 0;
    }

    method Mint() returns (requestId: RequestId)
      requires Rows()
      modifies this`nextRequest
      ensures requestId == old(nextRequest) && nextRequest == requestId + 1 && Rows()
      ensures forall id :: CellOf(id) == old(CellOf(id))
    {
      requestId := nextRequest;
      nextRequest := nextRequest + 1;
    }

    /** The position of a row in the whole journal, or its length. */
    method Find(requestId: RequestId) returns (k: nat)
      ensures k <= |journal|
      ensures k < |journal| ==> journal[k].requestId == requestId
      ensures k == |journal| ==> forall row :: row in journal ==> row.requestId != requestId
      ensures forall id :: CellOf(id) == old(CellOf(id))
    {
      k := 0;
      while k < |journal| && journal[k].requestId != requestId
        invariant k <= |journal| && forall j :: 0 <= j < k ==> journal[j].requestId != requestId
      {
        k := k + 1;
      }
    }

    /** Record an unsettled row's progress where it stands. */
    method SetRow(k: nat, row: Intent)
      requires Rows() && k < |journal| && journal[k].state != Acknowledged && row.state != Acknowledged
      requires row.target == journal[k].target && row.requestId == journal[k].requestId
      modifies this`journal
      ensures Rows() && journal == old(journal)[k := row]
      ensures
        var c, at := old(CellOf(row.target)), old(PlaceOf(journal, k));
        at < |c.chain| && CellOf(row.target) == c.(chain := c.chain[at := row])
      ensures forall id :: id != row.target ==> CellOf(id) == old(CellOf(id))
    {
      hide Pick, IndexOf, PlaceOf;
      ProgressEverywhere(journal, k, row);
      assert journal[k] in journal;
      journal := journal[k := row];
    }

    /** Acknowledge the first unsettled row of its document. */
    method AcknowledgeRow(k: nat, row: Intent)
      requires Rows() && k < |journal| && journal[k].state != Acknowledged && row.state == Acknowledged
      requires row.target == journal[k].target && row.requestId == journal[k].requestId && PlaceOf(journal, k) == 0
      modifies this`journal
      ensures Rows() && journal == old(journal)[k := row]
      ensures
        var c := old(CellOf(row.target));
        c.chain != [] && CellOf(row.target) == c.(settled := c.settled + [row], chain := c.chain[1..])
      ensures forall id :: id != row.target ==> CellOf(id) == old(CellOf(id))
    {
      hide Pick, IndexOf, PlaceOf;
      AcknowledgedEverywhere(journal, k, row);
      FirstInPlace(journal, k);
      assert journal[k] in journal;
      journal := journal[k := row];
    }

    /** Take an unsettled row out of the journal. */
    method RemoveRow(k: nat)
      requires Rows() && k < |journal| && journal[k].state != Acknowledged
      modifies this`journal
      ensures Rows() && journal == old(journal)[..k] + old(journal)[k + 1..]
      ensures
        var c, at := old(CellOf(journal[k].target)), old(PlaceOf(journal, k));
        at < |c.chain| && CellOf(old(journal[k].target)) == c.(chain := c.chain[..at] + c.chain[at + 1..])
      ensures forall id :: id != old(journal[k].target) ==> CellOf(id) == old(CellOf(id))
      ensures forall row :: row in journal <==> row in old(journal) && row.requestId != old(journal[k].requestId)
    {
      hide Pick, IndexOf, Distinct, SettledFirst, PlaceOf;
      RemovedEverywhere(journal, k);
      RowsRemoved(journal, k);
      journal := journal[..k] + journal[k + 1..];
    }

    /** Journal a fresh row. */
    method Append(row: Intent)
      requires Rows() && row.state != Acknowledged && row.requestId < nextRequest
      requires forall other :: other in journal ==> other.requestId != row.requestId
      modifies this`journal
      ensures Rows() && journal == old(journal) + [row]
      ensures CellOf(row.target) == old(CellOf(row.target)).(chain := old(CellOf(row.target)).chain + [row])
      ensures forall id :: id != row.target ==> CellOf(id) == old(CellOf(id))
    {
      hide Pick, IndexOf;
      AppendedEverywhere(journal, row);
      assert forall i :: 0 <= i < |journal| ==> journal[i] in journal;
      journal := journal + [row];
    }

    /** The place in the journal of one row of a document's unsettled chain. */
    method FindInChain(id: Id, j: nat) returns (k: nat)
      requires Rows() && j < |CellOf(id).chain|
      ensures k < |journal| && journal[k] == CellOf(id).chain[j] && journal[k].target == id
      ensures journal[k].state != Acknowledged && PlaceOf(journal, k) == j
    {
      var row := CellOf(id).chain[j];
      PickedRows(journal, id, false);
      assert row in journal;
      k := Find(row.requestId);
      PickDistinct(journal, id, false);
      PlaceInChain(journal, k);
    }

    method WriteDocument(id: Id, doc: Option<string>)
      modifies this`docs
      ensures CellOf(id) == old(CellOf(id)).(doc := doc)
      ensures forall other :: other != id ==> CellOf(other) == old(CellOf(other))
    {
      docs := match doc case Some(content) => docs[id := content] case None => docs - {id};
    }

    method WriteBase(id: Id, base: Option<SharedBase>)
      modifies this`bases
      ensures CellOf(id) == old(CellOf(id)).(base := base)
      ensures forall other :: other != id ==> CellOf(other) == old(CellOf(other))
    {
      bases := match base case Some(row) => bases[id := row] case None => bases - {id};
    }

    method KeepReceipt(id: Id, receipt: Receipt)
      modifies this`receipts
      ensures CellOf(id) == old(CellOf(id)).(receipts := old(CellOf(id)).receipts + [receipt])
      ensures forall other :: other != id ==> CellOf(other) == old(CellOf(other))
    {
      receipts := receipts[id := (if id in receipts then receipts[id] else []) + [receipt]];
    }

    /** A fresh row in place of the one it supersedes, or after the rows there are. */
    method JournalRow(id: Id, supersede: bool, row: Intent)
      requires Rows() && row.target == id && row.state != Acknowledged && row.requestId < nextRequest
      requires forall other :: other in journal ==> other.requestId != row.requestId
      requires supersede ==> CellOf(id).chain != []
      modifies this`journal
      ensures Rows()
      ensures
        var c := old(CellOf(id));
        CellOf(id) == c.(chain := (if supersede then Front(c.chain) else c.chain) + [row])
      ensures forall other :: other != id ==> CellOf(other) == old(CellOf(other))
    {
      hide Pick, Distinct, SettledFirst, IndexOf, CellOf;
      if supersede {
        DropLast(id);
      }
      Append(row);
    }

    method DropLast(id: Id)
      requires Rows() && CellOf(id).chain != []
      modifies this`journal
      ensures Rows() && CellOf(id) == old(CellOf(id)).(chain := Front(old(CellOf(id)).chain))
      ensures forall other :: other != id ==> CellOf(other) == old(CellOf(other))
      ensures forall row :: row in journal ==> row in old(journal)
    {
      hide Pick, Distinct, SettledFirst, IndexOf, CellOf, PlaceOf;
      ghost var c := CellOf(id);
      var k := FindInChain(id, |CellOf(id).chain| - 1);
      RemoveRow(k);
      assert c.chain[..|c.chain| - 1] + c.chain[|c.chain|..] == Front(c.chain);
    }

    // ---- local edits ----

    method CommitLocal(id: Id, now: nat, content: string, posture: Option<Posture>) returns (requestId: RequestId)
      requires Valid() && content != ""
      modifies this
      ensures Valid() && requestId == old(nextRequest) && nextRequest == requestId + 1
      ensures CellOf(id) == Journal.CommitLocal(old(CellOf(id)), id, requestId, now, content, posture)
      ensures forall other :: other != id ==> CellOf(other) == old(CellOf(other))
    {
      hide Shape, Pick, ComposeIntent, Distinct, SettledFirst, Replaceable, IndexOf, CellOf;
      requestId := Mint();
      var c := CellOf(id);
      CommitKeepsShape(c, id, requestId, now, content, posture);
      ComposedRow(c, id, requestId, now);
      var composed := ComposeIntent(c, id, requestId, now);
      var intent := composed.(bodyReplace := ComposedBodyReplace(composed.bodyReplace, posture));
      WriteDocument(id, Some(content));
      JournalRow(id, c.chain != [] && Replaceable(Last(c.chain)), Journaled(intent, content));
    }

    method DeleteLocal(id: Id, now: nat) returns (result: Removal, intent: Option<NewIntent>)
      requires Valid()
      modifies this
      ensures Valid() && nextRequest == old(nextRequest) + 1
      ensures CellOf(id) == Apply(old(CellOf(id)), id, DeleteVerb(old(nextRequest), now))
      ensures result == NothingThere <==> Journal.DeleteLocal(old(CellOf(id)), id, old(nextRequest), now) == NoDocument
      ensures result == ResolveItFirst <==>
        Journal.DeleteLocal(old(CellOf(id)), id, old(nextRequest), now) == ResolveFirst
      ensures result == Removed ==> intent == ComposeDeletion(old(CellOf(id)), id, old(nextRequest), now)
      ensures forall other :: other != id ==> CellOf(other) == old(CellOf(other))
    {
      hide Shape, Pick, ComposeDeletion, Distinct, SettledFirst, Replaceable, IndexOf, CellOf, Apply;
      hide Journal.DeleteLocal;
      var requestId := Mint();
      intent := None;
      var c := CellOf(id);
      DeleteKeepsShape(c, id, requestId, now);
      ComposedDeletion(c, id, requestId, now);
      DeletionOf(c, id, requestId, now);
      if c.doc == None {
        return NothingThere, None;
      }
      if c.chain != [] && Last(c.chain).state == Conflict {
        return ResolveItFirst, None;
      }
      intent := ComposeDeletion(c, id, requestId, now);
      var supersede := c.chain != [] && Replaceable(Last(c.chain));
      JournalDeletion(id, supersede, if intent.Some? then Some(Journaled(intent.value, DELETION_CONTENT)) else None);
      result := Removed;
    }

    /** Remove a document and journal its deletion, or only take back the row it would have followed. */
    method JournalDeletion(id: Id, supersede: bool, row: Option<Intent>)
      requires Rows() && (supersede ==> CellOf(id).chain != [])
      requires row.Some? ==>
        row.value.target == id && row.value.state != Acknowledged && row.value.requestId < nextRequest
      requires row.Some? ==> forall other :: other in journal ==> other.requestId != row.value.requestId
      modifies this`docs, this`journal
      ensures Rows()
      ensures
        var c := old(CellOf(id));
        CellOf(id) == c.(doc := None, chain := (if supersede then Front(c.chain) else c.chain) + if row.Some?
            then [row.value] else [])
      ensures forall other :: other != id ==> CellOf(other) == old(CellOf(other))
    {
      hide Pick, Distinct, SettledFirst, IndexOf, CellOf;
      WriteDocument(id, None);
      if row.Some? {
        JournalRow(id, supersede, row.value);
      } else if supersede {
        DropLast(id);
      }
    }

    // ---- delivery ----

    /** Claim a pending row; it waits while its predecessor is unsettled, and takes the premise its answer set. */
    method Claim(requestId: RequestId) returns (claimed: Option<Intent>)
      requires Valid()
      modifies this`journal
      ensures Valid() && |journal| == |old(journal)|
      ensures forall id :: CellOf(id) == Apply(old(CellOf(id)), id, ClaimVerb(requestId))
      ensures claimed.Some? ==>
        Journal.Claim(old(CellOf(claimed.value.target)), requestId) ==
          Claimed(CellOf(claimed.value.target), claimed.value)
      ensures claimed.Some? ==> claimed.value.attempts >= 1
      ensures claimed == None ==> forall id :: !Journal.Claim(old(CellOf(id)), requestId).Claimed?
    {
      hide Shape, Pick, Distinct, SettledFirst, IndexOf, Apply, CellOf, Journal.Claim;
      var k := Find(requestId);
      ClaimsOnlyThere(this, requestId, k);
      if k == |journal| || journal[k].state != Pending {
        return None;
      }
      PlaceInChain(journal, k);
      ChainIs(this, journal[k].target);
      claimed := ClaimRow(k);
    }

    method ClaimRow(k: nat) returns (claimed: Option<Intent>)
      requires Rows() && k < |journal| && journal[k].state == Pending
      requires
        var c := CellOf(journal[k].target);
        Shape(c, journal[k].target)
          && IndexOf(c.chain, journal[k].requestId) < |c.chain|
          && c.chain[IndexOf(c.chain, journal[k].requestId)] == journal[k]
      modifies this`journal
      ensures Rows() && |journal| == |old(journal)|
      ensures
        var id := old(journal[k].target);
        && Shape(CellOf(id), id)
        && CellOf(id) == Apply(old(CellOf(id)), id, ClaimVerb(old(journal[k].requestId)))
        && (claimed.Some? ==>
              && Journal.Claim(old(CellOf(id)), old(journal[k].requestId)) == Claimed(CellOf(id), claimed.value)
              && claimed.value.target == id && claimed.value.attempts >= 1)
        && (claimed == None ==> !Journal.Claim(old(CellOf(id)), old(journal[k].requestId)).Claimed?)
      ensures forall id :: id != old(journal[k].target) ==> CellOf(id) == old(CellOf(id))
    {
      hide Shape, Pick, Distinct, SettledFirst, IndexOf, CellOf, Apply, Journal.Claim, ChainedPremise;
      var intent := journal[k];
      var c := CellOf(intent.target);
      ChainIs(this, intent.target);
      ClaimKeepsShape(c, intent.target, intent.requestId);
      ClaimOf(c, intent.target, intent.requestId);
      var row := intent;
      if intent.after.Some? {
        if IndexOf(c.chain, intent.after.value) < |c.chain| {
          return None;
        }
        var p := IndexOf(c.settled, intent.after.value);
        if p < |c.settled| && intent.attempts == 0 {
          row := ChainedPremise(intent, c.settled[p]);
        }
      }
      row := row.(state := InFlight, attempts := intent.attempts + 1);
      SetRow(k, row);
      claimed := Some(row);
    }

    /** Settle an in-flight row against an answer: acknowledged with its base, or where it stands. */
    method Settle(requestId: RequestId, answer: Outcome, attempts: nat, observed: SharedBase)
        returns (settled: Option<Intent>)
      requires Valid() && attempts >= 1
      modifies this`journal, this`bases
      ensures Valid() && |journal| == |old(journal)|
      ensures forall id :: CellOf(id) == Apply(old(CellOf(id)), id, SettleVerb(requestId, answer, attempts, observed))
      ensures settled == None ==>
        forall id :: Journal.Settle(old(CellOf(id)), requestId, answer, attempts, observed) == SettledElsewhere
      ensures settled.Some? ==>
        Journal.Settle(old(CellOf(settled.value.target)), requestId, answer, attempts, observed).Settled?
    {
      hide Shape, Pick, Distinct, SettledFirst, IndexOf, Apply, CellOf, Journal.Settle;
      var k := Find(requestId);
      SettlesOnlyThere(this, requestId, k, answer, attempts, observed);
      if k == |journal| || journal[k].state != InFlight {
        return None;
      }
      InFlightFirst(this, k);
      var row := SettleRow(k, answer, attempts, observed);
      settled := Some(row);
    }

    method SettleRow(k: nat, answer: Outcome, attempts: nat, observed: SharedBase) returns (row: Intent)
      requires Rows() && k < |journal| && journal[k].state == InFlight && attempts >= 1
      requires
        var c := CellOf(journal[k].target);
        Shape(c, journal[k].target) && c.chain != [] && IndexOf(c.chain, journal[k].requestId) == 0
          && c.chain[0] == journal[k]
      modifies this`journal, this`bases
      ensures Rows() && |journal| == |old(journal)| && row.requestId == old(journal[k].requestId)
      ensures
        var id := old(journal[k].target);
        && Shape(CellOf(id), id)
        && CellOf(id) == Apply(old(CellOf(id)), id, SettleVerb(old(journal[k].requestId), answer, attempts, observed))
        && Journal.Settle(old(CellOf(id)), old(journal[k].requestId), answer, attempts, observed).Settled?
           && row.target == id
      ensures forall id :: id != old(journal[k].target) ==> CellOf(id) == old(CellOf(id))
    {
      hide Shape, Pick, Distinct, SettledFirst, IndexOf, CellOf, Apply;
      var current := journal[k];
      ghost var c := CellOf(current.target);
      ChainIs(this, current.target);
      SettleKeepsShape(c, current.target, current.requestId, answer, attempts, observed);
      SettlementOfFirst(c, current.target, answer, attempts, observed);
      match SettleAgainstIntent(answer, current) {
        case Committed(version) =>
          row := current.(state := Acknowledged, attempts := attempts, acknowledgedVersion := Some(version));
          AcknowledgeRow(k, row);
          WriteBase(current.target, Some(
            if current.kind == Delete
            then SharedBase(None, None, if version != DELETION_VERSION then Some(version) else None, false)
            else SharedBase(Some(version), Some(current.content), None, version != current.local)));
        case ConflictWith(actual, tombstone) =>
          row := current.(state := Conflict, attempts := attempts, remote := Some(observed));
          SetRow(k, row);
        case RefusedWith(code) =>
          row := current.(state := Refused, attempts := attempts, refusal := Some(code));
          SetRow(k, row);
        case NoAnswer =>
          row := current.(state := Pending, attempts := attempts);
          SetRow(k, row);
      }
    }

    /** Take every unsettled row of a document out of the journal. */
    method RetireChain(id: Id)
      requires Rows()
      modifies this`journal
      ensures Rows() && CellOf(id) == old(CellOf(id)).(chain := [])
      ensures |journal| == |old(journal)| - |old(CellOf(id).chain)|
      ensures forall other :: other != id ==> CellOf(other) == old(CellOf(other))
      ensures forall row :: row in journal ==> row in old(journal)
    {
      hide Pick, Distinct, SettledFirst, IndexOf, CellOf;
      while CellOf(id).chain != []
        invariant Rows() && CellOf(id) == old(CellOf(id)).(chain := CellOf(id).chain)
        invariant |journal| - |CellOf(id).chain| == |old(journal)| - |old(CellOf(id).chain)|
        invariant forall other :: other != id ==> CellOf(other) == old(CellOf(other))
        invariant forall row :: row in journal ==> row in old(journal)
        decreases |CellOf(id).chain|
      {
        ghost var chain := CellOf(id).chain;
        var k := FindInChain(id, 0);
        RemoveRow(k);
        assert chain[..0] + chain[1..] == chain[1..];
      }
    }

    /** Retire a document's whole chain for one row, or for none. */
    method ReplaceChain(id: Id, row: Option<Intent>)
      requires Rows()
      requires row.Some? ==>
        row.value.target == id && row.value.state != Acknowledged && row.value.requestId < nextRequest
      requires row.Some? ==> forall other :: other in journal ==> other.requestId != row.value.requestId
      modifies this`journal
      ensures Rows() && CellOf(id) == old(CellOf(id)).(chain := if row.Some? then [row.value] else [])
      ensures |journal| == |old(journal)| - |old(CellOf(id).chain)| + if row.Some? then 1 else 0
      ensures forall other :: other != id ==> CellOf(other) == old(CellOf(other))
    {
      hide Pick, Distinct, SettledFirst, IndexOf, CellOf;
      RetireChain(id);
      if row.Some? {
        Append(row.value);
      }
    }

    /** Retire a refused head and the never-sent edit that waited on it, for one fresh row over the same bytes. */
    method FoldRefusedChain(successor: RequestId, now: nat)
        returns (folded: Option<seq<Intent>>, successorRow: Option<Intent>)
      requires Valid()
      modifies this`journal, this`nextRequest
      ensures Valid() && nextRequest == old(nextRequest) + 1
      ensures forall id :: CellOf(id) == Apply(old(CellOf(id)), id, FoldVerb(successor, old(nextRequest), now))
      ensures folded.Some? ==> exists id :: Foldable(old(CellOf(id)), successor)
      ensures successorRow.Some? ==> successorRow.value.requestId == old(nextRequest)
      ensures successorRow.Some? ==> folded.Some? && forall id :: NotSecond(CellOf(id), old(nextRequest))
    {
      hide Shape, Pick, Distinct, SettledFirst, IndexOf, CellOf, Apply, Foldable, FoldedIntent;
      var requestId := Mint();
      var k := Find(successor);
      folded, successorRow := None, None;
      FoldsOnlyThere(this, successor, k, requestId, now);
      if k == |journal| || journal[k].state == Acknowledged {
        return;
      }
      ghost var target := journal[k].target;
      var c := CellOf(journal[k].target);
      FoldKeepsShape(c, target, successor, requestId, now);
      FoldOf(c, target, successor, requestId, now);
      NobodyNamed(this, requestId);
      if Foldable(c, successor) {
        FoldableChain(c, target, successor, requestId, now);
        var intent := FoldedIntent(c.chain[0], c.chain[1], requestId, now);
        successorRow := if intent.Some? then Some(Journaled(intent.value, c.chain[1].content)) else None;
        ReplaceChain(journal[k].target, successorRow);
        folded := Some(c.chain);
      }
    }

    // ---- conflict resolution ----

    /** Resolve a recorded conflict against the served head: keep the local edit, take the head, or revise. */
    method ResolveConflict(id: Id, choice: Choice, served: SharedBase, now: nat, content: string)
        returns (resolved: bool)
      requires Valid() && ServedHead(served) && content != ""
      modifies this
      ensures Valid() && nextRequest == old(nextRequest) + 1
      ensures CellOf(id) == Apply(old(CellOf(id)), id,
          ResolveVerb(choice, served, Authored(old(nextRequest), now, content)))
      ensures resolved <==>
        Journal.ResolveConflict(old(CellOf(id)), id, choice, served, Authored(old(nextRequest), now, content)).Some?
      ensures forall other :: other != id ==> CellOf(other) == old(CellOf(other))
    {
      hide Shape, Pick, Distinct, SettledFirst, IndexOf, CellOf, Apply, Resolvable, Journal.ResolveConflict;
      hide ReviewedRemote, ResolvedCell;
      var requestId := Mint();
      var authored := Authored(requestId, now, content);
      var c := CellOf(id);
      ResolveKeepsShape(c, id, choice, served, authored);
      ResolveOf(c, id, choice, served, authored);
      if !Resolvable(c) || (Last(c.chain).kind == Delete && choice == Revise) {
        return false;
      }
      var cell := ResolvedCell(c, id, choice, served, authored);
      ResolvedFields(c, id, choice, served, authored);
      ReplaceChain(id, if cell.chain != [] then Some(cell.chain[0]) else None);
      Adopt(id, cell.doc, cell.base, LastReceipt(cell.receipts));
      assert CellOf(id) == cell;
      resolved := true;
    }

    /** What a resolution writes beside the journal. */
    method Adopt(id: Id, doc: Option<string>, base: Option<SharedBase>, receipt: Receipt)
      modifies this`docs, this`bases, this`receipts
      ensures CellOf(id) == old(CellOf(id)).(doc := doc, base := base, receipts := old(CellOf(id)).receipts + [receipt])
      ensures forall other :: other != id ==> CellOf(other) == old(CellOf(other))
    {
      hide Pick, CellOf;
      WriteDocument(id, doc);
      WriteBase(id, base);
      KeepReceipt(id, receipt);
    }

    // ---- the authority's side arriving ----

    method Refresh(id: Id, version: Version, content: string) returns (written: bool)
      requires Valid() && content != ""
      modifies this`docs, this`bases
      ensures Valid() && written == (old(CellOf(id)).chain == [])
      ensures CellOf(id) == Apply(old(CellOf(id)), id, RefreshVerb(version, content))
      ensures forall other :: other != id ==> CellOf(other) == old(CellOf(other))
    {
      hide Shape, Pick, Distinct, SettledFirst, IndexOf, CellOf;
      StepKeepsShape(CellOf(id), id, RefreshVerb(version, content));
      if CellOf(id).chain != [] {
        return false;
      }
      WriteDocument(id, Some(content));
      WriteBase(id, Some(SharedBase(Some(version), Some(content), None, false)));
      written := true;
    }

    method RemoveUnlisted(id: Id) returns (held: bool)
      requires Valid()
      modifies this`docs, this`bases
      ensures Valid() && held == (old(CellOf(id)).chain != [])
      ensures CellOf(id) == Apply(old(CellOf(id)), id, UnlistedVerb)
      ensures forall other :: other != id ==> CellOf(other) == old(CellOf(other))
    {
      hide Shape, Pick, Distinct, SettledFirst, IndexOf, CellOf;
      var c := CellOf(id);
      StepKeepsShape(c, id, UnlistedVerb);
      held := c.chain != [];
      if held {
        WriteBase(id, Some(SharedBase(None, if c.base.Some? then c.base.value.content else None, None, false)));
      } else {
        WriteDocument(id, None);
        WriteBase(id, None);
      }
    }

    // ---- requeueing ----

    /** Requeue every row refused for lost permission, and touch no other. */
    method Resume() returns (requeued: nat)
      requires Valid()
      modifies this`journal
      ensures Valid() && |journal| == |old(journal)|
      ensures forall k :: 0 <= k < |journal| ==>
        journal[k] == if IsAuthorizationRefusal(old(journal)[k]) then old(journal)[k].(state := Pending)
          else old(journal)[k]
    {
      requeued := 0;
      hide CellOf, PlaceOf, Shape, Rows;
      for k := 0 to |journal|
        invariant Valid() && |journal| == |old(journal)|
        invariant forall j :: k <= j < |journal| ==> journal[j] == old(journal)[j]
        invariant forall j :: 0 <= j < k ==> journal[j] == if IsAuthorizationRefusal(old(journal)[j])
          then old(journal)[j].(state := Pending) else old(journal)[j]
      {
        if IsAuthorizationRefusal(journal[k]) {
          Requeue(k, journal[k].(state := Pending));
          requeued := requeued + 1;
        }
      }
    }

    /** Requeue every row a dead realm left in flight, with at least the attempt its claim counted. */
    method ReclaimInFlight() returns (reclaimed: nat)
      requires Valid()
      modifies this`journal
      ensures Valid() && |journal| == |old(journal)|
      ensures forall k :: 0 <= k < |journal| ==> journal[k] == Reclaimed(old(journal)[k])
      ensures forall k :: 0 <= k < |journal| ==> journal[k].state != InFlight
    {
      reclaimed := 0;
      hide CellOf, PlaceOf, Shape, Rows;
      for k := 0 to |journal|
        invariant Valid() && |journal| == |old(journal)|
        invariant forall j :: k <= j < |journal| ==> journal[j] == old(journal)[j]
        invariant forall j :: 0 <= j < k ==> journal[j] == Reclaimed(old(journal)[j])
      {
        if journal[k].state == InFlight {
          Requeue(k, Reclaimed(journal[k]));
          reclaimed := reclaimed + 1;
        }
      }
    }

    method Requeue(k: nat, row: Intent)
      requires Valid() && k < |journal|
      requires || (IsAuthorizationRefusal(journal[k]) && row == journal[k].(state := Pending))
               || (journal[k].state == InFlight && row == Reclaimed(journal[k]))
      modifies this`journal
      ensures Valid() && journal == old(journal)[k := row]
    {
      hide Shape, Pick, Distinct, SettledFirst, IndexOf, CellOf, PlaceOf;
      RequeueInPlace(k, row);
    }

    method RequeueInPlace(k: nat, row: Intent)
      requires Valid() && k < |journal|
      requires || (IsAuthorizationRefusal(journal[k]) && row == journal[k].(state := Pending))
               || (journal[k].state == InFlight && row == Reclaimed(journal[k]))
      modifies this`journal
      ensures Valid() && journal == old(journal)[k := row]
      ensures
        var c, at := old(CellOf(row.target)), old(PlaceOf(journal, k));
        at < |c.chain| && CellOf(row.target) == c.(chain := c.chain[at := row])
      ensures forall id :: id != row.target ==> CellOf(id) == old(CellOf(id))
    {
      hide Shape, Pick, Distinct, SettledFirst, IndexOf, CellOf;
      ghost var c := CellOf(row.target);
      PlaceInChain(journal, k);
      ChainIs(this, row.target);
      RequeuedShape(c, row.target, PlaceOf(journal, k), row);
      SetRow(k, row);
    }

    /** Requeue one row a dead realm left in flight. */
    method ReclaimOne(requestId: RequestId)
      requires Valid()
      modifies this`journal
      ensures Valid() && |journal| == |old(journal)|
      ensures forall id :: CellOf(id) == Apply(old(CellOf(id)), id, ReclaimVerb(requestId))
    {
      hide Shape, Pick, Distinct, SettledFirst, IndexOf, CellOf, Apply;
      var k := Find(requestId);
      RequeuesOnlyThere(this, requestId, k);
      if k < |journal| && journal[k].state == InFlight {
        RequeueOf(this, k);
        RequeueInPlace(k, Reclaimed(journal[k]));
      }
    }

    /** Requeue one row refused for lost permission. */
    method ResumeOne(requestId: RequestId)
      requires Valid()
      modifies this`journal
      ensures Valid() && |journal| == |old(journal)|
      ensures forall id :: CellOf(id) == Apply(old(CellOf(id)), id, ResumeVerb(requestId))
    {
      hide Shape, Pick, Distinct, SettledFirst, IndexOf, CellOf, Apply;
      var k := Find(requestId);
      RequeuesOnlyThere(this, requestId, k);
      if k < |journal| && IsAuthorizationRefusal(journal[k]) {
        RequeueOf(this, k);
        RequeueInPlace(k, journal[k].(state := Pending));
      }
    }

    // ---- what others do to the store ----

    /** One transaction of another realm, of a local edit or of a pull, between two of this realm's own. */
    method Other(move: Move) returns (ghost act: Act)
      requires Valid() && MoveAdmissible(move)
      modifies this
      ensures Valid() && act == OtherAct(move, old(nextRequest))
      ensures forall id :: CellOf(id) == Acted(old(CellOf(id)), id, act)
      ensures forall requestId :: old(NeverSecond(requestId)) ==> NeverSecond(requestId)
    {
      hide Shape, Pick, Distinct, SettledFirst, IndexOf, CellOf, Apply, Rows, Journal.CommitLocal, NotSecond;
      act := OtherAct(move, nextRequest);
      match move {
        case EditMove(id, now, content, posture) =>
          CommitApplies(CellOf(id), id, nextRequest, now, content, posture);
          var _ := CommitLocal(id, now, content, posture);
        case DeleteMove(id, now) => var _, _ := DeleteLocal(id, now);
        case ClaimMove(requestId) => var _ := Claim(requestId);
        case SettleMove(requestId, answer, attempts, observed) =>
          var _ := Settle(requestId, answer, attempts, observed);
        case ReclaimMove(requestId) => ReclaimOne(requestId);
        case ResumeMove(requestId) => ResumeOne(requestId);
        case FoldMove(successor, now) => var _, _ := FoldRefusedChain(successor, now);
        case ResolveMove(id, choice, served, now, content) =>
          var _ := ResolveConflict(id, choice, served, now, content);
        case RefreshMove(id, version, content) => var _ := Refresh(id, version, content);
        case UnlistMove(id) => var _ := RemoveUnlisted(id);
      }
      forall requestId, id | old(NeverSecond(requestId)) ensures NotSecond(CellOf(id), requestId) {
        VerbKeepsFirst(old(CellOf(id)), id, VerbOf(act), requestId);
      }
    }

    method Others(moves: seq<Move>) returns (ghost acts: seq<Act>)
      requires Valid() && forall move :: move in moves ==> MoveAdmissible(move)
      modifies this
      ensures Valid() && |acts| == |moves|
      ensures forall k :: 0 <= k < |acts| ==> acts[k].OtherAct? && acts[k].move == moves[k]
      ensures forall id :: CellOf(id) == RunActs(old(CellOf(id)), id, acts)
      ensures forall requestId :: old(NeverSecond(requestId)) ==> NeverSecond(requestId)
    {
      hide Shape, Pick, Distinct, SettledFirst, IndexOf, CellOf, Apply, Rows, Acted, MoveAdmissible, NeverSecond;
      acts := [];
      for k := 0 to |moves|
        invariant Valid() && |acts| == k
        invariant forall j :: 0 <= j < k ==> acts[j].OtherAct? && acts[j].move == moves[j]
        invariant forall id :: CellOf(id) == RunActs(old(CellOf(id)), id, acts)
        invariant forall requestId :: old(NeverSecond(requestId)) ==> NeverSecond(requestId)
      {
        ghost var act := Other(moves[k]);
        assert Front(acts + [act]) == acts && Last(acts + [act]) == act;
        acts := acts + [act];
      }
    }

    // ---- push ----

    /** The pending rows, in commit order. */
    method ListPending() returns (queue: seq<RequestId>)
      ensures forall row :: row in journal && row.state == Pending ==> row.requestId in queue
    {
      queue := [];
      for k := 0 to |journal|
        invariant forall j :: 0 <= j < k && journal[j].state == Pending ==> journal[j].requestId in queue
      {
        if journal[k].state == Pending {
          queue := queue + [journal[k].requestId];
        }
      }
    }

    /** An unsettled predecessor, and whether it is one a push may fold its never-sent successor into. */
    method Predecessor(row: Intent) returns (waits: bool, foldable: bool)
      ensures waits == Waiting(CellOf(row.target), row)
      ensures foldable ==> waits
    {
      waits, foldable := false, false;
      if row.after.Some? {
        var chain := CellOf(row.target).chain;
        var p := IndexOf(chain, row.after.value);
        if p < |chain| {
          waits, foldable := true, row.attempts == 0 && IsContentRefusal(chain[p]);
        }
      }
    }

    /**
     * Deliver the pending rows in commit order; a row that a fold journals is delivered in the same run.
     * `deliver` is what each delivery learns, with the attempts it made. Everyone else acts without end: `between`
     * says what they do to the store before each turn, `during` what they do while it waits for its answer. The
     * push ends all the same, for a row that a fold journals waits on no other and is never folded again. It
     * changes no working document itself, and unless lost permission stops it every row that was pending is
     * settled, skipped or retired by a fold.
     */
    method Push(now: nat, paused: bool, deliver: (Intent, nat) -> Delivered, between: nat -> seq<Move>,
                during: nat -> seq<Move>)
        returns (report: PushReport, ghost trace: seq<Act>)
      requires Valid()
      requires forall t, move :: move in between(t) ==> MoveAdmissible(move)
      requires forall t, move :: move in during(t) ==> MoveAdmissible(move)
      modifies this
      ensures Valid() && forall id :: CellOf(id) == RunActs(old(CellOf(id)), id, trace)
      ensures PushTrace(trace, AllMoves(between, during)) && (paused ==> report.paused && trace == [])
      ensures forall id :: NobodyElse(trace, id) ==>
        CellOf(id).doc == old(CellOf(id)).doc && CellOf(id).receipts == old(CellOf(id)).receipts
      ensures !report.paused ==>
        forall row :: row in old(journal) && row.state == Pending ==> Accounted(report, row.requestId)
    {
      hide Shape, Pick, Distinct, SettledFirst, IndexOf, CellOf, Apply, Rows, MoveAdmissible, Accounted, RunActs;
      hide PushTrace, NobodyElse, NeverSecond, AllMoves, Extends;
      NoActs();
      TraceKeepsDocuments([], AllMoves(between, during));
      report, trace := PushReport(paused, [], [], []), [];
      if paused {
        return;
      }
      var queue := ListPending();
      var listed, index := |queue|, 0;
      while index < |queue|
        invariant 0 <= index <= |queue| && listed <= |queue| && Valid() && !report.paused
        invariant PushTrace(trace, AllMoves(between, during))
        invariant forall id :: CellOf(id) == RunActs(old(CellOf(id)), id, trace)
        invariant forall c, id :: NobodyElse(trace, id) ==>
          RunActs(c, id, trace).doc == c.doc && RunActs(c, id, trace).receipts == c.receipts
        invariant forall row :: row in old(journal) && row.state == Pending ==> row.requestId in queue
        invariant forall j :: 0 <= j < index ==> Accounted(report, queue[j])
        invariant forall j :: listed <= j < |queue| ==> NeverSecond(queue[j])
        decreases if index < listed then listed - index else 0, |queue| - index
      {
        var freshRow: Option<RequestId>;
        ghost var turn: seq<Act>;
        ghost var before := report;
        report, freshRow, turn := Turn(queue[index], now, index, deliver, between(index), during(index), report);
        StillAccounted(before, report, queue[..index]);
        TurnMoves(between, during, index);
        TurnJoins(trace, turn, AllMoves(between, during), MovesOf(between(index)) + MovesOf(during(index)));
        trace, index := trace + turn, index + 1;
        TraceKeepsDocuments(trace, AllMoves(between, during));
        if freshRow.Some? {
          queue := queue + [freshRow.value];
        }
        if report.paused {
          return;
        }
      }
      assert forall id :: id in queue ==> exists j :: 0 <= j < |queue| && queue[j] == id;
    }

    /** One turn of the queue, after whatever others did since the turn before. */
    method Turn(requestId: RequestId, now: nat, turn: nat, deliver: (Intent, nat) -> Delivered, moves: seq<Move>,
                meanwhile: seq<Move>, before: PushReport)
        returns (report: PushReport, freshRow: Option<RequestId>, ghost acts: seq<Act>)
      requires Valid() && !before.paused
      requires forall move :: move in moves || move in meanwhile ==> MoveAdmissible(move)
      modifies this
      ensures Valid() && Extends(before, report) && Accounted(report, requestId)
      ensures forall id :: CellOf(id) == RunActs(old(CellOf(id)), id, acts)
      ensures PushTrace(acts, MovesOf(moves) + MovesOf(meanwhile))
      ensures forall id :: old(NeverSecond(id)) ==> NeverSecond(id)
      ensures freshRow.Some? ==> !old(NeverSecond(requestId)) && NeverSecond(freshRow.value)
    {
      hide Shape, Pick, Distinct, SettledFirst, IndexOf, CellOf, Apply, Rows, MoveAdmissible, Accounted, RunActs;
      hide NeverSecond, Extends;
      ghost var first := Others(moves);
      report, freshRow, acts := PushOne(requestId, now, turn, deliver, meanwhile, before);
      OthersTrace(first, moves);
      ghost var allowed := MovesOf(moves) + MovesOf(meanwhile);
      MoreMoves(first, MovesOf(moves), allowed);
      MoreMoves(acts, MovesOf(meanwhile), allowed);
      TurnJoins(first, acts, allowed, allowed);
      acts := first + acts;
    }

    /** One turn of the queue: fold, wait, or claim, deliver and settle, with whatever others do meanwhile. */
    method PushOne(requestId: RequestId, now: nat, turn: nat, deliver: (Intent, nat) -> Delivered, moves: seq<Move>,
                   before: PushReport)
        returns (report: PushReport, freshRow: Option<RequestId>, ghost acts: seq<Act>)
      requires Valid() && !before.paused && forall move :: move in moves ==> MoveAdmissible(move)
      modifies this
      ensures Valid() && Extends(before, report) && Accounted(report, requestId)
      ensures forall id :: CellOf(id) == RunActs(old(CellOf(id)), id, acts)
      ensures acts == [] ==>
        SkippedIn(before, report, requestId) && forall id :: !Journal.Claim(old(CellOf(id)), requestId).Claimed?
      ensures |acts| == 1 ==> acts[0] == OwnAct(FoldVerb(requestId, old(nextRequest), now))
      ensures |acts| == 1 ==>
        SkippedIn(before, report, requestId)
          || report == before.(rebased := before.rebased + [Rebase(requestId, freshRow)])
      ensures |acts| > 1 ==>
        exists row: Intent ::
          var settle := SettleOf(requestId, row, deliver(row, turn));
          && Journal.Claim(old(CellOf(row.target)), requestId).Claimed?
          && Journal.Claim(old(CellOf(row.target)), requestId).row == row
          && acts[0] == OwnAct(ClaimVerb(requestId))
          && Awaited(acts[1..], moves, settle)
          && if exists id :: SettlesIn(RunActs(old(CellOf(id)), id, Front(acts)), settle)
             then report == before.(settled := before.settled + [requestId], paused := PausesOn(settle.answer))
             else SkippedIn(before, report, requestId)
      ensures PushTrace(acts, MovesOf(moves))
      ensures forall id :: old(NeverSecond(id)) ==> NeverSecond(id)
      ensures freshRow.Some? ==> !old(NeverSecond(requestId)) && NeverSecond(freshRow.value)
    {
      hide Shape, Pick, Distinct, SettledFirst, IndexOf, Apply, Journal.Claim, RunActs, CellOf, MoveAdmissible;
      hide SettlesIn, Awaited, NotSecond, Foldable;
      freshRow, acts := None, [];
      report := before.(skipped := before.skipped + [requestId]);
      NoActs();
      var k := Find(requestId);
      if k == |journal| {
        NothingToClaim(this, requestId, k);
        return;
      }
      var waits, foldable := Predecessor(journal[k]);
      if waits && !foldable {
        NothingToClaim(this, requestId, k);
        return;
      }
      if waits {
        acts := [OwnAct(FoldVerb(requestId, nextRequest, now))];
        OneAct(acts[0]);
        assert PushTrace(acts, MovesOf(moves));
        var folded, row := FoldRefusedChain(requestId, now);
        forall other, id | old(NeverSecond(other)) ensures NotSecond(CellOf(id), other) {
          VerbKeepsFirst(old(CellOf(id)), id, acts[0].verb, other);
        }
        if folded.Some? {
          ghost var at :| Foldable(old(CellOf(at)), requestId);
          assert !old(NeverSecond(requestId)) by {
            if old(NeverSecond(requestId)) {
              FirstIsNotFolded(old(CellOf(at)), requestId);
            }
          }
          freshRow := if row.Some? then Some(row.value.requestId) else None;
          report := before.(rebased := before.rebased + [Rebase(requestId, freshRow)]);
        }
        return;
      }
      var claimed := Claim(requestId);
      if claimed == None {
        Unclaimed(requestId);
        return;
      }
      forall other, id | old(NeverSecond(other)) ensures NotSecond(CellOf(id), other) {
        VerbKeepsFirst(old(CellOf(id)), id, ClaimVerb(requestId), other);
      }
      assert forall other :: old(NeverSecond(other)) ==> NeverSecond(other);
      hide PushTrace, NeverSecond;
      var delivered := deliver(claimed.value, turn);
      var settled;
      settled, acts := Await(requestId, claimed.value, delivered, moves);
      ClaimedTurn(requestId, acts);
      if settled {
        report := before.(settled := before.settled + [requestId], paused := PausesOn(delivered.outcome));
      }
      acts := [OwnAct(ClaimVerb(requestId))] + acts;
    }

    /** While the answer is on its way others move on; then the claimed row is settled, if it is still in flight. */
    method Await(requestId: RequestId, row: Intent, delivered: Delivered, moves: seq<Move>)
        returns (settled: bool, ghost acts: seq<Act>)
      requires Valid() && row.attempts >= 1 && forall move :: move in moves ==> MoveAdmissible(move)
      modifies this
      ensures Valid() && acts != [] && Awaited(acts, moves, SettleOf(requestId, row, delivered))
      ensures forall id :: CellOf(id) == RunActs(old(CellOf(id)), id, acts)
      ensures settled <==>
        exists id :: SettlesIn(RunActs(old(CellOf(id)), id, Front(acts)), SettleOf(requestId, row, delivered))
      ensures forall id :: old(NeverSecond(id)) ==> NeverSecond(id)
    {
      hide Shape, Pick, Distinct, SettledFirst, IndexOf, Apply, RunActs, CellOf, Journal.Settle, NotSecond;
      acts := Others(moves);
      label Answered:
      ghost var settle := SettleOf(requestId, row, delivered);
      var attempts := if delivered.attempts > row.attempts then delivered.attempts else row.attempts;
      var current := Settle(requestId, delivered.outcome, attempts, delivered.observed);
      settled := current.Some?;
      forall other, id | old@Answered(NeverSecond(other)) ensures NotSecond(CellOf(id), other) {
        VerbKeepsFirst(old@Answered(CellOf(id)), id, settle, other);
      }
      assert Front(acts + [OwnAct(settle)]) == acts;
      ActsThen(acts, OwnAct(settle));
      acts := acts + [OwnAct(settle)];
    }
  }

  lemma DeletionOf(c: Cell, id: Id, requestId: RequestId, now: nat)
    ensures
      var result := Journal.DeleteLocal(c, id, requestId, now);
      var intent := ComposeDeletion(c, id, requestId, now);
      if c.doc == None then result == NoDocument && Apply(c, id, DeleteVerb(requestId, now)) == c
      else if c.chain != [] && Last(c.chain).state == Conflict then result == ResolveFirst
        && Apply(c, id, DeleteVerb(requestId, now)) == c
      else
        var after := c.(doc := None,
                        chain := (if c.chain != [] && Replaceable(Last(c.chain)) then Front(c.chain) else c.chain)
                                 + if intent.Some? then [Journaled(intent.value, DELETION_CONTENT)] else []);
        result == Deleted(after, intent) && Apply(c, id, DeleteVerb(requestId, now)) == after
  {
  }

  lemma PremiseKeepsRow(intent: Intent, predecessor: Intent)
    ensures ChainedPremise(intent, predecessor).target == intent.target
    ensures ChainedPremise(intent, predecessor).requestId == intent.requestId
  {
  }

  lemma ClaimOf(c: Cell, id: Id, requestId: RequestId)
    requires IndexOf(c.chain, requestId) < |c.chain| && c.chain[IndexOf(c.chain, requestId)].state == Pending
    ensures
      var k := IndexOf(c.chain, requestId);
      var intent := c.chain[k];
      if intent.after.Some? && IndexOf(c.chain, intent.after.value) < |c.chain|
      then Apply(c, id, ClaimVerb(requestId)) == c && Journal.Claim(c, requestId) == Blocked
      else
        var p := if intent.after.Some? then IndexOf(c.settled, intent.after.value) else |c.settled|;
        var rebased := if p < |c.settled| && intent.attempts == 0 then ChainedPremise(intent, c.settled[p]) else intent;
        var row := rebased.(state := InFlight, attempts := intent.attempts + 1);
        && Journal.Claim(c, requestId) == Claimed(c.(chain := c.chain[k := row]), row)
        && Apply(c, id, ClaimVerb(requestId)) == c.(chain := c.chain[k := row])
        && row.target == intent.target && row.requestId == intent.requestId
  {
    hide ChainedPremise, IndexOf;
    var intent := c.chain[IndexOf(c.chain, requestId)];
    if intent.after.Some? && IndexOf(c.settled, intent.after.value) < |c.settled| {
      PremiseKeepsRow(intent, c.settled[IndexOf(c.settled, intent.after.value)]);
    }
  }

  lemma NotClaimed(c: Cell, id: Id, requestId: RequestId)
    requires IndexOf(c.chain, requestId) == |c.chain| || c.chain[IndexOf(c.chain, requestId)].state != Pending
    ensures Apply(c, id, ClaimVerb(requestId)) == c && !Journal.Claim(c, requestId).Claimed?
  {
  }

  lemma NotSettled(c: Cell, id: Id, requestId: RequestId, answer: Outcome, attempts: nat, observed: SharedBase)
    requires IndexOf(c.chain, requestId) == |c.chain| || c.chain[IndexOf(c.chain, requestId)].state != InFlight
    ensures Apply(c, id, SettleVerb(requestId, answer, attempts, observed)) == c
    ensures Journal.Settle(c, requestId, answer, attempts, observed) == SettledElsewhere
  {
  }

  /** The row a request names, or its absence, as `Find` answers. */
  ghost predicate FoundAt(rows: seq<Intent>, requestId: RequestId, k: nat) {
    && k <= |rows|
    && if k == |rows| then forall row :: row in rows ==> row.requestId != requestId else rows[k].requestId == requestId
  }

  lemma ClaimsOnlyThere(store: Store, requestId: RequestId, k: nat)
    requires Distinct(store.journal) && FoundAt(store.journal, requestId, k)
    ensures forall id :: k == |store.journal| || store.journal[k].state != Pending || id != store.journal[k].target ==>
      Apply(store.CellOf(id), id, ClaimVerb(requestId)) == store.CellOf(id)
        && !Journal.Claim(store.CellOf(id), requestId).Claimed?
  {
    NamesElsewhere(store.journal, requestId, k);
    forall id | k == |store.journal| || store.journal[k].state != Pending || id != store.journal[k].target
      ensures Apply(store.CellOf(id), id, ClaimVerb(requestId)) == store.CellOf(id)
      ensures !Journal.Claim(store.CellOf(id), requestId).Claimed?
    {
      if k < |store.journal| && store.journal[k].state != Acknowledged {
        PlaceInChain(store.journal, k);
      }
      hide Apply, Journal.Claim, Pick, IndexOf, Distinct;
      NotClaimed(store.CellOf(id), id, requestId);
    }
  }

  lemma SettlesOnlyThere(store: Store, requestId: RequestId, k: nat, answer: Outcome, attempts: nat,
                         observed: SharedBase)
    requires Distinct(store.journal) && FoundAt(store.journal, requestId, k)
    ensures forall id :: k == |store.journal| || store.journal[k].state != InFlight || id != store.journal[k].target ==>
      && Apply(store.CellOf(id), id, SettleVerb(requestId, answer, attempts, observed)) == store.CellOf(id)
      && Journal.Settle(store.CellOf(id), requestId, answer, attempts, observed) == SettledElsewhere
  {
    NamesElsewhere(store.journal, requestId, k);
    forall id | k == |store.journal| || store.journal[k].state != InFlight || id != store.journal[k].target
      ensures Apply(store.CellOf(id), id, SettleVerb(requestId, answer, attempts, observed)) == store.CellOf(id)
      ensures Journal.Settle(store.CellOf(id), requestId, answer, attempts, observed) == SettledElsewhere
    {
      if k < |store.journal| && store.journal[k].state != Acknowledged {
        PlaceInChain(store.journal, k);
      }
      hide Apply, Journal.Settle, Pick, IndexOf, Distinct;
      NotSettled(store.CellOf(id), id, requestId, answer, attempts, observed);
    }
  }

  /** A requeue leaves every document that has no such row to requeue. */
  lemma RequeuesOnlyThere(store: Store, requestId: RequestId, k: nat)
    requires Distinct(store.journal) && FoundAt(store.journal, requestId, k)
    ensures forall id :: k == |store.journal| || store.journal[k].state != InFlight || id != store.journal[k].target ==>
      Apply(store.CellOf(id), id, ReclaimVerb(requestId)) == store.CellOf(id)
    ensures forall id ::
      k == |store.journal| || !IsAuthorizationRefusal(store.journal[k]) || id != store.journal[k].target ==>
      Apply(store.CellOf(id), id, ResumeVerb(requestId)) == store.CellOf(id)
  {
    NamesElsewhere(store.journal, requestId, k);
    if k < |store.journal| && store.journal[k].state != Acknowledged {
      PlaceInChain(store.journal, k);
    }
  }

  /** What requeueing the row at `k` makes of its document. */
  lemma RequeueOf(store: Store, k: nat)
    requires k < |store.journal| && Distinct(store.journal) && store.journal[k].state != Acknowledged
    ensures
      var row := store.journal[k];
      var c, at := store.CellOf(row.target), PlaceOf(store.journal, k);
      && at < |c.chain|
      && (row.state == InFlight ==>
            Apply(c, row.target, ReclaimVerb(row.requestId)) == c.(chain := c.chain[at := Reclaimed(row)]))
      && (IsAuthorizationRefusal(row) ==>
            Apply(c, row.target, ResumeVerb(row.requestId)) == c.(chain := c.chain[at := row.(state := Pending)]))
  {
    PlaceInChain(store.journal, k);
    hide Pick, Distinct;
  }

  lemma InFlightFirst(store: Store, k: nat)
    requires k < |store.journal| && Distinct(store.journal) && store.journal[k].state == InFlight
    requires Shape(store.CellOf(store.journal[k].target), store.journal[k].target)
    ensures
      var c := store.CellOf(store.journal[k].target);
      c.chain != [] && IndexOf(c.chain, store.journal[k].requestId) == 0 && c.chain[0] == store.journal[k]
  {
    PlaceInChain(store.journal, k);
    FlightIsFirst(store.CellOf(store.journal[k].target), store.journal[k].target, store.journal[k].requestId);
  }

  lemma FlightIsFirst(c: Cell, id: Id, requestId: RequestId)
    requires Shape(c, id) && IndexOf(c.chain, requestId) < |c.chain|
    requires c.chain[IndexOf(c.chain, requestId)].state == InFlight
    ensures IndexOf(c.chain, requestId) == 0
  {
  }

  /** What settling makes of the first unsettled row. */
  lemma SettlementOfFirst(c: Cell, id: Id, answer: Outcome, attempts: nat, observed: SharedBase)
    requires c.chain != [] && c.chain[0].state == InFlight
    ensures Journal.Settle(c, c.chain[0].requestId, answer, attempts, observed).Settled?
    ensures
      var current := c.chain[0];
      Apply(c, id, SettleVerb(current.requestId, answer, attempts, observed)) ==
        match SettleAgainstIntent(answer, current)
        case Committed(version) =>
          c.(base := Some(
               if current.kind == Delete
               then SharedBase(None, None, if version != DELETION_VERSION then Some(version) else None, false)
               else SharedBase(Some(version), Some(current.content), None, version != current.local)),
             settled := c.settled + [
               current.(state := Acknowledged, attempts := attempts, acknowledgedVersion := Some(version))],
             chain := c.chain[1..])
        case ConflictWith(_, _) =>
          c.(chain := c.chain[0 := current.(state := Conflict, attempts := attempts, remote := Some(observed))])
        case RefusedWith(code) =>
          c.(chain := c.chain[0 := current.(state := Refused, attempts := attempts, refusal := Some(code))])
        case NoAnswer => c.(chain := c.chain[0 := current.(state := Pending, attempts := attempts)])
  {
    assert c.chain[..0] + c.chain[1..] == c.chain[1..];
  }

  function Reclaimed(row: Intent): Intent {
    if row.state == InFlight then row.(state := Pending, attempts := if row.attempts < 1 then 1 else row.attempts)
    else row
  }

  lemma RequeuedShape(c: Cell, id: Id, at: nat, row: Intent)
    requires Shape(c, id) && at < |c.chain| && IndexOf(c.chain, row.requestId) == at
    requires || (IsAuthorizationRefusal(c.chain[at]) && row == c.chain[at].(state := Pending))
             || (c.chain[at].state == InFlight && row == Reclaimed(c.chain[at]))
    ensures Shape(c.(chain := c.chain[at := row]), id)
  {
    RequeueKeepsShape(c, id, row.requestId);
  }

  function LastReceipt(receipts: seq<Receipt>): Receipt
    requires receipts != []
  {
    receipts[|receipts| - 1]
  }

  /** What a resolution leaves, or the cell itself when there is nothing it may resolve. */
  function ResolvedCell(c: Cell, id: Id, choice: Choice, served: SharedBase, authored: Authored): Cell {
    match Journal.ResolveConflict(c, id, choice, served, authored) case Some(after) => after case None => c
  }

  lemma ResolveOf(c: Cell, id: Id, choice: Choice, served: SharedBase, authored: Authored)
    ensures Apply(c, id, ResolveVerb(choice, served, authored)) == ResolvedCell(c, id, choice, served, authored)
    ensures Resolvable(c) ==> c.chain != []
    ensures Journal.ResolveConflict(c, id, choice, served, authored) == None ==>
      ResolvedCell(c, id, choice, served, authored) == c
    ensures Journal.ResolveConflict(c, id, choice, served, authored).Some? <==>
      Resolvable(c) && !(Last(c.chain).kind == Delete && choice == Revise)
  {
  }

  lemma ResolvedFields(c: Cell, id: Id, choice: Choice, served: SharedBase, authored: Authored)
    requires Journal.ResolveConflict(c, id, choice, served, authored).Some?
    ensures
      var cell := ResolvedCell(c, id, choice, served, authored);
      && cell.settled == c.settled && (cell.chain == [] || cell.chain == [cell.chain[0]]) && cell.receipts != []
         && cell.receipts == c.receipts + [LastReceipt(cell.receipts)]
      && (cell.chain != [] ==>
           cell.chain[0].requestId == authored.requestId && cell.chain[0].target == id
             && cell.chain[0].state == Pending)
  {
  }

  /** An identity no row has is nobody's second row. */
  lemma NobodyNamed(store: Store, requestId: RequestId)
    requires forall row :: row in store.journal ==> row.requestId != requestId
    ensures forall id :: NotSecond(store.CellOf(id), requestId)
  {
    forall id ensures NotSecond(store.CellOf(id), requestId) {
      PickedRows(store.journal, id, false);
      hide Pick;
    }
  }

  lemma FoldsOnlyThere(store: Store, successor: RequestId, k: nat, requestId: RequestId, now: nat)
    requires Distinct(store.journal) && FoundAt(store.journal, successor, k)
    ensures forall id ::
      k == |store.journal| || store.journal[k].state == Acknowledged || id != store.journal[k].target ==>
      Apply(store.CellOf(id), id, FoldVerb(successor, requestId, now)) == store.CellOf(id)
  {
    NamesElsewhere(store.journal, successor, k);
    hide Apply, Pick, IndexOf, Distinct;
    forall id | k == |store.journal| || store.journal[k].state == Acknowledged || id != store.journal[k].target
      ensures Apply(store.CellOf(id), id, FoldVerb(successor, requestId, now)) == store.CellOf(id)
    {
      NotFolded(store.CellOf(id), id, successor, requestId, now);
    }
  }

  lemma ChainIs(store: Store, id: Id)
    ensures store.CellOf(id).chain == Pick(store.journal, id, false)
  {
    hide Pick;
  }

  lemma NotFolded(c: Cell, id: Id, successor: RequestId, requestId: RequestId, now: nat)
    requires IndexOf(c.chain, successor) == |c.chain|
    ensures Apply(c, id, FoldVerb(successor, requestId, now)) == c
  {
  }

  lemma FoldOf(c: Cell, id: Id, successor: RequestId, requestId: RequestId, now: nat)
    ensures Apply(c, id, FoldVerb(successor, requestId, now)) ==
      if !Foldable(c, successor) then c
      else
        var intent := FoldedIntent(c.chain[0], c.chain[1], requestId, now);
        c.(chain := if intent.Some? then [Journaled(intent.value, c.chain[1].content)] else [])
  {
  }

  lemma FoldableChain(c: Cell, id: Id, successor: RequestId, requestId: RequestId, now: nat)
    requires Foldable(c, successor) && Shape(c, id)
    ensures |c.chain| == 2
    ensures
      var intent := FoldedIntent(c.chain[0], c.chain[1], requestId, now);
      intent.Some? ==> intent.value.requestId == requestId && intent.value.target == id
  {
  }

  /** A verb about one row leaves every document that has no such unsettled row. */
  lemma NamesElsewhere(rows: seq<Intent>, requestId: RequestId, k: nat)
    requires Distinct(rows) && FoundAt(rows, requestId, k)
    ensures forall id :: k == |rows| || rows[k].state == Acknowledged || rows[k].target != id ==>
      IndexOf(Pick(rows, id, false), requestId) == |Pick(rows, id, false)|
  {
    forall id | k == |rows| || rows[k].state == Acknowledged || rows[k].target != id
      ensures IndexOf(Pick(rows, id, false), requestId) == |Pick(rows, id, false)|
    {
      PickedRows(rows, id, false);
      forall row | row in Pick(rows, id, false) ensures row.requestId != requestId {
        var i :| 0 <= i < |rows| && rows[i] == row;
      }
      NotInChain(Pick(rows, id, false), requestId);
    }
  }

  lemma ComposedDeletion(c: Cell, id: Id, requestId: RequestId, now: nat)
    requires Shape(c, id)
    ensures
      var intent := ComposeDeletion(c, id, requestId, now);
      intent.Some? ==> intent.value.requestId == requestId && intent.value.target == id
  {
  }

  lemma {:induction false} PickDistinct(rows: seq<Intent>, id: Id, settled: bool)
    requires Distinct(rows)
    ensures Distinct(Pick(rows, id, settled))
    ensures forall j :: 0 <= j < |Pick(rows, id, settled)| ==>
      IndexOf(Pick(rows, id, settled), Pick(rows, id, settled)[j].requestId) == j
  {
    if rows != [] {
      PickDistinct(rows[1..], id, settled);
      PickedRows(rows[1..], id, settled);
      assert forall row :: row in rows[1..] ==> row.requestId != rows[0].requestId;
      PrependedDistinct(rows[0], Pick(rows[1..], id, settled));
      hide Pick;
    }
  }

  lemma PrependedDistinct(row: Intent, rest: seq<Intent>)
    requires Distinct(rest) && forall other :: other in rest ==> other.requestId != row.requestId
    requires forall j :: 0 <= j < |rest| ==> IndexOf(rest, rest[j].requestId) == j
    ensures Distinct([row] + rest)
    ensures forall j :: 0 <= j < |[row] + rest| ==> IndexOf([row] + rest, ([row] + rest)[j].requestId) == j
  {
    assert ([row] + rest)[1..] == rest;
    assert forall j :: 0 <= j < |rest| ==> rest[j] in rest;
  }

  lemma ComposedRow(c: Cell, id: Id, requestId: RequestId, now: nat)
    requires Shape(c, id)
    ensures ComposeIntent(c, id, requestId, now).requestId == requestId
    ensures ComposeIntent(c, id, requestId, now).target == id
  {
  }
}
