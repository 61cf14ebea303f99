/**
 * Folding a refused chain against editing over the recorded refusal: for a write that was sent and is refused in
 * the end, and any edits made meanwhile, the two orders leave the same working copy, fresh identity and time
 * aside, exactly when no edit between them was a deletion whose loss of the head's declarations the later writes
 * do not make up for.
 */
module FoldConfluence {
  import opened Records
  import opened Journal
  import opened JournalShape

  datatype Edit =
    | WriteEdit(requestId: RequestId, now: nat, content: string, posture: Option<Posture>)
    | DeleteEdit(requestId: RequestId, now: nat)

  function ApplyEdit(c: Cell, target: Id, edit: Edit): Cell {
    match edit
    case WriteEdit(requestId, now, content, posture) => Apply(c, target, CommitVerb(requestId, now, content, posture))
    case DeleteEdit(requestId, now) => Apply(c, target, DeleteVerb(requestId, now))
  }

  function ApplyEdits(c: Cell, target: Id, edits: seq<Edit>): Cell {
    if edits == [] then c else ApplyEdit(ApplyEdits(c, target, Front(edits)), target, Last(edits))
  }

  /** What may happen to a row that was sent, short of the answer that ends its delivery. */
  datatype Progress =
    | Submits
    | LosesAnswer(attempts: nat)
    | LosesPermission(code: string, attempts: nat)
    | Resumes
    | Reclaims

  datatype Step = Made(edit: Edit) | Moved(progress: Progress)

  function Progressed(c: Cell, target: Id, head: RequestId, progress: Progress): Cell {
    match progress
    case Submits => Apply(c, target, ClaimVerb(head))
    case LosesAnswer(attempts) => Apply(c, target, SettleVerb(head, NoAnswer, attempts, NO_HEAD))
    case LosesPermission(code, attempts) => Apply(c, target, SettleVerb(head, RefusedWith(code), attempts, NO_HEAD))
    case Resumes => Apply(c, target, ResumeVerb(head))
    case Reclaims => Apply(c, target, ReclaimVerb(head))
  }

  function ApplySteps(c: Cell, target: Id, head: RequestId, steps: seq<Step>): Cell {
    if steps == [] then c
    else
      var before := ApplySteps(c, target, head, Front(steps));
      match Last(steps)
      case Made(edit) => ApplyEdit(before, target, edit)
      case Moved(progress) => Progressed(before, target, head, progress)
  }

  /** The steps without the edits. */
  function ApplyProgress(c: Cell, target: Id, head: RequestId, steps: seq<Step>): Cell {
    if steps == [] then c
    else
      var before := ApplyProgress(c, target, head, Front(steps));
      if Last(steps).Made? then before else Progressed(before, target, head, Last(steps).progress)
  }

  function EditsOf(steps: seq<Step>): seq<Edit> {
    if steps == [] then []
    else if Last(steps).Made? then EditsOf(Front(steps)) + [Last(steps).edit] else EditsOf(Front(steps))
  }

  /** An edit first, under identities of its own; then edits and the head's progress in any order. */
  predicate Steps(steps: seq<Step>, head: Intent) {
    && steps != [] && steps[0].Made?
    && forall k :: 0 <= k < |steps| ==>
         match steps[k]
         case Made(edit) =>
           (edit.WriteEdit? ==> edit.content != "") && edit.requestId != head.requestId
             && Some(edit.requestId) != head.after
         case Moved(LosesAnswer(attempts)) => attempts >= 1
         case Moved(LosesPermission(code, attempts)) => code in AUTHORIZATION_REFUSAL_CODES && attempts >= 1
         case Moved(_) => true
  }

  predicate HasDeletion(edits: seq<Edit>) {
    exists k :: 0 <= k < |edits| && edits[k].DeleteEdit?
  }

  /** The declarations of the writes made since the last deletion. */
  function TrailingPosture(edits: seq<Edit>): Option<Posture> {
    if edits == [] || Last(edits).DeleteEdit? then None
    else ComposedBodyReplace(TrailingPosture(Front(edits)), Last(edits).posture)
  }

  predicate Edits(edits: seq<Edit>) {
    forall k :: 0 <= k < |edits| && edits[k].WriteEdit? ==> edits[k].content != ""
  }

  const NO_HEAD := SharedBase(None, None, None, false)

  /** A write that was claimed, alone in its document's journal. */
  predicate SentWrite(c: Cell, target: Id) {
    && Shape(c, target) && |c.chain| == 1 && c.chain[0].kind == Write && c.chain[0].attempts >= 1
    && c.chain[0].after != Some(c.chain[0].requestId)
  }

  /** A sent write no answer has ended: waiting to be sent again or waiting for its answer. */
  predicate UnansweredWrite(c: Cell, target: Id) {
    SentWrite(c, target) && (c.chain[0].state == Pending || c.chain[0].state == InFlight)
  }

  predicate InFlightWrite(c: Cell, target: Id) {
    SentWrite(c, target) && c.chain[0].state == InFlight
  }

  /** The same write, however far its delivery got. */
  predicate SameWrite(a: Cell, c: Cell)
    requires a.chain != [] && c.chain != []
  {
    a == c.(chain := a.chain)
    && a.chain[0] ==
         c.chain[0].(state := a.chain[0].state, attempts := a.chain[0].attempts, refusal := a.chain[0].refusal)
  }

  function RefusedHead(head: Intent, code: string, attempts: nat): Intent {
    head.(state := Refused, attempts := attempts, refusal := Some(code))
  }

  /** The row without its identity and time. */
  function Anonymous(row: Intent): Intent {
    row.(requestId := 0, createdAt := 0)
  }

  predicate SameButIdentity(a: Cell, b: Cell) {
    && a.doc == b.doc && a.base == b.base && a.settled == b.settled && a.receipts == b.receipts
    && |a.chain| == |b.chain|
    && forall k :: 0 <= k < |a.chain| ==> Anonymous(a.chain[k]) == Anonymous(b.chain[k])
  }

  /** The write a journal holds after a deletion over this head dropped what the head declared. */
  function WriteAfterDeletion(c: Cell, head: Intent, content: string, posture: Option<Posture>): Intent {
    var plain := Journaled(
      NewIntent(0, Write, head.target, head.base, head.baseContent, 0, head.after, None, posture), content);
    if head.base.Some? then plain
    else
      plain.(after := None, baseContent := if c.base.Some? then c.base.value.content else None,
             recreates := if c.base.Some? then c.base.value.tombstone else None)
  }

  function FoldedWrite(head: Intent, content: string, posture: Option<Posture>): Intent {
    Journaled(
      NewIntent(0, Write, head.target, head.base, head.baseContent, 0, head.after,
                if head.base == None then head.recreates else None, ComposedBodyReplace(head.bodyReplace, posture)),
      content)
  }

  function FoldedDeletion(head: Intent): seq<Intent> {
    if head.base == None then []
    else
      [Journaled(
        NewIntent(0, Delete, head.target, head.base, head.baseContent, 0, head.after, None, None), DELETION_CONTENT)]
  }

  /** What the edits leave behind while the head is still in flight: one successor that waits on it. */
  predicate Waiting(a: Cell, c: Cell, edits: seq<Edit>)
    requires c.chain != [] && edits != []
  {
    var head := c.chain[0];
    && a == c.(doc := a.doc, chain := a.chain)
    && |a.chain| == 2 && a.chain[0] == head && Waits(a.chain[1], head)
    && a.chain[1].kind == (if Last(edits).WriteEdit? then Write else Delete)
    && a.doc == (if Last(edits).WriteEdit? then Some(a.chain[1].content) else None)
    && (Last(edits).DeleteEdit? ==> a.chain[1].content == DELETION_CONTENT)
    && (Last(edits).WriteEdit? ==>
         a.chain[1].content == Last(edits).content && a.chain[1].bodyReplace == TrailingPosture(edits))
  }

  /** What the same edits leave behind over the recorded refusal. */
  predicate Superseded(b: Cell, c: Cell, edits: seq<Edit>)
    requires c.chain != [] && edits != []
  {
    var head := c.chain[0];
    && b == c.(doc := b.doc, chain := b.chain)
    && (forall k :: 0 <= k < |b.chain| ==> NeverSent(b.chain[k]))
    && if Last(edits).DeleteEdit? then
         b.doc == None && |b.chain| == |FoldedDeletion(head)|
         && forall k :: 0 <= k < |b.chain| ==> Anonymous(b.chain[k]) == FoldedDeletion(head)[k]
       else
         && b.doc == Some(Last(edits).content) && |b.chain| == 1
         && Anonymous(b.chain[0]) ==
              (if HasDeletion(edits) then WriteAfterDeletion(c, head, Last(edits).content, TrailingPosture(edits))
               else FoldedWrite(head, Last(edits).content, TrailingPosture(edits)))
  }

  predicate Unended(row: Intent) {
    row.state == Pending || row.state == InFlight || IsAuthorizationRefusal(row)
  }

  lemma FirstEditWaits(c: Cell, target: Id, edit: Edit)
    requires UnansweredWrite(c, target) && Edits([edit])
    ensures Waiting(ApplyEdit(c, target, edit), c, [edit])
    ensures ApplyEdit(c, target, edit).chain[1].requestId == edit.requestId
  {
    assert TrailingPosture([]) == None;
    assert Front([edit]) == [];
  }

  lemma NextEditWaits(a: Cell, m: Cell, target: Id, edits: seq<Edit>, edit: Edit)
    requires SentWrite(m, target) && edits != [] && Edits(edits + [edit]) && Waiting(a, m, edits)
    ensures Waiting(ApplyEdit(a, target, edit), m, edits + [edit])
    ensures ApplyEdit(a, target, edit).chain[1].requestId in {a.chain[1].requestId, edit.requestId}
  {
    assert Front(a.chain) == [a.chain[0]];
    assert Front(edits + [edit]) == edits;
    assert (edits + [edit])[|edits|] == edit;
  }

  lemma SameWriteIsSent(after: Cell, m: Cell, target: Id)
    requires SentWrite(m, target) && |after.chain| == 1 && SameWrite(after, m)
    requires after.chain[0].attempts >= 1 && after.chain[0].state != Acknowledged
    ensures SentWrite(after, target)
  {
  }

  /** What progress makes of the row itself. */
  function ProgressedRow(row: Intent, progress: Progress): Intent {
    match progress
    case Submits => if row.state == Pending then row.(state := InFlight, attempts := row.attempts + 1) else row
    case LosesAnswer(attempts) => if row.state == InFlight then row.(state := Pending, attempts := attempts) else row
    case LosesPermission(code, attempts) =>
      if row.state == InFlight then row.(state := Refused, attempts := attempts, refusal := Some(code)) else row
    case Resumes => if IsAuthorizationRefusal(row) then row.(state := Pending) else row
    case Reclaims => if row.state == InFlight then row.(state := Pending) else row
  }

  /** A sent head moves alone: a row that waits on it neither blocks nor rebases it. */
  lemma HeadProgresses(c: Cell, target: Id, progress: Progress)
    requires c.chain != [] && c.chain[0].attempts >= 1
    requires forall row :: row in c.chain ==> Some(row.requestId) != c.chain[0].after
    ensures
      Progressed(c, target, c.chain[0].requestId, progress) ==
        c.(chain := c.chain[0 := ProgressedRow(c.chain[0], progress)])
  {
    var head := c.chain[0];
    assert IndexOf(c.chain, head.requestId) == 0;
    assert head.after.Some? ==> IndexOf(c.chain, head.after.value) == |c.chain|;
    assert c.chain[0 := head] == c.chain;
  }

  /** The head's progress is the same with and without the successor that waits on it. */
  lemma ProgressWaits(a: Cell, m: Cell, target: Id, edits: seq<Edit>, progress: Progress)
    requires SentWrite(m, target) && Unended(m.chain[0]) && edits != [] && Waiting(a, m, edits)
    requires
      && a.chain[1].requestId != m.chain[0].requestId
      && Some(a.chain[1].requestId) != m.chain[0].after
    requires progress.LosesAnswer? ==> progress.attempts >= 1
    requires progress.LosesPermission? ==> progress.code in AUTHORIZATION_REFUSAL_CODES && progress.attempts >= 1
    ensures
      var after := Progressed(m, target, m.chain[0].requestId, progress);
      && SentWrite(after, target) && Unended(after.chain[0]) && SameWrite(after, m)
      && Waiting(Progressed(a, target, m.chain[0].requestId, progress), after, edits)
      && Progressed(a, target, m.chain[0].requestId, progress).chain[1] == a.chain[1]
  {
    var after := Progressed(m, target, m.chain[0].requestId, progress);
    hide Shape, TrailingPosture, Progressed;
    HeadProgresses(a, target, progress);
    HeadProgresses(m, target, progress);
    SameWriteIsSent(after, m, target);
  }

  /** Edits over a sent write leave one successor that waits on it, and the write goes on as if it were alone. */
  lemma {:induction false} EditsWait(c: Cell, target: Id, steps: seq<Step>)
    requires UnansweredWrite(c, target) && Steps(steps, c.chain[0])
    ensures
      var head := c.chain[0];
      var m := ApplyProgress(c, target, head.requestId, steps);
      var a := ApplySteps(c, target, head.requestId, steps);
      && EditsOf(steps) != [] && Edits(EditsOf(steps))
      && SentWrite(m, target) && Unended(m.chain[0]) && SameWrite(m, c)
      && Waiting(a, m, EditsOf(steps))
      && a.chain[1].requestId != head.requestId && Some(a.chain[1].requestId) != head.after
  {
    var head := c.chain[0];
    if |steps| == 1 {
      assert Front(steps) == [];
      assert EditsOf(steps) == [steps[0].edit];
      FirstEditWaits(c, target, steps[0].edit);
    } else {
      assert Steps(Front(steps), head);
      EditsWait(c, target, Front(steps));
      var m := ApplyProgress(c, target, head.requestId, Front(steps));
      var a := ApplySteps(c, target, head.requestId, Front(steps));
      var step := steps[|steps| - 1];
      hide Shape, Apply, Waiting;
      match step {
        case Made(edit) => NextEditWaits(a, m, target, EditsOf(Front(steps)), edit);
        case Moved(progress) => ProgressWaits(a, m, target, EditsOf(Front(steps)), progress);
      }
    }
  }

  lemma HasDeletionFront(edits: seq<Edit>)
    requires edits != []
    ensures HasDeletion(edits) <==> HasDeletion(Front(edits)) || Last(edits).DeleteEdit?
  {
    if HasDeletion(edits) && !Last(edits).DeleteEdit? {
      var k :| 0 <= k < |edits| && edits[k].DeleteEdit?;
      assert Front(edits)[k].DeleteEdit?;
    }
    if HasDeletion(Front(edits)) {
      var k :| 0 <= k < |Front(edits)| && Front(edits)[k].DeleteEdit?;
      assert edits[k].DeleteEdit?;
    }
  }

  lemma PostureAssociates(p: Option<Posture>, q: Option<Posture>, r: Option<Posture>)
    ensures ComposedBodyReplace(ComposedBodyReplace(p, q), r) == ComposedBodyReplace(p, ComposedBodyReplace(q, r))
  {
  }

  lemma SupersedeFirst(c: Cell, target: Id, edit: Edit, code: string, attempts: nat)
    requires InFlightWrite(c, target) && Edits([edit])
    ensures Superseded(ApplyEdit(c.(chain := [RefusedHead(c.chain[0], code, attempts)]), target, edit), c, [edit])
  {
    HasDeletionFront([edit]);
    assert TrailingPosture([]) == None;
    assert Front([edit]) == [];
    assert Front([RefusedHead(c.chain[0], code, attempts)]) == [];
  }

  lemma SupersedeWrite(c: Cell, b: Cell, target: Id, edits: seq<Edit>)
    requires InFlightWrite(c, target) && |edits| > 1 && Edits(edits) && Last(edits).WriteEdit?
    requires Superseded(b, c, Front(edits))
    ensures Superseded(ApplyEdit(b, target, Last(edits)), c, edits)
  {
    HasDeletionFront(edits);
    hide Shape;
    var head := c.chain[0];
    PostureAssociates(head.bodyReplace, TrailingPosture(Front(edits)), Last(edits).posture);
    if |b.chain| == 1 {
      assert Front(b.chain) == [];
    }
    if Last(Front(edits)).DeleteEdit? {
      assert Front(edits)[|edits| - 2].DeleteEdit?;
      assert HasDeletion(Front(edits));
    }
  }

  lemma SupersedeDelete(c: Cell, b: Cell, target: Id, edits: seq<Edit>)
    requires InFlightWrite(c, target) && |edits| > 1 && Edits(edits) && Last(edits).DeleteEdit?
    requires Superseded(b, c, Front(edits))
    ensures Superseded(ApplyEdit(b, target, Last(edits)), c, edits)
  {
    hide Shape, HasDeletion, TrailingPosture;
    if |b.chain| == 1 {
      assert Front(b.chain) == [];
    }
  }

  lemma {:induction false} EditsSupersede(c: Cell, target: Id, edits: seq<Edit>, code: string, attempts: nat)
    requires InFlightWrite(c, target) && edits != [] && Edits(edits)
    ensures Superseded(ApplyEdits(c.(chain := [RefusedHead(c.chain[0], code, attempts)]), target, edits), c, edits)
  {
    var refused := c.(chain := [RefusedHead(c.chain[0], code, attempts)]);
    if |edits| == 1 {
      assert Front(edits) == [] && edits == [edits[0]];
      SupersedeFirst(c, target, edits[0], code, attempts);
    } else {
      EditsSupersede(c, target, Front(edits), code, attempts);
      var b := ApplyEdits(refused, target, Front(edits));
      if Last(edits).WriteEdit? {
        SupersedeWrite(c, b, target, edits);
      } else {
        SupersedeDelete(c, b, target, edits);
      }
    }
  }

  /** What a deletion between writes loses: the head's declarations, and a create's own premise. */
  predicate NothingLost(c: Cell, head: Intent, posture: Option<Posture>) {
    && ComposedBodyReplace(head.bodyReplace, posture) == posture
    && (head.base == None ==>
          && head.after == None
          && head.baseContent == (if c.base.Some? then c.base.value.content else None)
          && head.recreates == (if c.base.Some? then c.base.value.tombstone else None))
  }

  /** The edits made while the head was on its way, the refusal that ended it, and push's fold. */
  function FoldAfterRefusal(c: Cell, target: Id, steps: seq<Step>, code: string, attempts: nat, observed: SharedBase,
                            freshId: RequestId, now: nat): Option<Cell>
    requires c.chain != []
  {
    var head := c.chain[0].requestId;
    var waiting := ApplySteps(c, target, head, steps);
    var refused := Apply(waiting, target, SettleVerb(head, RefusedWith(code), attempts, observed));
    if |refused.chain| == 2 then FoldRefusedChain(refused, refused.chain[1].requestId, freshId, now) else None
  }

  /** The head's progress and its refusal first, and the same edits over it. */
  function EditAfterRefusal(c: Cell, target: Id, steps: seq<Step>, code: string, attempts: nat,
                            observed: SharedBase): Cell
    requires c.chain != []
  {
    var head := c.chain[0].requestId;
    var progressed := ApplyProgress(c, target, head, steps);
    ApplyEdits(
      Apply(progressed, target, SettleVerb(head, RefusedWith(code), attempts, observed)), target, EditsOf(steps))
  }

  lemma FoldOfWaiting(a: Cell, m: Cell, target: Id, edits: seq<Edit>, code: string, attempts: nat,
                      observed: SharedBase, freshId: RequestId, now: nat)
    requires InFlightWrite(m, target) && edits != [] && Waiting(a, m, edits)
    requires code !in AUTHORIZATION_REFUSAL_CODES && attempts >= 1
    ensures
      var head := m.chain[0];
      var refused := Apply(a, target, SettleVerb(head.requestId, RefusedWith(code), attempts, observed));
      && |refused.chain| == 2
      && var folded := FoldRefusedChain(refused, refused.chain[1].requestId, freshId, now);
      && folded.Some?
      && folded.value == m.(doc := folded.value.doc, chain := folded.value.chain)
      && if Last(edits).DeleteEdit? then
           folded.value.doc == None && |folded.value.chain| == |FoldedDeletion(head)|
           && forall k :: 0 <= k < |folded.value.chain| ==> Anonymous(folded.value.chain[k]) == FoldedDeletion(head)[k]
         else
           folded.value.doc == Some(Last(edits).content) && |folded.value.chain| == 1
           && Anonymous(folded.value.chain[0]) == FoldedWrite(head, Last(edits).content, TrailingPosture(edits))
  {
    assert IndexOf(a.chain, m.chain[0].requestId) == 0;
    var refused := Apply(a, target, SettleVerb(m.chain[0].requestId, RefusedWith(code), attempts, observed));
    assert refused == a.(chain := [RefusedHead(m.chain[0], code, attempts), a.chain[1]]);
  }

  lemma RefusalRecorded(c: Cell, target: Id, code: string, attempts: nat, observed: SharedBase)
    requires InFlightWrite(c, target)
    ensures
      Apply(c, target, SettleVerb(c.chain[0].requestId, RefusedWith(code), attempts, observed)) ==
        c.(chain := [RefusedHead(c.chain[0], code, attempts)])
  {
    assert IndexOf(c.chain, c.chain[0].requestId) == 0;
    hide Shape;
  }

  /**
   * Folding after the fact and editing over the refusal agree for every run of edits that ends in a deletion
   * or has none; when a write follows a deletion they agree exactly when the deletion lost nothing. The head
   * may meanwhile lose answers and permission and be sent again; it is the refusal of its last delivery that counts.
   */
  lemma FoldConfluence(c: Cell, target: Id, steps: seq<Step>, code: string, attempts: nat, observed: SharedBase,
                       freshId: RequestId, now: nat)
    requires UnansweredWrite(c, target) && Steps(steps, c.chain[0])
    requires InFlightWrite(ApplyProgress(c, target, c.chain[0].requestId, steps), target)
    requires code !in AUTHORIZATION_REFUSAL_CODES && attempts >= 1
    ensures EditsOf(steps) != [] && FoldAfterRefusal(c, target, steps, code, attempts, observed, freshId, now).Some?
    ensures
      SameButIdentity(
        FoldAfterRefusal(c, target, steps, code, attempts, observed, freshId, now).value,
        EditAfterRefusal(c, target, steps, code, attempts, observed))
      <==>
      || Last(EditsOf(steps)).DeleteEdit?
      || !HasDeletion(EditsOf(steps))
      || NothingLost(c, c.chain[0], TrailingPosture(EditsOf(steps)))
  {
    EditsWait(c, target, steps);
    var m := ApplyProgress(c, target, c.chain[0].requestId, steps);
    var head, edits := m.chain[0], EditsOf(steps);
    RefusalRecorded(m, target, code, attempts, observed);
    var edited := EditAfterRefusal(c, target, steps, code, attempts, observed);
    FoldOfWaiting(
      ApplySteps(c, target, head.requestId, steps), m, target, edits, code, attempts, observed, freshId, now);
    var folded := FoldAfterRefusal(c, target, steps, code, attempts, observed, freshId, now).value;
    EditsSupersede(m, target, edits, code, attempts);
    hide Apply, ApplyEdits, FoldAfterRefusal, EditAfterRefusal, Shape, TrailingPosture, HasDeletion, ApplySteps;
    hide ApplyProgress, EditsOf, Steps, Waiting;
    if Last(edits).WriteEdit? {
      var content, posture := Last(edits).content, TrailingPosture(edits);
      assert SameButIdentity(folded, edited) <==> Anonymous(folded.chain[0]) == Anonymous(edited.chain[0]);
      assert FoldedWrite(head, content, posture) == WriteAfterDeletion(m, head, content, posture) <==>
        NothingLost(m, head, posture);
    }
  }

  lemma TwoEdits(c: Cell, target: Id, head: RequestId, first: Edit, second: Edit)
    ensures EditsOf([Made(first), Made(second)]) == [first, second]
    ensures ApplyProgress(c, target, head, [Made(first), Made(second)]) == c
  {
    var steps := [Made(first), Made(second)];
    assert Front(steps) == [steps[0]] && Front([steps[0]]) == [];
    assert EditsOf([steps[0]]) == [first] && ApplyProgress(c, target, head, [steps[0]]) == c;
  }

  /** A deletion between writes drops what the refused head declared: the two orders part. */
  lemma DeletionBetweenWritesLoses(target: Id)
    ensures
      var base := SharedBase(Some(VersionOf("old")), Some("old"), None, false);
      var head :=
        Journaled(NewIntent(1, Write, target, base.version, base.content, 0, None, None, Some(Posture(true, false))),
            "new").(state := InFlight, attempts := 1);
      var c := Cell(Some("new"), Some(base), [], [head], []);
      var steps := [Made(DeleteEdit(2, 0)), Made(WriteEdit(3, 0, "last", None))];
      && InFlightWrite(c, target)
      && FoldAfterRefusal(c, target, steps, "invalid", 1, base, 4, 0).Some?
      && !SameButIdentity(
           FoldAfterRefusal(c, target, steps, "invalid", 1, base, 4, 0).value,
           EditAfterRefusal(c, target, steps, "invalid", 1, base))
  {
    var base := SharedBase(Some(VersionOf("old")), Some("old"), None, false);
    var head :=
      Journaled(NewIntent(1, Write, target, base.version, base.content, 0, None, None, Some(Posture(true, false))),
          "new").(state := InFlight, attempts := 1);
    var c := Cell(Some("new"), Some(base), [], [head], []);
    var edits := [DeleteEdit(2, 0), WriteEdit(3, 0, "last", None)];
    var steps := [Made(edits[0]), Made(edits[1])];
    assert InFlightWrite(c, target);
    TwoEdits(c, target, 1, edits[0], edits[1]);
    assert edits[0].DeleteEdit? && HasDeletion(edits);
    assert TrailingPosture(edits) == None by {
      assert Front(edits) == [edits[0]];
    }
    hide FoldAfterRefusal, EditAfterRefusal, SameButIdentity, EditsOf, ApplyProgress;
    FoldConfluence(c, target, steps, "invalid", 1, base, 4, 0);
  }
}
