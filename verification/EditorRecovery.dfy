/**
 * The editor's recovery session: drafts and prepared attempts kept in one stored envelope, with a revision
 * counter no draft ever shares. Every operation composes the next envelope, which is validated and written
 * as a whole; a write that fails closes the session to everything after it.
 */
module EditorRecovery {
  import opened Records

  const MAX_DOCUMENTS: nat := 32
  const MAX_ENVELOPE_BYTES: nat := 8 * 1024 * 1024
  const MAX_BODY_BYTES: nat := 983_040
  const MAX_SAFE_INTEGER: nat := 0x1F_FFFF_FFFF_FFFF

  type RequestName = string

  datatype Draft = Draft(baseVersion: string, baseBody: string, body: string)
  datatype Attempt = Attempt(requestId: RequestName, documentId: Id, expectedVersion: string, body: string)
  datatype Settlement = CommittedAs(version: string) | WasRefused
  datatype Confirmation = Confirmation(requestId: RequestName, outcome: Settlement)
  datatype Slot = Slot(documentId: Id, draft: Draft, revision: nat, pending: Option<Attempt>,
      confirmation: Option<Confirmation>)
  datatype Envelope = Envelope(nextRevision: nat, documents: seq<Slot>)

  datatype Code = Invalid | Capacity | Stale | PendingAttempt | RequestMismatch | Closed | StorageFailed

  /** The checks and measures of single values that the session takes as given. */
  datatype Checks = Checks(
    isDocument: string -> bool, isRequest: string -> bool, isVersion: string -> bool,
    bodyBytes: string -> nat, envelopeBytes: Envelope -> nat)

  datatype Op =
    | Save(id: Id, draft: Draft, expected: Option<nat>)
    | Prepare(id: Id, requestId: RequestName, revision: nat)
    | Settle(id: Id, requestId: RequestName, outcome: Settlement)
    | Discard(id: Id, revision: nat)

  /** How a write to the backend ends: a failed one may have landed or not. */
  datatype WriteEnds = Written | FailedUnwritten | FailedWritten

  datatype Reply =
    | Saved(slot: Slot)
    | Prepared(attempt: Attempt)
    | Settled(slot: Slot)
    | Discarded
    | Rejected(code: Code)

  datatype State = State(envelope: Envelope, stored: Envelope, poisoned: bool, active: bool)

  const BLANK_ENVELOPE := Envelope(1, [])

  // ---- validation ----

  predicate IsRevision(n: nat) {
    1 <= n <= MAX_SAFE_INTEGER
  }

  predicate DraftAccepted(c: Checks, draft: Draft) {
    c.isVersion(draft.baseVersion) && c.bodyBytes(draft.baseBody) <= MAX_BODY_BYTES
      && c.bodyBytes(draft.body) <= MAX_BODY_BYTES
  }

  predicate OutcomeAccepted(c: Checks, outcome: Settlement) {
    outcome.CommittedAs? ==> c.isVersion(outcome.version)
  }

  predicate SlotAccepted(c: Checks, slot: Slot, nextRevision: nat) {
    && c.isDocument(slot.documentId) && DraftAccepted(c, slot.draft)
    && IsRevision(slot.revision) && slot.revision < nextRevision
    && (slot.pending.Some? ==>
          && c.isRequest(slot.pending.value.requestId) && slot.pending.value.documentId == slot.documentId
          && c.isVersion(slot.pending.value.expectedVersion) && c.bodyBytes(slot.pending.value.body) <= MAX_BODY_BYTES)
    && (slot.confirmation.Some? ==>
         c.isRequest(slot.confirmation.value.requestId) && OutcomeAccepted(c, slot.confirmation.value.outcome))
  }

  /** No two slots share a document, a revision, or a pending request. */
  predicate Apart(first: Slot, second: Slot) {
    && first.documentId != second.documentId && first.revision != second.revision
    && (first.pending.Some? && second.pending.Some? ==> first.pending.value.requestId != second.pending.value.requestId)
  }

  predicate SlotsAccepted(c: Checks, e: Envelope) {
    && (forall k :: 0 <= k < |e.documents| ==> SlotAccepted(c, e.documents[k], e.nextRevision))
    && (forall j, k :: 0 <= j < k < |e.documents| ==> Apart(e.documents[j], e.documents[k]))
  }

  predicate Accepted(c: Checks, e: Envelope) {
    IsRevision(e.nextRevision) && |e.documents| <= MAX_DOCUMENTS && SlotsAccepted(c, e)
      && c.envelopeBytes(e) <= MAX_ENVELOPE_BYTES
  }

  /** The envelope is beyond one of the limits a larger device would move. */
  predicate AtALimit(c: Checks, e: Envelope) {
    !IsRevision(e.nextRevision) || |e.documents| > MAX_DOCUMENTS || c.envelopeBytes(e) > MAX_ENVELOPE_BYTES
  }

  predicate BodyBeyond(c: Checks, slot: Slot) {
    || c.bodyBytes(slot.draft.baseBody) > MAX_BODY_BYTES || c.bodyBytes(slot.draft.body) > MAX_BODY_BYTES
    || (slot.pending.Some? && c.bodyBytes(slot.pending.value.body) > MAX_BODY_BYTES)
  }

  /** What the validator has collected from the slots it has passed. */
  predicate Seen(slots: seq<Slot>, ids: set<Id>, revisions: set<nat>, requests: set<RequestName>) {
    && ids == (set k | 0 <= k < |slots| :: slots[k].documentId)
    && revisions == (set k | 0 <= k < |slots| :: slots[k].revision)
    && requests == (set k | 0 <= k < |slots| && slots[k].pending.Some? :: slots[k].pending.value.requestId)
  }

  lemma SeenNothing()
    ensures Seen([], {}, {}, {})
  {
  }

  lemma SeenNext(slots: seq<Slot>, ids: set<Id>, revisions: set<nat>, requests: set<RequestName>, slot: Slot)
    requires Seen(slots, ids, revisions, requests)
    ensures
      Seen(slots + [slot], ids + {slot.documentId}, revisions + {slot.revision},
           if slot.pending.Some? then requests + {slot.pending.value.requestId} else requests)
    ensures !Repeats(slot, ids, revisions, requests) <==> forall j :: 0 <= j < |slots| ==> Apart(slots[j], slot)
  {
    var next := slots + [slot];
    assert forall j :: 0 <= j < |slots| ==> next[j] == slots[j];
    assert next[|slots|] == slot;
  }

  predicate Repeats(slot: Slot, ids: set<Id>, revisions: set<nat>, requests: set<RequestName>) {
    slot.documentId in ids || slot.revision in revisions
      || (slot.pending.Some? && slot.pending.value.requestId in requests)
  }

  /** One slot's checks, in order, against what the slots before it used. */
  method SlotRefusal(c: Checks, slot: Slot, nextRevision: nat, ids: set<Id>, revisions: set<nat>,
                     requests: set<RequestName>) returns (refusal: Option<Code>)
    ensures refusal == None <==> SlotAccepted(c, slot, nextRevision) && !Repeats(slot, ids, revisions, requests)
    ensures refusal == Some(Capacity) ==> BodyBeyond(c, slot)
    ensures refusal.Some? ==> refusal.value == Invalid || refusal.value == Capacity
  {
    if !c.isDocument(slot.documentId) || slot.documentId in ids || !c.isVersion(slot.draft.baseVersion) {
      return Some(Invalid);
    }
    if c.bodyBytes(slot.draft.baseBody) > MAX_BODY_BYTES || c.bodyBytes(slot.draft.body) > MAX_BODY_BYTES {
      return Some(Capacity);
    }
    if !IsRevision(slot.revision) || slot.revision >= nextRevision || slot.revision in revisions {
      return Some(Invalid);
    }
    if slot.pending.Some? {
      var pending := slot.pending.value;
      if
        || !c.isRequest(pending.requestId) || pending.requestId in requests
        || pending.documentId != slot.documentId || !c.isVersion(pending.expectedVersion)
      {
        return Some(Invalid);
      }
      if c.bodyBytes(pending.body) > MAX_BODY_BYTES {
        return Some(Capacity);
      }
    }
    if
      && slot.confirmation.Some?
      && (!c.isRequest(slot.confirmation.value.requestId) || !OutcomeAccepted(c, slot.confirmation.value.outcome))
    {
      return Some(Invalid);
    }
    return None;
  }

  method ValidateEnvelope(c: Checks, e: Envelope) returns (refusal: Option<Code>)
    ensures refusal == None <==> Accepted(c, e)
    ensures refusal == Some(Capacity) ==>
      AtALimit(c, e) || exists k :: 0 <= k < |e.documents| && BodyBeyond(c, e.documents[k])
    ensures refusal.Some? ==> refusal.value == Invalid || refusal.value == Capacity
  {
    if !IsRevision(e.nextRevision) {
      return Some(Invalid);
    }
    if |e.documents| > MAX_DOCUMENTS {
      return Some(Capacity);
    }
    hide SlotAccepted, Apart, BodyBeyond, Seen;
    var ids: set<Id>, revisions: set<nat>, requests: set<RequestName> := {}, {}, {};
    assert Seen(e.documents[..0], ids, revisions, requests) by {
      SeenNothing();
    }
    for k := 0 to |e.documents|
      invariant forall j :: 0 <= j < k ==> SlotAccepted(c, e.documents[j], e.nextRevision)
      invariant forall i, j :: 0 <= i < j < k ==> Apart(e.documents[i], e.documents[j])
      invariant Seen(e.documents[..k], ids, revisions, requests)
    {
      var slot := e.documents[k];
      SeenNext(e.documents[..k], ids, revisions, requests, slot);
      assert e.documents[..k + 1] == e.documents[..k] + [slot];
      refusal := SlotRefusal(c, slot, e.nextRevision, ids, revisions, requests);
      if refusal.Some? {
        if Repeats(slot, ids, revisions, requests) {
          assert exists j :: 0 <= j < k && !Apart(e.documents[j], slot);
        }
        return;
      }
      ids, revisions := ids + {slot.documentId}, revisions + {slot.revision};
      if slot.pending.Some? {
        requests := requests + {slot.pending.value.requestId};
      }
    }
    return if c.envelopeBytes(e) > MAX_ENVELOPE_BYTES then Some(Capacity) else None;
  }

  // ---- what one operation composes ----

  /** The position of a document's slot, or the number of slots. */
  function Find(documents: seq<Slot>, id: Id): (k: nat)
    ensures k <= |documents|
    ensures k < |documents| ==> documents[k].documentId == id
    ensures forall j :: 0 <= j < k ==> documents[j].documentId != id
  {
    if documents == [] then 0 else if documents[0].documentId == id then 0 else 1 + Find(documents[1..], id)
  }

  predicate RequestUsed(documents: seq<Slot>, requestId: RequestName) {
    exists k :: 0 <= k < |documents| &&
      (|| (documents[k].pending.Some? && documents[k].pending.value.requestId == requestId)
       || (documents[k].confirmation.Some? && documents[k].confirmation.value.requestId == requestId))
  }

  /** What is refused before the envelope is looked at. */
  function InputRefusal(c: Checks, op: Op): Option<Code> {
    if !c.isDocument(op.id) then Some(Invalid)
    else
      match op
      case Save(_, draft, expected) =>
        if !c.isVersion(draft.baseVersion) then Some(Invalid)
        else if !DraftAccepted(c, draft) then Some(Capacity)
        else if expected.Some? && !IsRevision(expected.value) then Some(Invalid)
        else None
      case Prepare(_, requestId, revision) => if !c.isRequest(requestId) || !IsRevision(revision) then Some(Invalid)
        else None
      case Settle(_, requestId, outcome) => if !c.isRequest(requestId) || !OutcomeAccepted(c, outcome)
        then Some(Invalid) else None
      case Discard(_, revision) => if !IsRevision(revision) then Some(Invalid) else None
  }

  datatype Composed = Compose(envelope: Envelope, reply: Reply) | Refuse(code: Code)

  /** The next envelope and its reply, or the operation's own refusal. */
  function ComposeOp(e: Envelope, op: Op): Composed {
    var k := Find(e.documents, op.id);
    var found := k < |e.documents|;
    match op
    case Save(id, draft, expected) =>
      if (if found then Some(e.documents[k].revision) else None) != expected then Refuse(Stale)
      else
        var slot := Slot(
          id, draft, e.nextRevision, if found then e.documents[k].pending else None,
          if found then e.documents[k].confirmation else None);
        Compose(
          Envelope(e.nextRevision + 1, if found then e.documents[k := slot] else e.documents + [slot]),
          Saved(slot))
    case Prepare(id, requestId, revision) =>
      if !found || e.documents[k].revision != revision then Refuse(Stale)
      else if e.documents[k].pending.Some? then Refuse(PendingAttempt)
      else if RequestUsed(e.documents, requestId) then Refuse(RequestMismatch)
      else
        var attempt := Attempt(requestId, id, e.documents[k].draft.baseVersion, e.documents[k].draft.body);
        Compose(e.(documents := e.documents[k := e.documents[k].(pending := Some(attempt))]), Prepared(attempt))
    case Settle(id, requestId, outcome) =>
      if !found || e.documents[k].pending == None || e.documents[k].pending.value.requestId != requestId
        then Refuse(RequestMismatch)
      else
        var slot := e.documents[k].(pending := None, confirmation := Some(Confirmation(requestId, outcome)));
        Compose(e.(documents := e.documents[k := slot]), Settled(slot))
    case Discard(id, revision) =>
      if !found || e.documents[k].revision != revision then Refuse(Stale)
      else if e.documents[k].pending.Some? then Refuse(PendingAttempt)
      else Compose(e.(documents := e.documents[..k] + e.documents[k + 1..]), Discarded)
  }

  lemma Replaced(c: Checks, e: Envelope, k: nat, slot: Slot, nextRevision: nat)
    requires SlotsAccepted(c, e) && k < |e.documents| && e.nextRevision <= nextRevision
    requires SlotAccepted(c, slot, nextRevision)
    requires forall j :: 0 <= j < |e.documents| && j != k ==> Apart(slot, e.documents[j])
    ensures SlotsAccepted(c, Envelope(nextRevision, e.documents[k := slot]))
  {
  }

  lemma SavedIsAccepted(c: Checks, e: Envelope, id: Id, draft: Draft, expected: Option<nat>)
    requires SlotsAccepted(c, e) && IsRevision(e.nextRevision) && c.isDocument(id) && DraftAccepted(c, draft)
    requires ComposeOp(e, Save(id, draft, expected)).Compose?
    ensures SlotsAccepted(c, ComposeOp(e, Save(id, draft, expected)).envelope)
  {
    var next := ComposeOp(e, Save(id, draft, expected)).envelope;
    var k := Find(e.documents, id);
    if k < |e.documents| {
      Replaced(c, e, k, next.documents[k], next.nextRevision);
    }
  }

  lemma Removed(c: Checks, e: Envelope, k: nat)
    requires SlotsAccepted(c, e) && k < |e.documents|
    ensures SlotsAccepted(c, e.(documents := e.documents[..k] + e.documents[k + 1..]))
  {
    var next := e.documents[..k] + e.documents[k + 1..];
    assert forall j :: 0 <= j < |next| ==> next[j] == e.documents[if j < k then j else j + 1];
  }

  /**
   * Short of a limit, an operation that meets its own checks leaves an envelope the validator accepts: from
   * an accepted envelope a composed one is accepted exactly when it stays within the limits.
   */
  lemma ComposedIsAccepted(c: Checks, e: Envelope, op: Op)
    requires Accepted(c, e) && InputRefusal(c, op) == None && ComposeOp(e, op).Compose?
    ensures Accepted(c, ComposeOp(e, op).envelope) <==> !AtALimit(c, ComposeOp(e, op).envelope)
  {
    var next := ComposeOp(e, op).envelope;
    var k := Find(e.documents, op.id);
    match op
    case Save(id, draft, expected) => SavedIsAccepted(c, e, id, draft, expected);
    case Prepare(id, requestId, revision) => Replaced(c, e, k, next.documents[k], e.nextRevision);
    case Settle(id, requestId, outcome) => Replaced(c, e, k, next.documents[k], e.nextRevision);
    case Discard(id, revision) => Removed(c, e, k);
  }

  // ---- one step of a session ----

  function PersistState(c: Checks, s: State, next: Envelope, ends: WriteEnds): State {
    if !Accepted(c, next) then s
    else
      match ends
      case Written => s.(envelope := next, stored := next)
      case FailedUnwritten => s.(poisoned := true)
      case FailedWritten => s.(poisoned := true, stored := next)
  }

  function AfterOp(c: Checks, s: State, op: Op, ends: WriteEnds): State {
    if InputRefusal(c, op).Some? || !s.active || s.poisoned || ComposeOp(s.envelope, op).Refuse? then s
    else PersistState(c, s, ComposeOp(s.envelope, op).envelope, ends)
  }

  /** The operation was applied and its reply returned. */
  predicate Succeeds(c: Checks, s: State, op: Op, ends: WriteEnds) {
    && InputRefusal(c, op) == None && s.active && !s.poisoned && ComposeOp(s.envelope, op).Compose?
    && Accepted(c, ComposeOp(s.envelope, op).envelope) && ends == Written
  }

  /** Why an operation is refused: its input, the session, its own checks, the validator, or the write. */
  predicate Explains(c: Checks, s: State, op: Op, ends: WriteEnds, code: Code) {
    if InputRefusal(c, op).Some? then InputRefusal(c, op) == Some(code)
    else if !s.active || s.poisoned then code == Closed
    else
      match ComposeOp(s.envelope, op)
      case Refuse(own) => code == own
      case Compose(next, _) =>
        if Accepted(c, next) then ends != Written && code == StorageFailed
        else code == Invalid || code == Capacity
  }

  class Session {
    const checks: Checks
    var envelope: Envelope
    var stored: Envelope
    var poisoned: bool
    var active: bool

    ghost function View(): State
      reads this
    {
      State(envelope, stored, poisoned, active)
    }

    ghost predicate Valid()
      reads this
    {
      Accepted(checks, envelope) && Accepted(checks, stored)
    }

    /** A session over what the backend holds, which validated when it was opened. */
    constructor (checks: Checks, stored: Envelope)
      requires Accepted(checks, stored)
      ensures this.checks == checks && Valid() && View() == State(stored, stored, false, true)
    {
      this.checks := checks;
      this.envelope := stored;
      this.stored := stored;
      this.poisoned := false;
      this.active := true;
    }

    method Persist(next: Envelope, ends: WriteEnds) returns (failure: Option<Code>)
      requires Valid()
      modifies this
      ensures Valid() && View() == PersistState(checks, old(View()), next, ends)
      ensures failure == None <==> Accepted(checks, next) && ends == Written
      ensures Accepted(checks, next) && ends != Written ==> failure == Some(StorageFailed)
      ensures !Accepted(checks, next) ==> failure == Some(Invalid) || failure == Some(Capacity)
    {
      failure := ValidateEnvelope(checks, next);
      if failure.Some? {
        return;
      }
      if ends != Written {
        poisoned := true;
        if ends == FailedWritten {
          stored := next;
        }
        return Some(StorageFailed);
      }
      stored := next;
      envelope := next;
    }

    /** What every operation does before it may touch the envelope. */
    method Enter(op: Op) returns (refusal: Option<Code>)
      ensures refusal == None <==> InputRefusal(checks, op) == None && active && !poisoned
      ensures InputRefusal(checks, op).Some? ==> refusal == InputRefusal(checks, op)
      ensures InputRefusal(checks, op) == None && refusal.Some? ==> refusal == Some(Closed)
    {
      refusal := InputRefusal(checks, op);
      if refusal == None && (!active || poisoned) {
        refusal := Some(Closed);
      }
    }

    /** The document's slot, or none; refused as the operations are. */
    method Read(id: Id) returns (refusal: Option<Code>, slot: Option<Slot>)
      ensures refusal == None <==> checks.isDocument(id) && active && !poisoned
      ensures refusal.Some? ==> refusal == Some(if checks.isDocument(id) then Closed else Invalid) && slot == None
      ensures refusal == None && slot == None ==>
        forall k :: 0 <= k < |envelope.documents| ==> envelope.documents[k].documentId != id
      ensures slot.Some? ==> slot.value in envelope.documents && slot.value.documentId == id
    {
      if !checks.isDocument(id) {
        return Some(Invalid), None;
      }
      if !active || poisoned {
        return Some(Closed), None;
      }
      refusal := None;
      var k := Find(envelope.documents, id);
      slot := if k < |envelope.documents| then Some(envelope.documents[k]) else None;
    }

    method SaveDraft(id: Id, draft: Draft, expected: Option<nat>, ends: WriteEnds) returns (reply: Reply)
      requires Valid()
      modifies this
      ensures Valid() && View() == AfterOp(checks, old(View()), Save(id, draft, expected), ends)
      ensures reply.Rejected? <==> !Succeeds(checks, old(View()), Save(id, draft, expected), ends)
      ensures reply.Rejected? ==> Explains(checks, old(View()), Save(id, draft, expected), ends, reply.code)
      ensures !reply.Rejected? ==> reply == ComposeOp(old(envelope), Save(id, draft, expected)).reply
    {
      var refusal := Enter(Save(id, draft, expected));
      if refusal.Some? {
        return Rejected(refusal.value);
      }
      var next := envelope;
      var k := Find(next.documents, id);
      var previous := if k < |next.documents| then Some(next.documents[k]) else None;
      if (if previous.Some? then Some(previous.value.revision) else None) != expected {
        return Rejected(Stale);
      }
      var slot := Slot(id, draft, next.nextRevision,
        if previous.Some? then previous.value.pending else None, if previous.Some? then previous.value.confirmation
        else None);
      next := next.(nextRevision := next.nextRevision + 1);
      if previous.Some? {
        next := next.(documents := next.documents[k := slot]);
      } else {
        next := next.(documents := next.documents + [slot]);
      }
      var failure := Persist(next, ends);
      return if failure.Some? then Rejected(failure.value) else Saved(slot);
    }

    method PrepareAttempt(id: Id, requestId: RequestName, revision: nat, ends: WriteEnds) returns (reply: Reply)
      requires Valid()
      modifies this
      ensures Valid() && View() == AfterOp(checks, old(View()), Prepare(id, requestId, revision), ends)
      ensures reply.Rejected? <==> !Succeeds(checks, old(View()), Prepare(id, requestId, revision), ends)
      ensures reply.Rejected? ==> Explains(checks, old(View()), Prepare(id, requestId, revision), ends, reply.code)
      ensures !reply.Rejected? ==> reply == ComposeOp(old(envelope), Prepare(id, requestId, revision)).reply
    {
      var refusal := Enter(Prepare(id, requestId, revision));
      if refusal.Some? {
        return Rejected(refusal.value);
      }
      var next := envelope;
      var k := Find(next.documents, id);
      if k == |next.documents| || next.documents[k].revision != revision {
        return Rejected(Stale);
      }
      if next.documents[k].pending.Some? {
        return Rejected(PendingAttempt);
      }
      if RequestUsed(next.documents, requestId) {
        return Rejected(RequestMismatch);
      }
      var attempt := Attempt(requestId, id, next.documents[k].draft.baseVersion, next.documents[k].draft.body);
      next := next.(documents := next.documents[k := next.documents[k].(pending := Some(attempt))]);
      var failure := Persist(next, ends);
      return if failure.Some? then Rejected(failure.value) else Prepared(attempt);
    }

    method SettleAttempt(id: Id, requestId: RequestName, outcome: Settlement, ends: WriteEnds) returns (reply: Reply)
      requires Valid()
      modifies this
      ensures Valid() && View() == AfterOp(checks, old(View()), Settle(id, requestId, outcome), ends)
      ensures reply.Rejected? <==> !Succeeds(checks, old(View()), Settle(id, requestId, outcome), ends)
      ensures reply.Rejected? ==> Explains(checks, old(View()), Settle(id, requestId, outcome), ends, reply.code)
      ensures !reply.Rejected? ==> reply == ComposeOp(old(envelope), Settle(id, requestId, outcome)).reply
    {
      var refusal := Enter(Settle(id, requestId, outcome));
      if refusal.Some? {
        return Rejected(refusal.value);
      }
      var next := envelope;
      var k := Find(next.documents, id);
      if
        || k == |next.documents| || next.documents[k].pending == None
        || next.documents[k].pending.value.requestId != requestId
      {
        return Rejected(RequestMismatch);
      }
      var slot := next.documents[k].(pending := None, confirmation := Some(Confirmation(requestId, outcome)));
      next := next.(documents := next.documents[k := slot]);
      var failure := Persist(next, ends);
      return if failure.Some? then Rejected(failure.value) else Settled(slot);
    }

    method DiscardDraft(id: Id, revision: nat, ends: WriteEnds) returns (reply: Reply)
      requires Valid()
      modifies this
      ensures Valid() && View() == AfterOp(checks, old(View()), Discard(id, revision), ends)
      ensures reply.Rejected? <==> !Succeeds(checks, old(View()), Discard(id, revision), ends)
      ensures reply.Rejected? ==> Explains(checks, old(View()), Discard(id, revision), ends, reply.code)
      ensures !reply.Rejected? ==> reply == Discarded
    {
      var refusal := Enter(Discard(id, revision));
      if refusal.Some? {
        return Rejected(refusal.value);
      }
      var next := envelope;
      var k := Find(next.documents, id);
      if k == |next.documents| || next.documents[k].revision != revision {
        return Rejected(Stale);
      }
      if next.documents[k].pending.Some? {
        return Rejected(PendingAttempt);
      }
      next := next.(documents := next.documents[..k] + next.documents[k + 1..]);
      var failure := Persist(next, ends);
      return if failure.Some? then Rejected(failure.value) else Discarded;
    }

    /** The callback returned: nothing more may be entered, and a failed write fails the session. */
    method Close() returns (failed: bool)
      modifies this`active
      ensures View() == Next(checks, old(View()), CloseSession) && failed == poisoned
    {
      active := false;
      failed := poisoned;
    }
  }

  // ---- every run, and every reopening ----

  datatype Step = Operate(op: Op, ends: WriteEnds) | CloseSession | Reopen

  function Next(c: Checks, s: State, step: Step): State {
    match step
    case Operate(op, ends) => AfterOp(c, s, op, ends)
    case CloseSession => s.(active := false)
    case Reopen => State(s.stored, s.stored, false, true)
  }

  function Run(c: Checks, s: State, steps: seq<Step>): State
    decreases |steps|
  {
    if steps == [] then s else Run(c, Next(c, s, steps[0]), steps[1..])
  }

  /** The revisions a run's saves returned, in order. */
  function Issued(c: Checks, s: State, steps: seq<Step>): seq<nat>
    decreases |steps|
  {
    if steps == [] then []
    else
      (if steps[0].Operate? && steps[0].op.Save?
          && Succeeds(c, s, steps[0].op, steps[0].ends) then [s.envelope.nextRevision] else [])
      + Issued(c, Next(c, s, steps[0]), steps[1..])
  }

  predicate Sound(c: Checks, s: State) {
    Accepted(c, s.envelope) && Accepted(c, s.stored) && s.envelope.nextRevision <= s.stored.nextRevision
  }

  /** Every envelope a run leaves, and every one it stores, is one the validator accepts; the counter never falls. */
  lemma {:induction false} RunIsSound(c: Checks, s: State, steps: seq<Step>)
    requires Sound(c, s)
    ensures Sound(c, Run(c, s, steps)) && s.envelope.nextRevision <= Run(c, s, steps).envelope.nextRevision
    decreases |steps|
  {
    if steps != [] {
      CounterMoves(c, s, steps[0]);
      hide Sound, Next;
      RunIsSound(c, Next(c, s, steps[0]), steps[1..]);
    }
  }

  /** Strictly increasing numbers, from `least` and below `beyond`. */
  predicate Rising(numbers: seq<nat>, least: nat, beyond: nat) {
    && (forall i :: 0 <= i < |numbers| ==> least <= numbers[i] < beyond)
    && (forall i, j :: 0 <= i < j < |numbers| ==> numbers[i] < numbers[j])
  }

  /** Revisions strictly increase and are never used again, whatever is discarded, fails or is reopened between. */
  lemma {:induction false} RevisionsAreNeverReused(c: Checks, s: State, steps: seq<Step>)
    requires Sound(c, s)
    ensures Rising(Issued(c, s, steps), s.envelope.nextRevision, Run(c, s, steps).envelope.nextRevision)
    decreases |steps|
  {
    hide Accepted, InputRefusal;
    if steps != [] {
      var t := Next(c, s, steps[0]);
      CounterMoves(c, s, steps[0]);
      hide Sound, ComposeOp;
      RevisionsAreNeverReused(c, t, steps[1..]);
      RunIsSound(c, t, steps[1..]);
      var rest := Issued(c, t, steps[1..]);
      if steps[0].Operate? && steps[0].op.Save? && Succeeds(c, s, steps[0].op, steps[0].ends) {
        assert Issued(c, s, steps) == [s.envelope.nextRevision] + rest;
      } else {
        assert Issued(c, s, steps) == rest;
      }
    }
  }

  /** The counter never falls, and a save that succeeds takes it on by one. */
  lemma CounterMoves(c: Checks, s: State, step: Step)
    requires Sound(c, s)
    ensures Sound(c, Next(c, s, step)) && s.envelope.nextRevision <= Next(c, s, step).envelope.nextRevision
    ensures step.Operate? && step.op.Save? && Succeeds(c, s, step.op, step.ends) ==>
      Next(c, s, step).envelope.nextRevision == s.envelope.nextRevision + 1
  {
    hide Accepted, InputRefusal;
  }

  function PendingOf(e: Envelope, id: Id): Option<Attempt> {
    var k := Find(e.documents, id);
    if k < |e.documents| then e.documents[k].pending else None
  }

  lemma FoundAt(documents: seq<Slot>, id: Id, k: nat)
    requires k < |documents| && documents[k].documentId == id
    requires forall j :: 0 <= j < k ==> documents[j].documentId != id
    ensures Find(documents, id) == k
  {
  }

  lemma PendingKept(e: Envelope, op: Op, id: Id)
    requires PendingOf(e, id).Some? && ComposeOp(e, op).Compose?
    requires !(op.Settle? && op.id == id && op.requestId == PendingOf(e, id).value.requestId)
    ensures PendingOf(ComposeOp(e, op).envelope, id) == PendingOf(e, id)
  {
    var next := ComposeOp(e, op).envelope;
    var k, at := Find(e.documents, op.id), Find(e.documents, id);
    if op.Discard? {
      FoundAt(next.documents, id, if at < k then at else at - 1);
    } else {
      FoundAt(next.documents, id, at);
    }
  }

  /** A prepared attempt is the same attempt until it is settled under its own identity. */
  lemma {:induction false} PreparedAttemptStays(c: Checks, s: State, steps: seq<Step>, id: Id, attempt: Attempt)
    requires PendingOf(s.envelope, id) == Some(attempt) && PendingOf(s.stored, id) == Some(attempt)
    requires forall k :: 0 <= k < |steps| && steps[k].Operate? && steps[k].op.Settle? && steps[k].op.id == id ==>
      steps[k].op.requestId != attempt.requestId
    ensures PendingOf(Run(c, s, steps).envelope, id) == Some(attempt)
    ensures PendingOf(Run(c, s, steps).stored, id) == Some(attempt)
    decreases |steps|
  {
    hide Accepted, InputRefusal, PendingOf;
    if steps != [] {
      if steps[0].Operate? && ComposeOp(s.envelope, steps[0].op).Compose? {
        PendingKept(s.envelope, steps[0].op, id);
      }
      hide ComposeOp;
      PreparedAttemptStays(c, Next(c, s, steps[0]), steps[1..], id, attempt);
    }
  }

  /** After a failed write nothing further is applied: only reopening moves the session again. */
  lemma {:induction false} PoisonedAppliesNothing(c: Checks, s: State, steps: seq<Step>)
    requires s.poisoned && forall k :: 0 <= k < |steps| ==> steps[k].Operate?
    ensures Run(c, s, steps) == s && Issued(c, s, steps) == []
    ensures forall k :: 0 <= k < |steps| ==> !Succeeds(c, s, steps[k].op, steps[k].ends)
    decreases |steps|
  {
    if steps != [] {
      PoisonedAppliesNothing(c, s, steps[1..]);
    }
  }

  /** Pending identities are distinct across documents after any run from a blank envelope. */
  lemma PendingIdentitiesAreDistinct(c: Checks, steps: seq<Step>, id: Id, other: Id)
    requires Accepted(c, BLANK_ENVELOPE) && id != other
    ensures
      var e := Run(c, State(BLANK_ENVELOPE, BLANK_ENVELOPE, false, true), steps).envelope;
      PendingOf(e, id).Some? && PendingOf(e, other).Some? ==>
        PendingOf(e, id).value.requestId != PendingOf(e, other).value.requestId
  {
    var s := State(BLANK_ENVELOPE, BLANK_ENVELOPE, false, true);
    RunIsSound(c, s, steps);
    var e := Run(c, s, steps).envelope;
    hide Run;
    var j, k := Find(e.documents, id), Find(e.documents, other);
    if j < k < |e.documents| {
      assert Apart(e.documents[j], e.documents[k]);
    } else if k < j < |e.documents| {
      assert Apart(e.documents[k], e.documents[j]);
    }
  }
}
