/** The rows a working copy keeps, and the functions over single rows that its verbs share. */
module Records {
  datatype Option<+T> = None | Some(value: T)

  type Id = string
  type RequestId = nat

  /** A document version is the address of its bytes; a tombstone names one deletion and no bytes. */
  datatype Version = ContentVersion(bytes: string) | Tombstone(serial: nat)

  function VersionOf(content: string): Version {
    ContentVersion(content)
  }

  /** A deletion carries no bytes. No document is empty, so no document has this version. */
  const DELETION_CONTENT: string := ""
  const DELETION_VERSION: Version := VersionOf(DELETION_CONTENT)

  datatype Kind = Write | Delete
  datatype RowState = Pending | InFlight | Acknowledged | Conflict | Refused | Unknown

  datatype Posture = Posture(replaceLinks: bool, acceptTruncatedBody: bool)

  /** What a document was last known to hold at the authority; also the shared head a conflict records. */
  datatype SharedBase = SharedBase(version: Option<Version>, content: Option<string>, tombstone: Option<Version>,
      refetch: bool)

  /** The part of an intent its author chooses; the store adds the bytes, their version and the state. */
  datatype NewIntent = NewIntent(
    requestId: RequestId, kind: Kind, target: Id, base: Option<Version>, baseContent: Option<string>, createdAt: nat,
    after: Option<RequestId>, recreates: Option<Version>, bodyReplace: Option<Posture>)

  datatype Intent = Intent(
    requestId: RequestId, kind: Kind, target: Id, base: Option<Version>, baseContent: Option<string>, createdAt: nat,
    after: Option<RequestId>, recreates: Option<Version>, bodyReplace: Option<Posture>,
    local: Version, content: string, attempts: nat, state: RowState,
    acknowledgedVersion: Option<Version>, remote: Option<SharedBase>, refusal: Option<string>)

  /** The authority's answer for one request identity. */
  datatype Outcome =
    | Committed(version: Version)
    | ConflictWith(actual: Option<Version>, tombstone: Option<Version>)
    | RefusedWith(code: string)
    | NoAnswer

  /** A recorded intent starts pending with zero attempts and carries the bytes written with it. */
  function Journaled(intent: NewIntent, content: string): Intent {
    Intent(
      intent.requestId, intent.kind, intent.target, intent.base, intent.baseContent, intent.createdAt, intent.after,
      intent.recreates, intent.bodyReplace, VersionOf(content), content, 0, Pending, None, None, None)
  }

  const AUTHORIZATION_REFUSAL_CODES: set<string> := {
    "AUTH_REQUIRED", "FORBIDDEN", "UNAUTHORIZED", "PERMISSION_DENIED", "REQUEST_CAPACITY_PRINCIPAL",
      "REQUEST_CAPACITY_BUNDLE"
  }

  predicate IsAuthorizationRefusal(row: Intent) {
    row.state == Refused && row.refusal.Some? && row.refusal.value in AUTHORIZATION_REFUSAL_CODES
  }

  predicate IsContentRefusal(row: Intent) {
    row.state == Refused && row.refusal.Some? && row.refusal.value !in AUTHORIZATION_REFUSAL_CODES
  }

  /** Never submitted: the claim that would have counted an attempt never ran. */
  predicate NeverSent(row: Intent) {
    row.state == Pending && row.attempts == 0
  }

  /** The authority did not apply this row, so a later edit may replace it. */
  predicate Replaceable(row: Intent) {
    NeverSent(row) || row.state == Refused
  }

  /** The flags of two declared postures together; absent only when neither side declared one. */
  function ComposedBodyReplace(first: Option<Posture>, second: Option<Posture>): Option<Posture> {
    match (first, second)
    case (None, None) => None
    case (Some(p), None) => Some(p)
    case (None, Some(q)) => Some(q)
    case (Some(p), Some(q)) =>
      Some(Posture(p.replaceLinks || q.replaceLinks, p.acceptTruncatedBody || q.acceptTruncatedBody))
  }

  /** The intent a change journals in place of one the authority never applied, or none for a deletion of a create. */
  function SupersedingIntent(kind: Kind, superseded: Intent, requestId: RequestId, now: nat): Option<NewIntent> {
    if kind == Delete && superseded.base == None then None
    else
      Some(NewIntent(
        requestId, kind, superseded.target, superseded.base, superseded.baseContent, now,
        superseded.after,
        if kind == Write && superseded.base == None then superseded.recreates else None,
        if kind == Write && superseded.kind == Write then superseded.bodyReplace else None))
  }

  /** A never-sent successor, rebased on what the authority actually committed for its predecessor. */
  function ChainedPremise(intent: Intent, predecessor: Intent): Intent {
    match predecessor.acknowledgedVersion
    case None => intent
    case Some(committed) =>
      if predecessor.kind == Delete then
        if intent.base == None && intent.recreates == None && intent.kind != Delete && committed != DELETION_VERSION
        then intent.(recreates := Some(committed)) else intent
      else
        if intent.base == Some(predecessor.local) && committed != predecessor.local
        then intent.(base := Some(committed)) else intent
  }

  /** The base a chained successor of this intent holds: its local version, or none after a deletion. */
  function ChainedBase(intent: Intent): Option<Version> {
    if intent.kind == Delete then None else Some(intent.local)
  }

  function ChainedBaseContent(intent: Intent): Option<string> {
    if intent.kind == Delete then None else Some(intent.content)
  }

  predicate HoldsVersion(base: Option<SharedBase>, version: Version) {
    base.Some? && base.value.version == Some(version) && !base.value.refetch
  }

  function BaseVersion(base: Option<SharedBase>): Option<Version> {
    if base.Some? then base.value.version else None
  }

  /** A conflict that names the intent's own version says the shared head already holds this content. */
  function SettleAgainstIntent(outcome: Outcome, intent: Intent): Outcome {
    if outcome.ConflictWith? && outcome.actual == Some(intent.local) then Committed(intent.local) else outcome
  }
}
