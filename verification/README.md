# A verified model of the working copy, its board and its local tools

This project models the parts of the repository that must stay right when several things happen at once, or
when something dies half-way, and proves what they promise.

* **The working-copy journal** (`Records`, `Journal`, `JournalShape`, `FoldConfluence`, `WorkingCopy`). Every local
  edit of a document is journaled as an intent against the shared head it was made on. `Journal` gives each verb's
  transaction on one document; `WorkingCopy.Store` is the store the verbs really change in place, one journal for
  all documents, with the push, resume and reclaim loops; local edits, other realms and pulls act on the store
  before every turn of a push and while it waits for an answer.
* **Delivery to a shared authority** (`Delivery`, `DeliveryInvariant`, `DeliveryRuns`). Claim, submission, the
  authority's commit, conflict, refusal or denial, the answer and its settlement are separate events; other writers
  move the authority; an answer may be lost and a realm may die between any two events. Every delivery of an
  identity is counted, so an earlier one may still land after a later one was denied. A ledger remembers every
  local edit, and a revision counter every head the authority served.
* **Fenced pulls** (`PullProtocol`, `PullInvariant`, `PullRuns`). Any number of pulls over one store interleave with
  each other and with every document event. Each pull marks, looks at what is held, lists, compares, fetches,
  writes under its fence, removes what is no longer listed, and completes over its own marker.
* **Body-mode evidence** (`BodyEvidence`, `BodyJournal`). The validator that every read runs over a document's rows
  and descriptors, and the writers that must leave what it accepts, history retirement included.
* **The converging rebase and the conflict-copy store** (`Rebase`, `SavedCopies`). The stop, resolve, continue and
  skip loop over whole-file merges, saving each local version in a store whose copies never replace one another.
* **Create-only arbitration** (`CreateOnly`). Locked inspection, directory creation, re-inspection and publication
  over a tree that other processes keep changing between any two file-system calls.
* **Small algorithms** (`WorkerPool`, `EditDistance`, `BodyPages`, `EditorRecovery`).

Three promises turned out to hold only under a condition, which the theorems state exactly:

* Folding a refused chain gives what editing over the refusal would have given, however often the head was sent
  before it was refused, except when a write follows a deletion that dropped something the head declared. `FoldConfluence.FoldConfluence` is an equivalence, and
  `FoldConfluence.DeletionBetweenWritesLoses` is an input on the failing side.
* A fenced pull never moves a base back, except for a document that something outside the fence wrote since the
  mark. `PullRuns.PullsGoBackExactly` says by its guard which steps do, in every reachable store, and that a
  resolution or a bootstrap then wrote the document since the mark; `PullRuns.UnfencedWriteCanBeUndone` is a run
  that ends in such a step.
* A refused row was not applied (`packages/browser-local/src/local-bundle.ts:861`), so a later edit may replace it:
  except for a denial for lost permission that settles a row claimed more than once, since push does not tell the
  uncertain-write primitive that an earlier delivery is unclear, and the primitive then takes the denial as definite
  (`packages/core/src/uncertain-write.ts:389`). `DeliveryRuns.DenialIsDefiniteExactly` says that for every number of
  claims: the denial of a row claimed `n` times is definite, in every reachable state and for every code, if and only
  if `n` is one. `DeliveryRuns.DeniedRowMayLand` is, for each other `n`, a run in which the denied row is replaced and
  applied afterwards; the edit's bytes are then what the authority serves. `DeliveryRuns.NoLocalEditIsLost` excepts
  exactly the rows that such a denial settled, and `DeliveryRuns.WithdrawnMayLand` says on the authority's side which
  replaced rows can still be applied.

The worker pool's documentation promises that every batch is done when nothing fails; that is so exactly when the
pool has at least one worker (`WorkerPool.TheAnswerIsFinal`). The host's callers never pass zero.

What the host supplies is a parameter or an event: request identities (fresh each time), the clock, the document
codec, the authority's answers, file-system outcomes, and which call fails. The authority is taken as a
specification: it compares and swaps on a request's base, records one outcome for each request identity, never
applies what it recorded as refused, and answers a denial for lost permission to one delivery without recording
anything.

## Model

| member | source | states |
|---|---|---|
| JournalShape.EveryRunKeepsShape | packages/browser-local/src/local-bundle.ts:877-939 | over every run of the exact-mode verbs a document has at most two unsettled rows; only the first was ever claimed, the second waits on it with its version as base (none after a deletion), and the last one's content is the working document; with no unsettled row the document is exactly its shared base |
| JournalShape.CommitKeepsShape | packages/browser-local/src/local-bundle.ts:949-999 | a commit, superseding or chaining, keeps that shape |
| JournalShape.DeleteKeepsShape | packages/browser-local/src/local-bundle.ts:1021-1056 | a deletion keeps it, also where a deletion of a create that never left collapses to nothing |
| JournalShape.ClaimKeepsShape | packages/browser-local/src/local-bundle.ts:1886-1905 | a claim counts its attempt first and never makes the second row a claimed one |
| JournalShape.SettleKeepsShape | packages/browser-local/src/local-bundle.ts:1640-1702 | each outcome keeps the shape; an acknowledgement moves the base and leaves the successor first |
| JournalShape.FoldKeepsShape | packages/browser-local/src/local-bundle.ts:1815-1841 | a fold leaves one fresh row, or none, over the same document |
| JournalShape.ResolveKeepsShape | packages/browser-local/src/local-bundle.ts:1337-1430 | each resolution choice leaves the document its fresh row or its adopted head describes |
| JournalShape.RequeueKeepsShape | packages/browser-local/src/local-bundle.ts:2386-2425 | resuming and reclaiming requeue without losing the attempts |
| FoldConfluence.FoldConfluence | packages/browser-local/src/local-bundle.ts:822-857 | for any sent head write, any edits over it and any lost answers, denials, resumptions, reclaims and further deliveries among them, once the head is refused folding equals editing over the recorded refusal, identity and time aside, if and only if the edits end in a deletion, hold none, or the deletion lost nothing |
| FoldConfluence.EditsWait | packages/browser-local/src/local-bundle.ts:905-919 | any run of edits made over a sent, unanswered write leaves one successor that waits on it and carries the declarations made since the last deletion, and does not touch the progress of the write itself |
| FoldConfluence.EditsSupersede | packages/browser-local/src/local-bundle.ts:897-903 | the same edits over a recorded refusal leave one row on the refused head's premise |
| FoldConfluence.DeletionBetweenWritesLoses | packages/browser-local/src/local-bundle.ts:846-856 | a concrete deletion between writes after which the two orders differ: the deletion drops the declared posture |
| DeliveryRuns.EveryRunIsConsistent | packages/browser-local/src/local-bundle.ts:1864-1932 | every run of edits, deliveries, lost answers, refusals and other writers keeps the whole delivery invariant |
| DeliveryInvariant.EventKeeps | packages/browser-local/src/local-bundle.ts:1843-1863 | each single event keeps it: rows travel unchanged under their identity, a row without attempts was never submitted, a refused or conflicted row was not applied and cannot be any more |
| DeliveryRuns.InFlightBaseWasServed | packages/browser-local/src/local-bundle.ts:928-935 | every row in flight, and every request ever sent, carries as its base nothing or a version the authority really served, even where the authority commits another version than the local one |
| DeliveryRuns.NoLocalEditIsLost | packages/browser-local/src/local-bundle.ts:861-876 | every local edit's bytes are journaled, acknowledged or in a resolution receipt, or a later edit replaced it while the authority had not applied it and held no delivery of it, or after a denial that settled it when it had been claimed more than once; a deletion may have had nothing to send |
| DeliveryRuns.WithdrawnForGood | packages/browser-local/src/local-bundle.ts:1849-1858 | no continuation makes the authority apply a withdrawn row that it has not applied and holds no delivery of, and one withdrawn before it was submitted never is |
| DeliveryRuns.WithdrawnMayLand | packages/core/src/uncertain-write.ts:343-352 | a withdrawn row can be applied in some continuation if and only if the authority applied it or still holds a delivery of it |
| DeliveryRuns.DenialIsDefiniteExactly | packages/core/src/uncertain-write.ts:389-424 | a row in flight for the n-th time whose call may answer with a denial for lost permission is unapplied and undelivered, in every reachable state and for every such code, if and only if n is one |
| DeliveryRuns.DeniedRowMayLand | packages/core/src/uncertain-write.ts:389-424 | for any two edits and any n of at least two: n - 1 pushes whose answers are lost, an n-th one denied, and an edit that replaces the refused row; an earlier delivery then lands, and the authority serves the replaced edit |
| DeliveryRuns.RequestsNeverChange | packages/browser-local/src/local-bundle.ts:869-876 | one identity travels with one payload for ever, however often its row is claimed, reclaimed or resumed |
| DeliveryRuns.EditsNeverChange | packages/browser-local/src/local-bundle.ts:861-876 | a run never changes an edit already in the ledger, nor takes back its replacement |
| DeliveryInvariant.ClaimKeeps | packages/browser-local/src/local-bundle.ts:1886-1905 | a claim replaces a premise that named the local version with the version the authority committed |
| DeliveryInvariant.SettleKeeps | packages/browser-local/src/local-bundle.ts:1640-1702 | settling a recorded outcome keeps every edit of the ledger accounted for and the base a served version |
| DeliveryInvariant.FoldKeeps | packages/browser-local/src/local-bundle.ts:1815-1841 | a fold carries its successor's edit on under the fresh identity and retires only rows the authority did not apply |
| DeliveryInvariant.ResolveKeeps | packages/browser-local/src/local-bundle.ts:1337-1430 | a resolution retains every retired row's content in its receipt |
| PullRuns.CompletedPullIsTheListing | packages/browser-local/src/local-bundle.ts:2133-2327 | when a fenced pull completes from a listing and records its digest, every document no unsettled row held since the mark (and nothing outside the fence wrote) is present exactly when the listing names it, at the listed version and with that base's bytes, under every interleaving |
| PullRuns.TouchedWasHeld | packages/browser-local/src/local-bundle.ts:2171-2171 | a name excepted as held was held by an unsettled row in some state between the pull's mark and its end |
| PullRuns.FencedPullsNeverGoBack | packages/browser-local/src/local-bundle.ts:2034-2054 | no refresh, deletion or other step of a fenced pull moves any document's base to an older authority revision, whatever pulls, commits, deliveries and acknowledgements came before |
| PullRuns.FencedWriteMovesForward | packages/browser-local/src/local-bundle.ts:2201-2252 | a guarded refresh writes a head no older than the base it replaces |
| PullRuns.FencedRemovalMovesForward | packages/browser-local/src/local-bundle.ts:494-542 | a guarded deletion removes nothing newer than the listing that lacks it |
| PullRuns.PullsGoBackExactly | packages/browser-local/src/local-bundle.ts:2034-2054 | in every reachable store a pull's step moves a base back if and only if its fence holds, the document is unheld (for a refresh) and not at the fetched version, and its base was taken at a later revision than the fetch or the listing; and a resolution or bootstrap then wrote that document at some step since the mark |
| PullRuns.DisturbedWasWritten | packages/browser-local/src/local-bundle.ts:2146-2163 | a name excepted as written outside the fence was so written by a step between the pull's mark and its end |
| PullRuns.UnfencedWriteCanBeUndone | packages/browser-local/src/local-bundle.ts:2146-2163 | a run from an empty working copy in which the head moves after a pull fetched it, a bootstrap takes it up, and the pull's guarded write moves the base back |
| PullRuns.DeletionsStayInBounds | packages/core/src/platform.ts:275-285 | unless its caller accepted a refused listing, one pull deletes fewer than eight documents, or at most half of those present under a listing that names something, not counting documents that a local edit held and a resolution or bootstrap then wrote, both since the mark |
| PullRuns.EveryRunKeepsStore | packages/browser-local/src/local-bundle.ts:2102-2132 | every interleaving of pulls and document events keeps the store's invariant |
| PullInvariant.DocumentEventKeeps | packages/browser-local/src/local-bundle.ts:1656-1676 | a commit, delivery or acknowledgement that interleaves with pulls keeps what each of them knows, an acknowledgement by ending their fences |
| PullInvariant.WriteKeeps | packages/browser-local/src/local-bundle.ts:2201-2252 | a guarded write keeps its own pull's invariant and every other pull's, since only the marker's owner writes |
| PullInvariant.RemoveKeeps | packages/browser-local/src/local-bundle.ts:513-537 | a guarded removal does, also where a local edit holds the document and only its base is rewritten |
| PullInvariant.MarkKeeps | packages/browser-local/src/local-bundle.ts:2146-2163 | marking with a fresh run ends every other pull's ownership |
| PullInvariant.FetchKeeps | packages/browser-local/src/local-bundle.ts:2259-2281 | a head read back at another version, or gone, clears the pull's claim to the listing's digest |
| WorkingCopy.Store.CommitLocal | packages/browser-local/src/local-bundle.ts:949-999 | in the store, a commit makes of its own document the cell's commit and leaves every other document and its rows as they were |
| WorkingCopy.Store.DeleteLocal | packages/browser-local/src/local-bundle.ts:1021-1056 | the same for a deletion, with the refusal over a recorded conflict and the absent document |
| WorkingCopy.Store.Claim | packages/browser-local/src/local-bundle.ts:1886-1905 | a claim is the cell's claim of that row and refuses exactly where the cell's does |
| WorkingCopy.Store.Settle | packages/browser-local/src/local-bundle.ts:1640-1702 | a settlement is the cell's settlement of that row, with its base, and touches no other document |
| WorkingCopy.Store.FoldRefusedChain | packages/browser-local/src/local-bundle.ts:1815-1841 | a fold is the cell's fold and makes the journal shorter |
| WorkingCopy.Store.ResolveConflict | packages/browser-local/src/local-bundle.ts:1337-1430 | a resolution is the cell's resolution, accepted exactly for a resolvable chain |
| WorkingCopy.Store.PushOne | packages/browser-local/src/local-bundle.ts:1874-1931 | one turn folds, waits, or claims its row, lets everyone else act, and settles the row exactly when it is still in flight; the store is then that run of transactions on every document |
| WorkingCopy.Store.Await | packages/browser-local/src/local-bundle.ts:1911-1924 | whatever others do between a claim and its settlement, the settlement is the cell's on what they left, and reports a row settled elsewhere |
| WorkingCopy.Store.Push | packages/browser-local/src/local-bundle.ts:1864-1932 | others make any finite number of edits, resolutions, transactions of other realms and pull writes before each turn and while it waits for its answer, in every turn anew; the push ends all the same although a fold grows its queue, is on every document a run of claims, settlements and folds among those acts, changes no document or receipt that nobody else writes, and unless it pauses accounts for every row that was pending |
| WorkingCopy.Store.Turn | packages/browser-local/src/local-bundle.ts:1874-1931 | one turn after whatever others did since the last accounts for its row, and a row that a fold journals is never folded again, whoever acts afterwards |
| WorkingCopy.Store.Resume | packages/browser-local/src/local-bundle.ts:2386-2400 | exactly the rows refused for lost permission are requeued, with their attempts |
| WorkingCopy.Store.ReclaimInFlight | packages/browser-local/src/local-bundle.ts:2413-2425 | every row in flight is requeued with at least one attempt, and no other row changes |
| WorkingCopy.Store.Refresh | packages/browser-local/src/local-bundle.ts:2212-2225 | a fetched head is written with its base only over a document no unsettled row holds |
| WorkingCopy.Store.RemoveUnlisted | packages/browser-local/src/local-bundle.ts:517-528 | an unlisted document goes with its base, or stays held with a base that says it is gone |
| BodyJournal.CommitKeepsEvidence | packages/browser-local/src/local-bundle.ts:1133-1164 | a body commit whose own record validates leaves evidence that validates, whether it supersedes, chains or stands on the shared base |
| BodyJournal.PreparationNeverFails | packages/browser-local/src/local-bundle.ts:1717-1729 | from valid evidence a claim's preparation always validates, and it waits exactly for its predecessor's acknowledgement |
| BodyJournal.PreparedRecord | packages/browser-local/src/local-bundle.ts:1730-1736 | a claimed row with its durable preparation validates and follows from its predecessor's receipt |
| BodyJournal.OutcomeRecord | packages/browser-local/src/local-bundle.ts:1739-1785 | each outcome leaves a row and descriptor that validate: a receipt exactly when acknowledged |
| BodyJournal.UnsettledRetire | packages/browser-local/src/local-bundle.ts:1507-1526 | taking every unsettled row out leaves the acknowledged rows with their predecessors |
| BodyJournal.RetirementKeepsEvidence | packages/browser-local/src/body-journal.ts:358-381 | what retirement leaves validates on its own, so its re-check never fails |
| BodyJournal.RetirementSparesTheUnsettled | packages/browser-local/src/body-journal.ts:340-357 | no unsettled row and no predecessor of one is ever retired |
| BodyJournal.RetirementLowersTheCharge | packages/browser-local/src/body-journal.ts:316-337 | rows, descriptors and reservations left after retirement are charged no more, and every unsettled row reserves what it did, for any encoding in which an absent descriptor costs no more than a present one |
| BodyEvidence.FewerRowsKeep | packages/browser-local/src/body-journal.ts:280-290 | rows may be left out when each remaining one keeps its predecessor or is the oldest, acknowledged with its receipt |
| BodyEvidence.MoreRowsKeep | packages/browser-local/src/body-journal.ts:275-300 | a fresh valid row after its predecessor keeps every other row valid |
| BodyEvidence.ProgressKeeps | packages/browser-local/src/body-journal.ts:154-190 | progress on an unsettled row that validates keeps its successors valid |
| BodyJournal.Journal.Commit | packages/browser-local/src/local-bundle.ts:1133-1164 | journals exactly when the premise is known and the bytes carry the body, and otherwise changes nothing |
| BodyJournal.Journal.Claim | packages/browser-local/src/local-bundle.ts:1710-1738 | claims one pending row with the preparation its evidence gives, or changes nothing |
| BodyJournal.Journal.Settle | packages/browser-local/src/local-bundle.ts:1739-1792 | settles one in-flight row; a receipt that does not bind its preparation counts as no answer |
| BodyJournal.Journal.Resolve | packages/browser-local/src/local-bundle.ts:1445-1575 | retires exactly the reviewed chain with its descriptors and journals at most one fresh update at the served head |
| BodyJournal.Journal.RetireAcknowledged | packages/browser-local/src/body-journal.ts:358-381 | retires every row older than the newest acknowledged one exactly when nothing unsettled is older or names one of them |
| Rebase.FetchRebaseResolving | packages/board-git/src/porcelain.ts:2231-2316 | the loop takes at most two turns for each local commit, so its stop limit can only be passed with more than 500 of them; on any failed save or git command, before or after a path's copy is saved, the board is the one before the rebase and the copies stay; otherwise every local commit was dealt with and every touched path is accounted for |
| Rebase.NothingLocalIsLost | packages/board-git/src/porcelain.ts:2270-2299 | after a rebase each path the local commits touched holds its final local content, or that content is byte for byte in the reported copy, a deletion excepted |
| Rebase.StopKeepsHead | packages/board-git/src/porcelain.ts:2282-2289 | the upstream version a stop restores is the one the replayed head already held |
| Rebase.ResolveStop | packages/board-git/src/porcelain.ts:2270-2299 | one stop saves each conflicted path's local version before it restores upstream's and leaves every other path merged |
| Rebase.CommitKeeps | packages/board-git/src/porcelain.ts:2262-2269 | replaying or dropping one resolved commit keeps every touched path accounted for |
| Rebase.Board.Advance | packages/board-git/src/porcelain.ts:2245-2247 | replay goes on until a commit conflicts or none is left |
| SavedCopies.CopyStore.SaveConflictCopy | packages/board-git/src/saved-copies.ts:60-90 | saving ends, returns a file with exactly the given bytes, changes nothing that was there, adds nothing for bytes already saved, and places a new copy in a higher slot than every copy of that path, so one path's copies stay pairwise different and in save order |
| SavedCopies.CopyStore.SaveBodyCompanion | packages/board-git/src/saved-copies.ts:97-106 | a companion is written only where nothing is, and is returned exactly when its path holds that body |
| SavedCopies.CopyStore.SaveCopyWithBody | packages/board-git/src/saved-copies.ts:113-123 | a new copy of a document gets its companion |
| SavedCopies.SaveTwice | packages/board-git/src/saved-copies.ts:60-67 | a retried save finds the first copy and leaves the disk as it was |
| SavedCopies.EveryRaceKeeps | packages/board-git/src/saved-copies.ts:46-90 | in every interleaving of savers, each existence test a step of its own, no file is ever changed and each saver that is done holds its own bytes |
| SavedCopies.TestsTogether | packages/board-git/src/saved-copies.ts:51-54 | a slot is taken exactly when one of its three existence tests, each its own step in a race, finds something |
| SavedCopies.RacersKeepTheirOwn | packages/board-git/src/saved-copies.ts:68-90 | savers of different bytes for one path end in different slots |
| CreateOnly.AtMostOnePublishes | packages/cli/src/bundle.ts:1303-1333 | of any concurrent runs whose targets are equal or nested at most one publishes, as long as no other process takes a published index away |
| CreateOnly.PublishesOnlyApart | packages/cli/src/bundle.ts:1024-1093 | a run publishes only where no workspace published before it is at, above, below, or conventional to a directory at or above its target |
| CreateOnly.EveryReportIsTruthful | packages/cli/src/bundle.ts:1235-1403 | whatever a run reports, read against the steps of the machine: not-started means it never called publish, published means its publish wrote the index and returned, and the residual directories are exactly those its own calls added to the tree |
| CreateOnly.ResolvePhysicalTarget | packages/cli/src/bundle.ts:764-842 | the resolver finds the nearest existing path and what is missing below it, and reports a conflict exactly for a file in the way or a link as the target |
| CreateOnly.InspectionClears | packages/cli/src/bundle.ts:1030-1078 | an inspection of an existing target that went through rules out every published workspace that could serve it |
| CreateOnly.StepConsistent | packages/cli/src/bundle.ts:1311-1330 | every step of every run, and every change by other processes, keeps the lock, the inspection facts and the reports sound |
| WorkerPool.EveryRunIsOrderly | packages/browser-local/src/local-bundle.ts:412-427 | in every interleaving batches are taken in list order, each at most once, none after a failure, and no more are in flight than the pool has workers |
| WorkerPool.TheAnswerIsFinal | packages/browser-local/src/local-bundle.ts:427-431 | the caller is answered once, after every batch taken has ended, with the first failure if there was one; without one every batch was done exactly when there was a worker or nothing to do |
| WorkerPool.StepsRunOut | packages/browser-local/src/local-bundle.ts:415-426 | every step brings the pool nearer its end |
| WorkerPool.NeverStuck | packages/browser-local/src/local-bundle.ts:415-426 | until the caller is answered some step is possible |
| EditDistance.OptionDistance | packages/cli/src/args.ts:75-94 | the table's last entry is the recurrence's value |
| EditDistance.DistanceIsLeastCost | packages/cli/src/args.ts:74-94 | that value is the least cost over all scripts of insertions, deletions, substitutions and adjacent swaps that edit no substring twice, and some script attains it |
| EditDistance.DistanceIsSymmetric | packages/cli/src/args.ts:74-94 | it is symmetric |
| EditDistance.ZeroIsEquality | packages/cli/src/args.ts:74-94 | it is zero exactly on equal names |
| EditDistance.NearestLongOption | packages/cli/src/args.ts:96-119 | a suggestion is made exactly for the one admissible candidate strictly nearest within the bound, when the typed name is no candidate |
| EditDistance.SortedUnique | packages/cli/src/args.ts:106-106 | candidates are considered once each, in string order |
| EditDistance.NearestIgnoresOrder | packages/cli/src/args.ts:106-117 | which candidate is nearest depends on which candidates there are, not on their order or repeats |
| BodyPages.PageEnd | packages/cli/src/body-pages.ts:26-42 | a page reaches every character that fits, one even when it does not, moved back to a line's end within the window |
| BodyPages.EndIsUnique | packages/cli/src/body-pages.ts:26-42 | that says one end and no other |
| BodyPages.PageIsSound | packages/cli/src/body-pages.ts:26-42 | a page starts and ends on whole characters, makes progress, and fits its byte bound unless it is a single character |
| BodyPages.PageEndsALine | packages/cli/src/body-pages.ts:37-40 | a page that does not end a line has no line ending within the window before its end |
| BodyPages.Page | packages/cli/src/body-pages.ts:46-66 | a page is served exactly at a page start, with its range |
| BodyPages.WalkIsTheBody | packages/cli/src/body-pages.ts:46-66 | pages read by following the next offset concatenate to the body, and their UTF-8 sizes (section 3 of RFC 3629) add up to its size |
| BodyPages.WalkIsSound | packages/cli/src/body-pages.ts:26-66 | no page of such a walk splits a surrogate pair (section 2.1 of RFC 2781) or exceeds its bound by more than being one character |
| BodyPages.WholePagesFit | packages/cli/src/body-pages.ts:26-66 | with a bound of at least four bytes no page of a walk exceeds it |
| BodyPages.ReadAll | packages/cli/src/body-pages.ts:46-66 | a reader that follows the next offset is never refused and comes to an end with the whole body |
| EditorRecovery.ValidateEnvelope | packages/browser-local/src/editor-recovery.ts:109-142 | the validator accepts exactly envelopes within the limits whose slots are well formed and share no document, revision or pending request |
| EditorRecovery.ComposedIsAccepted | packages/browser-local/src/editor-recovery.ts:190-241 | an operation that meets its own checks yields an accepted envelope exactly when it stays within the limits |
| EditorRecovery.RevisionsAreNeverReused | packages/browser-local/src/editor-recovery.ts:190-202 | over all operations, failed writes and reopenings the revisions saves return strictly increase, discards included |
| EditorRecovery.RunIsSound | packages/browser-local/src/editor-recovery.ts:174-179 | every envelope a run leaves or stores is one the validator accepts |
| EditorRecovery.PreparedAttemptStays | packages/browser-local/src/editor-recovery.ts:203-230 | a prepared attempt is unchanged by drafts, failures and reopenings until it is settled under its own identity |
| EditorRecovery.PendingIdentitiesAreDistinct | packages/browser-local/src/editor-recovery.ts:203-217 | no two documents ever have a pending attempt under one identity |
| EditorRecovery.PoisonedAppliesNothing | packages/browser-local/src/editor-recovery.ts:165-179 | after a failed write nothing further is applied until the session is reopened |
| EditorRecovery.Session.Persist | packages/browser-local/src/editor-recovery.ts:174-179 | an envelope is validated, written, and taken up only when the write succeeded |
| EditorRecovery.Session.SaveDraft | packages/browser-local/src/editor-recovery.ts:190-202 | a draft is saved under the next revision, keeping its pending attempt and confirmation, exactly when its checks, the validator and the write pass; a refusal names the check that failed |
| EditorRecovery.Session.PrepareAttempt | packages/browser-local/src/editor-recovery.ts:203-217 | an attempt captures the draft under an unused identity, one at a time |
| EditorRecovery.Session.SettleAttempt | packages/browser-local/src/editor-recovery.ts:218-230 | an attempt is settled only under its own identity |
| EditorRecovery.Session.Read | packages/browser-local/src/editor-recovery.ts:186-189 | a read answers the document's slot or its absence, and is refused exactly where an operation would be before it composes |
| EditorRecovery.Session.Close | packages/browser-local/src/editor-recovery.ts:242-252 | after the callback nothing more may be entered, and the session fails exactly when a write failed |
| EditorRecovery.Session.DiscardDraft | packages/browser-local/src/editor-recovery.ts:231-241 | a draft is discarded only at its revision and without an unresolved attempt |

## Left out

- Exact-mode verbs: a verb's journal read and the transaction it composes are one step, and so are two reads of the local store with no request between them; a race that makes the transaction recompose is the same step taken later.
- Sequence numbers and timestamps: rows stand in commit order, a clock reading is a number, and the `finding` text of a row is not modelled.
- Body-mode pushes, working-copy pauses and sync control rows: an authorization refusal pauses a push in `WorkingCopy`, but the pause row itself and a refusal carried by an unknown outcome are not modelled.
- Plain local writes that journal nothing, documents whose frontmatter cannot be stored, and pulls without the journal snapshot guard.
- A conditional pull answered 304: what it claims is a different property, which the code does not track across a discarded held create.
- Bootstrap and conflict resolution during a pull: they write outside the fence, so a document they wrote since the mark is excepted from the completion theorem, and from the bound on deletions where a local edit held it too.
- A suspended realm that sends its delivery only after another realm reclaimed the row: reclaiming is for a realm that knows no other is delivering, so a delivery leaves only while its row is in flight.
- The `earlierDeliveryUnclear` option of a push: with it a denial after the first delivery is no answer, which the model also allows; the model's denials are those of a push without it.
- PullRuns.CompletedPullIsTheListing: batches are fetched one document at a time, in any order, which is every interleaving the pool allows.
- WorkingCopy.Store.Claim: counts from the row's attempts at the claim, where push counts from those its queue listed (`packages/browser-local/src/local-bundle.ts:1875`, `1903`). The two differ only when another realm claims, sends and requeues the row in between, which the push role keeps out by letting one realm at a time push and reclaim; without the role the source then writes a count that forgets the other delivery and submits without a lookup, and `DeliveryRuns.DenialIsDefiniteExactly` would not hold of that count.
- WorkingCopy.Store.PushOne: reads the row afresh in its turn, where push uses the attempts its queue listed; see `WorkingCopy.Store.Claim`.
- PullRuns.DeletionsStayInBounds: does not count documents that a local edit held and a resolution or bootstrap then wrote, both since the mark: the source leaves held targets out when it counts, and removes such a one if nothing holds it any more when its turn comes.
- DeliveryRuns.NoLocalEditIsLost: the receipts it speaks of are kept for ever, as the source keeps them.
- Body-mode capacity: the size limits refuse a write in the source; the model has no limits and drops label bounds. `projectBodyGuard` is the change each writer makes, without its own size check.
- BodyJournal.Journal.Settle: what an acknowledgement adopts into the shared base and the document is decided by code that is not part of this model, as is the remote head a conflict reads back; the contract says what becomes of the row and its evidence.
- BodyJournal.Journal.Resolve: the served base and document it writes beside the rows, and its receipt, are not modelled; the contract says what becomes of the rows and their evidence.
- Rebase.FetchRebaseResolving: git is a three-way merge of whole files, so a textual merge of one file changed on both sides is a conflict; a continue that fails with no rebase state left, a failing abort, a `git show` that fails on a path the local side has (the source takes it for a deletion), the fetch and the missing upstream are not modelled.
- SavedCopies: temporary files, removing a settled copy, and listing copies with their companions are not modelled; slots are unbounded numbers.
- SavedCopies.EveryRaceKeeps: a slot's directories are made in one step, as one recursive call of the host makes them.
- CreateOnly: project bindings and shape checks of ancestors only make a run fail, so they are failures that may come at any call; paths compare as they are spelled, case folding aside; a lock that could not be released may stay held; a symbolic link is followed only through the host's resolved prefix.
- EditDistance.NearestLongOption: rendering the suggestion as a shell token is left out, since a name of that form is its own token; the host's lower-casing is a parameter that leaves admissible names alone.
- EditorRecovery: the scope tuple, its key and the cross-tab lock are fixed for a session; the checks of single values are parameters.
- Provisioning guidance, channel detection, git error prose, sync cursors, binding discovery, credentials, the command registry and the UI would add only easy members.
