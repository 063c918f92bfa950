# The protected receive, modelled and proved

MarketplaceServer lets a Git push move or delete a published Plugin tag. Doing so has to change three
stores together: the refs of the Plugin's repository, the Version, pointer and artifact rows in the
database, and the projections on disk that downloads are answered from. The server does it as a two-phase
commit. It writes a *batch* of *intents*, builds the new projections, freezes every pointer that serves an
old one, has Git apply one ref transaction, and then settles the batch by what the refs say. When the
process dies in between, a second, separately written implementation reads the refs and finishes the job.

This project models that protocol as a machine over tables, refs, storage and live sessions, proves one
invariant of every run, and derives the properties below from it. It then proves that the coordinator, the
recovery package, the collectors and the Plugin service, written as they are with loops, updates in place
and roll-back, compute the machine's steps. Around this core it covers the text layer a push comes in and
is compiled to, the reference-counted locks, the identity state machines, and three codecs.

## How the files fit together

- `Wrappers`, `Tables`, `Classification`, `Receive`, `Lifecycle`, `World`: the rows, what each operation
  does to them, and the machine. A statement that compares before it swaps yields `None` when it finds
  something else; a transaction whose result is `None` leaves the tables alone.
- `Invariant`: what holds after every run.
- `Settlement`, `SettlementSafety`, `HistoryReplay`, `SettlementInvariant`, `Refusal`, `Holding`,
  `Marking`, `Resolution`, `ResolutionSafety`: settling and holding a batch, in both implementations.
- `Planning`, `Persisting`, `PrepareSafety`, `PrepareInvariant`, `PrepareStep`, `ApplyStep`,
  `ServiceSteps`, `StorageSteps`, `Safety`: the other steps, and the invariant over runs.
- `Evolution`, `Permanence`, `Serving`, `Outcomes`, `Undamaged`, `Guarantees`, `Downloads`,
  `Published`, `RecoveryProgress`, `Conservation`, `Start`: what follows.
- `Answers`, `Acceptance`, `PushThrough`, `ServiceOutcomes`, `IdentityOutcomes`: when each operation gives
  each of its answers, and what it then writes, told by the columns of the rows alone and not by the
  functions that compute it.
- `Database`, `Coordinator`, `Recovery`, `Collector`, `PluginService`: the program's own loops and updates.
- `Text`, `RefTransaction`, `UpdateRef`, `PktLine`, `LineFormat`, `Negotiation`, `ProcReceive`: the text layer.
- `EffectLock`, `KeyedLocks`, `ServiceLocks`: the locks.
- `Identity`, `IdentitySafety`, `IdentityRepository`: users, teams and invitations.
- `Base64`, `Argon2Phc`, `PhcForm`, `JsonProfile`, `PublicKey`: the codecs.

## What is assumed

- A database transaction is atomic, and so are the start, prepare and commit of one ref transaction. A
  write that the database does not refuse takes effect unless its process dies. The coordinator hands a
  batch over in a transaction of its own, after it may have marked a damaged projection: the `holds` of a
  step says whether that transaction gets through.
- The effect lock of a Plugin is a mutex that a crash frees, and a crash also ends the session's ref
  subprocess. A session of the machine exists exactly while it holds the lock; `EffectLock` justifies this
  for the in-process lock, the database's advisory lock is taken as given.
- Tag refs change only through a session's ref transaction, and reading a ref reports it faithfully.
- Random identifiers are fresh. A row that the database finds through a unique index is keyed here by the
  columns of that index, and a staged artifact and its storage are named after the transition they were
  drawn for, so only the identifier of a new batch has to be fresh.
- Git never sends a command that changes nothing. `UpdateRef.ParsedCompiles` and
  `ProcReceive.UncompiledExactly` say what would happen if it did.
- Publishing a Marketplace takes no effect lock in the code, so it is not a step of the machine: what the
  revisions select and publish stays the same during a run. Runs start
  from any state that satisfies the invariant; `Start.QuietKeepsInvariant` gives the conditions on a
  population of published revisions, among them that distinct pointers name distinct artifacts with
  distinct storage keys.
- An object identifier is the empty string, the all-zero identifier, or the name of an object. What an
  object peels to, and the manifest of a commit, do not change.

Each operation of the machine is one atomic step where the code holds the effect lock throughout, except
that a session may die between any two of its steps and between the two writes named above. Reads
that fail, clocks, and the text of errors are left out; builds, damage to stored bytes, refused ref
transactions, vanished sessions and failed removals are inputs of the steps. What a rejected push built and
could not remove again is a stray build; what a written but unreadable batch leaves is an input of its step.

Where a property is stated for runs, it says `Run(start, events)` for any `events` and any `start` that
satisfies the invariant.

## Model

| member | source | states |
|---|---|---|
| `Safety.RunKeepsInvariant` | mod/backend/domain/plugin/receive/coordinator.go:68-406 | Every sequence of pushes, ref transactions, resolutions, crashes (also between the two writes with which a damaged batch is handed over), reconciliations, service calls, collections and storage damage, from any state that satisfies the invariant, ends in one that does: rows and their owners, frozen pointers, staged and stored projections, Versions against Git, the lifecycle, the history and what each live session still relies on. |
| `Safety.StepKeepsInvariant` | mod/backend/domain/plugin/receive/coordinator.go:68-406 | Each single step, whichever it is and whether or not it is enabled, keeps that invariant. |
| `Start.QuietKeepsInvariant` | mod/backend/domain/plugin/receive/coordinator.go:283-361 | A state with no push in progress, distinct stored projections behind its pointers and recorded Versions that agree with Git satisfies the invariant, so runs may start from any such population of published revisions. |
| `Start.SampleServes` | mod/backend/domain/distribution/gorm_repository.go:26-91 | Such a state exists for any choice of names: one published tag, selected by one active revision, whose download is granted. |
| `Serving.GrantedIsCurrent` | mod/backend/domain/distribution/gorm_repository.go:26-91 | After any run, a granted download names storage that is still there and was built from the commit the Git tag peels to at that moment, and no unresolved push holds the tag. |
| `Serving.GrantedExactly` | mod/backend/domain/distribution/gorm_repository.go:49-66 | For a download that its columns offer, the grant is decided exactly by the Version being available and its pointer being available with a projection of the Version's commit, and it names that projection's storage. |
| `Serving.BlockedIsFrozen` | mod/backend/domain/plugin/receive/coordinator.go:337-352 | While any push on a tag is unresolved, no pointer on that tag is available, including those of every other revision that selects it. |
| `Answers.UndisclosedExactly` | mod/backend/domain/distribution/gorm_repository.go:26-66 | A download is not found if and only if one of these fails: its distribution is active and not revoked, its Marketplace active and public, its Plugin there, in the same namespace, no draft and public. |
| `Answers.GrantedFromExactly` | mod/backend/domain/distribution/gorm_repository.go:49-66 | It is granted from a storage if and only if it may be seen, the published revision is active and selects it, its repository is readable, its Version and the revision's pointer are available, and that pointer names a ready Plugin projection of the tag, the revision and the Version's commit with that storage. |
| `Answers.WithdrawnExactly` | mod/backend/domain/distribution/gorm_repository.go:66-86 | It is gone if and only if it may be seen, its Version was deleted and some revision lists it. |
| `Answers.NotServableExactly` | mod/backend/domain/distribution/gorm_repository.go:26-86 | It is unavailable if and only if it may be seen and is neither granted nor gone. |
| `Downloads.GoneExactly` | mod/backend/domain/distribution/gorm_repository.go:66-86 | After any run, a download that may be seen and is listed is answered as gone if and only if the history of its tag ends in a deletion. |
| `Downloads.MovedIsServed` | mod/backend/domain/plugin/receive/coordinator.go:451-527 | When Git commits a move whose projections are intact, every offered download of the tag is granted the projection built for it, which is stored and of the new commit. |
| `Downloads.DeletedIsGone` | mod/backend/domain/plugin/receive/coordinator.go:451-527 | When Git commits a deletion, every download of the tag that may be seen and is listed is gone. |
| `Downloads.RefusedChangesNothing` | mod/backend/domain/plugin/receive/coordinator.go:529-548 | From before an accepted push was prepared to after it was resolved, Git's refusal is answered as resolved and changes no ref, Version, pointer, Plugin or history row, and every download is answered as before. |
| `Published.PublishedStays` | mod/backend/domain/plugin/receive/coordinator.go:218-230 | While an active revision publishes a tag and no open batch deletes it, no run deletes its Version, nor opens a batch that would. |
| `Published.PublishedNeverGone` | mod/backend/domain/plugin/receive/coordinator.go:218-230 | So its downloads are never answered as gone. |
| `Guarantees.GitAgrees` | mod/backend/domain/plugin/receive/coordinator.go:170-217 | After any run, an available Version that no unresolved push holds has the raw identifier of its Git ref, and the refs of an unresolved batch are all old or all new, never mixed. |
| `Guarantees.VerdictFollowsGit` | mod/git/receive.go:888-932 | After the ref transaction the prepared batch classifies as completed if it committed and as aborted if it did not. |
| `Guarantees.CommittedPush` | mod/backend/domain/plugin/receive/coordinator.go:363-527 | A push that Git commits, with its projections intact, is answered as resolved and ends with every pushed ref at its new value, its batch completed, every Version it names available with the pushed identifier, commit and manifest or deleted with none, and every other Version as it was. |
| `Guarantees.AppliesExactly` | mod/git/receive.go:684-711 | Git applies a push if and only if it commits and every pushed ref has the expected value; then each has its new value and no other ref changes, and otherwise none does. |
| `Acceptance.PreparesExactly` | mod/backend/domain/plugin/receive/coordinator.go:117-361 | A push is prepared if and only if every object it names peels and every new commit has a manifest, some pushed tag has an available Version, and for each such tag: the push starts from the Version's identifier and commit, no push on the tag is undecided, every revision that lists it has an available pointer to a ready projection of that commit, a move proposes a usable manifest and has a projection built for each such revision, and a deletion is of a tag that no active Marketplace has published. A readable push without such a tag goes on without a batch; every other one changes nothing. |
| `Acceptance.UnloadedExactly` | mod/backend/domain/plugin/receive/coordinator.go:117-168 | When the written batch cannot be read back, exactly those pushes leave the same rows behind, without a session. |
| `Acceptance.RecordsIntent` | mod/backend/domain/plugin/receive/coordinator.go:294-336 | For each touched tag the batch has one intent with the pushed identifiers, what they peel to, the manifest of the new commit and exactly the revisions that list the tag. |
| `Acceptance.RecordsRevision` | mod/backend/domain/plugin/receive/coordinator.go:312-352 | For each revision that lists a touched tag there is a transition from the pointer's generation and artifact, the pointer is unavailable, and a move has its built projection staged and stored. |
| `Acceptance.RecordsOnly` | mod/backend/domain/plugin/receive/coordinator.go:283-310 | No other intent is written, the batch names each touched tag once and belongs to the session. |
| `PushThrough.AcceptedGoesThrough` | mod/backend/domain/plugin/receive/coordinator.go:117-527 | From an opened session, an accepted push whose other refs are as it expects is prepared, applied and, when Git commits, resolved: every ref has its new value and every touched Version is the pushed commit with its manifest, or deleted. |
| `PushThrough.OthersStay` | mod/backend/domain/plugin/receive/coordinator.go:451-527 | Every Version that push does not touch stays as it is. |
| `PushThrough.MoveIsServed` | mod/backend/domain/plugin/receive/coordinator.go:117-527 | A download offered before an accepted move is afterwards granted the projection built for it, of the pushed commit. |
| `PushThrough.DeleteIsGone` | mod/backend/domain/plugin/receive/coordinator.go:117-527 | A download that may be seen and is listed is gone after an accepted deletion. |
| `PushThrough.MoveAccepted` | mod/backend/domain/plugin/receive/coordinator.go:117-264 | One move that is accepted, in a reachable state with a published tag. |
| `PushThrough.DeleteAccepted` | mod/backend/domain/plugin/receive/coordinator.go:117-264 | One deletion that is accepted, of a tag that is listed but not published. |
| `Guarantees.LifecycleHolds` | mod/backend/domain/plugin/service.go:241-313 | After any run the default names an available Version, archived goes with a remembered earlier status, and draft (or archived from draft) with having no Version row. |
| `Guarantees.RestoreUndoesArchive` | mod/backend/domain/plugin/service.go:241-313 | Restoring right after archiving gives back the very same rows exactly when the Plugin was not archived before. |
| `Guarantees.DefaultRoundTrip` | mod/backend/domain/plugin/repository.go:84-117 | Setting the default needs an available Version and changes nothing else; clearing it afterwards gives back the same rows exactly when there was no default before. |
| `Guarantees.RepublishChangesNothing` | mod/backend/domain/plugin/service.go:461-557 | Publishing a tag again while Git still has it succeeds, changes no row and appends no history. |
| `ResolutionSafety.ReconcileDecides` | mod/backend/domain/plugin/recovery/recovery.go:97-135 | In a state that satisfies the invariant one reconciliation of an open batch never fails on a compare-and-swap: it aborts exactly when Git is untouched, completes exactly when Git applied the batch and its projections are intact and still staged, asks for an operator exactly when Git applied it and one is damaged or was marked as failed, and the number of open batches falls. |
| `ResolutionSafety.ImplementationsAgree` | mod/backend/domain/plugin/recovery/recovery.go:206-335 | Resolving and reconciling an open batch leave equal tables unless Git applied it and the first projection that is not intact was not marked as failed before, and only then: the coordinator records that mark, the recovery package does not. |
| `ResolutionSafety.ReconcileClosed` | mod/backend/domain/plugin/recovery/recovery.go:206-231 | A reconciliation that comes after its batch was closed, whatever refs it read, changes no row. |
| `ResolutionSafety.ResolveKeepsInvariant` | mod/backend/domain/plugin/receive/coordinator.go:363-406 | Resolving, with any declared disposition, keeps the invariant, whether or not handing the batch over gets through after a projection was marked. |
| `ResolutionSafety.AnswersExactly` | mod/backend/domain/plugin/receive/coordinator.go:363-406 | Resolving is rejected if and only if the batch is absent or belongs to another Plugin or session. It answers success if and only if the batch is the session's own and was closed before, or the declared disposition is absent or what the refs say and Git left the refs alone or applied a push whose projections are intact and still staged, or the declaration differs and handing the batch over gets through. Otherwise it asks for an operator. |
| `ResolutionSafety.ResumeDecides` | mod/backend/domain/plugin/receive/coordinator.go:578-592 | An open batch is resumed exactly while its Plugin is not archived, its repository ready and no session holds it; it is then aborted, completed, handed over or left open, each in exactly one case. |
| `ResolutionSafety.SettleAlike` | mod/backend/domain/plugin/recovery/recovery.go:206-335 | The coordinator's checked statements and the recovery package's unchecked ones settle an open batch to equal tables, including the collection jobs, or are both undone: a completion exactly when a projection was marked as failed, an abort never. |
| `SettlementSafety.SettleBatchSucceeds` | mod/backend/domain/plugin/receive/coordinator.go:408-548 | Every compare-and-swap of the settling transaction finds what it expects, unless it has to promote a projection that was marked as failed, and its effect on each table is the stated one: only the batch's own intents, transitions, pointers, staged artifacts, Versions, default and collection jobs change. |
| `Refusal.SettlesExactly` | mod/backend/domain/plugin/receive/coordinator.go:408-548 | An open batch can be aborted always, and completed if and only if nothing it staged was marked as failed; otherwise the transaction is undone, in both implementations. |
| `Marking.MarkingKeepsInvariant` | mod/backend/domain/plugin/receive/coordinator.go:392-396 | Marking a damaged projection as failed, while its batch stays open, keeps the invariant. |
| `Settlement.SettleTagsSucceeds` | mod/backend/domain/plugin/receive/coordinator.go:422-436 | The loop over the intents of a batch succeeds whenever each intent is ready, and its effect is the sum of their effects, table by table. |
| `SettlementInvariant.SettlingKeepsInvariant` | mod/backend/domain/plugin/receive/coordinator.go:408-548 | Settling a batch with the verdict its refs give keeps the invariant. |
| `Holding.HoldingKeepsInvariant` | mod/backend/domain/plugin/receive/coordinator.go:550-576 | Handing a batch to an operator keeps the invariant, also when a staged projection was marked as failed. |
| `Holding.MarkClosedNothing` | mod/backend/domain/plugin/recovery/recovery.go:353-380 | Marking a batch that is no longer open changes nothing. |
| `Resolution.MeaningOfRefs` | mod/backend/domain/plugin/receive/coordinator.go:651-686 | What the classifiers compute for a batch is exactly whether Git has all of its new values, all of its old ones, or neither. |
| `Classification.ClassifyResolution` | mod/backend/domain/plugin/receive/coordinator.go:651-693 | The coordinator's classifier computes the common meaning of a ref report. |
| `Classification.ClassifyReceiveResolution` | mod/git/receive.go:888-939 | The Git side's classifier computes the same meaning; without a batch identifier it asks for an operator. |
| `Classification.ClassifyIntents` | mod/backend/domain/plugin/recovery/recovery.go:137-183 | The recovery package's classifier computes that meaning with empty identifiers read as the absent ref. |
| `Classification.MatchersAgreeExactly` | mod/backend/domain/plugin/recovery/recovery.go:178-183 | For distinct tags, the recovery package and the coordinator give every report the same meaning if and only if no identifier is empty. |
| `Classification.ReportOrderIrrelevant` | mod/backend/domain/plugin/receive/coordinator.go:651-686 | The meaning of a report does not depend on the order of its observations. |
| `Outcomes.PointerOutcome` | mod/backend/domain/plugin/receive/coordinator.go:493-576 | From the push on, whatever happens before its batch is closed, each pointer ends as it was before the push if the batch aborted, with its generation raised by one and the staged projection (or none, for a deletion) if it completed, and frozen if it was handed over. |
| `Outcomes.PointerHeldOnce` | mod/backend/domain/plugin/receive/coordinator.go:337-352 | After any run no pointer has two unresolved transitions, and one that has one is unavailable with the generation and artifact the transition expects. |
| `Outcomes.DecidedOnce` | mod/backend/domain/plugin/service.go:479-535 | An intent that is no longer open keeps its row, and has one history row if it completed and none otherwise, however often its batch is resolved or reconciled again. |
| `Outcomes.HistoryTellsVersions` | mod/backend/domain/plugin/receive/coordinator.go:484-492 | After any run, replaying the rows of a tag gives its Version's status and commit, each row continues from the commit that stood just before it, and earlier rows are kept. |
| `HistoryReplay.AppendBatch` | mod/backend/domain/plugin/receive/coordinator.go:484-492 | A completed batch appends exactly one row per intent, each continuing what stood before. |
| `Outcomes.CollectedForever` | mod/backend/domain/plugin/receive/gc.go:32-78 | A projection that has a collection job is never again named by a pointer or an unresolved transition, in any later state. |
| `Outcomes.CrashLosesNothing` | mod/backend/domain/plugin/recovery/recovery.go:97-135 | Killing a session after Git answered and reconciling its batch gives the same state as letting the session finish, unless an applied projection is damaged. |
| `Outcomes.DyingIsFinishing` | mod/backend/domain/plugin/receive/coordinator.go:392-396 | Killing a session between marking a damaged projection and handing its batch over, and reconciling, gives the same state as letting the session finish, whatever the session finds. |
| `Outcomes.EarlyCrashAborts` | mod/backend/domain/plugin/recovery/recovery.go:97-135 | Killing a session before its ref transaction and reconciling aborts the batch. |
| `Outcomes.EarlyCrashIsRefusal` | mod/backend/domain/plugin/recovery/recovery.go:97-135 | That ends in the same state as a ref transaction Git refused, followed by the session's own resolution. |
| `Permanence.RunExtends` | mod/backend/domain/plugin/receive/coordinator.go:283-361 | No run removes a row or changes a column of a batch, intent, transition or artifact other than its state, reopens a closed batch, removes a collection job or rewrites the history. |
| `Evolution.StepExplained` | mod/backend/domain/plugin/receive/coordinator.go:117-576 | Every step's effect on the tables is one of: nothing, preparing one fresh batch, settling one open batch as its refs say, marking one damaged projection of a batch that Git applied, holding a batch that Git applied and that has a damaged or marked projection, a service change, a collection change. |
| `Evolution.PreparationSucceeds` | mod/backend/domain/plugin/receive/coordinator.go:283-361 | Once preflight has passed and the projections are built, no statement of the preparing transaction can fail. |
| `Undamaged.UndamagedNeverManual` | mod/backend/domain/plugin/receive/coordinator.go:363-406 | As long as no stored bytes are damaged, no run hands a batch to an operator or marks a projection as failed. |
| `RecoveryProgress.PassDecidesPage` | mod/backend/domain/plugin/recovery/recovery.go:73-95 | One pass over a page of any length, on whose Plugins no session is at work and none of whose batches was handed over meanwhile, processes all of it without an error, decides exactly the listed batches that are open, and leaves every other one open. |
| `RecoveryProgress.HandedOverStops` | mod/backend/domain/plugin/recovery/recovery.go:97-135 | A listed batch that was handed over before its turn is left alone, and stops the pass with an error if and only if Git is untouched or its projections are intact and still staged. |
| `RecoveryProgress.PassDecidesAll` | mod/backend/domain/plugin/recovery/recovery.go:73-95 | With no session at work, one pass over all open batches processes them without an error and leaves none open. |
| `RecoveryProgress.NeverReferenced` | mod/backend/domain/plugin/recovery/recovery.go:466-473 | The branch for a projection that is still referenced is never taken. |
| `RecoveryProgress.CollectingIsSafe` | mod/backend/domain/plugin/receive/gc.go:32-78 | Removing the projection of a pending job without looking for references keeps the invariant, and the collector that looks would remove it too. |
| `Planning.PlannedAll` | mod/backend/domain/plugin/receive/coordinator.go:170-264 | A push that passes classification and preflight has distinct tags, a live projection of the old commit for exactly the revisions that select each tag, no unresolved push on any of them, and no available Version left unplanned. |
| `PrepareSafety.PersistSucceeds` | mod/backend/domain/plugin/receive/coordinator.go:283-361 | Persisting sound plans under the lock succeeds. |
| `Persisting.PersistPlansSucceeds` | mod/backend/domain/plugin/receive/coordinator.go:294-354 | The nested loops of the preparing transaction add exactly the intents, transitions and staged artifacts of the plans and freeze exactly their pointers. |
| `PrepareInvariant.PreparingKeepsInvariant` | mod/backend/domain/plugin/receive/coordinator.go:283-361 | A freshly prepared batch keeps the invariant. |
| `PrepareStep.PrepareKeepsInvariant` | mod/backend/domain/plugin/receive/coordinator.go:117-168 | Preparing keeps the invariant whichever way it ends, including when the written batch cannot be read back and any part of its projections could not be removed again. |
| `ApplyStep.SwappingKeepsInvariant` | mod/git/receive.go:684-711 | Applying a push moves the refs of its own batch together and those of no other unresolved batch, and keeps the invariant. |
| `ServiceSteps.PublishingKeepsInvariant` | mod/backend/domain/plugin/service.go:425-566 | Publishing a Version keeps the invariant and writes a history row that continues what stood before. |
| `ServiceSteps.ServiceStep` | mod/backend/domain/plugin/service.go:241-313 | Publishing, setting and clearing the default, archiving and restoring keep the invariant. |
| `StorageSteps.CollectedUnused` | mod/backend/domain/plugin/recovery/recovery.go:466-473 | In a state that satisfies the invariant, a projection with a job is not named by any pointer or unresolved transition. |
| `Conservation.NothingLeaks` | mod/backend/domain/plugin/receive/coordinator.go:493-576 | After any run every projection is in exactly one place: a pointer names it, or an undecided push has staged it, or the collector has a job for it. None is ever lost, and none is collected while it is used. |
| `Conservation.SamplePlaced` | mod/backend/domain/distribution/gorm_repository.go:26-91 | A populated start in which every projection has its place. |
| `ServiceOutcomes.PublishesExactly` | mod/backend/domain/plugin/service.go:425-566 | A tag is published if and only if its Plugin is not archived, its repository is ready, no push to the Plugin is undecided, Git has the tag with a commit and manifest of good form, and its Version is absent, deleted or the same; the rows then written are given, a malformed inspection is unavailable, and everything else is a conflict that changes nothing. |
| `ServiceOutcomes.SetsDefaultExactly` | mod/backend/domain/plugin/repository.go:84-117 | When the default can be set, the answer when it cannot, and the one row that changes. |
| `ServiceOutcomes.ClearsDefaultExactly` | mod/backend/domain/plugin/service.go:605-637 | When it can be cleared, the answer when it cannot, and the one row that changes. |
| `ServiceOutcomes.ArchivesExactly` | mod/backend/domain/plugin/service.go:241-277 | Archiving succeeds on every Plugin that is there, and writes what it was unless it is archived already. |
| `ServiceOutcomes.RestoresExactly` | mod/backend/domain/plugin/service.go:279-313 | Restoring succeeds exactly on an archived Plugin that remembers what it was, and gives that back. |
| `ServiceOutcomes.OpensExactly` | mod/backend/domain/plugin/receive/coordinator.go:68-115 | A session opens exactly on a free Plugin that is not archived and whose repository is ready, under a new identifier. |
| `ServiceOutcomes.WaitsForSession` | mod/backend/domain/plugin/service.go:425-430 | A service call waits while a session holds the effect lock of its Plugin, and otherwise has its effect on the tables only. |
| `Coordinator.Coordination.ClassifyCommands` | mod/backend/domain/plugin/receive/coordinator.go:170-206 | The loop over pushed tags computes the specified classification. |
| `Coordinator.Coordination.PreflightPlans` | mod/backend/domain/plugin/receive/coordinator.go:208-264 | The preflight loops compute the specified plans. |
| `Coordinator.Coordination.BuildProjections` | mod/backend/domain/plugin/receive/coordinator.go:136-160 | Stores exactly the planned projections, or restores the storage to what it was. |
| `Coordinator.Coordination.PersistPrepared` | mod/backend/domain/plugin/receive/coordinator.go:283-361 | The preparing transaction writes the specified rows, or undoes everything. |
| `Coordinator.Coordination.Prepare` | mod/backend/domain/plugin/receive/coordinator.go:117-168 | A rejected push leaves rows and storage as they were, a push without effect too, and an accepted one leaves the specified rows and storage; a batch that could not be read back stays, with the projections whose removal failed. |
| `Coordinator.Coordination.CompleteIntent` | mod/backend/domain/plugin/receive/coordinator.go:451-527 | Completes one intent as specified, or reports a mismatch exactly when the specification has one. |
| `Coordinator.Coordination.AbortIntent` | mod/backend/domain/plugin/receive/coordinator.go:529-548 | Aborts one intent as specified. |
| `Coordinator.Coordination.ApplyResolution` | mod/backend/domain/plugin/receive/coordinator.go:408-449 | The settling transaction as specified; a mismatch anywhere leaves every row as it was. |
| `Coordinator.Coordination.MarkManual` | mod/backend/domain/plugin/receive/coordinator.go:550-576 | Holds the rows of a batch and the given transitions as specified. |
| `Coordinator.Coordination.Resolve` | mod/backend/domain/plugin/receive/coordinator.go:363-406 | Resolves, rejects, or holds a batch as specified, also when handing it over does not get through. |
| `Recovery.Reconciler.ApplyReceive` | mod/backend/domain/plugin/recovery/recovery.go:206-231 | The recovery package's settling transaction, undone on any mismatch, and nothing for a decided batch. |
| `Recovery.Reconciler.ApplyIntent` | mod/backend/domain/plugin/recovery/recovery.go:233-291 | Its version of settling one intent, as specified. |
| `Recovery.Reconciler.ManualBatch` | mod/backend/domain/plugin/recovery/recovery.go:353-380 | Holds the batch and its unsettled transitions as specified. |
| `Recovery.Reconciler.ReconcileOne` | mod/backend/domain/plugin/recovery/recovery.go:97-135 | Reads the refs, classifies, verifies and settles or holds one batch as specified. |
| `Recovery.Reconciler.ReconcileReceives` | mod/backend/domain/plugin/recovery/recovery.go:73-95 | The pass over listed batches stops at the first failure and counts what it processed. |
| `Recovery.Reconciler.CollectOne` | mod/backend/domain/plugin/recovery/recovery.go:451-481 | The collector that looks for references: which state its job ends in, and exactly when the projection is removed. |
| `Collector.GcRunner.RunOnce` | mod/backend/domain/plugin/receive/gc.go:32-88 | The collector that does not look: claims a pending job, removes the projection and completes it, or returns the job to pending. |
| `PluginService.Service.Publish` | mod/backend/domain/plugin/service.go:425-566 | Publishing as specified, with the history row for a new or restored Version only: a published Version is the one Git has, every other Version stays, and a refusal changes nothing. |
| `PluginService.Service.SetDefaultVersion` | mod/backend/domain/plugin/repository.go:84-117 | Setting the default as specified: it then names an available Version, and nothing but the default changes. |
| `PluginService.Service.ClearDefault` | mod/backend/domain/plugin/service.go:605-637 | Clearing the default as specified, and no Version or history row. |
| `PluginService.Service.Archive` | mod/backend/domain/plugin/service.go:241-277 | Archiving as specified, and no Version or history row. |
| `PluginService.Service.Restore` | mod/backend/domain/plugin/service.go:279-313 | Restoring as specified, and no Version or history row. |
| `RefTransaction.ParsePrint` | mod/git/receive.go:48-64 | A line parses to a command exactly when the command is valid and the line is its printed form. |
| `RefTransaction.ParseReceiveCommands` | mod/git/receive.go:39-72 | Accepts exactly the non-empty lists of valid lines that repeat no ref. |
| `RefTransaction.BuildUpdateRefTransaction` | mod/git/receive.go:856-882 | Compiles exactly the non-empty lists of compilable commands that repeat no ref, to the specified text. |
| `UpdateRef.CompiledMeaning` | mod/git/receive.go:856-882 | Read by git-update-ref(1), the compiled text commits exactly when Git has no reason of its own to refuse it and every ref has the value the push expects; it then gives every named ref its new value and touches no other, and otherwise has no effect. |
| `UpdateRef.ParsedCompiles` | mod/git/receive.go:871-874 | A parsed push fails to compile if and only if one of its commands has two all-zero identifiers. |
| `PktLine.RoundTripExactly` | mod/git/receive.go:804-828 | Reading undoes printing and leaves the rest of the stream alone if and only if the payload has at most 65515 bytes. |
| `PktLine.RunRoundTrip` | mod/git/receive.go:804-828 | A flushed run of lines that fit is read back line by line and no further. |
| `LineFormat.PrintedExactly` | mod/git/receive.go:826-828 | A line that fits is printed as its whole length in four lowercase hexadecimal digits, the payload and a newline. |
| `LineFormat.LineExactly` | mod/git/receive.go:804-824 | A line is read if and only if four hexadecimal digits, in either case, give a length from 4 to 65520 that the input has; what is read is the rest of it without one final newline. |
| `LineFormat.FlushExactly` | mod/git/receive.go:804-815 | A flush is read if and only if the next four characters are zeros. |
| `PktLine.Reader.ReadLine` | mod/git/receive.go:804-824 | Reads one line of a stream as specified and always consumes some of it. |
| `Negotiation.NegotiationMeans` | mod/git/receive.go:720-751 | A negotiation line is understood if and only if it is version 1 with a list of distinct plain words, each separated by one space, or with none; what is understood is whether the two known features are among them. |
| `ProcReceive.RequestExactly` | mod/git/receive.go:619-680 | A session goes on if and only if its input is such a line, a flush, valid commands on different refs with identifiers of 40 or 64 digits, and, when they were offered, plain push options. |
| `ProcReceive.ClientIsUnderstood` | mod/git/receive.go:619-680 | Whatever words a client offers, and whatever valid push and plain options it sends in lines that fit, are read as they were sent. |
| `ProcReceive.StatusFits` | mod/git/receive.go:830-846 | A status is shorter than the command it answers and therefore fits. |
| `ProcReceive.ReportReadsBack` | mod/git/receive.go:830-846 | What a session reports is read back as one status for each command, in order. |
| `ProcReceive.Session.Run` | mod/git/receive.go:619-718 | What a client reads: the features it offered that are known, and then, unless the lifecycle failed to resolve, for each command in order the word ok and its ref if and only if the push was prepared, every command changes something, Git accepted and found every expected value, and the lifecycle was resolved, and the word ng and its ref in every other case. The refs move together or not at all, and the lifecycle hears the outcome exactly when a transaction was executed. |
| `ProcReceive.UncompiledExactly` | mod/git/receive.go:690-696 | A session prepares without ever telling the lifecycle the outcome if and only if a pushed command has two all-zero identifiers. |
| `ProcReceive.NothingPushed` | mod/git/receive.go:690-696 | For every valid ref that fits there is a push that is read and prepared and does not compile: the one whose command has two all-zero identifiers. |
| `ProcReceive.UncompiledHappens` | mod/git/receive.go:690-696 | One such push, in full. |
| `EffectLock.Exclusion` | mod/backend/domain/plugin/effect_lock.go:123-155 | Under any interleaving, with cancellation and with entries deleted and made again, two holders of one key are one thread. |
| `EffectLock.NeverStuck` | mod/backend/domain/plugin/effect_lock.go:140-155 | Giving a lock back never blocks, and a thread can always drop its reference. |
| `EffectLock.NothingBlocks` | mod/backend/domain/plugin/effect_lock.go:140-155 | In every state of the locks, what a thread holds has room for its token and what it uses counts it. |
| `EffectLock.FreeWhenUnheld` | mod/backend/domain/plugin/effect_lock.go:133-138 | A waiting thread can take its lock exactly while no thread holds it. |
| `EffectLock.TableIsExact` | mod/backend/domain/plugin/effect_lock.go:148-155 | The table has an entry for a key exactly while some thread uses it. |
| `EffectLock.TakeAllOk` | mod/backend/domain/plugin/effect_lock.go:123-155 | User counts, and one token per entry in the channel or with a holder, are kept by every interleaving. |
| `KeyedLocks.EffectKeyedLocks.Reference` | mod/backend/domain/plugin/effect_lock.go:123-132 | Finding or making the entry is one step of the lock machine. |
| `KeyedLocks.EffectKeyedLocks.Receive` | mod/backend/domain/plugin/effect_lock.go:137-138 | Receiving the token is one step of the machine. |
| `KeyedLocks.EffectKeyedLocks.Send` | mod/backend/domain/plugin/effect_lock.go:142-142 | Sending it back is one step of the machine; that the channel has room for it follows from the state of the locks. |
| `KeyedLocks.EffectKeyedLocks.ReleaseReference` | mod/backend/domain/plugin/effect_lock.go:148-155 | Dropping a reference is one step of the machine; that it was counted follows from the state of the locks. |
| `ServiceLocks.KeyedLockTable.Reference` | mod/backend/domain/plugin/service.go:802-811 | The service's own table takes the same steps, so it excludes likewise. |
| `ServiceLocks.KeyedLockTable.ReleaseReference` | mod/backend/domain/plugin/service.go:812-820 | Dropping a reference there is the machine's step as well. |
| `IdentitySafety.NeverOrphaned` | mod/backend/domain/identity/dao/repository.go:138-201 | From bootstrap on, after any operations, there is an active system administrator, every team has an owner, no invitation bears two stamps and nobody has two pending invitations to one team. |
| `IdentitySafety.KeepsAdmins` | mod/backend/domain/identity/dao/repository.go:138-201 | No operation disables or demotes the last active administrator. |
| `IdentitySafety.KeepsTeams` | mod/backend/domain/identity/dao/team_repository.go:126-200 | No operation demotes or removes the last owner of a team. |
| `IdentitySafety.BootstrappedOk` | mod/backend/domain/identity/dao/bootstrap.go:83-101 | Bootstrap establishes these invariants. |
| `IdentitySafety.StampsAreFinal` | mod/backend/domain/identity/dao/team_repository.go:264-348 | An invitation that was accepted, rejected or revoked never changes again. |
| `IdentitySafety.InviteConflictsExactly` | mod/backend/domain/identity/dao/team_repository.go:202-220 | A new invitation conflicts if and only if its identifier is taken or a pending invitation of the same person to the same team is unexpired at that time. |
| `IdentitySafety.AcceptingIsJoining` | mod/backend/domain/identity/dao/team_repository.go:286-291 | An invitation becomes accepted only in the step that makes the active person a member, for the first time, with the invited role. |
| `IdentitySafety.RevokeIdempotent` | mod/backend/domain/identity/dao/team_repository.go:296-311 | Revoking twice is revoking once. |
| `IdentityOutcomes.AppliesExactly` | mod/backend/domain/identity/dao/team_repository.go:33-348 | For every operation on users, teams and invitations: the exact condition of each answer, and the one row that success writes or removes while every other row stays, in columns. |
| `IdentityOutcomes.AnsweredOnce` | mod/backend/domain/identity/dao/team_repository.go:33-348 | These conditions leave no choice: they fix one answer and one state of the rows. |
| `IdentityRepository.Repository.SetUserStatus` | mod/backend/domain/identity/dao/repository.go:138-170 | Not found exactly for an unknown user, a conflict exactly for disabling the last acting administrator; otherwise the user has the status and nothing else changes. Administrators, owners and invitations stay in order. |
| `IdentityRepository.Repository.SetSystemAdmin` | mod/backend/domain/identity/dao/repository.go:172-201 | Not found exactly for an unknown user, a conflict exactly for removing the flag of an active user while there are no two acting administrators; otherwise the flag is as asked and nothing else changes. |
| `IdentityRepository.Repository.CreateTeam` | mod/backend/domain/identity/dao/team_repository.go:33-46 | A conflict exactly for a team that is there; otherwise the team and its one owner are added, and nothing else changes. |
| `IdentityRepository.Repository.PutTeamMember` | mod/backend/domain/identity/dao/team_repository.go:126-155 | Not found exactly for a user who is not active, a conflict exactly for giving the last owner another role; otherwise the member has the role, and nothing else changes. |
| `IdentityRepository.Repository.RemoveTeamMember` | mod/backend/domain/identity/dao/team_repository.go:157-177 | Done exactly for a member who is not the last owner, who is then a member no more while every other member stays; not found exactly without the membership, and a conflict exactly for the last owner. |
| `IdentityRepository.Repository.CreateTeamInvitation` | mod/backend/domain/identity/dao/team_repository.go:202-220 | A conflict exactly while the identifier is taken or an unexpired invitation is unanswered; otherwise expired ones are revoked and the new one is added, and nothing else changes. |
| `IdentityRepository.Repository.RespondInvitation` | mod/backend/domain/identity/dao/team_repository.go:264-295 | Done exactly for the invited person, active and in time, on an unanswered invitation, and for accepting not yet a member; the invitation is then stamped accordingly, accepting adds the membership, and nothing else changes. |
| `IdentityRepository.Repository.RevokeInvitation` | mod/backend/domain/identity/dao/team_repository.go:296-311 | Not found exactly for an invitation that is not the team's; otherwise it is stamped as revoked if it was unanswered, and nothing else changes. |
| `IdentityRepository.Repository.ReissueInvitation` | mod/backend/domain/identity/dao/team_repository.go:313-348 | A conflict exactly when the person is not active or a member, the new identifier is taken or another invitation is unanswered; otherwise the old one is revoked if it was unanswered, the new one is added, and nothing else changes. |
| `Base64.DecodeOfEncode` | pkg/auth/password.go:53-60 | Decoding undoes unpadded encoding, for all byte strings (section 4 of RFC 4648). |
| `Base64.TestVectors` | pkg/auth/password.go:53-60 | Test vectors of section 10 of RFC 4648, without padding. |
| `Argon2Phc.PhcRoundTrip` | pkg/auth/password.go:44-123 | For all parameters within the bounds and all salts and hashes of the declared lengths, the printed string has at most 512 bytes and parses to exactly those parameters, salt and hash. |
| `Argon2Phc.ReprintKeepsMeaning` | pkg/auth/password.go:91-162 | A string the parser accepts, in whatever spelling, means the same when printed again. |
| `PhcForm.ParseExactly` | pkg/auth/password.go:91-162 | A string is parsed if and only if it has at most 512 characters and consists of the identifier, version 19, three decimal numbers of at most ten digits within their bounds in the order memory, iterations, parallelism, and two codes of a salt and a hash of allowed lengths; it then means those. |
| `Argon2Phc.VerifiesExactly` | pkg/auth/password.go:63-70 | A printed hash verifies exactly the passwords from which the same key is derived with its iterations, memory, parallelism and length in that order, and so always its own. |
| `Argon2Phc.HashPassword` | pkg/auth/password.go:44-61 | Fails exactly for parameters outside the stated bounds or a short random source, and otherwise spells out the parameters, the salt and the derived key, which parse back. |
| `Argon2Phc.VerifyPassword` | pkg/auth/password.go:63-70 | Verifies as specified, and reports a malformed string. |
| `JsonProfile.CheckIsTree` | mod/git/plugin_profile.go:125-158 | On the tokens of any document followed by anything, the check succeeds exactly when every node lies at depth at most 64 and no object repeats a key, and it then consumes exactly the document's tokens. |
| `JsonProfile.Decoder.ProfileValue` | mod/git/plugin_profile.go:125-158 | The stateful decoder loop computes that check on every token stream. |
| `PublicKey.NormalizedMeans` | pkg/distributionservice/marketplace_public_key.go:55-81 | The normalised name starts the fully reduced name, is all of it when short, exceeds the limit by at most one, is empty exactly for names without a letter or digit, and is otherwise words joined by single hyphens. |
| `PublicKey.FixedExactly` | pkg/distributionservice/marketplace_public_key.go:55-81 | Reducing leaves exactly the already reduced names alone. |
| `PublicKey.NormalizingTwice` | pkg/distributionservice/marketplace_public_key.go:55-81 | Normalising is idempotent, also for results that overshoot the limit. |
| `PublicKey.NamePartFits` | pkg/distributionservice/marketplace_public_key.go:45-47 | After truncating and trimming, the name part still matches the pattern and fits. |
| `PublicKey.NormalizeName` | pkg/distributionservice/marketplace_public_key.go:55-81 | The loop computes the specified normalisation. |
| `PublicKey.NewKey` | pkg/distributionservice/marketplace_public_key.go:25-53 | A key is made for every name with an ASCII letter or digit and any four random bytes, has at most 128 bytes and is accepted by the parser. |
| `PublicKey.KeysDiffer` | pkg/distributionservice/marketplace_public_key.go:40-53 | Two keys are equal exactly when their name parts and their random bytes are. |

## Left out

- Recovery.Reconciler.CollectOne: does not model the attempts counter that its claim compares besides the state, because no other statement of the model reads it.
- Publishing and rolling back a Marketplace as steps interleaved with pushes, because they take no effect lock.
- Branch refs inside the machine: a branch command can only make Git refuse the transaction, which is an input of the step. The text layer covers them.
- Re-entering `Prepare` for a session identifier that already has a batch: the code draws a fresh identifier for every session.
- The order of rows a query returns: a batch lists its intents, and an intent its revisions, in the order in which they are read.
- Timestamps, correlation identifiers of history rows, safe error texts, attempt counters and retry times of collection jobs.
- Database read failures other than the one after the preparing transaction has committed.
- Verifying a projection is comparing its recorded and its stored digest; walking its files is not modelled.
- Retention of storage by operators, orphan repositories, and what an operator does with a batch that was handed over.
- Checking source tags, trees and distribution hashes of a build result beyond its commit and the length of its digest.
- The negotiation of a session as loops: it is a function of the line that was read.
- git-update-ref(1) beyond the five forms the compiler can produce and its rule that other input is fatal.
- The advisory lock of PostgreSQL and the retry loop around it.
- Creating a Plugin and changing its visibility: no protocol step depends on when they happen, and a run may start after any of them.
- Database writes that fail while their process lives, other than handing a batch over.
- The authorization policy, slugs, display names, listings and pagination, and the length of user-supplied text.
- Foreign keys of the identity tables beyond those that decide an outcome.
- The Argon2 function itself, which is any function that returns a key of the requested length, and constant-time comparison.
- Lexing JSON: the check starts from tokens, and a decoder that meets a stray closing bracket refuses it.
- Invalid UTF-8 in a Marketplace name: a name is a sequence of characters.
- HTTP handlers, the module kernel, the frontend, configuration, migrations and the Git subprocesses.
