# Release controller verification

A Dafny model of the durable release controller in `deploy/hetzner/release.py`, of the storage and codecs under it, and
of two smaller algorithms of the test control. `dafny verify dfyconfig.toml` checks all of it.

## What is modelled

The controller keeps one file per release attempt, release record, Oracle attempt and Oracle repair, and two pointers,
`current` and `forward-fix`. It acts on app writers, a database revision, a backup file, named jobs and the Oracle
publication. Each command can be killed between any two durable writes and is run again later.

- `Model` has the records and the two phase machines, `Store` the content of the store as a value (`State`) and the
  object that rewrites the files (`ReleaseStore`), proved equal operation by operation.
- `Protocol` is the controller as a transition system. An action is one durable write, one effect on the world or one
  observation; each has the guard that the source establishes before it. A crash is a run that stops, so a theorem
  about all runs is a theorem about all crashes and restarts. A history logs proofs, job starts, harvested results and
  repair bindings.
- `Invariant` has the inductive invariant, one predicate per concern, `Runs` what a run can do to the store, `Safety`,
  `Jobs` and `OracleSafety` the properties of every run, `Counterexamples` concrete runs that break two of them where
  the code gives no guarantee, `Landing` a protocol in which a migration may land at any time, and `Settlement` and
  `Binding` the exact conditions under which the two can break, over everything a state can become (`Paths`).
- `Host` and `OracleHost` are the commands themselves. Each method is written against the protocol: it can act only
  where a guard holds, and between any two of its steps the world may move on its own (`Wait`) or the process may die
  (`Crashed`). `Valid` says that everything done so far is a trace of the protocol, so every theorem about runs
  applies to every sequence of commands. The log `refused` has every failure the outside reported, so that `Progress`
  can say that a command ends in success unless something was refused outside or the process died, and the bound on
  retries counts what really failed. `outage` names commands outside that are going to fail next. `Guards` has what a
  reachable state lets a command do next, `Retries` the counting of failures, `Publication` the crash equivalence of
  publication.
- `Durability` models one directory of a disk under process death and power failure, `Json` and `JsonText` the
  canonical JSON, `Patterns` and `Codecs` its closed records, `Files` and `Pointers` the files of the store, and
  `Config` is the environment file.
- `ProcessTree` is the memory walk and `Workflow` the fail-fast scheduler.

The exceptions of the source are the constructors of `Outcome`: `Blocked`, `Defect`, `Permanent`, `External`; `Crashed`
is the death of the process.

## Assumptions

- The release lock serialises commands, and only this controller migrates the database.
- The store starts with one adopted release that is current, succeeded, recorded and running at its revision.
- A migration container exits with success only with the database at the candidate head.
- Outside `Landing` and `Settlement`, a running migration container changes the schema only while its attempt is in
  DataMutationStarted. `Landing` drops this and proves that it holds exactly in the runs that settle their migrations.
- In `Settlement` a migration climbs: it moves the database to a descendant of its revision, as far as the head of its
  release, in one landing or several, under an ancestry of revisions that is any strict order.
- Dumps may be changed, replaced or removed by anyone at any moment. The digest of a dump stands for its content.
- An installed bundle never changes. An image stands for the SHA of the release it was built from.
- Docker keeps at most one container per name.

## Findings

- An attempt can be settled while its migration container still runs, because the settlement does not look at the
  container (`release.py:3364-3422`). `fail-bound-frontend` and `fail-auth-smoke` do it at any time, and `apply` does
  it too: when a dead process has left the container running and `migration-recovery-revisions` fails twice or meets a
  mid-migration revision (`release.py:3252-3264`, `3093-3101`). When the container lands later, under the writers of a
  forward fix that expects an earlier revision, the schema no longer fits them
  (`Counterexamples.LateMigrationBreaksSchema`). It can come to that after a settlement if and only if the container
  runs at that moment and there is a candidate that the store has never seen, whose head is the revision of the
  database or above it, and below the head of the settled release (`Settlement.SettlementBreaksIff`). No migration is
  ever late if and only if every attempt leaves DataMutationStarted with its container stopped
  (`Landing.NeverLateIffSettled`).
- The containers of a repair have names of their own, so a hanging container of the original source does not block
  them, and writers can be started beside it (`Counterexamples.RepairOverlapsMutation`). They stay apart if and only
  if no writer is started while a mutation container runs (`OracleSafety.NeverOverlapsIff`); and a binding can lead to
  an overlap if and only if a container of its target runs when the repair is bound (`Binding.BindingOverlapsIff`).
- Two failures per operation and phase are the bound for every call that begins with the attempt in any phase but
  RollbackRequired and ForwardFixPending. A call that begins in one of these carries the stored failure out in each
  try and once more in the settlement after the loop, so an operation that keeps failing there fails three times, and
  never more (`Host.HostRelease.Apply`).
- The dump of a release is validated once, right before DataMutationStarted is stored. A dump that changes between
  that reading and the migration is not noticed (`Safety.BackupBoundary` speaks of the reading, `Safety.UntouchedDump`
  of dumps nobody touches).
- After a process death between a rename and the directory fsync, the next process sees a value that a power failure
  can still take back; it is stable exactly when it is what was last synced (`Durability.StableIff`).
- The branch of `_apply_once` that recovers a pending failure publication is never taken in a reachable state: a
  pointer that names an attempt finds it in ForwardFixPending, which is handled before, or in ForwardFixRequired
  (`Safety.EpisodeDiscipline`).
- Timestamps may have the decimal digits of any script, because `\d` is not restricted to ASCII
  (`Patterns.IsTimestamp`, `release.py:1684-1686`); the clock itself only writes ASCII ones.

## Model

| member | source | states |
|---|---|---|
| Model.LeadsIsAWayDown | deploy/hetzner/release.py:272-315 | Along the transition table a phase never returns, a terminal phase is never left, and behind a commitment boundary the rollback branch is out of reach. |
| Patterns.AdvanceFormed | deploy/hetzner/release.py:994-1008 | For every attempt the constructor accepts, `advance` succeeds if and only if the phase is a successor, failure code and backup fit it, the code and the time are well-formed, and the time is not before the creation. |
| Model.PermanentFailureIsLegal | deploy/hetzner/release.py:1202-1222 | The settlement phase is a legal successor if and only if no settlement has been chosen before; a rollback is chosen only outside an episode and before a commitment. |
| Store.ReleaseStore.ActiveAttempt | deploy/hetzner/release.py:1276-1280 | The file-by-file scan returns the one nonterminal attempt, nothing, or a defect if there are two. |
| Store.ReleaseStore.ActiveOracleAttempt | deploy/hetzner/release.py:1499-1503 | The same for Oracle attempts. |
| Store.ReleaseStore.CreateAttempt | deploy/hetzner/release.py:1229-1231 | Succeeds if and only if the SHA has no attempt; nothing stored is overwritten. |
| Store.ReleaseStore.ReplaceAttempt | deploy/hetzner/release.py:1233-1252 | Succeeds if and only if the stored attempt is the new one or steps to it; every other attempt and every terminal one is unchanged. |
| Store.ReleaseStore.CreateRecord | deploy/hetzner/release.py:1320-1327 | Succeeds if and only if the record is then the stored one; no stored record is overwritten. |
| Store.ReleaseStore.SetCurrent | deploy/hetzner/release.py:1339-1349 | Succeeds if and only if the release is recorded and is current already or has the current one as its predecessor; a refusal leaves `current` alone. |
| Store.ReleaseStore.CompletePublishedAttempt | deploy/hetzner/release.py:1369-1383 | Success means a recorded, current, succeeded release; only a promoted attempt changes, and no terminal one does. |
| Store.ReleaseStore.SetForwardFix | deploy/hetzner/release.py:1385-1401 | Succeeds if and only if the attempt may be forward-fixed and the pointer is unset or names it already. |
| Store.ReleaseStore.ClearForwardFixAfterSuccess | deploy/hetzner/release.py:1420-1430 | Success means a succeeded attempt that the pointer does not wait for; the pointer is cleared only for an attempt bound to it. |
| Store.ReleaseStore.CreateOracleAttempt | deploy/hetzner/release.py:1432-1437 | Succeeds if and only if the target has no attempt; nothing stored is overwritten. |
| Store.ReleaseStore.ReplaceOracleAttempt | deploy/hetzner/release.py:1439-1462 | Succeeds if and only if the stored attempt is the new one or steps to it; every other one and every succeeded one is unchanged. |
| Store.ReleaseStore.CreateOracleRepair | deploy/hetzner/release.py:1536-1541 | Succeeds if and only if the target has no binding; a binding never changes. |
| Store.NoOracleAttemptMeans | deploy/hetzner/release.py:1529-1534 | `assert_no_oracle_attempt` passes if and only if every Oracle attempt is terminal, and blocks if exactly one is not. |
| Store.AdmissionMeans | deploy/hetzner/release.py:1282-1303 | `assert_candidate_admissible` passes if and only if the candidate is the one attempt under way, or nothing is under way and it is the succeeded current release, or new to attempts, records and the pointer. |
| Store.OracleTargetMeans | deploy/hetzner/release.py:1505-1527 | `require_oracle_target` returns nothing if and only if no Oracle attempt is under way; it returns only an attempt for this target, and blocks only if one for another target is under way. |
| Invariant.WriteKeepsInv | deploy/hetzner/release.py:1225-1589 | Every durable write that a command may make keeps the whole invariant: shape, exclusion, episode, publication, schema, backups, jobs, records. |
| Invariant.EffectKeepsInv | deploy/hetzner/release.py:1978-3313 | Every effect on the world, also one that happens by itself, keeps it, with dumps that anyone may change at any time. |
| Invariant.RunInv | deploy/hetzner/release.py:3107-3313 | So it holds after every run, wherever commands were killed. |
| Runs.RunGrew | deploy/hetzner/release.py:1233-1252 | What a run has stored is still there at every later point, and only moved forward. |
| Safety.SchemaCompatible | deploy/hetzner/release.py:3107-3313 | In every run, whenever app writers run, the database is at exactly the revision the release they belong to expects. |
| Safety.CandidateStartsAtHead | deploy/hetzner/release.py:3288-3309 | Candidate containers start only at the candidate head, with no other release running and the migration container gone. |
| Safety.PredecessorRestartsUnmigrated | deploy/hetzner/release.py:3424-3433 | Predecessor containers are restarted only if the attempt never passed a commitment boundary and the database is at the predecessor's revision. |
| Safety.ReadsNeverDefect | deploy/hetzner/release.py:1276-1303 | No reachable state has two attempts under way, two Oracle attempts, or one of each; the reads of both pointers never report a defect. |
| Safety.AttemptOnlyDescends | deploy/hetzner/release.py:994-1008 | One attempt per SHA for ever; its phases walk down the transition table, its evidence is constant, its backup is written once, and a terminal attempt is frozen. |
| Safety.SetCurrentNeverRefused | deploy/hetzner/release.py:1339-1349 | In a reachable state the predecessor check never refuses a promoted attempt that has its record. |
| Safety.CurrentNeverReturns | deploy/hetzner/release.py:1339-1358 | The values of `current` over a run are pairwise distinct. |
| Safety.CurrentMovesToSuccessor | deploy/hetzner/release.py:3626-3635 | When `current` moves, the record of the new release names the old one, and the new one was proved live just before. |
| Safety.PredecessorWalk | deploy/hetzner/release.py:1093-1109 | From any record the predecessors form a path without repetition that ends at the adopted release. |
| Safety.EpisodeDiscipline | deploy/hetzner/release.py:1385-1430 | While the pointer is set it names a failed attempt, nothing rolls back, and every attempt under way is that one or bound to it; when it is unset and nothing is under way, `current` is a succeeded attempt. |
| Safety.PointerOutlivesFailures | deploy/hetzner/release.py:1420-1430 | The pointer, once set, stays until an attempt bound to it has succeeded. |
| Safety.MigrationSucceedsOnce | deploy/hetzner/release.py:3252-3286 | A migration container that exited with success is never started again, whatever crashes and retries follow. |
| Safety.BackupBoundary | deploy/hetzner/release.py:3243-3250 | When DataMutationStarted is stored the writers are down, the size and digest of the dump have just been read as the evidence has them, and the database is the one of the evidence, at its revision; the stored evidence never changes again. |
| Safety.UntouchedDump | deploy/hetzner/release.py:2748-2800 | As long as nothing but the controller has touched it, the dump of a mutated attempt stays on disk, matches the evidence, and is of this database at the revision it had at the boundary. |
| Safety.BackupIffMigrated | deploy/hetzner/release.py:3191-3241 | On the success path an attempt holds a backup if and only if it went through DataMutationStarted. |
| Jobs.HarvestedBeforeRerun | deploy/hetzner/release.py:2110-2168 | A container left behind with a successful exit is never run again before its output was taken. |
| OracleSafety.ExecutionSourceMonotone | deploy/hetzner/release.py:3844-3900 | For each target the image that runs mutating commands is its own until a repair is bound, the one bound repair from then on, and none after success. |
| OracleSafety.SuccessProvesPublication | deploy/hetzner/release.py:4140-4212 | Success is stored only right after: publication exact, backend proved, public vector proved, captured runtime proved, publication exact again. |
| OracleSafety.MutationsRunQuietly | deploy/hetzner/release.py:4151-4176 | A running Oracle mutation has all writers stopped if no repair is bound to its target or it is one of the repair. |
| OracleSafety.RestoreIsQuiet | deploy/hetzner/release.py:4077-4110 | Restarting writers keeps them apart from Oracle mutations if and only if no mutation container still runs. |
| OracleSafety.QuietRunsNeverOverlap | deploy/hetzner/release.py:4215-4297 | If every repair is bound while no own container of its target runs, writers and mutations never overlap in the whole run. |
| OracleSafety.NeverOverlapsIff | deploy/hetzner/release.py:4048-4110 | In a whole run no writer ever runs beside an Oracle mutation if and only if none was started beside a running one, by the reconcile or by a release. |
| Binding.BindingOverlapsIff | deploy/hetzner/release.py:4215-4297 | With all bindings quiet so far, binding a repair can lead to writers beside a running mutation if and only if a container of its target runs at that moment. |
| Counterexamples.LateMigrationBreaksSchema | deploy/hetzner/release.py:3364-3388 | A concrete run: a frontend failure settles an attempt whose migration container still runs; its forward fix goes live; when the container lands, the schema no longer fits. |
| Counterexamples.SettledRunsHaveNoLateMigration | deploy/hetzner/release.py:2134-2168 | In a run of the protocol whose attempts leave DataMutationStarted only with their container stopped, no container outlives its attempt. |
| Counterexamples.RepairOverlapsMutation | deploy/hetzner/release.py:3953-3961 | A concrete run: a hanging own container, a repair with a container name of its own, and writers restored beside the hanging one. |
| Landing.SettledRunIsStrict | deploy/hetzner/release.py:2134-2168 | Where a running container may change the schema at any time, a run that settles its migrations is one in which every change was in time. |
| Landing.SettledRunIsCompatible | deploy/hetzner/release.py:3107-3313 | So the schema fits the running writers throughout such a run. |
| Landing.NeverLateIffSettled | deploy/hetzner/release.py:3252-3286 | A run never has a migration that outlives its attempt if and only if no attempt leaves DataMutationStarted beside its running container. |
| Settlement.UnsettledCanBreak | deploy/hetzner/release.py:3364-3422 | After a settlement beside its running container, a candidate the store has not seen, whose head lies between the revision of the database and the head of the settled release, can go live and the rest of the migration land under it. |
| Settlement.UnsettledIsSafe | deploy/hetzner/release.py:3364-3422 | With no such candidate nothing that can follow breaks the schema, wherever and whenever the container lands. |
| Settlement.SettlementBreaksIff | deploy/hetzner/release.py:3364-3422 | In any run that has settled its migrations so far, and for any ancestry of revisions: leaving DataMutationStarted can break the schema later if and only if the migration container runs at that moment and there is such a candidate. |
| Guards.TraceIsSafe | deploy/hetzner/release.py:3107-3313 | Every state a host passes through, inside any command, has compatible writers and no double attempt. |
| Guards.MayPrepare | deploy/hetzner/release.py:3114-3136 | What the admission checks and the preflight establish is enough to store a new attempt. |
| Guards.NoMigration | deploy/hetzner/release.py:3252-3286 | While an attempt is under way no migration but its own can land. |
| Guards.LiveProved | deploy/hetzner/release.py:2911-3048 | A backend proved live during an episode is the only attempt under way, at its head. |
| Guards.CurrentAccepted | deploy/hetzner/release.py:1339-1349 | `set_current` on a promoted, recorded attempt succeeds. |
| Guards.RecordFacts | deploy/hetzner/release.py:1134-1168 | A stored record is the one its attempt and bundle give. |
| Guards.RecordAccepted | deploy/hetzner/release.py:3616-3634 | In a reachable state the record of a promoted attempt is always accepted, with the time of the stored one if there is one. |
| Retries.CountFailure | deploy/hetzner/release.py:3093-3100 | A retry is granted exactly for the first failure of an operation in a phase, and uses that key up. |
| Retries.SettlementIsRare | deploy/hetzner/release.py:3073-3105 | If the counters tally with the log and the settlement met at most one more failure, no operation failed more than twice in a phase; a third time is possible only for a call that began with a stored failure to carry out, and in its phase. |
| Host.HostRelease.DatabaseRevisions | deploy/hetzner/release.py:2307-2361 | The revisions, which still hold when it returns unless a migration is running. |
| Host.HostRelease.StopWriters | deploy/hetzner/release.py:2530-2581 | A normal return means that no app writer runs. |
| Host.HostRelease.RestartPredecessor | deploy/hetzner/release.py:2583-2623 | A normal return means that the captured predecessor was seen healthy in all three services. |
| Host.HostRelease.CompleteRollback | deploy/hetzner/release.py:3424-3433 | Rolled back after a proved restart; a failure leaves the stored intent; only a refusal outside or a process death can keep it from its end. |
| Host.HostRelease.CompleteForwardFix | deploy/hetzner/release.py:3435-3456 | Pointer set, writers down, attempt terminal; a failure leaves the stored intent; only a refusal outside or a process death can keep it from its end. |
| Host.HostRelease.RecordPermanentFailure | deploy/hetzner/release.py:3390-3422 | Terminal on success; whatever else escapes, the intent is stored, unless a refusal of the clock came first; an attempt without an outcome gets one unless something is refused outside. |
| Host.HostRelease.TerminalizeAttempt | deploy/hetzner/release.py:3315-3336 | A normal return means there is no attempt or it is terminal; what escapes leaves one with its intent stored, unless a refusal of the clock came first. |
| Host.HostRelease.SettleComposeJob | deploy/hetzner/release.py:2134-2168 | Nothing there, or the container is gone with its result taken; nothing is started; it blocks only if the container runs. |
| Host.HostRelease.ComposeJob | deploy/hetzner/release.py:2110-2132 | A normal return means that a container of this name succeeded, its result was taken, and it is gone; a container is started only if none has the name. |
| Host.HostRelease.Backup | deploy/hetzner/release.py:2625-2746 | Evidence whose size and digest were just read from the dump on disk, of this database at its present revision, also when the dump was left by an earlier process. |
| Host.HostRelease.ValidateBackup | deploy/hetzner/release.py:2748-2800 | A normal return means the size and digest of the recorded dump have just been read from the disk, and the database is still the recorded one at the recorded revision; a dump that is gone, replaced or damaged is refused. |
| Host.HostRelease.ReadBackup | deploy/hetzner/release.py:2644-2667 | An existing dump yields evidence only with the size and digest read from it now. |
| Host.HostRelease.TakeBackup | deploy/hetzner/release.py:2669-2746 | A new dump yields evidence of its size and digest, and of the database and revision it was taken at. |
| Host.HostRelease.ProveBackend | deploy/hetzner/release.py:2911-3048 | A normal return means that all writers ran this release at its head. |
| Host.HostRelease.ProvePublic | deploy/hetzner/release.py:3496-3549 | Public proof directly after the backend proof. |
| Host.HostRelease.CompletePublished | deploy/hetzner/release.py:1369-1383 | Succeeded only after a proved publication; idempotent. |
| Host.HostRelease.ClearForwardFix | deploy/hetzner/release.py:1420-1430 | Clears a bound pointer, with nothing else under way; otherwise changes nothing. |
| Host.HostRelease.PersistCurrent | deploy/hetzner/release.py:3635-3635 | Is never refused for a recorded attempt. |
| Host.HostRelease.Conclude | deploy/hetzner/release.py:3636-3638 | Succeeded and pointer; a complete publication is left alone. |
| Host.HostRelease.Reprove | deploy/hetzner/release.py:3586-3599 | A release that is already current is proved again and concluded; it completes unless something is refused outside or the process dies. |
| Host.HostRelease.Promote | deploy/hetzner/release.py:3600-3612 | FrontendPromoted only after the backend and public proofs; it is stored unless something is refused outside or the process dies. |
| Host.HostRelease.PublishFrom | deploy/hetzner/release.py:3600-3638 | From either phase a publication can be left in, it completes unless something is refused outside or the process dies. |
| Host.HostRelease.WriteRecord | deploy/hetzner/release.py:3616-3634 | The record of the proved vector; a stored record is left as it is; it fails only for a refusal outside or a process death. |
| Host.HostRelease.Publish | deploy/hetzner/release.py:3616-3638 | Record, `current`, Succeeded, pointer, each after a fresh proof; it completes unless something is refused outside or the process dies. |
| Host.HostRelease.FinalizeOnce | deploy/hetzner/release.py:3573-3638 | From every state that a publication can stop in, it completes unless something is refused outside or the process dies, and then it can be run again; the store only moves toward the published one; a complete one is not changed; a missing or foreign attempt is refused without any action. |
| Host.HostRelease.FinalizeRepeatedly | deploy/hetzner/release.py:3551-3638 | A publication that is stopped any number of times, after any of its writes, and run again ends, once it completes, in the same store as one that was never stopped, but for the times in attempt and record. |
| Host.HostRelease.VerifyCurrent | deploy/hetzner/release.py:3640-3677 | Proves the current publication again and changes nothing but a pointer left open by a crash. |
| Host.HostRelease.Preflight | deploy/hetzner/release.py:2399-2489 | Admission, a proved current release or stopped writers in an episode, and the identity of the database; the store is unchanged. |
| Host.HostRelease.PrepareAttempt | deploy/hetzner/release.py:3119-3136 | Stores a valid Prepared attempt for this deployment and host, bound to `current` as predecessor and to the pointer. |
| Host.HostRelease.StopPhase | deploy/hetzner/release.py:3181-3189 | WritersStopped with the writers down. |
| Host.HostRelease.SchemaPhase | deploy/hetzner/release.py:3191-3241 | Straight to activation if and only if the database is at the candidate head, otherwise through a backup whose evidence was just read. |
| Host.HostRelease.BackupPhase | deploy/hetzner/release.py:3207-3241 | BackupVerified with evidence that was just read from the dump, at the revision the phase found. |
| Host.HostRelease.BoundaryPhase | deploy/hetzner/release.py:3243-3250 | DataMutationStarted only with evidence that was just compared with the dump and the database. |
| Host.HostRelease.SettleMigration | deploy/hetzner/release.py:3252-3275 | Ends with the migration container gone; if the database is at the candidate head and no container is left, none is started. |
| Host.HostRelease.MigratePhase | deploy/hetzner/release.py:3252-3286 | Activation with the database at the candidate head and the container gone. |
| Host.HostRelease.ActivatePhase | deploy/hetzner/release.py:3288-3309 | AwaitingFrontendPromotion directly after the backend was proved. |
| Host.HostRelease.ResumeExisting | deploy/hetzner/release.py:3146-3180 | If an attempt with a stored failure ends blocked, it has been settled: rolled back, or in ForwardFixRequired with the pointer set and the writers down; any other attempt is carried on. |
| Host.HostRelease.ApplyOnce | deploy/hetzner/release.py:3107-3313 | Success means AwaitingFrontendPromotion is stored; an attempt of this deployment that has not failed gets there unless something is refused outside or the process dies; one bound to another deployment or host is refused without any action. |
| Host.HostRelease.Handle | deploy/hetzner/release.py:3090-3100 | A retry follows only an external failure whose count, under the phase it was met in, was zero; a permanent or external failure that escapes leaves the attempt absent, terminal or with its intent stored. |
| Host.HostRelease.Apply | deploy/hetzner/release.py:3073-3100 | The loop ends. Of the failures logged since the call began no operation has more than two in a phase, if the attempt was not in RollbackRequired or ForwardFixPending at the beginning; if it was, no more than three in its phase, and exactly three if the commands outside keep failing alike. An escaping permanent or external failure leaves the attempt absent, terminal or with its intent stored. |
| Host.HostRelease.Finalize | deploy/hetzner/release.py:3551-3571 | The same two bounds for finalize; on success the store has moved by publication writes only, to the complete publication. |
| Host.HostRelease.SettleFrontendFailure | deploy/hetzner/release.py:3364-3388 | An open attempt of this deployment gets its outcome unless something is refused outside or the process dies; a missing, foreign or terminal one is refused without any action. |
| Publication.FormKept | deploy/hetzner/release.py:3573-3638 | No write of a publication changes the store it adds up to. |
| Publication.PublishableStays | deploy/hetzner/release.py:3573-3638 | Wherever a publication stops, it can be taken up again. |
| Publication.EndsInForm | deploy/hetzner/release.py:3573-3638 | A publication that completes, completes to the store it added up to when it began. |
| Publication.CompleteIsForm | deploy/hetzner/release.py:3640-3677 | A complete publication is that store, but for two times. |
| Publication.CrashEquivalence | deploy/hetzner/release.py:3573-3638 | A publication stopped after any of its writes and completed later ends in the same store as an uninterrupted one, but for the times in attempt and record. |
| OracleHost.HostOracleReconcile.StopExactWriters | deploy/hetzner/release.py:4048-4056 | A normal return means that no captured writer runs. |
| OracleHost.HostOracleReconcile.Compensate | deploy/hetzner/release.py:4183-4190 | The failure escapes with the writers stopped, or the failure of the stop takes its place. |
| OracleHost.HostOracleReconcile.RequireExactPublication | deploy/hetzner/release.py:4131-4138 | A normal return means that the status was the exact publication. |
| OracleHost.HostOracleReconcile.RestoreExactRuntime | deploy/hetzner/release.py:4077-4110 | A normal return means backend, public vector and captured runtime were proved, in this order. |
| OracleHost.HostOracleReconcile.CheckRestored | deploy/hetzner/release.py:4195-4198 | Publication, runtime, publication. |
| OracleHost.HostOracleReconcile.RunCommand | deploy/hetzner/release.py:3926-3972 | The container of the command succeeded, its output was taken and accepted, and it is gone. |
| OracleHost.HostOracleReconcile.MutatingPhase | deploy/hetzner/release.py:4151-4176 | Writers stopped, command settled under the execution source in force, phase stored. |
| OracleHost.HostOracleReconcile.PublishedPhase | deploy/hetzner/release.py:4178-4192 | If it fails and the last stop succeeded, all writers are stopped. |
| OracleHost.HostOracleReconcile.RestoredPhase | deploy/hetzner/release.py:4194-4208 | The same, and success only after publication on both sides of the restart. |
| OracleHost.HostOracleReconcile.Resume | deploy/hetzner/release.py:4140-4212 | From the stored phase to Succeeded. |
| OracleHost.HostOracleReconcile.BindCurrentTarget | deploy/hetzner/release.py:3772-3842 | A complete, current, recorded release with nothing under way and no episode. |
| OracleHost.HostOracleReconcile.BindExecutionSource | deploy/hetzner/release.py:3844-3900 | Own image if and only if no repair is bound; otherwise exactly the bound one. |
| OracleHost.HostOracleReconcile.ReconcileFresh | deploy/hetzner/release.py:3742-3770 | No-op for an exact publication, with the store unchanged; for a target that has succeeded before, drift never ends in success and the store is unchanged. |
| OracleHost.HostOracleReconcile.Reconcile | deploy/hetzner/release.py:3709-3770 | No-op leaves the store alone; success means the target is stored as succeeded. |
| OracleHost.HostOracleReconcile.InstallRepair | deploy/hetzner/release.py:4215-4297 | A new binding is for the active attempt, from a source without attempt or record; existing ones stay as they are, and nothing else changes. |
| Durability.StableIff | deploy/hetzner/release.py:1749-1764 | What processes see outlives every power failure if and only if it is what was last synced to the directory. |
| Durability.InterruptedWrite | deploy/hetzner/release.py:1749-1764 | An interrupted write on a settled disk shows the complete old or new content, and touches nothing else, also after a power failure. |
| Durability.StoreSurvives | deploy/hetzner/release.py:1749-1764 | The same for the abstract content of a directory. |
| Durability.Directory.Stage | deploy/hetzner/release.py:1749-1760 | Temporary file, write, fsync: nothing a scan sees has changed. |
| Durability.Directory.AtomicBytes | deploy/hetzner/release.py:1749-1764 | Old or new at every point; new and settled on return. |
| Durability.Directory.CreateBytes | deploy/hetzner/release.py:1718-1742 | Absent or complete at every point; an existing file is never overwritten. |
| Durability.Directory.Scan | deploy/hetzner/release.py:1261-1274 | Returns exactly the visible files, decoded, if and only if all decode and are named after their content; leftovers do not count. |
| Durability.Directory.AtomicEntry | deploy/hetzner/release.py:1745-1746 | A write through a codec moves the abstract content, crash or not. |
| Files.LoadAttempts | deploy/hetzner/release.py:1261-1274 | The scan of a directory that stands for a map of attempts returns that map. |
| Durability.Directory.CreateEntry | deploy/hetzner/release.py:1718-1742 | A create-only write through a codec: an entry that is there stays what it is, otherwise the abstract content has it or not, and has it for good on return. |
| Durability.InterruptedRemoval | deploy/hetzner/release.py:1429-1430 | An interrupted removal on a settled disk shows the old file or none, and touches nothing else, also after a power failure. |
| Durability.Directory.Remove | deploy/hetzner/release.py:1429-1430 | Old or gone at every point; gone and settled on return. |
| Pointers.PointerTextIsUnique | deploy/hetzner/release.py:1701-1712 | Each SHA has one pointer text, and that text alone reads as it. |
| Pointers.LoadPointer | deploy/hetzner/release.py:1351-1355 | Nothing for a missing file, the SHA for a readable one, a defect for any other. |
| Pointers.WritePointer | deploy/hetzner/release.py:1349-1349 | The file names the old or the new release at every point and, in a directory that was settled, after every power failure, the new for good on return; no other file is touched. |
| Pointers.RemovePointer | deploy/hetzner/release.py:1420-1430 | The file names the old release or nothing at every point and, in a directory that was settled, after every power failure, nothing for good on return; no other file is touched. |
| Files.LoadOracleAttempts | deploy/hetzner/release.py:1484-1497 | The same for Oracle attempts. |
| Files.LoadRepairs | deploy/hetzner/release.py:1563-1578 | The same for repair bindings. |
| Files.CreateAttemptFile | deploy/hetzner/release.py:1229-1231 | The directory stands for the map with or without the new attempt, and for the one with it after a normal return, power failure or not; an attempt that is there stays. |
| Files.ReplaceAttemptFile | deploy/hetzner/release.py:1233-1252 | The directory stands for the old or the new map of attempts, and for the new one after a normal return, power failure or not. |
| Files.CreateRecordFile | deploy/hetzner/release.py:1320-1327 | Create-only, for records. |
| Files.CreateOracleAttemptFile | deploy/hetzner/release.py:1432-1437 | Create-only, for Oracle attempts. |
| Files.ReplaceOracleAttemptFile | deploy/hetzner/release.py:1439-1462 | Old or new, for Oracle attempts. |
| Files.CreateRepairFile | deploy/hetzner/release.py:1536-1541 | Create-only, for repair bindings. |
| Config.ReadEnv | deploy/hetzner/release.py:1918-1935 | Accepts exactly the files whose lines are well-formed with distinct keys and at least one entry, and returns the map they say. |
| Config.CanonicalText | deploy/hetzner/release.py:1948-1949 | The loop builds the text on which the lemmas below are stated. |
| Config.RoundTrip | deploy/hetzner/release.py:1944-1954 | The canonical text of a map reads as that map and as no other. |
| Config.CanonicalFixedPoint | deploy/hetzner/release.py:1944-1954 | For every accepted file, canonicalising keeps the values and doing it again changes nothing. |
| Config.CanonicalIgnoresOrder | deploy/hetzner/release.py:1918-1935 | Two accepted files have the same canonical text if and only if they have the same entries, whatever the order, comments and blank lines. |
| JsonText.CharRoundTrip | python/nexus/release_artifact.py:269-272 | Every character, escaped as ASCII JSON with surrogate pairs, reads back as itself. |
| JsonText.StringRoundTrip | python/nexus/release_artifact.py:269-272 | Every string reads back up to its closing quote. |
| JsonText.NumberRoundTrip | python/nexus/release_artifact.py:269-272 | Every integer reads back, whatever text that cannot continue a number follows. |
| Json.UniqueObject | python/nexus/release_artifact.py:283-289 | The loop accepts a list of pairs exactly if no key repeats. |
| Json.UniqueMeans | python/nexus/release_artifact.py:283-289 | The resulting map says nothing but the pairs. |
| Json.ParsePrint | python/nexus/release_artifact.py:269-272 | Parsing a printed value gives the value back and leaves the rest alone. |
| Json.CanonicalGate | deploy/hetzner/release.py:1604-1612 | The canonical gate lets exactly one text through for each value, and finds that value in it. |
| Codecs.ContainerCodec | deploy/hetzner/release.py:387-397 | For container evidence, `from_json` accepts exactly the `as_json` form of each value whose fields and texts the constructor accepts, and returns that value. |
| Codecs.BackupCodec | deploy/hetzner/release.py:867-879 | For backup evidence, `from_json` accepts exactly the `as_json` form of each value whose fields and texts the constructor accepts, and returns that value. |
| Codecs.MarkerCodec | deploy/hetzner/release.py:429-459 | For the prior Oracle marker, `from_json` accepts exactly the `as_json` form of each value whose fields and texts the constructor accepts, and returns that value. |
| Codecs.ImagesCodec | python/nexus/release_artifact.py:73-82 | For the candidate images, `from_json` accepts exactly the `as_json` form of each value whose fields and texts the constructor accepts, and returns that value. |
| Codecs.AttemptCodec | deploy/hetzner/release.py:1036-1089 | For release attempts, `from_json` accepts exactly the `as_json` form of each value whose fields and texts the constructor accepts, and returns that value. |
| Codecs.RecordCodec | deploy/hetzner/release.py:1170-1192 | For release records, `from_json` accepts exactly the `as_json` form of each value whose fields and texts the constructor accepts, and returns that value. |
| Codecs.OracleAttemptCodec | deploy/hetzner/release.py:536-577 | For Oracle attempts, `from_json` accepts exactly the `as_json` form of each value whose fields and texts the constructor accepts, and returns that value. |
| Codecs.RepairCodec | deploy/hetzner/release.py:634-652 | For Oracle repair bindings, `from_json` accepts exactly the `as_json` form of each value whose fields and texts the constructor accepts, and returns that value. |
| Codecs.ManifestCodec | python/nexus/release_artifact.py:130-143 | For candidate manifests, `from_json` accepts exactly the `as_json` form of each value whose fields and texts the constructor accepts, and returns that value. |
| Files.AttemptTextIsUnique | deploy/hetzner/release.py:1254-1259 | Each well-formed attempt has one text, and that text alone reads as it. |
| Files.RecordTextIsUnique | deploy/hetzner/release.py:1329-1337 | Each well-formed record has one text, and that text alone reads as it. |
| Files.OracleAttemptTextIsUnique | deploy/hetzner/release.py:1464-1482 | Each well-formed Oracle attempt has one text, and that text alone reads as it. |
| Files.RepairTextIsUnique | deploy/hetzner/release.py:1543-1561 | Each well-formed repair binding has one text, and that text alone reads as it. |
| Files.ManifestTextIsUnique | python/nexus/release_artifact.py:189-214 | Each well-formed candidate manifest has one text, and that text alone reads as it. |
| ProcessTree.ProcessTreeRss | python/nexus_test_control/memory.py:210-230 | On any snapshot, with cycles or shared children, the walk ends with the memory of exactly the processes reachable through readable ones, each counted once. |
| ProcessTree.TotalWithout | python/nexus_test_control/memory.py:224-229 | The order in which processes are added does not matter. |
| Workflow.AggregateIsFirstFailure | python/nexus_test_control/model.py:145-152 | The aggregate of a fail-fast run is its first status that is not a pass. |
| Workflow.AwaitAdmission | python/nexus_test_control/runner.py:1082-1109 | Polling ends; work is admitted if and only if enough memory was seen, and refused for lack of it only after the full wait. |
| Workflow.WorkflowExecution.RunCapability | python/nexus_test_control/runner.py:1049-1060 | Memory-admitted work runs under the lock, which is taken exactly if it is not held. |
| Workflow.WorkflowExecution.RunRequirement | python/nexus_test_control/runner.py:744-773 | The same for a requirement that waits for memory; the lock is as before on return. |
| Workflow.WorkflowExecution.Stream | python/nexus_test_control/runner.py:775-801 | One result per requirement in order: passes, one other, then only blocked ones; nothing behind the first failure ran, and it alone was reported. |
| Workflow.WorkflowExecution.RunWorkflow | python/nexus_test_control/runner.py:703-857 | The verdict is the first status that is not a pass; a pass needs every pass and a full measurement; lock and runtime are released however it ends. |

## Left out

- Host.HostRelease.Ask: stands for commands whose outcome is all that matters (image pulls and labels, container
  inspection, compose configuration, Caddy configuration, ancestry, capacity, `pg_restore --list`, Oracle preflight
  and the acceptance of command output); it may succeed or fail in any way, and what the source compares there is not
  modelled.
- Host.HostRelease.ProveBackend: health endpoints, worker lanes, infrastructure identity and contract digest are one
  observation, that all writers run the release at its head.
- Host.HostRelease.Preflight: manifest hash, image ids, configuration and containers it captures are arbitrary values.
- Host.HostRelease.RestartPredecessor: polling of container health is one healthy-or-timed-out observation.
- OracleHost.HostOracleReconcile.InstallRepair: the installation of the bundle itself is not modelled.
- OracleHost.HostOracleReconcile.MutatingPhase: a command whose result was taken runs again if the process dies before
  the next phase is stored, as in the source; only migrations are proved to succeed once.
- Safety.MigrationSucceedsOnce: alembic's graph is not modelled; a candidate has one head revision.
- Durability.Directory.Scan: the order of the scan decides only which defect is reported first.
- Json.ParsePrint: lone surrogates, fractions and exponents are refused by the parser of the model; no record holds
  them.
- Config.ReadEnv: text is a sequence of characters; its UTF-8 encoding and the content digest are not modelled.
- Workflow.WorkflowExecution.RunWorkflow: durations, memory figures and details of results are not modelled.
- Workflow.AwaitAdmission: time is counted in milliseconds.
- `OwnedMemorySampler`, `policy.py`, `cli.py`, `evidence.py` and the capability runners: flat checks and bookkeeping.
- `publish_config` beyond its text, `install_bundle`, bundle ownership and modes, and the command line.
- `verify-current` and the other commands are called one after the other; the lock itself is not modelled.
- Durable timestamps are arbitrary strings that the attempt compares; the clock is a parameter.
- Oracle status and marker: the corpus is not modelled; an exact status is an observation.
- Store.ReleaseStore.ReplaceAttempt: a file write is one step of the store; that it is one on the disk is what
  `Durability` and `Files` prove, for a directory that was settled before.
- Safety.SchemaCompatible: holds under the assumption on landings above; `Landing.SettledRunIsCompatible` drops it for
  the runs that settle their migrations, and `Settlement.SettlementBreaksIff` has the exact condition for the others.
- Invariant.EffectKeepsInv: the same assumption; a landing outside DataMutationStarted is an effect of `Landing` only.
- Invariant.RunInv: the same assumption.
- OracleSafety.MutationsRunQuietly: not for the own container of a target whose repair is bound, where it is false
  (`Counterexamples.RepairOverlapsMutation`); `OracleSafety.NeverOverlapsIff` has the exact condition.
- Host.HostRelease.ReadBackup: a dump that vanishes between two readings raises an error the source does not handle;
  the model takes it as the death of the process.
- Host.HostRelease.TakeBackup: ownership, mode and the partial file of a dump are not modelled.
- Host.HostRelease.ApplyOnce: that an attempt gets to AwaitingFrontendPromotion is stated for one that is stored; for
  a new candidate it also depends on the admission checks.
- Host.HostRelease.RecordPermanentFailure: a clock that runs behind the creation of the attempt leaves no intent.
- Files.ReplaceAttemptFile: the transition checks before the write are those of `Store.ReleaseStore.ReplaceAttempt`.
- Host.HostRelease.Advance: the form of single texts (`Patterns`) is checked where a value is read and in
  `Patterns.AdvanceFormed`, not in the store of the protocol.
- Settlement.SettlementBreaksIff: the settlement is the first beside a running container; the order in which two late
  containers land is not covered.
- Patterns.IsTimestamp: decimal digits are those of Unicode 15; the calendar is not checked, as in the source.
- Host.HostRelease.Finalize: that the third failure occurs is stated for `apply` only.
- Pointers.RemovePointer: the decision to clear is that of `Store.ReleaseStore.ClearForwardFixAfterSuccess`.
