# Production cutover tooling: a verified model

This project models the tooling under `scripts/` that carries a release into production, and
proves what its comments and checks rely on. Each file models one mechanism.

- **Operation journal** (`JournalRecords`, `JournalReaders`, `JournalLayout`, `JournalMachine`,
  `JournalSafety`, `ReceiptChain`, `JournalTheorems`, `JournalListing`, `JournalProgram`). A write-ahead log of
  two nested state machines, a chain of completion receipts, ordered deletion and a recovery
  procedure. The private directory is a value; a run is any sequence of durable steps, remote
  events, process deaths and recoveries, one process at a time. `JournalProgram` is the same
  code in imperative form, a process with the chain builder's variables that may die before
  any durable step; every durable step it takes is a step of the transition system.
- **Expected-after predicates** (`SnapshotRules`). Flattened snapshots and field rules.
- **Linked publication** (`Publication`) and **recovery ownership** (`ClaimChain`,
  `RecoveryOwnership`). Interleavings of processes over single system calls and claim files.
- **Competing recoverers** (`Recoverers`). Claim files and journal together: any number of
  processes that claim, recover, dispose and die in any interleaving.
- **Import driver** (`ImportModel`, `ImportGates`, `ImportConforms`, `ImportPredicate`, `ImportRun`,
  `ImportServer`, `ImportBinding`, `ImportDriver`, `Genesis002`). Planner, postconditions, the
  independently written predicate, the driving loop and its second client.
- **Artifact builder** (`DependencyClosure`, `Framing`, `DependencyTree`, `Manifest`,
  `TarReader`, `TarWriter`, `ArtifactCleanup`).
- **Gate rewriting** (`GateMask`, `GateText`, `GateMode`), **type resolution**
  (`TypeResolution`) and the **publish machine** (`PublishMachine`).

In the journal and the claim chain SHA-256 is a free constructor: a digest is the body it was
taken of. Elsewhere it is a parameter, assumed injective where a lemma says so.

`dafny verify dfyconfig.toml` checks the whole project.

## Where the code does not do what it seems to promise

- A chunk can never pass both proofs: the predicate has no rule for the verification digest
  that the postcondition wants changed (`ImportGates.ChunkGatesClash`), so a journaled run
  stops there (`ImportDriver.JournaledRunsStopAtChunks`), and if the server did import the
  chunk no recovery gets past it (`ImportPredicate.ConformingChunkStopsRecovery`).
- The last verify batch may report a running digest, which its postcondition accepts and the
  planner refuses: the driver is then stopped for good, one operation early
  (`ImportRun.PlainDigestDecides`, `ImportServer.AcceptedAndRefused`).
- A stage passes all its checks exactly when there are no regions and the unruled fields
  already agree (`ImportGates.StageGatesClash`).
- The predicate of a verify batch proves the postcondition exactly when the cursor is tracked
  (`ImportGates.VerifyGateProves`).
- A disposal of recovery claims does not keep another claimant out
  (`ClaimChain.DisposalDoesNotExclude`); authority is lost to exactly two kinds of step
  (`ClaimChain.AuthorityEndsExactlyWhenDisturbed`).
- Recovery does not work from every crash point once recoverers compete: a claim installed
  late is left where no reader accepts it (`Recoverers.LateClaimRejects`). The events that do
  this are known exactly (`Recoverers.RejectedExactlyWhenSpoiled`), and without late claims
  there are none (`Recoverers.OrderlyRunsAreRecoverable`).
- The chain builder would prepare a second command receipt after the first is finished, and
  leave a directory that no recovery accepts (`JournalTheorems.SecondReceiptIsRejected`). No
  operator prepares two.
- The clean-up of a retained artifact resumes from every crash point if anything below
  `spacetimedb` is tracked (`ArtifactCleanup.EveryCrashResumes`), as in every commit whose
  module is built there. In a tree without, one crash point of all blocks it, the one after
  the fifth write (`ArtifactCleanup.BlockedExactly`).
- After a release the artifact is removed without a persisted receipt exactly when its digest
  is malformed and everything else reconciles (`PublishMachine.Publisher.Publish`).
- Postconditions alone do not make a ready import exactly ready
  (`Genesis002.ReadyRunIsExactlyReady`).

## Model

| member | source | states |
|---|---|---|
| SnapshotRules.Flatten | scripts/greater-realm-cutover-operation-journal.ts:1262-1281 | succeeds exactly on non-empty objects, and then holds every leaf under its dotted path and nothing else |
| SnapshotRules.FlattenInjective | scripts/greater-realm-cutover-operation-journal.ts:1262-1281 | on non-empty dot-free keys two snapshots with one flattening are the same snapshot |
| SnapshotRules.DottedKeysCollide | scripts/greater-realm-cutover-operation-journal.ts:1262-1281 | with dotted keys two different objects share a dotted leaf, so the hypothesis is needed |
| SnapshotRules.NoRulesMeansUnchanged | scripts/greater-realm-cutover-operation-journal.ts:1305-1336 | a predicate without rules accepts exactly the unchanged snapshot |
| SnapshotRules.MatchRules | scripts/greater-realm-cutover-operation-journal.ts:1305-1336 | the loop over the paths of both snapshots accepts exactly what the rules say, field by field, with nothing unruled changed and no rule without a field |
| SnapshotRules.DeltasCompose | scripts/greater-realm-cutover-operation-journal.ts:1305-1336 | integer-delta rules on one field act over any run of snapshots like one rule with their sum |
| JournalRecords.CompletedCount | scripts/greater-realm-cutover-operation-journal.ts:3694-3711 | the number of leading operations whose receipt phase is installed, and no more |
| JournalReaders.AdmitRecovery | scripts/greater-realm-cutover-operation-journal.ts:3562-3711 | makes recovery's checks file by file and passes exactly the directories the admission predicate describes: groups, command records, operations, receipt chain, and checkpoint or clean-up tail |
| JournalReaders.InspectRecovery | scripts/greater-realm-cutover-receipts.ts:985-1052 | tells journal, command-receipt and lock-only recovery apart and rejects everything else |
| JournalReaders.ReadOperationFiles | scripts/greater-realm-cutover-operation-journal.ts:3055-3080 | accepts exactly unbroken phase chains over one id and plan whose records are well formed and certify themselves |
| JournalReaders.ReadGroupFiles | scripts/greater-realm-cutover-operation-journal.ts:3251-3306 | accepts exactly consecutive group phases, each naming the digest of the one before, over one binding and plan |
| JournalReaders.ReadCommandFiles | scripts/greater-realm-cutover-operation-journal.ts:3230-3249 | accepts exactly a prepared record, an installed one, or both with the second naming the first |
| JournalLayout.LayoutIsAdmitted | scripts/greater-realm-cutover-operation-journal.ts:3634-3711 | recovery's checks on groups, commands, operation chain and checkpoint pass on every file layout a command can leave, and it is a clean-up tail exactly when the command receipt is installed |
| JournalLayout.LayoutOperationsAdmit | scripts/greater-realm-cutover-operation-journal.ts:3646-3665 | the remaining operations are consecutive, linked by receipt digests and bound to the command, whichever prefix of files is gone |
| JournalLayout.LayoutGroupsAreValid | scripts/greater-realm-cutover-operation-journal.ts:3251-3306 | every layout's command group files are one unbroken chain of phases |
| JournalMachine.InitIsSafe | scripts/greater-realm-cutover-operation-journal.ts:2352-2456 | a freshly locked, empty directory satisfies the invariant |
| JournalSafety.SettlingIsMarked | scripts/greater-realm-cutover-operation-journal.ts:2660-2668 | whenever reconcile may settle an operation, that operation is on record as submission-uncertain and the server has accepted it |
| JournalSafety.AcceptedMeansExecuted | scripts/greater-realm-cutover-operation-journal.ts:3779-3790 | a server state the predicate accepts means the write was executed and no request is in flight |
| JournalSafety.UnchangedMeansNotExecuted | scripts/greater-realm-cutover-operation-journal.ts:3766-3776 | an unchanged snapshot means the write was not executed |
| JournalSafety.StepKeeps | scripts/greater-realm-cutover-operation-journal.ts:2486-2933 | each of the 27 durable, remote, crash and recovery steps keeps the whole invariant, whatever state an executed write leaves the server in |
| JournalSafety.EveryRunIsSafe | scripts/greater-realm-cutover-operation-journal.ts:2486-2933 | the invariant holds at every point of every run, over any number of deaths and recoveries |
| ReceiptChain.ChainIsUnique | scripts/greater-realm-cutover-operation-journal.ts:3150-3183 | digest and count determine the whole list of completion receipts |
| ReceiptChain.WalkFollows | scripts/greater-realm-cutover-operation-journal.ts:3157-3172 | the backward walk reads exactly the receipts of any chain that ends in its starting digest |
| ReceiptChain.AgreeOperations | scripts/greater-realm-cutover-operation-journal.ts:3192-3220 | passes exactly if the remaining operations are the last ones of the receipts, each installed and equal to its receipt |
| ReceiptChain.FullArtifactCleanupContext | scripts/greater-realm-cutover-operation-journal.ts:3092-3228 | the backward walk with reversal returns the receipt list for digest and count that agrees with the remaining journals, and fails only when there is none |
| JournalTheorems.HistoryIsChain | scripts/greater-realm-cutover-operation-journal.ts:2660-2713 | the receipts appended by reconcile form the chain that the checkpointed digest and count name |
| JournalTheorems.SafeMeansExactlyOnce | scripts/greater-realm-cutover-operation-journal.ts:2660-2713 | under the invariant the receipts list the remote writes in order, once each, with ordinals 1 to n, and at most the unfinished operation is newer; each receipt certifies its own write: the state it was planned from, its predicate, the state the server was settled in, whether the audit changed, and the evidence |
| JournalTheorems.EveryRunIsExactlyOnce | scripts/greater-realm-cutover-operation-journal.ts:2486-2715 | exactly-once, with what each receipt certifies, at every point of every run, also where the server ends in a state the predicate rejects |
| JournalTheorems.CheckpointIsAtMostOneBehind | scripts/greater-realm-cutover-operation-journal.ts:3694-3711 | completed receipts minus the checkpointed count is 0 or 1 in every reachable state before clean-up |
| JournalTheorems.AdmittedIsTheChain | scripts/greater-realm-cutover-operation-journal.ts:3634-3711 | for any directory at all: if recovery's checks pass before clean-up, the counted receipts in the operation journals are the one chain the checkpoint names, and each certifies the record it stands in |
| JournalTheorems.CleanupSeesEveryOperation | scripts/greater-realm-cutover-operation-journal.ts:3092-3228 | whatever prefix of the operation journals has been deleted, the one clean-up context lists every operation, and these are exactly the remote writes |
| JournalTheorems.PinnedShows | scripts/greater-realm-cutover-operation-journal.ts:3397-3415 | what the directory shows of the prepared receipt, and that an installed command record has its receipt on file |
| JournalTheorems.StepKeepsReceipt | scripts/greater-realm-cutover-operation-journal.ts:2784-2848 | no step changes a command receipt once it has been prepared |
| JournalTheorems.PreparedReceiptSurvives | scripts/greater-realm-cutover-operation-journal.ts:4008-4127 | once prepared, the same receipt is held or installed in every later state of every run |
| JournalTheorems.SecondReceiptIsRejected | scripts/greater-realm-cutover-operation-journal.ts:2784-2848 | a receipt prepared after the command is finished, which the chain builder would accept, leaves a directory that no recovery accepts |
| JournalTheorems.EveryCrashPointIsRecoverable | scripts/greater-realm-cutover-receipts.ts:985-1052 | with one process recovering at a time, in every reachable state exactly one of the three recovery modes applies and its checks pass; none is ambiguous |
| Recoverers.CompetingRecoveryIsExactlyOnce | scripts/greater-realm-cutover-operation-journal.ts:3566-3623 | any number of processes recovering at once: exactly-once still holds at every point of every run, and at most one of them writes to the journal at a time |
| Recoverers.RejectedExactlyWhenSpoiled | scripts/greater-realm-cutover-receipts.ts:985-1052 | an accepted directory is rejected after an event if and only if that event installs a claim on a chain it did not read or without a journal, disposes of a claim below a newer one, or removes the last journal file under a claim |
| Recoverers.OrderlyRunsAreRecoverable | scripts/greater-realm-cutover-receipts.ts:771-930 | as long as no claim is installed late, every directory that competing recoverers leave, wherever they die, is accepted with one recovery mode |
| Recoverers.LateClaimRejects | scripts/greater-realm-cutover-receipts.ts:784-828 | from any start, the run in which a claim is installed after another process has recovered, which no reader accepts any more |
| Recoverers.FinishIsPossible | scripts/greater-realm-cutover-operation-journal.ts:4163-4171 | a process that has disposed of the claims finds its last files removable whatever others did |
| JournalListing.RecoveryOperationGroups | scripts/greater-realm-cutover-operation-journal.ts:3048-3090 | accepts a listing without repeats exactly when its files are those of valid operations, at most the limit, and returns these by ordinal |
| JournalListing.PartitionsAgree | scripts/greater-realm-cutover-operation-journal.ts:3049-3054 | files make up operations in one way, up to the order of the operations |
| JournalListing.EveryListingReadsTheSame | scripts/greater-realm-cutover-operation-journal.ts:3048-3090 | in every reachable state any order of the directory's files is read as the same operations, those the state machine holds |
| JournalProgram.Process.Begin | scripts/greater-realm-cutover-operation-journal.ts:2440-2483 | opens the command group and binds its plan |
| JournalProgram.Process.Prepare | scripts/greater-realm-cutover-operation-journal.ts:2486-2566 | throws exactly when an operation is active, the receipt limit is reached or the group is closed; otherwise one new operation is on record |
| JournalProgram.Process.MarkSubmissionUncertain | scripts/greater-realm-cutover-operation-journal.ts:2573-2616 | throws exactly when no prepared operation is active; otherwise only its phase changes |
| JournalProgram.Process.SubmitAndWait | scripts/greater-realm-cutover-operation-journal.ts:2626-2636 | passes the permit once; the server shows whatever the write left, or still the state before |
| JournalProgram.Process.Reconcile | scripts/greater-realm-cutover-operation-journal.ts:2660-2715 | throws exactly without a submitted, uncertain operation and an accepted state; otherwise history, receipt count and checkpoint grow by that one operation |
| JournalProgram.Process.Complete | scripts/greater-realm-cutover-operation-journal.ts:2681-2713 | from a reconciled phase: receipt, second phase and checkpoint in this order, in three durable steps |
| JournalProgram.Process.ReconcileCommand | scripts/greater-realm-cutover-operation-journal.ts:2757-2782 | closes the command exactly when idle and the terminal predicate accepts |
| JournalProgram.Process.PrepareCommandReceipt | scripts/greater-realm-cutover-operation-journal.ts:2784-2848 | prepares a receipt exactly once, and only for a reconciled command |
| JournalProgram.Process.CleanupContext | scripts/greater-realm-cutover-operation-journal.ts:2883-2900 | the artifact clean-up is handed every operation, and these are the remote writes once each |
| JournalProgram.Process.CompleteCommandReceipt | scripts/greater-realm-cutover-operation-journal.ts:2850-2933 | ends with no journal file left, the prepared receipt installed and the history complete |
| JournalProgram.Process.RemoveOperations | scripts/greater-realm-cutover-operation-journal.ts:2215-2247 | removes oldest files first, in at most four steps per operation, and touches nothing else |
| JournalProgram.Process.RemoveAuthorities | scripts/greater-realm-cutover-operation-journal.ts:2906-2925 | removes the command group before the command record and keeps the receipt |
| JournalProgram.Process.RecoverActive | scripts/greater-realm-cutover-operation-journal.ts:3713-3826 | accounts for the unfinished operation: throws exactly on a declared ambiguity or a server state the predicate rejects, and otherwise the history grows exactly if the server executed it |
| JournalProgram.ServerShows | scripts/greater-realm-cutover-operation-journal.ts:3764-3790 | recovery meets one of three states: the one before, exactly if the write was not executed; an accepted one; or a rejected one, after an executed write |
| JournalProgram.Process.CloseRecovered | scripts/greater-realm-cutover-operation-journal.ts:3897-4005 | closes a recovered command by inspection or by the resumed driver, records exactly the terminal state that closed it, and throws exactly when neither closes it |
| JournalProgram.Process.HandOver | scripts/greater-realm-cutover-operation-journal.ts:4008-4048 | reads off the files what the command receipt is made from: the snapshots before and after the command, every operation with its before and after state, evidence and receipt, chain digest and count |
| JournalProgram.Process.Try | scripts/greater-realm-cutover-operation-journal.ts:2486-2715 | one operation of a resumed driver lands exactly if there is room for it and the server answers with an accepted state, and is then the newest of the history |
| JournalProgram.Process.Resume | scripts/greater-realm-cutover-operation-journal.ts:3937-4005 | the resumed driver closes the command exactly if all its operations land, stay within the limit and its terminal state is accepted; the history grows by exactly these |
| JournalProgram.Process.Recover | scripts/greater-realm-cutover-operation-journal.ts:3477-4188 | from every reachable state, a recovery that lives long enough throws if and only if the command is blocked: by a declared ambiguity, a rejected server state, or nothing that closes it; otherwise it ends with no journal file and no lock, the receipt made from the recovered history and its terminal state installed, within a linear number of durable steps, and the clean-up of a retained artifact has been handed every operation |
| Publication.DestinationIsAlwaysWhole | scripts/greater-realm-cutover-operation-journal.ts:833-992 | in every interleaving of one publisher and any number of sweepers, crashes included, the destination is absent or the whole body on the publisher's inode, and a published file has one link |
| Publication.PublisherFinishes | scripts/greater-realm-cutover-operation-journal.ts:833-992 | from wherever it is the publisher publishes within as many of its own calls as are left, the length plus 14 from the start and nine once linked, whatever sweepers remove in between |
| Publication.PublisherFailsExactly | scripts/greater-realm-cutover-operation-journal.ts:900-992 | it fails exactly with nothing to write or when a write accepts nothing |
| Publication.TakenName | scripts/greater-realm-cutover-operation-journal.ts:912-918 | on a taken name it writes nothing and accepts exactly the file it would have published |
| Publication.SweeperFailsExactly | scripts/greater-realm-cutover-operation-journal.ts:425-462 | a sweeper fails exactly when somebody else has removed the temporary it had found |
| Publication.CrashIsSwept | scripts/greater-realm-cutover-operation-journal.ts:425-462 | wherever the publisher dies, a sweeper left alone turns a linked pair into the published file and leaves anything else as it is |
| Publication.StepKeeps | scripts/greater-realm-cutover-operation-journal.ts:425-462 | every system call of publisher and sweepers keeps what each of them knows of the two names |
| ClaimChain.RecoveryOwners | scripts/greater-realm-cutover-receipts.ts:464-478 | returns the claims exactly when they are 1..n and each names its predecessor's digest |
| ClaimChain.LastFixesChain | scripts/greater-realm-cutover-receipts.ts:464-478 | the newest claim fixes every claim before it |
| ClaimChain.StepKeeps | scripts/greater-realm-cutover-receipts.ts:771-928 | every step of competing recoverers keeps: a claim names a predecessor only if that claimant was dead |
| ClaimChain.EarlierClaimantsAreDead | scripts/greater-realm-cutover-receipts.ts:771-828 | in every interleaving every claimant but the latest of a valid chain is dead |
| ClaimChain.AtMostOneHolder | scripts/greater-realm-cutover-receipts.ts:833-873 | while the chain is valid at most one live process that has begun neither to abandon nor to dispose holds a claim on file |
| ClaimChain.AuthorizedExcludesHolders | scripts/greater-realm-cutover-receipts.ts:833-873 | nobody passes the write check while another live process holds a claim |
| ClaimChain.AuthorizedExactly | scripts/greater-realm-cutover-receipts.ts:831-873 | the write check passes exactly for a live claimant whose claim ends the chain it read |
| ClaimChain.AuthorityEndsExactlyWhenDisturbed | scripts/greater-realm-cutover-receipts.ts:833-873 | write authority outlives another process's step if and only if that step is neither a stale claim beyond the end nor an unlink by a running disposal |
| ClaimChain.DisposalBegins | scripts/greater-realm-cutover-receipts.ts:909-914 | an authorized process starts its disposal from exactly the chain on file |
| ClaimChain.AbandonGivesBack | scripts/greater-realm-cutover-receipts.ts:878-895 | giving a claim up unused puts the chain back that was read |
| ClaimChain.DisposalLeavesPrefix | scripts/greater-realm-cutover-receipts.ts:909-928 | newest-first disposal leaves a valid prefix 1..k after each unlink, as long as no other process disturbs it |
| ClaimChain.PrefixEndsExactlyWhenDisturbed | scripts/greater-realm-cutover-receipts.ts:909-928 | another process's step leaves that prefix if and only if it does not disturb |
| ClaimChain.CutDisposalIsClaimable | scripts/greater-realm-cutover-receipts.ts:909-928 | a disposal cut short anywhere leaves a chain whose latest claimant is dead |
| ClaimChain.DeadChainCanBeClaimed | scripts/greater-realm-cutover-receipts.ts:784-828 | any live process can claim a chain whose latest claimant is dead, and is then authorized |
| ClaimChain.DisposalDoesNotExclude | scripts/greater-realm-cutover-receipts.ts:909-928 | a concrete run in which a process claims and is authorized during another's disposal, whose next unlink leaves a directory no reader accepts |
| RecoveryOwnership.Authorization.AssertRecoveryWriteAuthorized | scripts/greater-realm-cutover-receipts.ts:831-873 | returns exactly while the object is unused, the lock is the one opened and the claims on file are the chain it read and its own claim |
| RecoveryOwnership.Authorization.SameLengthAndLastMeansSameChain | scripts/greater-realm-cutover-receipts.ts:860-868 | comparing length and newest digest is comparing whole chains |
| RecoveryOwnership.Authorization.Abandon | scripts/greater-realm-cutover-receipts.ts:878-895 | restores the chain that was read, exactly when authorized |
| RecoveryOwnership.Authorization.Dispose | scripts/greater-realm-cutover-receipts.ts:909-928 | cut after any number of unlinks the claims on file are the prefix reached; uncut, none are left |
| RecoveryOwnership.Authorization.ReleaseOriginalLock | scripts/greater-realm-cutover-receipts.ts:896-908 | releases once, after disposal, and only the lock that was opened |
| ImportModel.Batch | scripts/greater-realm-production-import-core.ts:1040-1078 | a planned batch is a non-empty slice of at most the limit, from the cursor on |
| ImportRun.BatchSizes | scripts/greater-realm-production-import-core.ts:1040-1101 | a planned batch holds 128 components, 6 regions or 256 verified rows, and fewer only at the end of its table |
| ImportBinding.BoundExactly | scripts/greater-realm-production-import-core.ts:549-708 | an inspection of a release passes exactly if it is this release, unused, within its totals, and the cutover status is its mirror |
| ImportBinding.AbsentExactly | scripts/greater-realm-production-import-core.ts:549-708 | without a release it passes exactly if nothing is there in either status |
| ImportBinding.ReadyExactly | scripts/greater-realm-production-import-core.ts:710-734 | ready is one status, up to the digest and the build flags |
| ImportGates.StatusDetermined | scripts/greater-realm-production-import-core.ts:308-338 | the canonical fields determine the status |
| ImportGates.GatesAgree | scripts/greater-realm-production-import-core.ts:848-1004 | for components, regions, begin, verify and finalize the journal's predicate proves the driver's postcondition: always, and for verify exactly when the cursor was tracked |
| ImportConforms.ConformingPasses | scripts/greater-realm-production-import-core.ts:1127-1284 | the converse: an answer that meets the postcondition and changes nothing else in the cutover status passes the predicate, for components, regions, begin, verify and finalize |
| ImportConforms.PassesExactly | scripts/greater-realm-production-import-core.ts:1127-1284 | so for a planned operation other than stage and chunk the predicate accepts exactly what the postcondition accepts and leaves the rest of both statuses alone |
| ImportConforms.ChunkPassesButForDigest | scripts/greater-realm-production-import-core.ts:1184-1199 | a chunk answered as its postcondition asks, but with the verification digest left as it was, passes the predicate |
| ImportGates.VerifyGateProves | scripts/greater-realm-production-import-core.ts:955-990 | for a verify batch the predicate proves the postcondition if and only if the cursor is within its phase and equals the verified count |
| ImportGates.ChunkGatesClash | scripts/greater-realm-production-import-core.ts:1184-1199 | no state passes both gates of a chunk |
| ImportGates.StageGatesClash | scripts/greater-realm-production-import-core.ts:1151-1171 | a stage can pass predicate, postcondition and authority check if and only if the release has no regions and the fields left unruled already agree |
| ImportRun.ConsistentIsPlannable | scripts/greater-realm-production-import-core.ts:1007-1115 | nothing is left to do exactly when a consistent state is ready, and it is refused exactly when verification is complete with a digest that is not plain |
| ImportRun.PlainDigestDecides | scripts/greater-realm-production-import-core.ts:1086-1101 | after an accepted last verify batch the planner refuses if and only if the digest is not a plain SHA-256 |
| ImportRun.BatchesRoundUp | scripts/greater-realm-production-import-core.ts:31-36 | the batch count is the division rounded up |
| ImportRun.RemainingFromAbsent | scripts/greater-realm-production-import-core.ts:1007-1115 | the exact number of operations from an absent release, table by table and phase by phase |
| ImportRun.AcceptedCounts | scripts/greater-realm-production-import-core.ts:848-1115 | every accepted operation keeps consistency and takes exactly one off the remaining count |
| ImportRun.RunCounts | scripts/greater-realm-production-import-core.ts:1357-1518 | after n accepted operations exactly n fewer remain |
| ImportRun.RunIsTracked | scripts/greater-realm-production-import-core.ts:955-995 | along accepted runs every verified count is its total for past phases, the cursor for the current one and zero later |
| ImportRun.RunSubmits | scripts/greater-realm-production-import-core.ts:1030-1079 | the batches submitted along a run cover the rows between its ends without gap or repeat |
| ImportRun.ReadyRunSubmitsTheRest | scripts/greater-realm-production-import-core.ts:1030-1079 | a run that ends ready has submitted exactly the unimported rows of every table |
| ImportServer.EveryPlanHasAnAnswer | scripts/greater-realm-production-import-core.ts:848-1004 | without a journal every planned operation can be answered: from each consistent, tracked state some observation passes postcondition, binding and authority check |
| ImportDriver.JournaledPlanHasAnAnswer | scripts/greater-realm-production-import-core.ts:1418-1505 | with a journal, every planned operation but stage and chunk has an answer that passes every proof |
| ImportServer.AcceptedAndRefused | scripts/greater-realm-production-import-core.ts:955-1101 | the observation with a running digest that the last batch's postcondition accepts and the planner refuses, from any state before that batch |
| ImportPredicate.GateIsThePredicate | scripts/greater-realm-cutover-operation-journal.ts:1305-1352 | the gate on field maps is the journal's evaluation of the predicate on the flattened snapshots, whatever the fields are called |
| ImportPredicate.ConformingChunkStopsRecovery | scripts/greater-realm-cutover-operation-journal.ts:3779-3788 | a journaled chunk that the server imports exactly as its postcondition asks leaves a state no recovery gets past |
| ImportDriver.PlayRound | scripts/greater-realm-production-import-core.ts:1386-1500 | a round advances exactly when the prewrite plan is unchanged and every proof on its outcome holds, and stops with each code in exactly its case |
| ImportDriver.Execute | scripts/greater-realm-production-import-core.ts:1286-1518 | against a quiet server, with a journal or without, the driver is ready after exactly the remaining number of operations, reports an unacknowledged one, hits the operation limit exactly when that number exceeds it, and is refused one operation early exactly when verification ended with a digest that is not plain; against any server at all every result is the one that the turns passed, what was last known and the turn it stopped at call for |
| ImportDriver.JournaledRunsStopAtChunks | scripts/greater-realm-production-import-core.ts:1418-1505 | with a journal no chunk is ever accepted, nor a stage of a release with regions |
| Genesis002.ReadyRunIsExactlyReady | scripts/genesis002-production-import-core.ts:482-500 | a ready run from nothing verified is exactly ready if and only if the three sums agree |
| Genesis002.ExactlyReadyIsTracked | scripts/genesis002-production-import-core.ts:482-500 | exactly ready is ready with every verified count at its total and the three sums |
| Genesis002.ReadyRunFromAbsent | scripts/genesis002-production-import-core.ts:482-500 | from absent, against a server that changes running sums only where they belong, exactly ready if and only if the manifest's sums agree |
| Genesis002.RunFollows | scripts/greater-realm-production-import-core.ts:890-935 | the running sums are those of the rows imported so far |
| Genesis002.Execute | scripts/genesis002-production-import-core.ts:600-718 | against a quiet server the exact number of operations and the exact outcome; on every input the digest is the fold over the numbered accepted operations whose entries are the turns that wrote, and every result is the one the turns call for; a receipt after a quiet execution means the submitted rows are exactly the missing ones |
| Genesis002.ChainDeterminesOperations | scripts/genesis002-production-import-core.ts:701-712 | under an injective hash the chain digest determines the list of operations |
| DependencyClosure.SelectedLockedPackages | scripts/greater-realm-production-immutable-artifact.ts:590-656 | selects all and only the packages reachable from the roots, closed under recorded dependencies, and refuses exactly when something reachable is bad |
| DependencyClosure.ReadPackage | scripts/greater-realm-production-immutable-artifact.ts:605-645 | reads a package exactly when it is good, with its followed edges and no others |
| DependencyClosure.ClosureIgnoresEdgeOrder | scripts/greater-realm-production-immutable-artifact.ts:617-645 | reordering edges changes neither reachability nor refusal |
| Framing.DecodeReads | scripts/greater-realm-production-immutable-artifact.ts:236-251 | decoding inverts framing for every list of fields with lengths below 2^64 |
| Framing.StreamInjective | scripts/greater-realm-production-immutable-artifact.ts:236-251 | concatenated frames determine the fields |
| Framing.LengthsWrapAt | scripts/greater-realm-production-immutable-artifact.ts:243-245 | at 2^64 the length prefix wraps, so the bound is needed |
| Framing.UpdateLengthFramed | scripts/greater-realm-production-immutable-artifact.ts:236-251 | feeds exactly one frame |
| DependencyTree.Visit | scripts/greater-realm-production-immutable-artifact.ts:378-486 | feeds the entries of a tree in preorder, framed, exactly if every name is plain |
| DependencyTree.DependencyTreeSnapshot | scripts/greater-realm-production-immutable-artifact.ts:358-513 | feeds domain and tree, or refuses exactly on a name that is not plain |
| DependencyTree.EntriesDetermineTree | scripts/greater-realm-production-immutable-artifact.ts:378-486 | the fields of a tree, followed by entries outside it, determine the tree and what follows |
| DependencyTree.EqualStreamsMeanEqualTrees | scripts/greater-realm-production-immutable-artifact.ts:358-486 | equal content streams mean equal trees up to file bodies of equal SHA-256 |
| Manifest.ManifestDigest | scripts/generate-local-binding-yaml-manifest.py:39-46 | feeds exactly the framed fields of the record |
| Manifest.EqualStreamsMeanEqualRecords | scripts/generate-local-binding-yaml-manifest.py:32-46 | equal manifest streams mean equal records |
| TarReader.ParseSafeNpmTar | scripts/greater-realm-production-immutable-artifact.ts:957-1072 | the loop reads exactly what the specification of an accepted archive says |
| TarReader.ReadHeader | scripts/greater-realm-production-immutable-artifact.ts:984-1033 | accepts a header block exactly if checksum, magic, version, link name, type, mode, size and name are in order, and says what it holds |
| TarReader.OctalFieldReads | scripts/greater-realm-production-immutable-artifact.ts:937-947 | a field of spaces, octal digits and padding, the top bit of each byte ignored, reads as the value of its digits up to the maximum |
| TarReader.ReadIsOctalField | scripts/greater-realm-production-immutable-artifact.ts:937-947 | and a field that reads at all is of this shape |
| TarReader.AcceptedArchive | scripts/greater-realm-production-immutable-artifact.ts:972-1072 | an accepted buffer is headers, padded bodies and an all-zero tail of at least two blocks; names are safe and each once, and so are the stripped paths of the entries; sizes stay within the limit |
| TarReader.BodiesAreDisjoint | scripts/greater-realm-production-immutable-artifact.ts:1040-1060 | bodies lie in the buffer, in order, a header apart |
| TarWriter.NumberFieldReads | scripts/greater-realm-production-immutable-artifact.ts:937-947 | reading an octal field gives back the number |
| TarWriter.HeaderReads | scripts/greater-realm-production-immutable-artifact.ts:984-1033 | a written header is accepted and gives back name, kind, mode class and size |
| TarWriter.ReaderInvertsWriter | scripts/greater-realm-production-immutable-artifact.ts:957-1072 | reading inverts a model encoder of the accepted ustar subset |
| ArtifactCleanup.Cleanup.Run | scripts/greater-realm-production-immutable-artifact.ts:2723-2862 | a run makes exactly the writes that were left, up to its death, and returns complete with artifact and tree gone exactly if it lives for all of them; it never finds the state invalid, and throws exactly on an untracked directory left over |
| ArtifactCleanup.AfterKeeps | scripts/greater-realm-production-immutable-artifact.ts:2723-2862 | along those writes the phase never goes back and their number is known exactly |
| ArtifactCleanup.EveryCrashResumes | scripts/greater-realm-production-immutable-artifact.ts:2723-2862 | with something tracked in the module's directory any series of cut runs is one long run, complete exactly when the writes add up |
| ArtifactCleanup.BlockedExactly | scripts/greater-realm-production-immutable-artifact.ts:2759-2838 | with nothing tracked there a series of runs is blocked if and only if some run stops right after the fifth write of all |
| ArtifactCleanup.StuckAt | scripts/greater-realm-production-immutable-artifact.ts:2759-2838 | that is the only one of all crash points of a retained artifact |
| ArtifactCleanup.CrashThatBlocks | scripts/greater-realm-production-immutable-artifact.ts:2759-2838 | a first run cut there, and every later one fails |
| ArtifactCleanup.Cleanup.RemoveArtifact | scripts/greater-realm-production-immutable-artifact.ts:2760-2838 | the artifact phase makes its writes in order and throws exactly on an untracked directory left over |
| ArtifactCleanup.UnlinkedMeansAnnounced | scripts/greater-realm-production-immutable-artifact.ts:2803-2817 | at no crash point is the artifact gone before artifact-unlinking is durable |
| GateMask.MaskCommentsAndStrings | scripts/greater-realm-connected-gate-mode.ts:69-129 | the loop computes the mask, and fails exactly on an unterminated construct |
| GateMask.LiteralIsBlanked | scripts/greater-realm-connected-gate-mode.ts:90-124 | a literal with its quotes and escapes, whatever it holds, becomes spaces, and what follows it is code |
| GateMask.LineCommentIsBlanked | scripts/greater-realm-connected-gate-mode.ts:76-85 | a line comment becomes spaces up to the end of its line |
| GateMask.BlockCommentIsBlanked | scripts/greater-realm-connected-gate-mode.ts:86-108 | a block comment becomes spaces but for its newlines, up to the first place that closes it |
| GateMask.MaskKeeps | scripts/greater-realm-connected-gate-mode.ts:69-129 | length and newline positions stay and a character is kept or becomes a space |
| GateMask.MaskIdempotent | scripts/greater-realm-connected-gate-mode.ts:69-129 | masking again changes nothing |
| GateText.DeclarationIsTopLevel | scripts/greater-realm-connected-gate-mode.ts:55-67 | true exactly when the first occurrence stands at brace depth zero that was never negative |
| GateText.WordStandsAlone | scripts/greater-realm-connected-gate-mode.ts:51-53 | a gate name between two characters is counted exactly if neither is a letter, digit or underscore |
| GateText.WordStandsAtEdges | scripts/greater-realm-connected-gate-mode.ts:51-53 | at the edges of the source nothing more is asked of it |
| GateMode.FramedParses | scripts/greater-realm-connected-gate-mode.ts:131-155 | a declaration line in top-level code, whose name occurs nowhere else, parses to its value |
| GateMode.ParsedIsFramed | scripts/greater-realm-connected-gate-mode.ts:131-155 | and every gate that parses is such a line |
| GateMode.MarkedIsRefused | scripts/greater-realm-connected-gate-mode.ts:157-162 | a source that holds the marker is refused |
| GateMode.NormalizationReachesTarget | scripts/greater-realm-connected-gate-mode.ts:243-267 | on every production source normalization never fails, yields the target mode and keeps the gate-neutral text |
| GateMode.NormalizedInProduction | scripts/greater-realm-connected-gate-mode.ts:191-201 | a normalized copy is production source again exactly if the activation gate stays closed |
| GateMode.TwoStepsAreOne | scripts/greater-realm-connected-gate-mode.ts:243-267 | TF and then TT is TT directly |
| TypeResolution.VisitingShrinks | scripts/genesis001-frozen-publisher-core.ts:253-281 | the termination measure: a type once entered is not entered again below itself |
| TypeResolution.PlainResolvesToItself | scripts/genesis001-frozen-publisher-core.ts:253-281 | a value without references resolves to itself over any table |
| TypeResolution.ArrayResolves | scripts/genesis001-frozen-publisher-core.ts:253-281 | an array resolves exactly if its items do, item by item and in order |
| TypeResolution.ObjectResolves | scripts/genesis001-frozen-publisher-core.ts:253-281 | an object that is no reference resolves exactly if its entries do, key by key |
| TypeResolution.ReferenceExpands | scripts/genesis001-frozen-publisher-core.ts:260-272 | a reference fails outside the table, is a mark on its own trail and otherwise is its type, one step further down the trail |
| TypeResolution.TrailIsInvisible | scripts/genesis001-frozen-publisher-core.ts:253-281 | what is on the trail plays no part in a result without marks |
| TypeResolution.ReferenceResolves | scripts/genesis001-frozen-publisher-core.ts:260-272 | so a reference to a type that is not recursive resolves to what the type itself does |
| TypeResolution.ExpandRenames | scripts/genesis001-frozen-publisher-core.ts:253-281 | resolution commutes with renumbering the type table, recursion marks renumbered |
| TypeResolution.RenumberingIsInvisible | scripts/genesis001-frozen-publisher-core.ts:253-281 | a result without recursion marks does not depend on the numbering |
| TypeResolution.AppendingIsInvisible | scripts/genesis001-frozen-publisher-core.ts:253-281 | appending types changes no result |
| TypeResolution.AppendingCanRepair | scripts/genesis001-frozen-publisher-core.ts:265-267 | it can turn a failure into a result |
| TypeResolution.RecursiveMarksAreNumbered | scripts/genesis001-frozen-publisher-core.ts:268-268 | a recursion mark does depend on the numbering |
| TypeResolution.TableAbiSurface | scripts/genesis001-frozen-publisher-core.ts:300-312 | every table with its product type resolved, or failure exactly when one does not resolve |
| TypeResolution.TableSurvivesRenumbering | scripts/genesis001-frozen-publisher-core.ts:300-312 | the surface of a non-recursive table survives renumbering |
| PublishMachine.Publisher.Publish | scripts/genesis001-frozen-publisher-core.ts:737-971 | a release is sent if and only if every call before it succeeds, three attestations name one valid commit and every check on baseline, artifact and policies holds, at most once and with verifications around it; outcome and retained artifact are known case by case in every world |
| PublishMachine.Publisher.BuildArtifact | scripts/genesis001-frozen-publisher-core.ts:747-778 | passes exactly if baseline and artifact are built, attested again and pass every check |
| PublishMachine.Publisher.Supervise | scripts/genesis001-frozen-publisher-core.ts:780-800 | passes exactly if authority, postflight and supervisor are there, and names the failure otherwise |
| PublishMachine.Publisher.Release | scripts/genesis001-frozen-publisher-core.ts:801-816 | sends the release exactly if a third attestation names the same commit and the last check holds |
| PublishMachine.OutcomesMean | scripts/genesis001-frozen-publisher-core.ts:737-971 | an artifact is given up after a release exactly if the reads reconcile, nothing is left uncontained, and a receipt is persisted or the digest is malformed |
| PublishMachine.Publisher.Reconcile | scripts/genesis001-frozen-publisher-core.ts:809-921 | the outcome after a release is decided by the fresh reads alone, case by case, and the artifact is retained exactly on a manual stop |
| PublishMachine.Publisher.Finish | scripts/genesis001-frozen-publisher-core.ts:923-970 | supervisor, authority, artifact are closed in this order whatever happened, and containment that cannot be proven retains the artifact |

## Left out

- JournalMachine: one command per lock, as the lock scope enforces; timestamps, file modes and the completion contract are not in the records.
- JournalMachine: assumes that the server executes a request atomically, at most once, only while the operation is uncertain or declared ambiguous, a write being one that changes the snapshot; that nobody else writes to it; that a predicate rejects the unchanged snapshot; that a fresh journal id is new; and that a request of a dead process is no longer in flight once recovery has begun.
- JournalMachine: installing a file is one atomic step; temporaries with one link are not modelled outside `Publication`.
- JournalMachine: the publish recovery classifier and the caller's clean-up callback are not modelled; the context handed to the callback is.
- JournalProgram.Process.Recover: the body of the command receipt is a function, any function, of what is handed over, as the operator builds it; a resumed driver runs a fixed list of operations and closes the command; it abandons none and declares no ambiguity.
- JournalProgram.Process.Recover: the clean-up of an artifact retained by a command that never got its plan is not modelled.
- JournalProgram.Process.PrepareCommandReceipt: the call after the command is finished is not a call of this method; `JournalTheorems.SecondReceiptIsRejected` says what it leaves.
- JournalTheorems.PreparedReceiptSurvives: for runs in which no second receipt is prepared after the first is finished; no operator does.
- JournalTheorems.EveryCrashPointIsRecoverable: one process recovers at a time and claims are counted; `Recoverers` has many processes and the claims themselves.
- Recoverers.CompetingRecoveryIsExactlyOnce: reading the journal before the write check is part of it, and a process whose claim was spoilt goes on until its next check; the plan digest a claim records is not modelled.
- JournalProgram.Process.MarkSubmissionUncertain: the error path that re-reads a possibly installed phase after a failed install is not modelled.
- JournalListing.RecoveryOperationGroups: only operations are read from an unordered listing; command groups and command receipts are held in order.
- SnapshotRules.Flatten: objects with an empty or dotted key, which the source flattens too, are not; the projections it is called on have fixed plain keys, and `SnapshotRules.DottedKeysCollide` shows what goes wrong otherwise.
- SnapshotRules.FlattenInjective: arrays are leaves and object entries are a map, as canonical JSON has them; values are integers, strings, booleans and null.
- Publication.DestinationIsAlwaysWhole: modes, owners and times of files are not modelled, nor the publisher's removal of its temporary after a failure before the link.
- ClaimChain.AtMostOneHolder: reading the claims of a directory is one step, process probes are sound and the dead stay dead; the one-use confirmation is not modelled.
- ImportModel: rows of the manifest are 32-bit counts and an opaque key, as the artifact verifier guarantees; the arguments of a stage are not spelled out.
- ImportDriver.Execute: an inspection that cannot be read is one that is not bound; a rejected write permit is not modelled; the journal's own part in the loop is its predicate.
- Genesis002.Execute: the one status it reads is modelled as the pair of projections the engine takes from it; the identity in the seed of the digest is a parameter.
- DependencyClosure.SelectedLockedPackages: names and versions are well formed or not, by a flag; the final sort of the result is not modelled.
- DependencyTree.EqualStreamsMeanEqualTrees: text stands for its UTF-8 bytes; limits on entries and sizes and the identity digest are not modelled.
- Manifest.ManifestDigest: reading the archive and generating the record are not modelled.
- TarReader.ParseSafeNpmTar: gunzip is not modelled, UTF-8 decoding is a parameter, and name lengths count characters, not UTF-16 units.
- ArtifactCleanup.Cleanup.Run: the verification of the checkout and its removal are given by contract; temporaries of an interrupted rename are not modelled.
- GateMask.MaskCommentsAndStrings: text is a sequence of characters, not of UTF-16 units.
- TypeResolution.ExpandRenames: numbers are integers.
- PublishMachine.Publisher.Publish: descriptors and policies are compared by the outcome of their checks; a dependency that throws `undefined` is not modelled.
- Build-intent recovery, the frozen-descriptor comparison of baseline and candidate, relocation, the transports and the operators' command lines would only add easy members.
