# The durable effect kernel of Ogra, in Dafny

Ogra Desktop performs external side effects through a crash-tolerant protocol: an effect is
prepared with its command sealed under an idempotency key, moved to `in_flight` under a lease
and an approval, called, answered by a receipt or recorded as unknown, and finally committed or
reviewed. Every change appends a hash-chained audit event in the same transaction. This project
models that kernel, the audit chain with its canonical JSON, the ProgressGuard, and the
`knowledge.search` tool with its independent verifier, and proves what holds over all their runs.

## How it is built

- **Database.** `Tables` holds every table as a map or set with the UNIQUE constraints of the
  schema, time as a natural number, and digests as a symbolic datatype. `CapsuleStore`,
  `EffectProtocol`, `DurableRuntime`, `IngressReview` and `RepairPlans` specify each method as its
  error, if any, and its new database.
- **Runs.** `Kernel` puts all operations of all callers into one transition system. Where a
  transaction does not repeat a check of its pre-read, the transaction alone is an operation too,
  verdicts carry the instant they compare, and a rebuild of the audit-edge index, which is no
  transaction, is one operation for each of its statements. A crash is a caller that takes no further step, so
  every finite sequence of operations is a run and every theorem quantifies over all of them:
  `Evolution`, `Replay`, `LeaseFencing`, `Lineage`, `Conservation`, `Forest`, `AuditIndex`, `AuditEdges`,
  `AuditRebuild`, `Evidence`, `Acceptance`, `VerdictExpiry`, `RepairSafety`. `Witnesses` holds
  concrete runs that show which stronger claims fail.
- **Contents.** What the rows hold and what an answer rests on, traced back to the calls of a run and
  stated on their arguments, field by field: `ApprovalGate` (the history behind an approved intent),
  `Provenance` (effects, sealed commands, tool rows), `Results` (receipts, sealed results, findings,
  decisions), `IntentLog`, `LeaseTerms` (how long a token is honoured), `Lifecycles` (the transition
  tables), `AuditTrail` and `AuditLinks` (which events and edges a run leaves), `Refusals` (that every
  error is true).
- **Split steps.** The services read first and open their transaction later. `SplitStep` cuts each
  method there, lets anything happen in between, and says when the result is still the atomic one.
  `SplitRuns` interleaves the halves of any number of calls and shows that every such run is a run
  of kernel operations, so the theorems above hold for it. `ToolReview` says when a committed tool
  effect is a reviewed one; `SplitWitnesses` shows what the gaps let through.
- **Services.** `Database`, `EffectProtocolService`, `DurableRuntimeService`,
  `IngressReviewService` and `DurableMockDriver` are classes that update one database object in
  place, with other callers' steps between pre-read and transaction, and are proved against the
  functions above. `ExactlyOnce` adds issued calls and the adapter to the database.
- **Audit chain.** `Json`, `JsonRoundTrip`, `KeyOrder`, `CanonicalJson` and `Serializers` give JSON
  trees, a printer, a reader, JavaScript's property order and the three serializers. `AuditEnvelope`
  and `AuditChain` give the hash inputs and the two database verifiers; `EventOrder`, `EventStore`
  and `EventStoreService` the table, its three appenders and programs that nest them; `EventLog` says
  that a chain lists the events that were committed;
  `AuditService` the in-memory log. The hash is an arbitrary function. Where a theorem needs it,
  the hypothesis is that no two of the inputs occurring in it collide, never that the hash is
  injective.
- **Guards and tools.** `ProgressGuard` and `ProgressGuardService`; `Utf8` and `KnowledgeSearch`.

`dafny verify dfyconfig.toml` checks the whole project. Nothing was executed.

## What the code does that its documentation does not say

- `recordUnknownOutcome` documents that a resolved outcome skips the unknown state
  (effect-protocol-service.ts:904-916); the code never does (944-976). The model follows the code.
- `commitToTerminal` looks for a tool row before its transaction only, so a tool row that a
  re-prepare registers inside the gap or after the commit is missed
  (`SplitWitnesses.ToolInsideCommitIsUnreviewed`, `Witnesses.LateToolIsUnreviewed`; exact condition in
  `ToolReview.SafeIffNoneCanFinish`).
- `finalizeIngressDecision` compares the lease with an instant that its caller supplies or that it
  captures before its transaction, so an expired lease can still commit a verdict
  (`SplitWitnesses.ExpiredLeaseCommitsVerdict`; exact conditions in
  `LeaseFencing.FencedAtCommitIff` for one write and `VerdictExpiry.LandsExpiredIff` for all
  continuations). A lease that was taken over or released never can.
- `createRepair` verifies the plan before its transaction and not again
  (`SplitWitnesses.StaleRepairIsRecorded`, `SplitStep.CreateSplitIsAtomicIff`); the commit verifies
  it once more, which is why the repair theorems hold anyway.
- Attempt numbers repeat for effects that are not under approval (`Witnesses.AttemptNumberReused`,
  exact condition in `Lineage.RepeatsIffAlreadySealed`).
- The comment on `isInSubtree` speaks of an ancestor of the target; the code asks whether the
  target is an ancestor of the candidate, and so does the model.
- `rebuildAuditEdgesForRun` deletes a run's edges and inserts them again statement by statement,
  outside any transaction (it has no caller in the application yet), so a process that dies in
  between leaves expected edges missing (`Witnesses.CutRebuildLosesAnEdge`; exact conditions in `AuditEdges.MissingIffLost` and
  `AuditRebuild.CutRebuildLosesTheRest`). A rebuild that completes drops every edge of a relation
  it does not derive, such as incidents and approvals (`AuditRebuild.RebuildIsExact`), and those are
  also the edges that the verifier reports as extra (`AuditEdges.ExtraIff`).
- AuditService's `canonicalJSON` turns an array that is an element of an array into an object
  (`Serializers.AuditAgreesIffFlat`), and the worker orders array-index keys as text
  (`Serializers.WorkerAgreesIffStraight`).
- `verifyAuditChain` does not check sequence numbers, and hashes the stored text of a v1 row where
  `verifyRunChain` hashes its canonical form (`AuditChain.VerifiersAgreeIffNumbered`,
  `AuditChain.RunAcceptsIffCanonical`).
- v1 event hashes carry no run id but must be unique over all runs
  (`EventStore.LegacyRefusedIff`).
- Approval requests and decisions are written first and logged afterwards, outside any transaction
  (run-service.ts:998-1029, 1069-1087), so a process that dies in between leaves a row without its
  event; the model has the two as two operations.
- Reading a run's guard state before its first observation counts as progress, so the promise that
  a run that just started is never stagnant fails (`ProgressGuard.PeekedRunStagnates`; exact
  condition in `ProgressGuard.ProgressFreeStagnatesIff`). With the default budgets the unique and the steps budget
  can never be what rejects an observation (`ProgressGuard.DefaultsHaveDeadBudgets`).

## Model

The rows up to `KnowledgeSearch.ProducerIsAccepted` are the results: what holds over runs,
interleavings, chains and inputs. The next nine say of single calls when they are accepted and what
their errors mean. The rows from `ProtocolService.EffectProtocolService.Prepare` on are refinements:
methods that update an object in place, statement by statement and with rollback, each proved to end
in the state that the specification function of the same method gives; the results are about those
functions.

| member | source | states |
|---|---|---|
| `ExactlyOnce.AppliedAtMostOnce` | ogra-desktop/src/core/durable-mock-driver.ts:166-236 | whatever the interleaving of prepares, intents, deliveries, crashes, unknown outcomes and retries, an adapter that honours its key applies each effect at most once; every issued call carries the command sealed at prepare, and no other effect can use up the key |
| `ExactlyOnce.DeliveredMeansAppliedOnce` | ogra-desktop/src/core/durable-mock-driver.ts:187-206 | after any delivery the effect has been applied exactly once, with the delivered payload |
| `ExactlyOnce.CallsCarryTheirPrepare` | ogra-desktop/src/core/effect-protocol-service.ts:224-242 | every call ever issued, and every application, of an effect carries the payload, key, fingerprint, route, policy hash, adapter kind and pinned fields that the prepare which created the effect was given, each by name |
| `DurableMockDriver.DurableMockEffectDriver.RunPrepare` | ogra-desktop/src/core/durable-mock-driver.ts:104-158 | a lease row is taken if the run has none, then prepare; the pair database and adapter stays a reachable state of the end-to-end system |
| `DurableMockDriver.DurableMockEffectDriver.RunAdapterAndCommit` | ogra-desktop/src/core/durable-mock-driver.ts:166-248 | wherever the drive crashes, the system invariant holds; once the adapter is called the effect is applied exactly once; `committed` is reported only of a committed effect whose callback was made |
| `DurableMockDriver.DurableMockEffectDriver.RunResume` | ogra-desktop/src/core/durable-mock-driver.ts:258-283 | a resuming process keeps the same invariant and reports the state the database holds |
| `Kernel.LedgerOpsAreAtomic` | ogra-desktop/src/core/effect-protocol-service.ts:485-592 | every operation on effects has its whole effect or none; a refusal can only add one line to the capsule-failure log |
| `Evolution.RunEvolves` | ogra-desktop/src/core/database.ts:1592-1663 | between any two moments of any run no row is lost of any table but the audit-edge index, identities are fixed, revisions and versions only grow, and an equal revision means an equal row |
| `Replay.LedgerIsReplay` | ogra-desktop/src/core/durable-runtime-service.ts:452-527 | in every reachable state each effect's state and revision are the fold of its audit events from (planned, 1), every step is an edge of the table, and keys are unique |
| `Replay.RevisionFixesRow` | ogra-desktop/src/core/durable-runtime-types.ts:89-101 | along a run an effect walks the transition table one edge per revision; one revision is one row; terminal states are never left |
| `Lifecycles.EffectMovesIff` | ogra-desktop/src/core/durable-runtime-types.ts:89-101 | the generic transition is accepted exactly at the expected state and revision for a state that may follow, given by what each state follows |
| `AuditTrail.LogIsTrail` | ogra-desktop/src/core/durable-runtime-service.ts:1512-1583 | the log of any run is exactly the events of its accepted operations, in order, each about its own run and row; refusals leave none |
| `AuditTrail.IntentFailures` | ogra-desktop/src/core/effect-protocol-service.ts:451-473 | the capsule-failure log gains a line exactly for a refused intent whose capsule is missing, expired or invalid, for the attempt that was tried |
| `AuditTrail.UnknownFailures` | ogra-desktop/src/core/effect-protocol-service.ts:944-953 | and one for every unknown outcome |
| `AuditTrail.VerdictFailures` | ogra-desktop/src/core/ingress-review-service.ts:319-336 | and one for a verdict whose result does not open or is not the reviewed one |
| `Refusals.PlanAnswers` | ogra-desktop/src/core/durable-runtime-service.ts:339-433 | over all runs an effect is planned exactly in a frame of its run under a key that no effect has; otherwise the error is true |
| `LeaseFencing.LeaseWritesBump` | ogra-desktop/src/core/durable-runtime-service.ts:1200-1351 | every write of a lease row raises its version by exactly one, and nothing else writes it |
| `LeaseFencing.OneHonouredFence` | ogra-desktop/src/core/effect-protocol-service.ts:1129-1141 | at most one pair of holder and version is honoured for a run at a time, even by writers that compare different instants |
| `LeaseFencing.StaleFenceStaysStale` | ogra-desktop/src/core/effect-protocol-service.ts:1129-1141 | a pair that stopped being honoured is never honoured again, and one that lost the lease row never gets it back, in any continuation |
| `LeaseFencing.GuardedWritesAreFenced` | ogra-desktop/src/core/effect-protocol-service.ts:529-538 | between two accepted guarded writes of a run under one version (intents, commits, late commits, verdicts at whatever instant, repair commits) none is accepted from anybody else |
| `LeaseFencing.FencedAtCommitIff` | ogra-desktop/src/core/ingress-review-service.ts:164-237 | a guarded write is fenced at the clock of its transaction exactly if its lease expires later, hence always unless the verdict's instant lies behind the clock |
| `VerdictExpiry.LandsExpiredIff` | ogra-desktop/src/core/ingress-review-service.ts:158-237 | looking ahead: a verdict on a received effect, under an issued token, can be accepted after its lease has expired in some protocol continuation if and only if the token is still the lease row's, the instant lies before the expiry, the reviewed result outlives the lease, and nothing else refuses it |
| `SplitWitnesses.ExpiredLeaseCommitsVerdict` | ogra-desktop/src/core/ingress-review-service.ts:164-237 | the failing side: a verdict whose instant was captured in time commits the effect under an expired lease |
| `LeaseFencing.OneVersionOneLease` | ogra-desktop/src/core/effect-protocol-service.ts:1055-1081 | one version of the lease row presented at both ends of a run means the row never changed in between |
| `LeaseFencing.GuardedWritesAreOrdered` | ogra-desktop/src/core/effect-protocol-service.ts:529-538 | two accepted guarded writes of a run, at whatever instants, either share one unchanged lease or the older pair is dead for good |
| `LeaseTerms.RenewalLasts` | ogra-desktop/src/core/durable-runtime-service.ts:1269-1318 | a renewal is accepted exactly from the holder of an honoured token, and in every continuation the new token is honoured exactly until somebody writes the row or max(1, ttl) has passed since the renewal |
| `LeaseTerms.AcquisitionLasts` | ogra-desktop/src/core/durable-runtime-service.ts:1200-1267 | an acquisition is accepted exactly if nobody else holds an honoured token; the live holder gets the lease as it stands, anybody else the next version for max(1, ttl) from now in every continuation |
| `LeaseTerms.ReleaseEnds` | ogra-desktop/src/core/durable-runtime-service.ts:1320-1351 | a release by the holder ends the token in every continuation and frees the lease for anybody; by another it does nothing, under another version it is refused |
| `LeaseTerms.OnlyTheHolderMoves` | ogra-desktop/src/core/durable-runtime-service.ts:1218-1225 | a live lease is only ever changed by its holder under its version |
| `Lineage.CapsulesAreOneToK` | ogra-desktop/src/core/effect-protocol-service.ts:438-496 | the callback capsules of a prepared effect are exactly attempts 1..k for its highest intent k, each a copy of the capsule sealed at prepare with its plaintext and expiry; a planned effect has none |
| `Lineage.ApprovedAttemptsInOrder` | ogra-desktop/src/core/effect-protocol-service.ts:539-579 | an effect approved from its first intent is called as 1, 2, ..., k, with one binding and one capsule each |
| `Lineage.RepeatsIffAlreadySealed` | ogra-desktop/src/core/effect-protocol-service.ts:451-493 | an accepted intent repeats an attempt number if and only if it is a retry whose capsule is already sealed, and then the effect was not approved from its start |
| `Witnesses.AttemptNumberReused` | ogra-desktop/src/core/effect-protocol-service.ts:438-496 | distinct attempt numbers fail without approval: a run whose intents are 1, 2, 2 |
| `Conservation.AuthorityIsConserved` | ogra-desktop/src/core/effect-protocol-service.ts:610-726 | bindings and consumptions correspond one to one; every approval's consumptions number uses_consumed, at most use_limit |
| `Conservation.ApprovedCallsAreBounded` | ogra-desktop/src/core/effect-protocol-service.ts:339-351 | an effect approved from its first intent is called exactly as often as its approvals were consumed, at most the sum of their limits |
| `ApprovalGate.IntentIsAuthorised` | ogra-desktop/src/core/effect-protocol-service.ts:650-680 | over all runs: an accepted intent that names an approval rests on a row that is approved and unexpired, of the type for a first call or a retry, and that names this effect and equals it on run, workspace, scope, payload and policy, each by name |
| `ApprovalGate.IntentTakesAUse` | ogra-desktop/src/core/effect-protocol-service.ts:690-725 | it had a use left, takes exactly one, and records approval, revision and kind of the attempt |
| `ApprovalGate.IntentHasHistory` | ogra-desktop/src/core/effect-protocol-service.ts:664-668 | and behind that row stand the request with these very terms, an accepted approval of it, and no revocation since |
| `ApprovalGate.ApprovedIff` | ogra-desktop/src/core/run-service.ts:1042-1089 | a row is approved if and only if its approval was accepted and it was not revoked since |
| `ApprovalGate.EveryRowWasRequested` | ogra-desktop/src/core/run-service.ts:998-1014 | every approval row is still on the terms of the one request that made it |
| `ApprovalGate.RevisionTellsRevoked` | ogra-desktop/src/core/run-service.ts:1113-1117 | over all runs an approval has revision 2 if it was revoked and 1 if not, so bindings and consumptions name a revision that a revocation outdates |
| `ApprovalGate.RevokedForGood` | ogra-desktop/src/core/run-service.ts:1091-1131 | after an accepted revocation no intent is ever accepted under that approval, whatever happens next |
| `ApprovalGate.DeniedForGood` | ogra-desktop/src/core/run-service.ts:1069-1076 | nor after an accepted denial |
| `Provenance.ApprovalIsBound` | ogra-desktop/src/core/effect-protocol-service.ts:339-351 | the approval given to an accepted prepare belongs to its effect, at revision 1, for good |
| `Provenance.BoundApprovalIsTaken` | ogra-desktop/src/core/effect-protocol-service.ts:339-351 | so under it every intent of another effect is refused, and every prepare but a repetition of an accepted one |
| `Evidence.AnsweredEffectsAreBacked` | ogra-desktop/src/core/effect-protocol-service.ts:761-896 | under protocol steps: at most one receipt per effect, present exactly in received, committed, quarantined and failed, applied and backed by an intact sealed result; verdicts carry that result's digest |
| `ToolReview.ToolCommitsAreReviewed` | ogra-desktop/src/core/effect-protocol-service.ts:1038-1046 | however pre-reads and transactions of all callers interleave: if every pre-read for committing an effect finds its tool row, the effect ends committed only by an accepted review of the very result that was sealed |
| `ToolReview.SafeIffNoneCanFinish` | ogra-desktop/src/core/effect-protocol-service.ts:1038-1123 | the exact condition: once the tool row of an uncommitted effect is there, every continuation commits it only with such a review if and only if every commit whose pre-read came before the row already fails one of the checks that its transaction repeats |
| `ToolReview.UnansweredToolIsSafe` | ogra-desktop/src/core/effect-protocol-service.ts:1038-1046 | so, whatever commits are open, an effect whose tool row is there while it is neither received nor committed is never committed without review |
| `SplitWitnesses.ToolInsideCommitIsUnreviewed` | ogra-desktop/src/core/effect-protocol-service.ts:1040-1105 | the interleaving in which it fails: the tool row arrives between pre-read and transaction, is there when the transaction runs, and the effect is committed without review |
| `Evidence.ReviewedIffNotCommittedDirectly` | ogra-desktop/src/core/ingress-review-service.ts:428-454 | over all protocol runs, late commits included, a committed effect has an accepted review if and only if the audit log does not show that commitToTerminal committed it |
| `Witnesses.LateToolIsUnreviewed` | ogra-desktop/src/core/effect-protocol-service.ts:1040-1046 | the other failing run: a re-prepare registers the tool after the commit |
| `Acceptance.CommitAcceptedIff` | ogra-desktop/src/core/effect-protocol-service.ts:1038-1220 | on reachable states a terminal commit is accepted exactly under its visible conditions, rows, revision, attempt, lease, receipt, expiry and no tool row, each spelled out: nothing the protocol stored fails verification |
| `Acceptance.IntentAcceptedIff` | ogra-desktop/src/core/effect-protocol-service.ts:426-726 | on reachable states an intent is accepted exactly under its visible conditions, every condition on the approval row spelled out, and answers the next revision, the lease it runs under and the command sealed at prepare |
| `VerdictExpiry.VerdictAcceptedIff` | ogra-desktop/src/core/ingress-review-service.ts:158-453 | over protocol runs a verdict at any instant is accepted exactly if the token was alive then, the digest is that of the sealed result, which has not expired, the receipt reports success, and the identifiers are free |
| `Provenance.PrepareAcceptedIff` | ogra-desktop/src/core/effect-protocol-service.ts:206-420 | over all runs a prepare is accepted exactly if it repeats the very command of the same frame, or its key is new and the approval it names is approved and free; it answers the effect with that key |
| `Provenance.EveryEffectWasCreated` | ogra-desktop/src/core/effect-protocol-service.ts:320-338 | every effect was created by one accepted call, and each identifying column is still what that call was given |
| `Provenance.CreatedOnce` | ogra-desktop/src/core/effect-protocol-service.ts:275-338 | no effect is created twice |
| `Provenance.CapsulesAreSealedByPrepare` | ogra-desktop/src/core/effect-protocol-service.ts:367-389 | every callback capsule of every attempt holds, field by field, the command that the prepare of its effect was given, for its workspace and one week |
| `Provenance.IntentsHandOutThePrepared` | ogra-desktop/src/core/effect-protocol-service.ts:471-473 | what an accepted intent hands out is, field by field, what that prepare was given |
| `Provenance.ToolsAreRegistered` | ogra-desktop/src/core/effect-protocol-service.ts:311-416 | an effect has a tool row if and only if an accepted prepare of it registered one |
| `IntentLog.RowNamesLastIntent` | ogra-desktop/src/core/effect-protocol-service.ts:564-575 | the effect row names the attempt of its last intent in the log, and the last approval an intent named or else that of the prepare |
| `Results.ReceiptSealsTheReport` | ogra-desktop/src/core/effect-protocol-service.ts:794-896 | after an accepted receipt the result opens to the attempt, statuses, request and result text that the caller reported, each by name, and the receipt is bound to it by its digests |
| `Results.EveryReceiptWasReported` | ogra-desktop/src/core/effect-protocol-service.ts:794-896 | every receipt was reported by one call, and row and sealed result still hold that report |
| `Results.CommitOpensTheReport` | ogra-desktop/src/core/effect-protocol-service.ts:1159-1220 | what a terminal commit opens is what the receipt it names reported, for this effect and attempt |
| `Results.VerdictOpensTheReport` | ogra-desktop/src/core/ingress-review-service.ts:259-336 | what a verdict is about is what the effect's own receipt reported, and the reviewer's digest is the digest of that |
| `Results.EveryDecisionWasGiven` | ogra-desktop/src/core/ingress-review-service.ts:345-369 | every review decision and its finding are still what one accepted verdict gave |
| `Results.EveryFindingWasMade` | ogra-desktop/src/core/effect-protocol-service.ts:1085-1092 | every finding is still what one accepted commit, which accepts, or verdict said |
| `Refusals.PrepareRefusals` | ogra-desktop/src/core/effect-protocol-service.ts:265-351 | every error of a refused prepare is true of the state, for all runs; a capsule error never happens |
| `Refusals.IntentRefusals` | ogra-desktop/src/core/effect-protocol-service.ts:428-563 | every error of a refused intent is true of the state: which row, revision, attempt, capsule, lease or approval is not as demanded |
| `Refusals.ReceiptAnswers` | ogra-desktop/src/core/effect-protocol-service.ts:733-850 | a receipt is accepted exactly if it reports an application for an effect in flight and an attempt without receipt; otherwise its error is true |
| `Refusals.CommitRefusals` | ogra-desktop/src/core/effect-protocol-service.ts:1038-1220 | over protocol runs every error of a refused commit is true and none blames a stored receipt or result; a capsule failure is logged exactly for an expired result |
| `Refusals.VerdictRefusals` | ogra-desktop/src/core/ingress-review-service.ts:158-336 | over protocol runs every error of a refused verdict is true; a capsule error means an expired result or another digest |
| `Forest.ReachableForest` | ogra-desktop/src/core/durable-runtime-service.ts:188-232 | frames form one forest per run, stored paths are parent paths, and subtree revision is 1 plus own transitions plus direct children |
| `Forest.PathsNest` | ogra-desktop/src/core/durable-runtime-service.ts:188-232 | every prefix of a stored path is the stored path of the frame that ends it |
| `Forest.PathsAreSimple` | ogra-desktop/src/core/durable-runtime-service.ts:314-326 | no frame is its own ancestor and no frame is on a path twice |
| `Lifecycles.FrameMovesIff` | ogra-desktop/src/core/durable-runtime-types.ts:39-46 | a frame that is not over may go anywhere but back to pending, except that a pending one cannot complete, and exactly that is accepted |
| `Lifecycles.FramesEndForGood` | ogra-desktop/src/core/durable-runtime-service.ts:251-304 | over every run a frame that is over stays as it ended, and none becomes pending again |
| `Lifecycles.CompletedFramesRan` | ogra-desktop/src/core/durable-runtime-service.ts:251-304 | every completed frame was running or awaiting approval at an earlier moment |
| `AuditEdges.MissingIffLost` | ogra-desktop/src/core/durable-runtime-service.ts:1403-1501 | after any run, rebuilds cut off anywhere included: an expected edge is missing if and only if it was expected when its run's edges were last dropped and no insert of a rebuild has put it back since |
| `AuditEdges.NothingIsMissingIff` | ogra-desktop/src/core/durable-runtime-service.ts:1403-1501 | so nothing is missing if and only if the run's edges were never dropped, or everything expected at the last drop has been put back since |
| `AuditEdges.ExtraIff` | ogra-desktop/src/core/durable-runtime-service.ts:1444-1453 | what the verifier calls extra are exactly the run's edges of relations it does not derive |
| `AuditLinks.LinkedIff` | ogra-desktop/src/core/durable-runtime-service.ts:1373-1396 | the other edges, approvals used, incidents, cancellations, findings and reviews, are after any run exactly those that accepted calls left and no DELETE of a rebuild removed since, filed under the run of their effect |
| `AuditRebuild.RebuildIsExact` | ogra-desktop/src/core/durable-runtime-service.ts:1461-1501 | a rebuild that runs to its end with nobody in between leaves exactly the expected edges, drops every edge of another relation, and touches neither other runs nor other tables |
| `AuditRebuild.CompleteRebuildLosesNothing` | ogra-desktop/src/core/durable-runtime-service.ts:1461-1501 | a rebuild that puts back what was expected at its DELETE leaves nothing missing, whatever others do meanwhile short of dropping the run's edges again |
| `AuditRebuild.CutRebuildLosesTheRest` | ogra-desktop/src/core/durable-runtime-service.ts:1461-1501 | a rebuild that dies after some inserts has lost exactly the expected edges it did not reach |
| `Witnesses.CutRebuildLosesAnEdge` | ogra-desktop/src/core/durable-runtime-service.ts:1463-1476 | a run in which the process dies between DELETE and first insert, and the edge of a prepared effect is missing |
| `RepairSafety.RepairVerifiedIff` | ogra-desktop/src/core/durable-runtime-service.ts:802-869 | the verifier accepts exactly the duplicate-free, evidenced, in-scope plans whose dependencies precede their dependents, on the snapshotted frame |
| `Lifecycles.RepairCreatedIff` | ogra-desktop/src/core/durable-runtime-service.ts:682-800 | a repair is created exactly for an admitted plan on the snapshotted frame of its run |
| `Lifecycles.RepairMovesIff` | ogra-desktop/src/core/durable-runtime-service.ts:1072-1162 | a repair is accepted once, committed only after that and only with a live lease and a plan that still verifies, and otherwise rejected or aborted, and exactly that is accepted |
| `Lifecycles.EveryRepairWasRequested` | ogra-desktop/src/core/durable-runtime-service.ts:740-800 | every repair row is still what one creation requested, apart from its status |
| `Refusals.PlanRefusals` | ogra-desktop/src/core/durable-runtime-service.ts:802-869 | a refused plan is refused for something it contains: the error names a step or an order that is there |
| `Refusals.StatusRefusals` | ogra-desktop/src/core/durable-runtime-service.ts:1072-1162 | and every error of a refused status change is true of the repair, the plan or the lease |
| `RepairSafety.DependenciesComeFirst` | ogra-desktop/src/core/durable-runtime-service.ts:846-868 | in an accepted plan every transitive dependency of a step occurs strictly earlier |
| `RepairSafety.AdmittedPlansAreAcyclic` | ogra-desktop/src/core/durable-runtime-service.ts:846-868 | hence the dependencies are acyclic on the plan |
| `RepairSafety.CommittedRepairsFoundTheirWorld` | ogra-desktop/src/core/durable-runtime-service.ts:1072-1162 | between creation and commit of a committed repair no plan effect moved and the target frame neither changed status nor gained a direct child |
| `RepairSafety.CommittedInVerifiedWorld` | ogra-desktop/src/core/durable-runtime-service.ts:1072-1162 | the same when creation is split, and the commit came from accepted under an active lease of the presented version |
| `RepairSafety.SplitRepairsFoundTheirWorld` | ogra-desktop/src/core/durable-runtime-service.ts:682-800 | the same over every interleaving of pre-reads and transactions, from the pre-read that verified the plan |
| `SplitRuns.SplitRunsAreKernelRuns` | ogra-desktop/src/core/effect-protocol-service.ts:426-1123 | composition: any interleaving of the pre-reads and transactions of any number of callers of all these methods is a run of kernel operations, and every open call still holds what some moment of the run showed it |
| `SplitRuns.SplitRunEvolves` | ogra-desktop/src/core/effect-protocol-service.ts:426-1123 | so later states of such interleavings have evolved from earlier ones |
| `SplitStep.CasSplitIsAtomic` | ogra-desktop/src/core/effect-protocol-service.ts:426-593 | an intent cut into pre-read and transaction, with anything in between, either leaves the database alone or is the atomic intent under the captured lease version |
| `SplitStep.CasPreRefusesWhole` | ogra-desktop/src/core/effect-protocol-service.ts:426-484 | a refused pre-read is the refusal of the atomic intent |
| `SplitStep.ReceiptSplitIsAtomic` | ogra-desktop/src/core/effect-protocol-service.ts:761-896 | the receipt, though it compares only the state, is atomic: both directions |
| `SplitStep.UnknownSplitIsAtomic` | ogra-desktop/src/core/effect-protocol-service.ts:904-978 | likewise the unknown outcome |
| `SplitStep.CancelSplitIsAtomic` | ogra-desktop/src/core/effect-protocol-service.ts:985-1032 | likewise the cancellation |
| `SplitStep.PlanSplitIsAtomic` | ogra-desktop/src/core/durable-runtime-service.ts:339-433 | likewise planning an effect, where a key taken meanwhile is refused by the index |
| `SplitStep.ChildSplitIsAtomic` | ogra-desktop/src/core/durable-runtime-service.ts:188-232 | a split child frame, whose path comes from the parent as it was read, is the atomic one, errors included |
| `SplitStep.MoveSplitIsAtomic` | ogra-desktop/src/core/durable-runtime-service.ts:452-527 | the generic transition, though it compares only the revision again, is the atomic one, errors included |
| `SplitStep.CommitSplitIsAtomicIff` | ogra-desktop/src/core/effect-protocol-service.ts:1038-1123 | a split commit is the atomic one if and only if no tool row appeared since the pre-read |
| `SplitStep.CommitSplitIsLate` | ogra-desktop/src/core/effect-protocol-service.ts:1055-1105 | whatever the tool table says by then, the split commit is the kernel's late commit, in both directions |
| `SplitStep.FinalizeSplitIsAtomicIff` | ogra-desktop/src/core/ingress-review-service.ts:158-237 | a verdict at any instant, captured or supplied, past or future, is the atomic one at the transaction's clock if and only if the lease is live then |
| `SplitStep.CreateSplitIsAtomicIff` | ogra-desktop/src/core/durable-runtime-service.ts:682-800 | a split repair creation is the atomic one if and only if the plan still verifies |
| `SplitWitnesses.StaleRepairIsRecorded` | ogra-desktop/src/core/durable-runtime-service.ts:720-760 | the failing side: the frame moves in between and the repair is recorded although its plan no longer verifies |
| `SplitStep.StatusSplitIsAtomic` | ogra-desktop/src/core/durable-runtime-service.ts:1072-1162 | a split repair status change is atomic |
| `JsonRoundTrip.ParsePrinted` | ogra-desktop/src/core/audit-envelope.ts:36-38 | parsing a printed tree gives the tree back |
| `JsonRoundTrip.PrintIsInjective` | ogra-desktop/src/core/audit-envelope.ts:36-38 | trees that print alike are equal |
| `JsonRoundTrip.QuoteIsShortest` | ogra-desktop/src/core/audit-envelope.ts:36-38 | no text that reads as a string is shorter than the printed one: nothing is escaped needlessly and every short escape is used |
| `JsonRoundTrip.EscapeIsLowerCase` | ogra-desktop/src/core/audit-envelope.ts:36-38 | and the digits of a long escape are lower-case |
| `CanonicalJson.CanonicalReadsBack` | ogra-desktop/src/core/audit-envelope.ts:36-52 | the canonical text parses to the key-sorted tree, which equals the original up to key order |
| `CanonicalJson.CanonicalIff` | ogra-desktop/src/core/audit-envelope.ts:36-52 | two trees have one canonical text if and only if they are equal up to key order |
| `CanonicalJson.CanonicalIsStable` | ogra-desktop/src/core/database-service.ts:276-292 | parsing canonical text and printing it again changes nothing |
| `KeyOrder.EnumerateIsSort` | ogra-desktop/src/core/audit-envelope.ts:43-49 | filling an object in sorted order and enumerating it as JavaScript does is one sort: array-index keys by value, then the rest by code unit |
| `KeyOrder.LexLessIff` | ogra-desktop/src/core/audit-envelope.ts:43-49 | the order of sort(): at the first difference the smaller code unit first, a proper prefix before its extension |
| `KeyOrder.IndexIff` | ogra-desktop/src/core/audit-envelope.ts:43-49 | the array indices are the decimal numerals of the numbers below 2^32 - 1 |
| `Serializers.AuditAgreesIffFlat` | ogra-desktop/src/core/audit-service.ts:28-51 | AuditService prints as Core does if and only if no array is directly inside an array |
| `Serializers.AuditTextIsAmbiguous` | ogra-desktop/src/core/audit-service.ts:28-51 | otherwise two different trees share one text |
| `Serializers.WorkerPrintsTree` | ogra-desktop/src/core/ingress-review-worker.js:19-24 | the one-pass worker printer prints the tree sorted purely by code unit |
| `Serializers.WorkerAgreesIffStraight` | ogra-desktop/src/core/ingress-review-worker.js:19-24 | the worker agrees with Core if and only if both key orders coincide in every object |
| `Serializers.NoIndexKeysIsStraight` | ogra-desktop/src/core/ingress-review-worker.js:19-24 | which holds when no key is an array index |
| `AuditEnvelope.V2InputIsInjective` | ogra-desktop/src/core/audit-envelope.ts:66-99 | the v2 hash input determines every signed field, null and empty string apart |
| `AuditEnvelope.V2InputNames` | ogra-desktop/src/core/audit-envelope.ts:66-99 | read as JSON, the v2 input has each of the twelve members under its own name with its own column |
| `AuditEnvelope.V1InputIsNoV2Input` | ogra-desktop/src/core/audit-envelope.ts:55-99 | no v1 input is a v2 input |
| `AuditEnvelope.InputIsInjective` | ogra-desktop/src/core/audit-envelope.ts:55-99 | one hash input, one signed part, whatever the versions |
| `AuditChain.SameLastHashSameChain` | ogra-desktop/src/core/durable-runtime-service.ts:1590-1699 | two accepted chains, of any versions, with one last event hash have one length and agree event by event on everything signed |
| `AuditChain.RewriteAcceptedIff` | ogra-desktop/src/core/durable-runtime-service.ts:1590-1699 | a stored chain rewritten behind its event hashes is still accepted exactly if nothing signed changed |
| `AuditChain.VerifiersAgreeIffNumbered` | ogra-desktop/src/core/database-service.ts:252-316 | on non-empty chains with canonical v1 rows, verifyRunChain accepts exactly what verifyAuditChain accepts and the sequence numbers confirm |
| `AuditChain.RunAcceptsIffCanonical` | ogra-desktop/src/core/database-service.ts:275-316 | of the numbered chains that verifyAuditChain accepts, verifyRunChain accepts exactly those whose v1 rows store canonical JSON and its hash |
| `AuditChain.LegacyTextDivides` | ogra-desktop/src/core/database-service.ts:282-292 | without canonical v1 rows they differ: a legacy text one accepts and the other cannot parse |
| `EventOrder.OrderSorts` | ogra-desktop/src/core/database-service.ts:253-255 | the ordered selection has the same rows, by sequence |
| `EventStore.EveryChainVerifies` | ogra-desktop/src/core/durable-runtime-service.ts:1512-1739 | any program of both database appenders, the legacy appender, nested bodies, throws, caught throws and the migration leaves every non-empty chain accepted by both verifiers |
| `EventStore.PerformKeepsSound` | ogra-desktop/src/core/database-service.ts:167-232 | the same from any sound table |
| `EventStore.PerformAppendsOnly` | ogra-desktop/src/core/durable-runtime-service.ts:1512-1583 | no program rewrites or drops an earlier row |
| `EventLog.PerformLogs` | ogra-desktop/src/core/database-service.ts:167-232 | every program of the appenders grows the table by exactly the events of its committed appends, in order, each row holding id, run key, workspace, type, canonical payload, policy and redaction values, version and creation time of its caller, by name |
| `EventLog.ChainIsLog` | ogra-desktop/src/core/durable-runtime-service.ts:1512-1739 | so the chain of a run, as both verifiers read it, lists exactly the events that were committed for the run, in their order |
| `EventStore.AuditedIsAtomic` | ogra-desktop/src/core/durable-runtime-service.ts:1512-1583 | the event and its body commit together or leave the table as it was |
| `EventStore.AuditedRefusedIff` | ogra-desktop/src/core/database.ts:2122-2136 | barring collisions a v2 append fails exactly if the event id is taken |
| `EventStore.LegacyRefusedIff` | ogra-desktop/src/core/database.ts:2122-2136 | a v1 append also fails when any run stores the same payload after the same hash |
| `EventStore.SecondLegacyRunRefused` | ogra-desktop/src/core/durable-runtime-service.ts:1702-1739 | so the second of two runs with one first legacy payload cannot begin |
| `EventStoreService.RunEvents.VerifyRunChain` | ogra-desktop/src/core/database-service.ts:252-316 | valid exactly if numbered and every row checks; brokenAt is the first bad row |
| `EventStoreService.RunEvents.VerifyAuditChain` | ogra-desktop/src/core/durable-runtime-service.ts:1590-1699 | ok exactly if non-empty and every row checks; versions counted; brokenAt is the first bad row |
| `AuditService.AuditLog.VerifyChain` | ogra-desktop/src/core/audit-service.ts:161-194 | valid exactly if numbered and chained; brokenAt is the first unchained record |
| `AuditService.AuditLog.AlwaysVerifies` | ogra-desktop/src/core/audit-service.ts:94-194 | a log built by appendEvent passes its own verifier for every run |
| `AuditService.PayloadRewriteIff` | ogra-desktop/src/core/audit-service.ts:161-194 | a rewritten payload passes exactly if it prints alike |
| `ProgressGuard.SnapshotCountsLedger` | ogra-desktop/src/core/progress-guard.ts:209-394 | after any calls the persisted counters are the quantities of the ledger, and the run is terminated exactly if its last row is a rejection |
| `ProgressGuard.LedgerIsHistory` | ogra-desktop/src/core/progress-guard.ts:209-394 | the ledger is the sequence of valid observations up to the rejection, and steps are the sum of their progress |
| `ProgressGuard.AcceptedIff` | ogra-desktop/src/core/progress-guard.ts:276-333 | after any calls, an observation is accepted exactly if the history with it on keeps every budget: number of observations, sum of progress, distinct recent targets, time since the first touch, repetitions, time since the last progress |
| `ProgressGuard.DecisionIs` | ogra-desktop/src/core/progress-guard.ts:276-345 | which reason an observation is rejected with, from the history alone: the first broken of six budgets in this order, three of which report the same reason |
| `ProgressGuard.AcceptedWithinBudget` | ogra-desktop/src/core/progress-guard.ts:276-333 | at most maxActionCount observations are ever accepted |
| `ProgressGuard.LoopIsNeverAccepted` | ogra-desktop/src/core/progress-guard.ts:276-333 | repeatThreshold equal targets in a row are never all accepted |
| `ProgressGuard.TerminationFreezes` | ogra-desktop/src/core/progress-guard.ts:240-252 | termination freezes ledger, counters and reason |
| `ProgressGuard.WindowedCount` | ogra-desktop/src/core/progress-guard.ts:260-274 | the windowed count is at most repeatWindow + 1, reached exactly by a full window of different targets and a new one |
| `ProgressGuard.UniqueBudgetIsDead` | ogra-desktop/src/core/progress-guard.ts:58-66 | with maxUniqueActions above the window, as in the defaults, the unique budget decides nothing |
| `ProgressGuard.NegativeWindowCountsAll` | ogra-desktop/src/core/progress-guard.ts:260-266 | a negative window counts for life |
| `ProgressGuard.StepsBudgetIsDead` | ogra-desktop/src/core/progress-guard.ts:58-66 | with maxTotalSteps at least maxActionCount, as in the defaults, no rejection ever names the steps budget |
| `ProgressGuard.DefaultsHaveDeadBudgets` | ogra-desktop/src/core/progress-guard.ts:58-66 | after any calls under the default configuration: raising the unique budget changes nothing, and no row was rejected for its steps |
| `ProgressGuard.StagnantIff` | ogra-desktop/src/core/progress-guard.ts:322-333 | for every configuration and history, an observation breaches stagnation exactly if stagnationMs have passed since the last recorded progress or, without any, since a read that came before the first observation |
| `ProgressGuard.ProgressFreeStagnatesIff` | ogra-desktop/src/core/progress-guard.ts:154-201 | a run without progress holds a progress instant exactly if its first touch was a read, and is stagnant exactly stagnationMs after that; later reads do not matter |
| `ProgressGuard.IdleNeverStagnates` | ogra-desktop/src/core/progress-guard.ts:322-333 | a run without progress that nobody read before its first observation is never stagnant, however it is read afterwards |
| `ProgressGuard.PeekedRunStagnates` | ogra-desktop/src/core/progress-guard.ts:187-191 | an input that breaks the documented exemption: read, wait over five minutes, observe |
| `Utf8.DecodeEncoded` | ogra-desktop/src/core/knowledge-search-adapter.ts:128-134 | decoding an encoded text gives it back |
| `Utf8.EncodeDecoded` | ogra-desktop/src/core/knowledge-search-adapter.ts:128-134 | only the encoding of a text decodes to it |
| `Utf8.EncodesAreUtf8Chars` | ogra-desktop/src/core/knowledge-search-adapter.ts:128-134 | every encoding is a UTF8-char of section 4 of RFC 3629 |
| `Utf8.Utf8CharDecodes` | ogra-desktop/src/core/knowledge-search-adapter.ts:128-134 | and every UTF8-char is the encoding of a character |
| `Utf8.EncodeKeepsOrder` | ogra-desktop/src/core/knowledge-search-adapter.ts:128-134 | in the order of the characters |
| `Utf8.TruncateUtf8ToBytes` | ogra-desktop/src/core/knowledge-search-adapter.ts:128-134 | the byte loop returns the longest whole-character prefix within the budget |
| `Utf8.TruncatedTwice` | ogra-desktop/src/core/rag-knowledge-port.ts:159 | truncating in the port and again in the adapter is truncating once to the smaller budget |
| `KnowledgeSearch.ScopeIs` | ogra-desktop/src/core/knowledge-search-adapter.ts:136-143 | the scope is the requested enabled knowledge bases, each once |
| `KnowledgeSearch.NormaliseIff` | ogra-desktop/src/core/rag-knowledge-port.ts:29-49 | the known spellings of a classification are the stored one and the uncapitalised one, each of one classification |
| `KnowledgeSearch.RankIsOrder` | ogra-desktop/src/core/rag-knowledge-port.ts:51-57 | the ranks order the classifications from public to restricted |
| `KnowledgeSearch.SearchPort` | ogra-desktop/src/core/rag-knowledge-port.ts:148-175 | the filter loop returns the first topK retrieved chunks that pass, bounded |
| `KnowledgeSearch.PortReturnsEligible` | ogra-desktop/src/core/rag-knowledge-port.ts:148-175 | every returned chunk is known, in scope, allowed for context and within the classification, and such a chunk is missing only when topK hits are full |
| `KnowledgeSearch.PortTakesFirst` | ogra-desktop/src/core/rag-knowledge-port.ts:148-175 | the port answers with the first topK eligible chunks in the order of the retrieval, each field by field |
| `KnowledgeSearch.AdapterAnswers` | ogra-desktop/src/core/knowledge-search-adapter.ts:287-380 | what the adapter answers, field by field: workspace, digest of the query, topK between 1 and 20, and for the first eligible chunks in order their fields, cut to the smaller byte cap, with the hash of the snippet |
| `KnowledgeSearch.InvokeAdapter` | ogra-desktop/src/core/knowledge-search-adapter.ts:287-380 | denied, or the scoped, re-bounded and re-hashed result |
| `KnowledgeSearch.Verify` | ogra-desktop/src/core/knowledge-search-adapter.ts:156-235 | accepts exactly the authorized results |
| `KnowledgeSearch.AcceptedIsBounded` | ogra-desktop/src/core/knowledge-search-adapter.ts:156-235 | whoever produced it, an accepted result has distinct in-scope chunks, at most topK, and at most topK times the cap of bytes |
| `KnowledgeSearch.BindingIsHashed` | ogra-desktop/src/core/knowledge-search-adapter.ts:178-184 | bindings that hash the same text are for the same workspace, tool version, policy and approval mode, with the same constraints up to key order |
| `KnowledgeSearch.AcceptedUnderPrepared` | ogra-desktop/src/core/knowledge-search-adapter.ts:178-189 | so a result is accepted only under the binding it was prepared with |
| `KnowledgeSearch.ProducerAcceptedIff` | ogra-desktop/src/core/knowledge-search-adapter.ts:287-380 | for a matching binding the adapter's result is accepted exactly if topK was within the schema, no chunk repeats, and the database spells the classifications alike |
| `KnowledgeSearch.ProducerIsAccepted` | ogra-desktop/src/core/knowledge-search-adapter.ts:287-380 | for schema-valid arguments and distinct stored chunks it is never rejected |
| `Refusals.UnknownAnswers` | ogra-desktop/src/core/effect-protocol-service.ts:918-926 | exactly an effect in flight becomes unknown; otherwise the error is true |
| `Refusals.CancelAnswers` | ogra-desktop/src/core/effect-protocol-service.ts:988-1000 | exactly a planned effect at the expected revision is cancelled; otherwise the error is true |
| `Refusals.TransitionRefusals` | ogra-desktop/src/core/durable-runtime-service.ts:452-527 | every error of a refused transition is true of the effect |
| `Refusals.FrameAnswers` | ogra-desktop/src/core/durable-runtime-service.ts:164-232 | a root is created exactly in a known run without one, a child exactly under a frame of its run; otherwise the error is true |
| `Refusals.MoveRefusals` | ogra-desktop/src/core/durable-runtime-service.ts:251-304 | every error of a refused frame transition is true of the frame |
| `Refusals.LeaseRefusals` | ogra-desktop/src/core/durable-runtime-service.ts:1200-1318 | every error of a refused acquisition or renewal is true of the row |
| `Refusals.ApprovalAnswers` | ogra-desktop/src/core/run-service.ts:1042-1131 | when requests, decisions and revocations are accepted, what they answer and which error they refuse with |
| `Refusals.CreationRefusals` | ogra-desktop/src/core/durable-runtime-service.ts:682-800 | so is a refused creation |
| `RepairSafety.ActionsByState` | ogra-desktop/src/core/durable-runtime-service.ts:908-918 | which repair actions each state admits |
| `ProtocolService.EffectProtocolService.Prepare` | ogra-desktop/src/core/effect-protocol-service.ts:206-420 | new or repeated prepare with hook, approval binding and rollback; new state equals the specified one |
| `ProtocolService.EffectProtocolService.CasToInFlight` | ogra-desktop/src/core/effect-protocol-service.ts:426-593 | pre-read, other callers, transaction; answer and new state as specified |
| `ProtocolService.EffectProtocolService.CheckApproval` | ogra-desktop/src/core/effect-protocol-service.ts:610-680 | true exactly if the approval covers the callback |
| `ProtocolService.EffectProtocolService.ConsumeApprovalForCallback` | ogra-desktop/src/core/effect-protocol-service.ts:610-726 | counts the use and binds it to the attempt, or refuses |
| `ProtocolService.EffectProtocolService.ApprovalGate` | ogra-desktop/src/core/effect-protocol-service.ts:539-563 | approval consumed when given, refused when required and missing |
| `ProtocolService.EffectProtocolService.RecordReceipt` | ogra-desktop/src/core/effect-protocol-service.ts:733-755 | stamps authority and records |
| `ProtocolService.EffectProtocolService.RecordTrustedReceipt` | ogra-desktop/src/core/effect-protocol-service.ts:761-896 | seals result, inserts receipt, moves the effect, or rolls back |
| `ProtocolService.EffectProtocolService.RecordUnknownOutcome` | ogra-desktop/src/core/effect-protocol-service.ts:904-978 | in_flight to unknown with its incident |
| `ProtocolService.EffectProtocolService.CancelBeforeSend` | ogra-desktop/src/core/effect-protocol-service.ts:985-1032 | planned to cancelled under the expected revision |
| `ProtocolService.EffectProtocolService.CommitToTerminal` | ogra-desktop/src/core/effect-protocol-service.ts:1038-1123 | received to committed under lease, receipt and revision |
| `ReviewService.IngressReviewService.FinalizeIngressDecision` | ogra-desktop/src/core/ingress-review-service.ts:158-552 | verdict written at the supplied or captured instant, or the failure logged after rollback |
| `RuntimeService.DurableRuntimeService.CreateChildFrame` | ogra-desktop/src/core/durable-runtime-service.ts:188-232 | parent read, others run, child inserted and parent revision raised |
| `RuntimeService.DurableRuntimeService.TransitionFrame` | ogra-desktop/src/core/durable-runtime-service.ts:251-304 | status moved along the table, revision raised |
| `RuntimeService.DurableRuntimeService.IsInSubtree` | ogra-desktop/src/core/durable-runtime-service.ts:314-326 | the parent walk terminates and equals: same frame, or target on the stored path |
| `RuntimeService.DurableRuntimeService.AcquireLease` | ogra-desktop/src/core/durable-runtime-service.ts:1200-1267 | fresh, renewed by its holder, or taken over when dead |
| `RuntimeService.DurableRuntimeService.RenewLease` | ogra-desktop/src/core/durable-runtime-service.ts:1269-1318 | only by holder and version of a live lease |
| `RuntimeService.DurableRuntimeService.ReleaseLease` | ogra-desktop/src/core/durable-runtime-service.ts:1320-1351 | marks the row released and raises the version |
| `RuntimeService.DurableRuntimeService.PlanEffect` | ogra-desktop/src/core/durable-runtime-service.ts:339-433 | owner and key checked, others run, effect inserted or refused by the index |
| `RuntimeService.DurableRuntimeService.TransitionEffect` | ogra-desktop/src/core/durable-runtime-service.ts:452-527 | row checked, others run, transition under the captured revision |
| `RuntimeService.DurableRuntimeService.VerifyRepairInvariants` | ogra-desktop/src/core/durable-runtime-service.ts:802-869 | step loop with a set, order loop with an index: the first error, or none |
| `RuntimeService.DurableRuntimeService.CreateRepair` | ogra-desktop/src/core/durable-runtime-service.ts:682-800 | verified first, inserted in a later transaction |
| `RuntimeService.DurableRuntimeService.SetRepairStatus` | ogra-desktop/src/core/durable-runtime-service.ts:1072-1162 | status table, re-verification and lease at commit |
| `RuntimeService.DurableRuntimeService.VerifyAuditEdgesForRun` | ogra-desktop/src/core/durable-runtime-service.ts:1403-1459 | the missing and the extra edges |
| `RuntimeService.DurableRuntimeService.RebuildAuditEdgesForRun` | ogra-desktop/src/core/durable-runtime-service.ts:1461-1501 | DELETE, then three loops of inserts over rows read just before each, others running before every insert, death at any insert: the state is that of exactly these statements; run to its end it covers what was expected at the start, and with nobody between it is the rebuilt index and its size |
| `RuntimeService.DurableRuntimeService.AppendEdges` | ogra-desktop/src/core/durable-runtime-service.ts:1466-1498 | one loop of inserts among other callers: every row inserted once, or death with something left to do |
| `EventStoreService.RunEvents.AppendRunEventInTransaction` | ogra-desktop/src/core/database-service.ts:167-232 | both branches of the version column; new table as specified |
| `EventStoreService.RunEvents.TransactionalAppend` | ogra-desktop/src/core/durable-runtime-service.ts:1512-1583 | event, body, rollback; new table as specified |
| `EventStoreService.RunEvents.AppendLegacyV1Event` | ogra-desktop/src/core/durable-runtime-service.ts:1702-1739 | the forced v1 event |
| `AuditService.AuditLog.AppendEvent` | ogra-desktop/src/core/audit-service.ts:94-126 | appends the next chained record of the run, keeps the map and every other record |
| `ProgressGuardService.Guard.LoadObservedState` | ogra-desktop/src/core/progress-guard.ts:154-201 | reads or seeds the snapshot; other runs unchanged |
| `ProgressGuardService.Guard.IsGuardTerminated` | ogra-desktop/src/core/progress-guard.ts:433-435 | the persisted flag, seeding an unknown run |
| `ProgressGuardService.Guard.Observe` | ogra-desktop/src/core/progress-guard.ts:209-394 | throws, reports the earlier termination, or records and persists the decision; other runs unchanged |

## Left out

- Cryptography: AES-GCM, key derivation and SHA-256 are idealised as authenticated sealed records,
  symbolic digests in the kernel, and an arbitrary hash function in the audit chain; workspace tags
  and key providers are not modelled.
- SQL text, migrations other than the version column, row mappers and timestamps as strings.
- EffectProtocol.RecordReceipt: checks neither lease nor attempt number against the last intent,
  because the code does not; the theorems do not claim it.
- EffectProtocol.ApprovalCovers: does not compare effect revisions, because the code does not.
- Evidence.AnsweredEffectsAreBacked: is about protocol steps; the generic transitionEffect can
  commit an unknown effect without a receipt, so it takes part only in the theorems on replay,
  evolution, leases, lineage, conservation, frames, edges and repairs. appendReceipt and
  recordApprovalBinding are left out.
- ToolReview.ToolCommitsAreReviewed: needs the tool row to be there at every pre-read; without that
  the claim is false of the code, and ToolReview.SafeIffNoneCanFinish says exactly when it holds.
- The recovery-approval branch (`rap_` identifiers) of approval consumption: its UPDATE has one
  placeholder for two values. Retries run through recovery_retry approvals.
- RecoveryService, including its own step from unknown to received, and the tool projection, tool
  registry, action ledger and run service other than inserting, deciding and revoking approvals:
  callers of the same methods, or writers of edges whose relations the verifier does not derive. The
  checks of a request's scope, preview and expiry, and of the caller's run and workspace, before an
  approval row is written are left out too.
- AuditLinks.LinkedIff: the edge of a recovery-approval request is not modelled.
- AuditTrail.LogIsTrail: an event is its kind with the identifiers it is about; the other members of
  its payload are left out here.
- Rows that record and are never read back by these methods: recovery decisions, quarantine
  entries, incidents, review finding details, failure kinds and texts.
- The evidence predicate of a repair step is a set given with the request.
- SplitRuns: prepare, acquireLease and releaseLease are single steps; the expiries that the first
  two compute, and the holder that the third looks up, just before their transactions are not split
  off. Writes of approval rows are single steps too. Root frames, frame transitions and renewals
  check inside their transactions.
- RuntimeService: VerifyAuditEdgesForRun reads its four tables in one go.
- ExactlyOnce.AppliedAtMostOnce: assumes an adapter that deduplicates on the key, as
  durable-mock-driver.ts:13-15 documents; MockEffectAdapter is not part of this model.
- DurableMockDriver: the crash hooks are crash points after prepare, intent, callback and receipt;
  capability flags and the counters of its output are left out.
- The kernel's audit events are records of their kind; their hash chain is the subject of
  EventStore, which does not know the kernel's tables.
- Json: integer numbers without exponents, compact texts, no lone surrogates and no `__proto__`
  key. A stored payload with white space or fractions counts as unparsable.
- EventStore: `{ ...payload }` copies are values, so later mutation of a caller's object is not seen.
- ProgressGuard: the audit event that every observe call appends, the foreign keys of frames and
  events, and dates that do not parse are not modelled; instants are integers.
- Utf8.TruncateUtf8ToBytes: takes a natural budget; the argument schema and the binding allow no
  negative one.
- KnowledgeSearch: RagEngine.retrieve and the two joins are parameters; the rows that record
  returned hits as accessed, and the refusal of a foreign run id there, are left out. Scores are
  integers.
- Reviewer subprocess, IPC, Electron, renderer, network and provider adapters, redaction, path
  validation, reports, policy evaluation and the gateway's orchestration: plumbing, or members with
  little to prove.
