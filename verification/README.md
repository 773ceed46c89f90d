# Verified models of the hosted-pool operator protocols and recovery tools

This project models the parts of the repository whose correctness spans several functions or a
whole run, and proves what they promise. It is plain Dafny 4.11; `dafny verify dfyconfig.toml`
checks everything. Code that updates state step by step is modelled by methods and classes, each
proved against a function, and the promises are then proved about that function as lemmas.

| component | source | modules |
|---|---|---|
| Runtime gate, closure records and quarantine | `scripts/hosted-pool-production-control.ts`, migration 000083 | `RuntimeGate`, `GateProtocol`, `GateSafety`, `GateGuard` |
| Drain and rollback runs, and the independent log verifier | the same file, `scripts/hosted-pool-production-rollback-verification.ts` | `ControlPort`, `CallHistory`, `MachinePath`, `PortSteps`, `RollbackEvidence`, `ClosingWorld`, `ClosingRun`, `Resumption` |
| Mint reconciliation | `scripts/hosted-pool-production-control.ts` | `MintReconciliation` |
| CHECK canonicaliser | `scripts/lib/render-historical89-recovery-semantics.ts` | `CheckLexer`, `CheckSplitter`, `CheckGrammar`, `CheckCanonicaliser` |
| Commit-loss wire proxy | `scripts/lib/render-managed-pg17-fixture.ts` | `CommitPattern`, `WireProxy`, `WireTransparency`, `WireFragmentation` |
| Canary phase recovery | `scripts/hosted-pool-canary-phase-recovery.ts` | `AccountWrites`, `RefreshChain`, `PhaseRecovery`, `PhaseTables`, `PhaseRuns`, `PhaseSafety`, `PhaseHistory`, `PhaseWitness` |
| Publication evidence join | `scripts/hosted-pool-production-evidence.ts` | `PublicationGraph`, `PublicationJoin`, `PublicationPartition`, `PublicationCount`, `PublicationWitness` |
| Checkpointed recovery sweep | `scripts/private-pg17-recovery-runs.ts` | `SweepCheckpoint`, `RecoverySweep`, `SweepRuns`, `SweepFixedList` |
| Fault-plan ledger | `apps/api/src/hosted-codex-canary-fault-plan.ts`, `scripts/hosted-pool-production-control.ts` | `FaultLedger`, `FaultRuns`, `FaultConsumable`, `FaultCancel` |
| Server-sent-event trailer | `apps/api/src/hosted-codex-relay-composition.ts` | `SseTrailer`, `SseTruncation` |
| Metadata difference | `scripts/lib/render-historical89-recovery.ts` | `MetadataDifference` |

`Outcomes` holds the shared `Option` and `Result` types.

## Conventions

- A database transaction is one step. It commits, aborts, or commits without its response being
  heard. Time is one clock that never runs backwards.
- A digest is modelled as the value it is taken of, so equal digests mean equal values. Whether a
  signature verifies is a fact of the token.
- A thrown error is an `Err` carrying its name.

## Findings

The proofs show several places where the code does less than its comments suggest. Each
is kept as the code has it, with a concrete case and the condition that decides it.

- The drain block takes a second "legacy_ready" for a completed drain: after its acknowledgment
  it reports completion behind a barrier exactly when its second poll reads zero counts and a
  gate whose barrier stands, and that gate is then another revision than the acknowledged one
  (`ClosingRun.Run.AcknowledgeAndWait`, an if-and-only-if over what the port does). It can happen
  (`Resumption.BarrierTwiceHappens`), and whenever it does the block reports completion
  (`Resumption.SecondBarrierTakenForDrained`). Every other completion is certified.
- The log verifier does not look at unresolved mint attempts, the rollback itself does
  (`RollbackEvidence.VerifyRollbackEvidence` against `ClosingRun.Run.RereadAll`): an accepted log
  stays accepted whatever number of them its final event shows (`RollbackEvidence.MintsIgnored`),
  as for the log of `RollbackEvidence.AcceptedWithMint`.
- Canceling all open fault plans does not stop every earlier plan. A plan can still be consumed
  afterwards, without being staged again, exactly when it was consumable before and all its
  stagings are older than the cancellation's window (`FaultCancel.ConsumedAfterCancelExactlyWhen`),
  and it is consumable exactly when it is open and chosen by a caller, listed by a scan in flight,
  or listed by some scan from now on (`FaultConsumable.ConsumableExactlyWhen`). So there are two
  gaps: a plan that a caller already held (`FaultCancel.ChosenBeforeCancel`), and one that was
  issued after each of its stagings, within the allowed skew (`FaultCancel.IssuedAfterStaging`).
  Both occur (`FaultCancel.ChosenGapOccurs`, `FaultCancel.IssuedGapOccurs`).
- The refresh check accepts an envelope rewrap of the prepared credential, as long as a refresh
  follows it (`RefreshChain.RefreshProven`, and `PhaseWitness.RewrappedBackupProven` for one).
- The trailer check reads only the last 8192 characters. Exactly when that differs from reading
  the whole stream is `SseTruncation.TailDecidesExactlyWhen`; "x", 8180 blanks and "data: [DONE]"
  on one line get no trailer although the line is not the completion line
  (`SseTruncation.TrailerLost`).
- The programs alone do not keep the quarantine of a closed gate that has no closure record
  (`GateSafety.UnrecordedGateIsUnsafe`). This is no defect of the deployed system: migration 000083
  inserts the record, from such a start the quarantine always holds
  (`GateSafety.CompletionAfterQuarantine`) and the database's guard never has to refuse a
  completion (`GateGuard.GuardIdle`); from any start without a closure already completed too early
  the guard keeps it (`GateGuard.GuardedRunsInTime`).

## Model

| member | source | states |
|---|---|---|
| RuntimeGate.GateTables.TransitionRuntimeGate | scripts/hosted-pool-production-control.ts:850-918 | compare-and-set on the revision; a closing win writes its closure record in the same step; a lost race accepts only the caller's own earlier transition |
| RuntimeGate.GateTables.EnsureRuntimeClosure | scripts/hosted-pool-production-control.ts:706-740 | creates the missing record of the still closed gate, and changes nothing else |
| RuntimeGate.GateTables.AcknowledgeLegacyIssuerDrain | scripts/hosted-pool-production-control.ts:741-779 | takes the barrier down and sets the deadline once; repeats succeed without effect; complete or missing records refuse |
| RuntimeGate.GateTables.CompleteRuntimeClosure | scripts/hosted-pool-production-control.ts:805-849 | completes the record of the still closed gate, idempotently |
| RuntimeGate.RetryAddsNothing | scripts/hosted-pool-production-control.ts:884-903 | a transition repeated after a lost response reports success and changes nothing |
| RuntimeGate.OneWinner | scripts/hosted-pool-production-control.ts:850-918 | of two callers expecting one revision only one changes the gate |
| GateProtocol.AdvanceKeeps | scripts/hosted-pool-production-control.ts:142-184 | every port call of every command, with any outcome, keeps the whole protocol invariant |
| GateProtocol.ExecKeeps | scripts/hosted-pool-production-control.ts:414-543 | the invariant holds in every interleaving of any number of operators |
| GateSafety.RevisionCountsWins | scripts/hosted-pool-production-control.ts:850-918 | in every run revision and epoch both rise by exactly the number of won transitions |
| GateSafety.OneWinPerRevision | scripts/hosted-pool-production-control.ts:850-918 | no expected revision is ever won twice |
| GateSafety.GateHasItsClosure | scripts/hosted-pool-production-control.ts:706-740 | a closed gate has its own closure record; an active gate's predecessor closure is complete and out of quarantine |
| GateSafety.CompletionAfterQuarantine | scripts/hosted-pool-production-control.ts:511-543 | a completion follows a poll of the completing run itself with all four counts zero, and an acknowledgment at least 61 min 1 s earlier |
| GateSafety.PollsFollowOwnClose | scripts/hosted-pool-production-control.ts:210-262 | a run that closed the gate itself polled, and so acknowledged or completed, only after its closing transition |
| GateSafety.ReactivationAfterQuarantine | scripts/hosted-pool-production-control.ts:142-184 | activation at revision n waits for closure n to be complete, and so for its quarantine |
| GateSafety.AcknowledgedOnce | scripts/hosted-pool-production-control.ts:741-779 | each closure's deadline is set at most once, after its acknowledger saw zero counts |
| GateSafety.ClosuresOnlyAdvance | scripts/hosted-pool-production-control.ts:741-849 | records are never removed, completion is absorbing, a barrier never comes back, a deadline never moves |
| GateSafety.UnrecordedGateIsUnsafe | scripts/hosted-pool-production-control.ts:511-543 | without an initial record the programs alone have a run that completes a closure behind its barrier, never acknowledged |
| GateGuard.GuardedRunsInTime | packages/platform/db/prisma/migrations/000083_hosted_codex_comment_token_mint_protocol/migration.sql:760-779 | with the guard of the closure table, from any start without such a closure, recorded gate or not, no run completes a closure behind its barrier or before its deadline |
| GateGuard.GuardIdle | packages/platform/db/prisma/migrations/000083_hosted_codex_comment_token_mint_protocol/migration.sql:201-207 | from the start the migration makes, guarded and unguarded runs are the same: the guard never refuses a completion |
| ControlPort.OperationsEvolve | scripts/hosted-pool-production-control.ts:706-918 | every port operation only moves gate and closures forward |
| PortSteps.GateReadPerforms | scripts/hosted-pool-production-control.ts:667-705 | reading the gate through the port has exactly the effect and result that `PortSteps.CallIsStep` takes as a performed call |
| PortSteps.ClosureReadPerforms | scripts/hosted-pool-production-control.ts:788-804 | reading a closure record through the port has exactly the effect and result that `PortSteps.CallIsStep` takes as a performed call |
| PortSteps.SwitchPerforms | scripts/hosted-pool-production-control.ts:850-918 | switching the gate through the port has exactly the effect and result that `PortSteps.CallIsStep` takes as a performed call |
| PortSteps.EnsurePerforms | scripts/hosted-pool-production-control.ts:706-740 | ensuring a record through the port has exactly the effect and result that `PortSteps.CallIsStep` takes as a performed call |
| PortSteps.AcknowledgePerforms | scripts/hosted-pool-production-control.ts:741-779 | acknowledging the drain through the port has exactly the effect and result that `PortSteps.CallIsStep` takes as a performed call |
| PortSteps.CompletePerforms | scripts/hosted-pool-production-control.ts:805-849 | completing a closure through the port has exactly the effect and result that `PortSteps.CallIsStep` takes as a performed call |
| PortSteps.CountsPerform | scripts/hosted-pool-production-control.ts:997-1037 | reconciling and reading the counts through the port has exactly the effect and result that `PortSteps.CallIsStep` takes as a performed call |
| PortSteps.CallIsStep | scripts/hosted-pool-production-control.ts:414-543 | a call on the gate tables or the counts, with whatever outcome, does to the gate tables what the protocol machine's step does and leads to the same program point |
| PortSteps.RunIsMachineRun | scripts/hosted-pool-production-control.ts:210-359 | calls that are a path of the machine, with any steps of other operators in between, are a run of the machine, so what holds of every interleaving holds of them |
| RollbackEvidence.FindIndex | scripts/hosted-pool-production-rollback-verification.ts:16-28 | the first later event of a phase, or none |
| RollbackEvidence.VerifyRollbackEvidence | scripts/hosted-pool-production-rollback-verification.ts:6-69 | accepts a log exactly when positions exist that prove every closure re-read in order and the final re-read |
| RollbackEvidence.MintsIgnored | scripts/hosted-pool-production-rollback-verification.ts:52-69 | an accepted log stays accepted whatever number of unresolved mints its final event shows |
| RollbackEvidence.AcceptedWithMint | scripts/hosted-pool-production-rollback-verification.ts:52-69 | a log whose final event is not drained is accepted |
| ClosingRun.Run.WaitForDrain | scripts/hosted-pool-production-control.ts:487-543 | in every world each answer rests on the last calls made: expired grants reconciled, four zero counts read, gate and closure read, and for "complete" the successful completion of that gate's closure; after one poll "legacy_ready" is answered exactly when that poll reads a standing barrier |
| ClosingRun.Run.AcknowledgeAndWait | scripts/hosted-pool-production-control.ts:262-281 | after the acknowledgment the block reports completion only certified, or behind the barrier of another revision, and the latter exactly when its second poll reads a standing barrier |
| ClosingRun.Run.DrainPhase | scripts/hosted-pool-production-control.ts:252-286 | in every world the block's calls are a path of the protocol machine, and completion means that they show a drain; in a calm world the answer is decided by barrier and deadline |
| ClosingRun.Run.CloseGate | scripts/hosted-pool-production-control.ts:212-234 | in every world, without an error this run closed the gate, or ensured the record of a closed one, and then read it closed at that revision; its first two calls are the machine's closing calls |
| ClosingRun.Run.CloseIrreversible | scripts/hosted-pool-production-control.ts:310-333 | custody then pool, each seen off before the next |
| ClosingRun.Run.RereadAll | scripts/hosted-pool-production-control.ts:334-355 | no failure means every flag off on both services and all four counts zero |
| ClosingRun.Run.FinishRollback | scripts/hosted-pool-production-control.ts:287-356 | a rollback without failures made no failing call, shows every flag off and nothing to drain, and leaves a log with a proof the verifier accepts |
| ClosingRun.Run.Execute | scripts/hosted-pool-production-control.ts:210-359 | under any failures and interference, read off the port's call trace: custody is patched only when every call so far returned and the calls show the gate closed, the fault plan closed, admission, failover and relay off and a drain; pool only after custody was also seen off on both services; "executed" implies all of that and an acceptable log; in a calm world the outcome is exact |
| ClosingWorld.RunWaits | scripts/hosted-pool-production-control.ts:262-280 | a run that closes or finds a barrier parks: only admission off, deadline recorded |
| ClosingWorld.RunEnds | scripts/hosted-pool-production-control.ts:287-356 | past the deadline a calm run ends with all flags off |
| ClosingWorld.AssembleProof | scripts/hosted-pool-production-rollback-verification.ts:23-69 | the events of an executed rollback are a proof in the verifier's terms |
| Resumption.RollBackAndVerify | scripts/hosted-pool-production-rollback-verification.ts:6-69 | every executed rollback is accepted by the independent verifier |
| Resumption.RollBackInParts | scripts/hosted-pool-production-control.ts:211-349 | from an active gate: first run waiting, any runs before the deadline waiting, any runs after it executed with every flag off |
| Resumption.RunEarly | scripts/hosted-pool-production-control.ts:511-539 | runs before the deadline change no flag but admission and keep the deadline |
| Resumption.RunLate | scripts/hosted-pool-production-control.ts:287-359 | after the deadline every run ends executed and stays there |
| Resumption.BarrierTwiceHappens | scripts/hosted-pool-production-control.ts:262-281 | others can replace the gate so that the block meets a standing barrier twice |
| Resumption.SecondBarrierTakenForDrained | scripts/hosted-pool-production-control.ts:262-281 | whenever the block meets a barrier twice it reports completion, with another gate than the acknowledged one behind its barrier |
| CheckCanonicaliser.ScanText | scripts/lib/render-historical89-recovery-semantics.ts:10-46 | the scanner rejects exactly the texts that are not clean, finds exactly the top-level separators, and recognises an enclosing pair of parentheses |
| CheckCanonicaliser.CheckOperand | scripts/lib/render-historical89-recovery-semantics.ts:62-81 | accepts a clean operand exactly when it is one balanced group |
| CheckCanonicaliser.CutParts | scripts/lib/render-historical89-recovery-semantics.ts:52-58 | cuts at the separators |
| CheckCanonicaliser.FindConjunction | scripts/lib/render-historical89-recovery-semantics.ts:7-84 | computes the flattened operand list, terminating on the text length |
| CheckCanonicaliser.CanonicalRecoveryCheck | scripts/lib/render-historical89-recovery-semantics.ts:5-87 | returns the canonical text of its input |
| CheckSplitter.JoinParts | scripts/lib/render-historical89-recovery-semantics.ts:52-58 | parts that are all groups join back to the text |
| CheckSplitter.PartsJoin | scripts/lib/render-historical89-recovery-semantics.ts:43-58 | splitting a joined list of groups gives the list back |
| CheckGrammar.ParseRender | scripts/lib/render-historical89-recovery-semantics.ts:7-84 | parsing the rendering of a well-formed tree gives the tree |
| CheckGrammar.RenderParse | scripts/lib/render-historical89-recovery-semantics.ts:7-84 | rendering the parse of a clean text gives the text |
| CheckGrammar.UniqueReadability | scripts/lib/render-historical89-recovery-semantics.ts:7-84 | two well-formed trees with one text are equal |
| CheckCanonicaliser.CanonicalOfRender | scripts/lib/render-historical89-recovery-semantics.ts:82-87 | the canonical text is the rendering of the flattened tree |
| CheckCanonicaliser.MeaningPreserved | scripts/lib/render-historical89-recovery-semantics.ts:5-87 | for every text and every three-valued valuation the meaning and the ordered opaque operands are unchanged |
| CheckCanonicaliser.OtherwiseIdentical | scripts/lib/render-historical89-recovery-semantics.ts:3-87 | anything but a nested conjunction of groups comes back byte for byte |
| CheckCanonicaliser.Idempotent | scripts/lib/render-historical89-recovery-semantics.ts:5-87 | canonicalising twice is canonicalising once |
| CheckCanonicaliser.Confluent | scripts/lib/render-historical89-recovery-semantics.ts:7-87 | canonical texts agree exactly for equal trees or nests of the same operand sequence |
| CheckCanonicaliser.EqualTextsAreEquivalent | scripts/lib/render-historical89-recovery-semantics.ts:5-87 | equal canonical texts have equal meaning and equal operands |
| CommitPattern.CommitTextIsPattern | scripts/lib/render-managed-pg17-fixture.ts:763 | the matcher accepts exactly the texts of the COMMIT pattern |
| WireProxy.Proxy.OnClientData | scripts/lib/render-managed-pg17-fixture.ts:755-766 | the client framing loop is the pump function on the connection state |
| WireProxy.Proxy.OnServerData | scripts/lib/render-managed-pg17-fixture.ts:767-789 | the server framing loop is the pump function on the connection state |
| WireProxy.Proxy.OnServerFrame | scripts/lib/render-managed-pg17-fixture.ts:773-788 | one backend frame is held or forwarded, and a ReadyForQuery settles the query |
| WireTransparency.Transparent | scripts/lib/render-managed-pg17-fixture.ts:755-789 | for every interleaving and fragmentation, forwarded plus held plus buffered bytes are the received bytes, in order |
| WireTransparency.OnlyCommitRepliesHeld | scripts/lib/render-managed-pg17-fixture.ts:774-787 | nothing is held unless a COMMIT is in front of the queue |
| WireTransparency.CommitReplyDecided | scripts/lib/render-managed-pg17-fixture.ts:777-787 | a COMMIT reply is cut exactly on CommandComplete COMMIT and status idle, and otherwise released whole and in order |
| WireTransparency.MarkerMeansUnseenCommit | scripts/lib/render-managed-pg17-fixture.ts:780-784 | the marker is written exactly when the connection is cut, after CommandComplete COMMIT and status idle; if no ReadyForQuery came without a query outstanding, the cut query was a COMMIT and the client received no byte of its reply |
| WireFragmentation.ClientChunks | scripts/lib/render-managed-pg17-fixture.ts:755-766 | two client chunks act as their concatenation |
| WireFragmentation.ServerChunks | scripts/lib/render-managed-pg17-fixture.ts:767-789 | two server chunks act as their concatenation |
| WireFragmentation.FragmentationIrrelevant | scripts/lib/render-managed-pg17-fixture.ts:755-789 | any two fragmentations of the same interleaved bytes end in the same observable state |
| AccountWrites.HealthCounts | scripts/hosted-pool-canary-phase-recovery.ts:83-91 | health grows by one for every write but a rewrap, hence at least as much as the generation |
| AccountWrites.VersionsStay | scripts/hosted-pool-canary-phase-recovery.ts:474-510 | stored versions and receipts never change, envelope revisions only grow |
| RefreshChain.ReadBackupRefresh | scripts/hosted-pool-canary-phase-recovery.ts:418-536 | the loop over the stored rows decides the declarative chain condition |
| RefreshChain.ChainTerms | scripts/hosted-pool-canary-phase-recovery.ts:468-515 | accepted chains are consecutive, hash-linked, time-ordered, and epoch-increasing except at generation 2 |
| RefreshChain.RefreshProven | scripts/hosted-pool-canary-phase-recovery.ts:418-536 | for every sequence of writes to a healthy prepared account: a refresh is proven exactly when the writes were timely refreshes, possibly after rewraps |
| RefreshChain.UnchangedMeansUnwritten | scripts/hosted-pool-canary-phase-recovery.ts:538-565 | an account equal to its snapshot was not written at all |
| PhaseTables.Tables.PrepareCanaryPhase | scripts/hosted-pool-canary-phase-recovery.ts:100-140 | the preparing transaction, under commit, abort and lost response |
| PhaseHistory.PreparingPrepares | scripts/hosted-pool-canary-phase-recovery.ts:100-140 | a committed preparation holds the exact rows of the two distinct, healthy, serving accounts of its scope |
| PhaseTables.Tables.ReconcileOnce | scripts/hosted-pool-canary-phase-recovery.ts:144-300 | the reconciling transaction: replay of the receipt, or restoration and receipt in one step |
| PhaseTables.Tables.ReconcileCanaryPhase | scripts/hosted-pool-canary-phase-recovery.ts:141-315 | one attempt, then only an observation |
| PhaseRuns.RunFollows | scripts/hosted-pool-canary-phase-recovery.ts:96-316 | in every run each account is the result of its own logged writes, and audit rows never change |
| PhaseRuns.FiresOnce | scripts/hosted-pool-canary-phase-recovery.ts:223-295 | across any run a plan's restoring write happens at most once, exactly when its one restoring receipt exists |
| PhaseRuns.ReconcileSettles | scripts/hosted-pool-canary-phase-recovery.ts:223-295 | a transaction does nothing, or writes one receipt with its one restoring write; an observation never writes |
| PhaseSafety.NormalReturn | scripts/hosted-pool-canary-phase-recovery.ts:223-295 | a normal return leaves both accounts as prepared, the primary's health counted on by 2 (0 when dropped), the backup with its proven refresh |
| PhaseSafety.RepeatReturnsSame | scripts/hosted-pool-canary-phase-recovery.ts:223-245 | a repeat with unexpired grant and credentials returns the same receipt and writes nothing, its cooldown taken from the receipt |
| PhaseSafety.LostResponseRecovered | scripts/hosted-pool-canary-phase-recovery.ts:303-316 | a commit whose response was lost is observed and returned; a failed attempt writes nothing |
| PhaseHistory.ExactlyOnce | scripts/hosted-pool-canary-phase-recovery.ts:96-316 | after any run, a normal return implies that the primary was written by the synthetic disposition and then this plan's restoration and nothing else, the backup not at all or by a proven refresh |
| PhaseHistory.ReconciledExactlyWhen | scripts/hosted-pool-canary-phase-recovery.ts:144-295 | a due phase is reconciled exactly for those histories |
| PhaseWitness.PhaseReconciles | scripts/hosted-pool-canary-phase-recovery.ts:141-300 | a concrete rate-limited phase meets every hypothesis and is reconciled |
| PhaseWitness.RewrappedBackupProven | scripts/hosted-pool-canary-phase-recovery.ts:468-515 | a backup that was rewrapped and then refreshed passes as a proven refresh |
| PublicationJoin.RepetitionChecks | scripts/hosted-pool-production-evidence.ts:541-597 | the three repetition checks mean compatibility with every earlier receipt |
| PublicationJoin.JoinReceipts | scripts/hosted-pool-production-evidence.ts:523-655 | the loop succeeds exactly when every receipt joins and all are compatible, and marks exactly what they join |
| PublicationJoin.ReadPublicationGraph | scripts/hosted-pool-production-evidence.ts:310-661 | accepts a graph exactly when every receipt joins, any two are compatible, nothing is left over and every changed thread is joined |
| PublicationPartition.ExpectedStoredOnce | scripts/hosted-pool-production-evidence.ts:478-522 | expected and stored operations correspond one to one |
| PublicationPartition.OperationsReceipted | scripts/hosted-pool-production-evidence.ts:369-392 | every stored operation is required, completed, and has exactly one receipt |
| PublicationPartition.EffectsReceipted | scripts/hosted-pool-production-evidence.ts:393-400 | every effect has exactly one receipt |
| PublicationPartition.NothingLeftOver | scripts/hosted-pool-production-evidence.ts:655-661 | objects are distinct and all are joined |
| PublicationPartition.EveryObjectOwned | scripts/hosted-pool-production-evidence.ts:523-661 | every object is named by a receipt or is a comment of a named review |
| PublicationPartition.OwnedOnce | scripts/hosted-pool-production-evidence.ts:552-597 | no object is accounted for twice but as create and submit of one chunk's review |
| PublicationCount.ObjectCount | scripts/hosted-pool-production-evidence.ts:478-661 | with distinct chunk indices the object count is 1 + optional check + chunks + all inline comments |
| PublicationWitness.SummaryAccepted | scripts/hosted-pool-production-evidence.ts:478-661 | a publication of a summary comment alone is accepted |
| SweepCheckpoint.ParseReadsBack | scripts/private-pg17-recovery-runs.ts:58-90 | the parser accepts a checkpoint's JSON exactly when its fields are valid, and reads back the same checkpoint |
| SweepCheckpoint.ParsedIsValid | scripts/private-pg17-recovery-runs.ts:58-90 | whatever is accepted is a valid checkpoint |
| RecoverySweep.SelectConcat | scripts/private-pg17-recovery-runs.ts:92-122 | selecting a descending list is filtering, so it can be done window by window |
| RecoverySweep.ScanIds | scripts/private-pg17-recovery-runs.ts:234-241 | the loop over one page is the id check |
| RecoverySweep.Discover | scripts/private-pg17-recovery-runs.ts:124-275 | one window's answer |
| SweepRuns.CheckIdsMeans | scripts/private-pg17-recovery-runs.ts:234-241 | a page passes exactly when it descends and lies below what was seen |
| SweepRuns.EmittedCheckpointParses | scripts/private-pg17-recovery-runs.ts:254-274 | every emitted checkpoint passes the parser and lies further on |
| SweepRuns.ReadWindowAnswers | scripts/private-pg17-recovery-runs.ts:243-262 | once its pages are read a window always answers; the matrix limit is never reached |
| SweepRuns.AcceptedChain | scripts/private-pg17-recovery-runs.ts:168-275 | whatever the answers, an accepted chain scanned strictly descending ids, as many as announced, and selected from them as one scan would |
| SweepRuns.ExactlyTotal | scripts/private-pg17-recovery-runs.ts:168-275 | a fresh accepted chain scans exactly total_count distinct runs |
| SweepFixedList.SweepEqualsScan | scripts/private-pg17-recovery-runs.ts:168-275 | for a fixed list chained windows of any sizes finish and equal one selection, from the start or any checkpoint |
| SweepFixedList.FreshSweepEqualsScan | scripts/private-pg17-recovery-runs.ts:168-275 | from the start, chained windows of any sizes over a fixed list select what one selection of the whole list selects |
| FaultLedger.Ledger.ResolvePlan | apps/api/src/hosted-codex-canary-fault-plan.ts:225-284 | the newest open, verified, matching plan, or a scan-limit error |
| FaultLedger.ResolveFinds | apps/api/src/hosted-codex-canary-fault-plan.ts:225-284 | below the scan limit a token is resolved exactly when some staged event of the workspace is recent, open, verified and matching, and it is the token of one |
| FaultLedger.Ledger.Consume | apps/api/src/hosted-codex-canary-fault-plan.ts:161-222 | consumption appends one event for an open staged plan and nothing otherwise |
| FaultLedger.Ledger.CancelOpenStagedFaultPlans | scripts/hosted-pool-production-control.ts:1096-1158 | one cancellation per open target in the window, or the scan-limit error |
| FaultRuns.AtMostOneTerminal | apps/api/src/hosted-codex-canary-fault-plan.ts:167-183 | in every interleaving each plan has at most one terminal event |
| FaultRuns.ClosedForGood | apps/api/src/hosted-codex-canary-fault-plan.ts:167-183 | a closed plan is never opened, canceled or consumed again |
| FaultRuns.UsesFrom | apps/api/src/hosted-codex-canary-fault-plan.ts:134-148 | every consumption used a token that verified when its scan began |
| FaultConsumable.ConsumableExactlyWhen | apps/api/src/hosted-codex-canary-fault-plan.ts:161-284 | in any state some continuation without another staging consumes the plan exactly when it is open and chosen by a caller, listed by a scan in flight, or listed by some scan from now on |
| FaultCancel.LeftOpenExactlyWhen | scripts/hosted-pool-production-control.ts:1103-1146 | a plan stays open exactly when it was open and all its stagings are older than the window |
| FaultCancel.ConsumedAfterCancelExactlyWhen | scripts/hosted-pool-production-control.ts:1096-1158 | after a committed cancellation some continuation without another staging consumes the plan exactly when it was consumable and all its stagings are older than the window |
| FaultCancel.CancelStops | scripts/hosted-pool-production-control.ts:1096-1158 | afterwards an earlier plan staged no earlier than issued can be consumed only by a scan that predates the cancellation, and only once expired |
| FaultCancel.CancelIsFinal | scripts/hosted-pool-production-control.ts:1096-1158 | with no earlier scan in flight it is never consumed |
| FaultCancel.ChosenBeforeCancel | apps/api/src/hosted-codex-canary-fault-plan.ts:161-204 | every plan left open that a caller had chosen is consumed by that caller's next step, expired or not |
| FaultCancel.ChosenGapOccurs | apps/api/src/hosted-codex-canary-fault-plan.ts:161-204 | a plan chosen in time and expired since is consumed after the cancellation |
| FaultCancel.IssuedAfterStaging | apps/api/src/hosted-codex-canary-fault-plan.ts:134-148 | every plan left open that a scan begun after the cancellation lists can be consumed, and was issued after each of its stagings |
| FaultCancel.IssuedGapOccurs | apps/api/src/hosted-codex-canary-fault-plan.ts:134-148 | with nothing in flight a plan issued after its staging can be consumed after the cancellation |
| MintReconciliation.Mints.Reconcile | scripts/hosted-pool-production-control.ts:1037-1091 | one pass only moves mints forward, never raises the unresolved count, leaves none past its horizon dispatching or unknown, and none unresolved once the gate is closed and every horizon has passed |
| MintReconciliation.ResolvedExactlyWhen | scripts/hosted-pool-production-control.ts:1046-1090 | a mint is resolved by a pass exactly when it was, or its own time had come when its update read the clock, or it was prepared and the gate closed |
| MintReconciliation.PassSettles | scripts/hosted-pool-production-control.ts:1046-1090 | the two settling promises, whenever the pass reads the clock for each row |
| SseTrailer.Complete | apps/api/src/hosted-codex-relay-composition.ts:468-491 | for every chunking the output is the input and a trailer decided by the last 8192 characters |
| SseTrailer.TailDecidesAsWhole | apps/api/src/hosted-codex-relay-composition.ts:453-466 | truncation does not matter when the tail holds the last nonblank line with its line break |
| SseTruncation.TailDecidesExactlyWhen | apps/api/src/hosted-codex-relay-composition.ts:453-491 | a stream longer than the tail gets the trailer its whole text calls for exactly when the tail holds the final line with its line feed, or what was lost of the line decides nothing |
| SseTruncation.TrailerLost | apps/api/src/hosted-codex-relay-composition.ts:453-491 | one long last line that is not the completion line, whose last 8192 characters read as it, gets no trailer |
| SseTrailer.CompletedOnce | apps/api/src/hosted-codex-relay-composition.ts:453-491 | a completed stream needs no second completion |
| MetadataDifference.Difference | scripts/lib/render-historical89-recovery.ts:599-697 | the report's counters and the first 64 paths of all findings |
| MetadataDifference.NoDifferenceExactlyWhen | scripts/lib/render-historical89-recovery.ts:653-684 | nothing is reported exactly when both lists hold the same records, with unique identities and known fields |
| MetadataDifference.SwapKeepsTotal | scripts/lib/render-historical89-recovery.ts:653-684 | swapping the sides renames the missing findings and keeps every total |

## Left out

- Flag deployments of other commands: in `GateProtocol` the activate and kill-switch commands' flag and observation steps only appear as points at which a command may give up.
- Of the closure table's guard in migration 000083 only the refusal to complete behind a barrier or before the deadline is modelled, not its tests on mints and deliveries; gate rows changed outside these programs are not modelled.
- ClosingRun.Run.Observe: the three reads of one observation happen one after the other, not in parallel; timestamps and reason texts of events are not kept.
- ControlPort.OperationsEvolve: other operators' moves on the gate tables are those of the gate protocol; in a run, expiry reconciliation only shows as a change of the counts.
- MintReconciliation.Mints.Reconcile: error codes and evidence hashes are not kept, the secret columns are one fact, and the expired grants reconciled after the mints are not modelled.
- WireProxy.Proxy.OnClientData: UTF-8 decoding of a statement is a parameter, socket close and error events are not modelled, and an aborted connection forwards nothing more.
- PhaseTables.Tables.ReconcileOnce: identifier, ordinal, error-code and evidence-hash equalities of the grant graph (lines 597-865) are one fact of the graph; account rows carry only the selected fields, without row ids.
- RefreshChain.RefreshProven: the writers are the refresh and reconnect of the session store, every other health compare-and-set as one kind of write, and envelope rewraps; a stored version above the active one, which no writer creates, is excluded.
- PublicationJoin.ReadPublicationGraph: source and observation rows, the projection artifact, the renderer and the timestamp checks are not modelled; expected operations come from given rendering facts.
- RecoverySweep.Discover: the single-run lookup by target id and HTTP transport are not modelled; the list API is any function from page to answer.
- SweepCheckpoint.ParseReadsBack: JSON text and its own parser are not modelled.
- FaultLedger.Ledger.Consume: signature, encoding and claim-shape checks are facts of the token; only scope and time checks are computed.
- FaultRuns.UsesFrom: a scan reads the clock and lists its candidates in one step, while the source reads the clock first and queries afterwards.
- PhaseSafety.RepeatReturnsSame: a receipt's refresh is the refreshed account; the hash of the intermediate credential versions that the source also stores is not kept.
- SseTrailer.Complete: streams are ASCII, so that decoding a chunk alone loses nothing; the content-type test is not modelled.
- MetadataDifference.Difference: the sorted order of identities is given as their enumeration, and malformed JSON is not modelled.
- Role and membership reconstruction in `scripts/lib/render-historical89-recovery.ts`, deploy polling, HTTP, Docker, Render, GitHub and Prisma clients: I/O or foreign systems.
