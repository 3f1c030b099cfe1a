# Verified model of the agent Run platform

A Dafny 4.11 project beside the code of the Run platform. `dafny verify dfyconfig.toml` checks it all.
Runs are durable pieces of work moved by competing workers, external executors, humans and a
reconciler. Each database transaction is one atomic step on values; loops, in-place updates and
objects of the source are methods and classes proved against those values.

- **Source fence** (`FenceStore`, `FenceFacts`, `FenceTrail`, `FenceWalk`, `SourceFence`, `FenceTangle`,
  `FencePasses`, `FenceShapes`, `NestedConsumption`): the memoised, mutually recursive walk that decides whether a
  Run's output may be published or consumed, and when it refuses acceptable Runs.
- **Delegation tree** (`DelegationRows`, `DelegationBudget`, `DelegationLimits`, `DelegationProtocol`,
  `DelegationCommits`, `DelegationTable`, `FenceDelegation`): barriers, shared budgets under concurrent transactions, recursive stops.
- **Run protocol** (`RunLife`, `RunCommands`, `RunActions`, `RunStore`, `RunProgress`, `RunSafety`,
  `RunHistory`, `RunTheorems`, `RunEffects`, `RunOutcomes`, `RunChanges`, `RunInvocations`, `RunDecisions`,
  `RunRepository`, `RunWorkers`, `RunScenario`): leases, generations, receipts, lifecycle, external
  actions and their approval, competing workers. `RunStore.Next` is one step of
  any kind, `RunStore.Run` any sequence of steps.
- **Client synchronisation** (`ClientCache`, `ClientChanges`, `ClientPage`, `ClientReplay`, `ClientShows`,
  `ClientEffects`, `ClientSync`, `ClientProgress`, `ClientTombstones`, `ClientEngine`): the offline cache, pages,
  replays, the write queue and reloads.
- **Work compaction** (`WorkLog`, `Compaction`, `ModelViews`, `CompactionFacts`): the cut, the folding into chunks, the
  working and the delivery view.
- **Scrub** (`SourceKeys`, `Scrub`, `SourceBranches`, `ScrubBranches`): which copies depend on a revoked source, their
  removal, and captured branch versions.
- **Connection index** (`ConnectionIndex`): expiring device keys and their index.

Six results say where the code does less, or more, than it is meant to, each with its exact extent:

- A claim of a parked Run keeps the generation, so a worker whose lease was lost passes the fence
  again under the second worker's lease; nothing else revives a lost generation
  (`ParkedClaimRevives`, `RevivedOnlyByParkedClaim`, and a run: `LostGenerationIsRevived`).
- Two workers can so have one Run open under one generation, and then both record a completion, the
  second over an output already queued. As long as no generation is claimed again with an earlier
  worker of it still at work, competing workers record at most one (`CompletedAtMostOnce`, `SecondCompletionIff`,
  `RivalsAreReclaimed`, and a run: `CompletionIsRepeated`).
- A synchronisation reloads the stored snapshot outside the write queue. A local delete whose write is
  still queued, and which is not among the changes to be replayed, is then overwritten in storage and
  lost until the server sends it (`LocalDeleteCanBeLost`, `DroppedIffOverwritten`, `ReloadLosesIff`,
  `SafeRunsLoseNothing`).
- A replaced knowledge source that names neither chunk nor document is marked under an empty identity,
  which condemns every source without a chunk (`InvalidIff`, `ExactIffNotBare`, `LostIff`, and a Run:
  `AuthorizedMessageIsLost`). A withdrawn snapshot without a message would condemn every source without
  a message, but snapshots are only made of messages (`service.go:890-908`, `NoBareCopies`).
- The per-write source fence is not transitive through consumed results; the recursive refresh is
  (`FenceIsNotTransitive`, `TransitiveIff`, `ConsumptionClosedIff`, `MovedAncestorCondemnsForEver`).
- The source fence refuses acceptable Runs without any source cycle: a delegated Run that consumed a
  result and was itself consumed, every reader that meets it first, and every message that the Run's
  own delegator has read. All Runs of a graph pass if and only if none is entangled and no message is
  reread (`AllPassIff`, `EntangledIsRefused`, `RereadIsRefused`, and rows: `NestedConsumptionIsRefused`,
  `DelegatorPasses`, `ReadBackIsRefused`). Delegation trees without nested consumption pass
  (`TieredPasses`, `AdmittedTreesPass`). The fence also guards writes (`run_repo.go:619`, `run_repo.go:642`)
  and history reads, where a refusal counts as a denied source (`sources.go:167-172`).

## Model

| member | source | states |
|---|---|---|
| SourceFence.CheckOutputSources | pkg/resourcegrant/output_sources.go:89-99 | accepting a Run means: it and every Run reachable by parent, history-result or delegation-origin edges is shared, neither revoked nor invalidated, participates at its own versions, and stands on entries, copies, results and origins that stand themselves; no cycle of source edges is reachable and the Run is not entangled; one reachable Run that is unsound refuses the walk. A Run from which everything reachable is sound and untangled is never refused while no stack is higher than 32 Runs; the walk terminates on every graph |
| SourceFence.CheckHistorySource | pkg/resourcegrant/history.go:62-67 | a message read on its own is accepted only when the read stands and every Run reachable from its Run is sound, and it is not reread by what it rests on; one unsound reachable Run refuses it; it is never refused when what it rests on is sound and untangled and no stack is higher than 31 Runs |
| FenceFacts.SoundIff | pkg/resourcegrant/output_sources.go:101-369 | what one Run must satisfy for the walk to pass it, said of its rows: shared, unrevoked, participating with live grants and tools, every entry, result, copy and origin standing at its current branch, edit or epoch |
| FenceFacts.IdIff | pkg/identity/identity.go:23-29 | an identity is the lower-case text of a UUID of the RFC 4122 variant, field by field |
| FenceFacts.EdgeIff | pkg/resourcegrant/output_sources.go:209-317 | one Run rests on another exactly when an entry names it as parent, a read message is its result, or its origin names it as delegator |
| FenceFacts.ReachableCloses | pkg/resourcegrant/output_sources.go:209-317 | what a reachable Run rests on is reachable |
| FenceFacts.ReachableIsLeast | pkg/resourcegrant/output_sources.go:209-317 | any set of Runs that holds the root and what its members rest on holds everything reachable |
| FencePasses.UntangledPasses | pkg/resourcegrant/output_sources.go:209-369 | the walk passes whenever everything reachable is acceptable and nothing is tangled, whatever delegation origins lead back into the Runs being checked, as long as no stack is higher than 32 Runs |
| FencePasses.AllPassIff | pkg/resourcegrant/output_sources.go:209-369 | among acceptable Runs with no stack higher than 31, every Run passes on its own and every message they read can be read, if and only if no Run is entangled and no message rests on a Run that reads it |
| FenceTangle.EntangledIsRefused | pkg/resourcegrant/output_sources.go:209-369 | from any state, a walk that gets to an entangled Run before anything it draws in refuses |
| FenceTangle.RereadIsRefused | pkg/resourcegrant/history.go:70-122 | from any state, a message is refused when what it rests on reads it again, unless some of that was visited before |
| NestedConsumption.NestedConsumptionIsRefused | pkg/resourcegrant/output_sources.go:305-317 | four acceptable Runs without a source cycle: a child that consumed its own grandchild was consumed by its delegator; the child and a reader of its message are refused |
| NestedConsumption.DelegatorPasses | pkg/resourcegrant/output_sources.go:305-317 | the same rows pass from the delegator at the top, so the order of the walk decides |
| NestedConsumption.ReadBackIsRefused | pkg/resourcegrant/history.go:70-122 | three acceptable Runs of which none is entangled: a delegator has read its child's message, and then nobody else can |
| FenceShapes.CertifiedPasses | pkg/resourcegrant/output_sources.go:209-369 | a graph whose heights fall along every edge, origins included, passes up to height 31 |
| FenceShapes.TieredPasses | pkg/resourcegrant/output_sources.go:209-369 | up to 32 acceptable Runs pass when sources never lead up a tier, messages are read only from above, and within a tier no consumer is consumed |
| FenceDelegation.AdmittedTreesPass | pkg/resourcegrant/output_sources.go:209-369 | in a table within the delegation budgets every Run of a tree without nested consumption passes the fence |
| FenceWalk.VisitGrows | pkg/resourcegrant/output_sources.go:209-317 | a visit that is not refused restores the stack, keeps the memo ordered by source edges, leaves no origin unfollowed off the stack, and memoises only Runs that read none of the messages being read |
| SourceFence.Fence.CheckRun | pkg/resourcegrant/output_sources.go:209-317 | succeeds exactly when the walk does, and then the Run is memoised and the memo only grew, off the stack, by Runs with live authority whose sources are memoised and whose origins are followed or still owed |
| SourceFence.Fence.CheckSources | pkg/resourcegrant/output_sources.go:221-307 | success is exactly that the material and version columns are in order and the walk through them passes, with every source they name memoised |
| SourceFence.Fence.CheckHistory | pkg/resourcegrant/history.go:70-122 | a history source passes exactly with a live grant, an unedited visible message that is not being read already and, for a Run's result, that Run walked; the in-stack set is restored |
| SourceFence.Fence.CheckVersion | pkg/resourcegrant/output_sources.go:244-282 | one provenance version is admitted exactly by the parent, history and resource rules and the walk of what it names |
| SourceFence.Fence.CheckDelegationResult | pkg/resourcegrant/output_sources.go:127-178 | a delegated result is admitted if and only if the delegation relation, its continuation chain and its participations all hold, although the chain is followed by a loop with a seen set |
| SourceFence.Fence.CheckDelegationResources | pkg/resourcegrant/output_sources.go:182-207 | delegated resources pass if and only if both sides hold a grant for each of them |
| SourceFence.Fence.CheckOrigin | pkg/resourcegrant/output_sources.go:319-338 | an origin passes exactly with its authorizer present and the walk of the delegators above, all of them memoised or on the stack afterwards |
| SourceFence.Fence.CheckDelegationOrigin | pkg/resourcegrant/output_sources.go:340-369 | a delegation origin is followed within three hops under the current epoch of the delegator |
| FenceTrail.FinishSources | pkg/resourcegrant/output_sources.go:308-317 | a node may be memoised before its origin is followed: the trail stays well ordered |
| FenceTrail.LeaveRun | pkg/resourcegrant/output_sources.go:308-317 | leaving a Run after its origin was followed restores the stack and keeps every promise of the trail |
| FenceTrail.WalkStays | pkg/resourcegrant/output_sources.go:209-369 | once the walk is complete every edge from a memoised Run leads to a memoised Run |
| FenceTrail.SourceWalkDescends | pkg/resourcegrant/output_sources.go:221-311 | source edges between memoised Runs go strictly back in the order of memoising |
| FenceTrail.CompletedWalkAccepts | pkg/resourcegrant/output_sources.go:89-99 | a completed walk implies that everything reachable is live and no source cycle is reachable |
| DelegationTable.RunTable.LockDelegationTree | app/bot-service/internal/repo/delegation.go:29-61 | the ancestor walk succeeds if and only if an acyclic chain of admissible steps exists, and returns its end |
| DelegationTable.RunTable.AcceptDelegatedRun | app/bot-service/internal/repo/delegation.go:63-149 | acceptance of a delegated Run is exactly the budgeted append to the table, or changes nothing |
| DelegationTable.RunTable.AcceptRun | app/bot-service/internal/repo/run_repo.go:211-360 | a Run is accepted if and only if it is worthy of a start: a continuation of an earlier Run, or a delegation within 8 descendants, depth 3, 262144 bytes and 16384 tokens below its root by an active delegator whose chain has no such Bot; the stored row and its delegator are written as stated; the forest and all budgets are kept |
| DelegationTable.RunTable.ReserveDelegationOutput | app/bot-service/internal/repo/delegation_authority.go:164-186 | a reservation of output tokens is granted if and only if it is free, for a Run of no collaboration or the call acceptance paid for, or the tokens below the root stay within 16384; it keeps the table valid |
| DelegationTable.RunTable.ReserveDelegationInput | app/bot-service/internal/repo/delegation_authority.go:188-201 | extra input bytes are granted if and only if the Run is of no collaboration or the bytes below the root stay within 262144; they keep the table valid |
| DelegationLimits.AcceptIff | app/bot-service/internal/repo/delegation.go:63-149 | when acceptance succeeds, without the acceptance itself: the limits are counted over the Runs below the root, and the chain over the Runs above the delegator |
| DelegationLimits.AcceptRecords | app/bot-service/internal/repo/delegation.go:84-149 | an accepted delegation is one level deeper under its delegator's root, and its delegator lists it and moves on a version |
| DelegationLimits.UsageIsWhatIsBelow | app/bot-service/internal/repo/delegation.go:108-118 | the usage read from the rows of a root is the number, bytes and tokens of the Runs below it in the forest |
| DelegationLimits.ChainIsAbove | app/bot-service/internal/repo/delegation.go:95-107 | the walk up the delegators finds the Bot exactly when a Run above runs it |
| DelegationLimits.ReserveOutputIff | app/bot-service/internal/repo/delegation_authority.go:164-186 | when a reservation of output tokens succeeds, and the row it then writes |
| DelegationLimits.ReserveInputIff | app/bot-service/internal/repo/delegation_authority.go:188-201 | when further input bytes are accepted, and the row then written |
| DelegationTable.RunTable.RequestDelegatedStops | app/bot-service/internal/run/delegation.go:271-299 | the recursive stop terminates, writes every live descendant exactly once and nothing else |
| DelegationTable.StopSettles | app/bot-service/internal/run/authority.go:231-268 | stopping a child leaves an ended one untouched and any other stop-rejected, stopping, ended or already complete, with its version raised by one |
| DelegationTable.SubtreeSettles | app/bot-service/internal/run/delegation.go:271-299 | after a tree stop nothing below the root is left running and nothing outside has moved |
| DelegationTable.BranchSplits | app/bot-service/internal/run/delegation.go:271-299 | the subtrees of the children partition the descendants, so each is visited once |
| DelegationRows.BarrierChainClimbs | app/bot-service/internal/repo/delegation.go:29-61 | on a stored table the walk from every Run ends without error at its barrier |
| DelegationRows.ChainEndsAtBarrier | app/bot-service/internal/repo/delegation.go:29-61 | every chain the walk may take ends at the barrier |
| DelegationRows.CandidateChainEndsAtBarrier | app/bot-service/internal/repo/delegation.go:83-94 | the key found through the parent edge of a Run not yet stored |
| DelegationRows.BarrierIsConnectivity | app/bot-service/internal/repo/delegation.go:29-61 | two Runs have the same barrier if and only if continuation and delegation edges connect them |
| DelegationRows.BudgetRootSharesBarrier | app/bot-service/internal/repo/delegation.go:83-94 | Runs sharing a budget root share a barrier |
| DelegationBudget.AcceptKeepsForest | app/bot-service/internal/repo/delegation.go:63-149 | acceptance keeps the table a forest |
| DelegationBudget.AcceptKeepsKey | app/bot-service/internal/repo/delegation.go:83-94 | the key found before acceptance equals the key found through the stored root afterwards, and no other key moves |
| DelegationBudget.AcceptKeepsBudget | app/bot-service/internal/repo/delegation.go:108-118 | acceptance checked against the usage of its root keeps every root within its limits |
| DelegationBudget.AcceptUsage | app/bot-service/internal/repo/delegation.go:108-118 | acceptance spends exactly what the new Run asks for, from its own root only |
| DelegationBudget.NoBotRepeats | app/bot-service/internal/repo/delegation.go:95-107 | no Bot appears twice on a delegation chain |
| DelegationBudget.RootedAreDescendants | app/bot-service/internal/repo/delegation.go:83-94 | the Runs charged to a root are exactly its delegation descendants |
| DelegationBudget.UsageCounts | app/bot-service/internal/repo/delegation.go:108-118 | the aggregate over a root counts every descendant once |
| DelegationProtocol.OtherReadSurvives | app/bot-service/internal/repo/delegation.go:29-118 | a usage read under one barrier is not invalidated by a commit under another |
| DelegationProtocol.NextKeepsInv | app/bot-service/internal/repo/delegation.go:29-118 | every interleaved step of concurrent transactions keeps the table, the locks and the reads consistent |
| DelegationProtocol.BudgetsHold | app/bot-service/internal/repo/delegation.go:83-118 | in every reachable state a root has at most 8 descendants, depth 3, 262144 input bytes and 16384 reserved tokens, and no Bot of the root below it |
| DelegationProtocol.BarriersHold | app/bot-service/internal/repo/delegation.go:29-61 | in every reachable state barriers are connectivity, and a Run's barrier never changes |
| DelegationCommits.AcceptCommitsIff | app/bot-service/internal/repo/delegation.go:29-149 | however transactions interleave, one commits an acceptance if and only if the Run is worthy of a start in the table it is then written to, and writes exactly that Run under its delegator |
| DelegationCommits.ReserveCommitsIff | app/bot-service/internal/repo/delegation_authority.go:164-201 | the same for reservations of output and input |
| DelegationCommits.AloneIsServed | app/bot-service/internal/repo/delegation.go:29-149 | whoever finds its barrier free can begin, read and commit at once, if and only if the Run is worthy of a start |
| FenceDelegation.AdmittedChainsPassTheCap | pkg/resourcegrant/output_sources.go:340-343 | an admitted Run at depth d has exactly d delegation origins above it, so the fence's cap of three never refuses it |
| RunLife.StopAfterCompletion | app/bot-service/internal/run/authority.go:231-246 | a stop after completion closes the stream and never undoes the completion: the Run succeeds if and only if the result is published, fails if and only if it is not and access was revoked, and keeps status, stage and output otherwise |
| RunOutcomes.StopLeaves | app/bot-service/internal/run/authority.go:231-268 | every column a stop request leaves, and when it queues execution: by whether the result is complete, the stop was asked for, or the executor has confirmed it |
| RunOutcomes.StopAskedTwice | app/bot-service/internal/run/authority.go:231-268 | a user who asks again for a stop changes nothing more |
| RunOutcomes.ReportTakenIff | app/bot-service/internal/run/executor.go:170-281 | which reports of an external executor are recorded, report by report: lease, sequence, output, status, stop, pending action; any other leaves the Run as it was |
| RunOutcomes.OutcomeLeaves | app/bot-service/internal/run/executor.go:236-335 | what each outcome leaves in every column: a confirmed stop stops the Run or leaves it for takeover, a refused one runs on, a failure ends it, a completion queues its output; the sequence goes on by one, and only an update that answers no stop extends the lease |
| RunOutcomes.ExecutorLeaves | app/bot-service/internal/run/executor.go:212-235 | what taking a Run, a heartbeat and an acknowledgement leave |
| RunOutcomes.ControlTakenIff | app/bot-service/internal/run/executor.go:505-672 | which human commands are recorded, command by command |
| RunOutcomes.ControlLeaves | app/bot-service/internal/run/executor.go:505-672 | what giving input, resuming, taking over and granting leave in every column, and what they queue |
| RunOutcomes.StopRecorded | app/bot-service/internal/run/executor.go:505-672 | a recorded stop of a Run that ended, that cannot be stopped, and of any other |
| RunOutcomes.OwnerIff | app/bot-service/internal/repo/run_repo.go:379-400 | who passes the execution fence: the platform, or the holder of an unexpired lease of the current generation |
| RunChanges.WorkerTaken | app/bot-service/internal/run/worker.go:173-343 | which facts of a built-in worker are taken and what each leaves; a result only when every accepted input was applied |
| RunChanges.LifecycleTaken | app/bot-service/internal/run/authority.go:96-229 | which lifecycle changes are taken and what each leaves in every column |
| RunChanges.RevocationTaken | app/bot-service/internal/run/authority.go:200-215 | a revoked or rerouted Run is left as a stop request leaves it |
| RunChanges.ParentStopLeaves | app/bot-service/internal/run/delegation.go:271-299 | what a parent's stop leaves of a Run that ended, that cannot be stopped, and of any other |
| RunChanges.ScrubLeaves | app/bot-service/internal/repo/run_repo.go:483-513 | a scrub revokes and stops the Run, takes a built-in executor's generation away, and hides exactly the named actions |
| RunChanges.CloseLeaves | app/bot-service/internal/repo/run_repo.go:944-1040 | closing an interaction is recorded once and for an ended Run only |
| RunChanges.ClaimLeaves | app/bot-service/internal/repo/run_repo.go:724-785 | a claim leases a due item for a minute when no item of the Run is leased; an accepted, running or stopping Run, and no other, starts a new generation |
| RunChanges.ClaimRaisesIff | app/bot-service/internal/repo/run_repo.go:755-785 | the generation is raised if and only if the Run is accepted, running or stopping |
| RunChanges.ItemLeaves | app/bot-service/internal/repo/run_repo.go:786-801 | renewing, completing and retrying an item change it exactly for the holder of its token |
| RunCommands.RequestStopMoves | app/bot-service/internal/run/authority.go:231-268 | a stop request never withdraws an output, and a Run it ends has a closed stream, in every branch |
| RunCommands.LifecycleMoves | app/bot-service/internal/run/authority.go:96-229 | every lifecycle change keeps generations, outputs and the meaning of a confirmed stop |
| RunCommands.ExecutorMoves | app/bot-service/internal/run/executor.go:212-335 | an accepted executor step keeps its generation, and an update takes exactly the next place in the sequence |
| RunCommands.ControlMoves | app/bot-service/internal/run/executor.go:505-672 | human control keeps outputs and inputs, and either keeps the lease or starts the next generation at sequence zero |
| RunCommands.WorkerMoves | app/bot-service/internal/run/worker.go:173-343 | worker facts never touch the lease and never withdraw an output |
| RunCommands.UpdateMoves | app/bot-service/internal/run/executor.go:236-335 | an admitted executor update keeps the generation, takes exactly the next place in the sequence, withdraws no output and queues nothing |
| RunCommands.ConfirmedMoves | app/bot-service/internal/run/executor.go:262-281 | a confirmed or refused stop withdraws no output, and after a confirmed one the stream is closed and the Run has ended or waits for a takeover |
| RunRepository.RunRepository.CheckExecutionLease | app/bot-service/internal/repo/run_repo.go:379-400 | the lease fence, by a search over the unfinished items |
| RunRepository.RunRepository.Claim | app/bot-service/internal/repo/run_repo.go:724-785 | the oldest eligible item is claimed, and none only when none is eligible |
| RunRepository.RunRepository.Renew | app/bot-service/internal/repo/run_repo.go:786-795 | renewal needs the token and a live lease |
| RunEffects.CompletedForEver | app/bot-service/internal/repo/run_repo.go:796-798 | a completed item is never claimed again and holds no lease, whatever runs after |
| RunEffects.RetryWaits | app/bot-service/internal/repo/run_repo.go:799-801 | a retried item gives up its lease at once and can be claimed again exactly when its backoff, at most thirty seconds, is over |
| RunRepository.RunRepository.CheckExternalWrite | app/bot-service/internal/run/action_recovery.go:28-37 | whether an action with an outside effect is executing or of unknown outcome |
| RunRepository.RunRepository.SweepOrphans | app/bot-service/internal/run/action_recovery.go:57-87 | the sweep settles every orphaned claim and reports an unknown outcome outside |
| RunRepository.RunRepository.RecoverOrphans | app/bot-service/internal/run/action_recovery.go:43-102 | recovery settles the actions and parks the Run, or writes nothing |
| RunRepository.RunRepository.RebindAction | app/bot-service/internal/run/action_recovery.go:106-160 | rebinding changes the generation and nothing else, unless the action lapsed |
| RunRepository.RunRepository.Invoke | app/bot-service/internal/run/actions.go:618-671 | the claim before the external boundary: an approved action once, a settled one replayed, anything else refused |
| RunActions.InvokeKeeps | app/bot-service/internal/run/actions.go:621-665 | an action with an outside effect can be claimed only if it never was |
| RunActions.ReceiptKeeps | app/bot-service/internal/run/actions.go:757-787 | a receipt belongs to the live claim, and success means the call was made |
| RunEffects.RecoverySettles | app/bot-service/internal/run/action_recovery.go:43-102 | recovery leaves no claim without a live lease, changes no other action, and parks a Run that may have had an unknown effect outside |
| RunEffects.DecisionsLeaveClaims | app/bot-service/internal/run/actions.go:985-1041 | a human decision changes at most the action it names, only from proposed or by withdrawing an approved one, and never extends its time |
| RunDecisions.DecisionLeaves | app/bot-service/internal/run/actions.go:985-1041 | a decision is recorded exactly when it can be taken; approval makes a proposed action approved, refusal denied, withdrawal takes a proposed or approved one back |
| RunDecisions.DecisionWakes | app/bot-service/internal/run/actions.go:1023-1033 | a decided action wakes a Run that waits for it and no other |
| RunDecisions.TurnedDownForEver | app/bot-service/internal/run/actions.go:1014-1020 | over any run, a denied or withdrawn action stays so and is never claimed |
| RunDecisions.ClaimedOnlyIfApproved | app/bot-service/internal/run/actions.go:618-671 | over any run, an action whose risk needs approval is claimed only after a recorded approval or a standing grant, and never after a refusal |
| RunInvocations.PrepareLeaves | app/bot-service/internal/run/actions.go:527-612 | when preparing succeeds and what it leaves: a new action proposed or approved by risk and grant, a prepared one found again as its time and approval leave it, the Run waiting for what is newly proposed |
| RunInvocations.InvokeLeaves | app/bot-service/internal/run/actions.go:618-671 | when invoking succeeds, and that an approved action is claimed by exactly one new call |
| RunInvocations.ClearLeaves | app/bot-service/internal/run/actions.go:677-707 | the fence before the call clears only the holder of the current claim |
| RunInvocations.ReceiptLeaves | app/bot-service/internal/run/actions.go:757-787 | which receipts count, and what each makes of the action and of the Run |
| RunInvocations.RecoveryLeaves | app/bot-service/internal/run/action_recovery.go:43-102 | what recovery makes of every action and of the Run |
| RunEffects.PreparesOnce | app/bot-service/internal/run/actions.go:527-612 | preparing under a submission key already used finds the same action of the same risk, rebound or lapsed, and creates no other |
| RunProgress.StepKeepsWork | app/bot-service/internal/repo/run_repo.go:402-455 | every step raises the version when it writes, keeps generations growing, keeps an accepted completion and freezes an ended Run |
| RunProgress.ScrubKept | app/bot-service/internal/repo/run_repo.go:483-513 | a scrub writes the row without closing its stream, and still no ended Run is left with an open one |
| RunSafety.StepKeepsLeases | app/bot-service/internal/repo/run_repo.go:724-801 | every step keeps at most one live lease, and claims that raise the generation under ever larger ones |
| RunHistory.StepKeepsLog | app/bot-service/internal/repo/run_repo.go:821-940 | every step keeps applied updates in order, command keys distinct and completions single |
| RunHistory.StepKeepsActions | app/bot-service/internal/run/actions.go:527-810 | every step keeps the relation between actions and the calls made for them |
| RunTheorems.AcceptedIsSafe | app/bot-service/internal/run/service.go:619-636 | a freshly accepted Run satisfies all invariants |
| RunTheorems.OneLeaseHeld | app/bot-service/internal/repo/run_repo.go:724-801 | in every reachable state at most one unfinished execution item holds a live lease |
| RunTheorems.ClaimsRise | app/bot-service/internal/repo/run_repo.go:764-781 | each claim that raises the generation works under a larger one than all claims before it |
| RunTheorems.SupersededForEver | app/bot-service/internal/repo/run_repo.go:379-400 | a superseded generation fails the lease fence in every later state |
| RunTheorems.ParkedClaimRevives | app/bot-service/internal/repo/run_repo.go:761-782 | a claim of a Run that is not accepted, running or stopping hands its generation to a second worker, which makes it current for the first one too |
| RunScenario.LostGenerationIsRevived | app/bot-service/internal/repo/run_repo.go:761-782 | a run from an accepted Run in which this happens: the worker is gone after it parked the Run, and its expired item is claimed again |
| RunTheorems.RevivedOnlyByParkedClaim | app/bot-service/internal/repo/run_repo.go:761-801 | nothing but such a claim revives a generation whose lease was lost |
| RunTheorems.EndedForGood | app/bot-service/internal/repo/run_repo.go:402-455 | an ended Run never changes status, stage, output, generation or input again and its stream stays closed, whatever runs |
| RunTheorems.VersionsTell | app/bot-service/internal/repo/run_repo.go:441-452 | two states with the same version differ in nothing but the delivery of the output |
| RunTheorems.CompletionStays | app/bot-service/internal/run/executor.go:522-576 | after a completion is accepted it is never withdrawn and no further input is accepted |
| RunTheorems.UpdatesCountUp | app/bot-service/internal/run/executor.go:240-261 | within each generation the applied updates are exactly 1, 2, ..., n, and at most one completion of an external executor is recorded |
| RunTheorems.CompletionNeedsLatestInput | app/bot-service/internal/repo/run_repo.go:877-881 | an external completion is recorded only at the current generation and latest accepted input, with none recorded before |
| RunWorkers.CompletedAtMostOnce | app/bot-service/internal/run/agent.go:361-376 | over all interleavings of competing workers a built-in completion is recorded at most once, unless a generation was claimed again while parked before an earlier worker of it was done |
| RunWorkers.SecondCompletionIff | app/bot-service/internal/run/worker.go:113-179 | when a worker completes, a second completion can follow if and only if another worker has the Run open under the same generation |
| RunWorkers.RivalsAreReclaimed | app/bot-service/internal/repo/run_repo.go:761-782 | in a run from an accepted Run two workers have the Run open under one generation only after it was claimed again while parked |
| RunScenario.CompletionIsRepeated | app/bot-service/internal/run/agent.go:361-376 | a run from an accepted Run in which a parked item is claimed twice, an input sets the Run going, one worker completes and queues the output and the other records a second completion over it |
| RunTheorems.ReplayIsSilent | app/bot-service/internal/repo/run_repo.go:882-897 | resubmitting a receipted command changes nothing, and other content under its key is a conflict |
| RunTheorems.CommandsOnce | app/bot-service/internal/repo/run_repo.go:882-939 | over any run each command key is applied at most once |
| RunTheorems.CommandsStay | app/bot-service/internal/repo/run_repo.go:882-939 | what was applied stays applied in its order: the log of command keys only grows at its end, over any run |
| RunTheorems.CalledAtMostOnce | app/bot-service/internal/run/actions.go:616-810 | over all interleavings of claims, crashes, expiry, recovery and decisions an action with an outside effect is called at most once, and exactly once when it succeeded |
| RunTheorems.UncertainForEver | app/bot-service/internal/run/action_recovery.go:43-102 | an unknown outcome is never left |
| RunEffects.ClaimHandsOver | app/bot-service/internal/repo/run_repo.go:764-782 | a claim of a Run that may execute raises the generation, holds its lease and supersedes the one before |
| RunEffects.ApprovedActionSucceeds | app/bot-service/internal/run/actions.go:618-787 | an approved action whose claim stays current is claimed, cleared, called exactly once more and recorded as succeeded |
| RunEffects.LostClaimIsSettled | app/bot-service/internal/run/action_recovery.go:59-80 | a claim that lost its lease becomes unknown when it may have had an effect outside or the Run has ended, and may run again otherwise |
| ClientCache.RemoveAndRedactKeeps | web-client/src/services/messageSync.ts:22-33 | removing a message leaves a well-formed list in which it is dead and its replies are redacted |
| ClientCache.HideKeeps | web-client/src/services/messageSync.ts:77-81 | hiding all tombstones leaves none of them and revives nothing |
| ClientCache.SortSorts | web-client/src/services/messageSync.ts:18 | the stable sort sorts, keeps identities unique and leaves a sorted list alone |
| ClientCache.MergeKeeps | web-client/src/services/messageSync.ts:13-20 | a merge keeps lists unique, sorted and redacted, never replaces a recall by an unrecalled copy, and keeps every other message |
| ClientChanges.ChangeKeeps | web-client/src/services/messageSync.ts:50-82 | every inbox change keeps the cache invariant |
| ClientChanges.MutationKeeps | web-client/src/services/messageSync.ts:276-296 | every live add, edit or delete keeps the cache invariant |
| ClientChanges.TombstonesGrow | web-client/src/services/messageSync.ts:70-75 | exactly a delete adds a tombstone, and no change drops one |
| ClientChanges.InvariantRestores | web-client/src/services/storage.ts:14-77 | the restore validator accepts every cache that satisfies the invariant |
| ClientPage.NextCacheKeeps | web-client/src/services/messageSync.ts:199-215 | a page or rebuild taken over a well-formed cache gives a well-formed cache |
| ClientPage.ReplayKeeps | web-client/src/services/messageSync.ts:229-236 | the replay of live changes and of the page's removals keeps the invariant |
| ClientPage.RebuiltShape | web-client/src/services/message.ts:265-287 | a normalised rebuild snapshot has well-formed lists |
| ClientShows.PutShows | web-client/src/services/messageSync.ts:64-76 | a put message replaces its earlier copy and blanks the replies to it when recalled; a dead one, or an unrecalled copy of a recalled one, changes nothing; nothing else changes |
| ClientShows.DeleteShows | web-client/src/services/messageSync.ts:68-76 | a deletion takes exactly the message out and blanks exactly the replies to it |
| ClientShows.UpsertShows | web-client/src/services/messageSync.ts:57-63 | a change of the conversation alone leaves its messages as they are |
| ClientShows.OtherListsStay | web-client/src/services/messageSync.ts:50-82 | a change touches the messages of its own conversation only, and a removal takes them all |
| ClientShows.AddShows | web-client/src/services/message.ts:143-287 | a live message joins the list once, its replies shown as they are |
| ClientShows.ChangeLists | web-client/src/services/messageSync.ts:50-82 | after a change the list of conversations is the one before with the snapshot in its place or appended, a dead last message cleared; a removal takes exactly the conversation out |
| ClientShows.ChangeShowsConversation | web-client/src/services/messageSync.ts:57-63 | a conversation a change carries is listed exactly once with that snapshot, and every other keeps its value |
| ClientShows.PageShowsConversation | web-client/src/services/messageSync.ts:197-215 | after an incremental page each conversation shows the last snapshot the page carried for it, or what it showed before |
| ClientShows.RebuildLists | web-client/src/services/messageSync.ts:201-214 | after a rebuild the list is exactly the snapshots' conversations in order, dead last messages cleared |
| ClientShows.ReturnedStays | web-client/src/services/messageSync.ts:216-236 | a conversation a page removed and brought back is still listed after the page was replayed over the live changes |
| ClientEffects.HideRetains | web-client/src/services/messageSync.ts:22-25 | hiding dead messages keeps every other one |
| ClientEffects.PutTakesEffect | web-client/src/services/messageSync.ts:64-69 | a change with a message shows it, unless it is dead or its recall is known, and keeps the others |
| ClientEffects.AddTakesEffect | web-client/src/services/messageSync.ts:276-284 | a live message shows at once unless it is dead, and one already there is left |
| ClientEffects.PageSetsPosition | web-client/src/services/messageSync.ts:208-215 | the cache a page produces stands at the page's position |
| ClientEffects.RebuildShowsSnapshot | web-client/src/services/messageSync.ts:199-215 | a rebuild shows every message of its snapshots that is not known to be dead |
| ClientReplay.DeletesEndure | web-client/src/services/messageSync.ts:229-236 | no replayed live change brings back a message the page deleted |
| ClientReplay.RecallsEndure | web-client/src/services/messageSync.ts:229-236 | no replayed live change un-recalls a message the page recalled |
| ClientReplay.RemovalsEndure | web-client/src/services/messageSync.ts:216-236 | a conversation the page removed stays removed, and holds no message but those the page recalled afterwards |
| ClientSync.RunsAreSafe | web-client/src/services/messageSync.ts:183-296 | in every run of pages, rebuilds, echoes, deletes, failing writes and reloads, every cache in memory, in storage or on its way there satisfies the invariant |
| ClientSync.StoredSnapshotsRestore | web-client/src/services/storage.ts:79-119 | no reload ever discards what the engine stored |
| ClientSync.ResumedPageEndures | web-client/src/services/messageSync.ts:243-247 | after the commit the page's deletes, recalls and removals hold in memory over all changes that arrived meanwhile |
| ClientProgress.PageGoesOn | web-client/src/services/messageSync.ts:193-241 | a page that fits the request is committed against the requested position and ends at its own; any other ends the synchronisation |
| ClientProgress.CommitStores | web-client/src/services/storage.ts:84-119 | the commit stores the cache in flight and is refused by nothing but a failing write, which ends the synchronisation |
| ClientProgress.ResumeGoesOn | web-client/src/services/messageSync.ts:242-249 | memory then stands at the page's position with the live changes since; a page with more is followed by a request from there, any other ends the synchronisation |
| ClientProgress.RunsAreAligned | web-client/src/services/messageSync.ts:183-249 | in every run requests, the cache in flight, the queued commit and storage stand at the positions they should |
| ClientProgress.StoredMovesOn | web-client/src/services/messageSync.ts:183-249 | what is stored moves only by a committed page, never back except by a rebuild, and on when more is announced |
| ClientProgress.SynchronisesAll | web-client/src/services/messageSync.ts:183-249 | any chain of pages that arrive and are stored ends idle at the last page's position, in memory and in storage |
| ClientProgress.DiscardedIff | web-client/src/services/storage.ts:14-77 | a stored snapshot is loaded unless a number in it is impossible, a message does not belong where it stands, a recalled one still has content, or a reply still shows one |
| ClientSync.OnlyReloadForgets | web-client/src/services/messageSync.ts:183-296 | no step but a reload drops a tombstone from memory |
| ClientSync.ReloadedTombstones | web-client/src/services/messageSync.ts:187-192 | after a reload the tombstones are exactly those stored and those of deletes still to be replayed |
| ClientSync.LocalDeleteCanBeLost | web-client/src/services/messageSync.ts:187-246 | a run in which every write succeeds and a local delete is nevertheless gone at the end from memory and from storage |
| ClientTombstones.DroppedIffOverwritten | web-client/src/services/storage.ts:84-119 | a step drops a stored tombstone if and only if it is a commit at its expected position whose cache lacks it |
| ClientTombstones.ReloadHoldsIff | web-client/src/services/messageSync.ts:187-192 | a reload keeps every tombstone on its way to storage in memory if and only if each delete still queued is stored or still to be replayed |
| ClientTombstones.SafeRunsLoseNothing | web-client/src/services/messageSync.ts:183-268 | a run whose reloads all meet that condition never drops a stored tombstone |
| ClientTombstones.ReloadLosesIff | web-client/src/services/messageSync.ts:187-246 | after a reload a stored tombstone can be dropped without a further reload if and only if the reload did not meet it |
| ClientEngine.HideDeadOneByOne | web-client/src/services/messageSync.ts:77-81 | the loop over hidden identities is the specified hiding |
| ClientEngine.TakeChange | web-client/src/services/messageSync.ts:50-82 | one change applied as the specification says; what it shows is said by ClientShows |
| ClientEngine.ReplayLiveChanges | web-client/src/services/messageSync.ts:229-236 | the replay loops are the specified replay |
| ClientEngine.RemovedConversations | web-client/src/services/messageSync.ts:216-220 | the set of conversations a page removes and does not bring back |
| ClientEngine.MessageSyncEngine.TakePage | web-client/src/services/messageSync.ts:197-241 | the fields after a page, the commit queued at the requested position |
| ClientEngine.MessageSyncEngine.Resume | web-client/src/services/messageSync.ts:242-248 | the fields after the commit: consumed changes dropped, the rest replayed |
| ClientEngine.MessageSyncEngine.Handle | web-client/src/services/messageSync.ts:122-268 | whatever event arrives, the engine keeps the cache invariant in memory, in the queue and in storage |
| ModelViews.ChooseCut | app/bot-service/internal/run/compaction.go:252-332 | the two passes choose the specified cut |
| ModelViews.ScanRounds | app/bot-service/internal/run/compaction.go:258-285 | the first pass finds the last quiet message, assistant and request, and refuses interleaved rounds only |
| ModelViews.Settle | app/bot-service/internal/run/compaction.go:308-331 | the second pass finds the last settled position |
| WorkLog.CutIsComplete | app/bot-service/internal/run/compaction.go:252-332 | no call is outstanding at the cut, the latest assistant segment lies after it, and the current request lies after it or is pinned |
| WorkLog.CutAnswersItsCalls | app/bot-service/internal/run/compaction.go:308-331 | every call made in the covered part is answered in the covered part |
| WorkLog.CutIsGreatest | app/bot-service/internal/run/compaction.go:308-331 | no later position within the bound would do |
| WorkLog.MaterialStaysWithRequest | app/bot-service/internal/run/compaction.go:289-307 | material cited directly before a later request stays after the cut with it |
| CompactionFacts.NoCutIff | app/bot-service/internal/run/compaction.go:258-285 | there is no cut exactly when an assistant speaks while a call an assistant made before is unanswered |
| CompactionFacts.CutIsGreatestCuttable | app/bot-service/internal/run/compaction.go:252-332 | the cut is the greatest position that splits no round, leaves the latest assistant segment and a later request behind it, and cuts no cited material off; exactly a first request is pinned |
| CompactionFacts.OpenIff | app/bot-service/internal/run/compaction.go:258-285 | the calls the first pass holds open are those an assistant made and no tool message answered since |
| CompactionFacts.OutstandingIff | app/bot-service/internal/run/compaction.go:308-331 | the same for the second pass and calls of any message |
| WorkLog.AppendStaysPaired | app/bot-service/internal/run/compaction.go:252-332 | appending a block keeps every tool message paired exactly when a tool message answers an outstanding call |
| WorkLog.TailStaysPaired | app/bot-service/internal/run/compaction.go:252-332 | cutting there leaves no tool message without its call |
| Compaction.ViewStaysPaired | app/bot-service/internal/run/compaction.go:117-151 | in the compacted view, however far the log has grown, every tool message answers a call of an earlier message |
| Compaction.CompactionView | app/bot-service/internal/run/compaction.go:117-151 | the loop assembles the specified view and its omissions |
| Compaction.ViewKeepsRequest | app/bot-service/internal/run/compaction.go:117-151 | the compacted view contains the current request, however far the log has grown since |
| Compaction.ViewIsSummaryAndTail | app/bot-service/internal/run/compaction.go:117-151 | the compacted view is the instructions, the summary, what is pinned and the whole tail in order |
| CompactionFacts.TailShows | app/bot-service/internal/run/compaction.go:117-151 | every message after the cut is shown once, in its place, as it is or, when a tool's or cited one is too large, as a notice of its position |
| CompactionFacts.OmissionsIff | app/bot-service/internal/run/compaction.go:117-151 | the omissions of a view are those of its checkpoint and the notices shown after it |
| Compaction.FillRequest | app/bot-service/internal/run/compaction.go:398-441 | a summary request holds the material of its range, fits when it carries any, and ends at the cut or before the first block that would not fit |
| Compaction.FoldChunk | app/bot-service/internal/run/compaction.go:397-543 | one round covers at least one block; its summary has the goal, constraints and completed work of the model's answer to that request, and its pending work with every omission named; it fails exactly when the first block does not fit, or the answer is missing or too large |
| Compaction.FoldPrefix | app/bot-service/internal/run/compaction.go:396-543 | the chunks tile the range exactly once and in order, each built on and asked about with the answer before it; the omissions are exactly those known and those of the range; it fails only in a round that is stuck after all before it were folded |
| Compaction.Admitting | app/bot-service/internal/run/compaction.go:530-534 | every omission ends among what is pending, and nothing else of the summary changes |
| CompactionFacts.MaterialsShow | app/bot-service/internal/run/compaction.go:404-436 | every message of a range is asked about once, in order, wrapped with its position unless the user said it |
| CompactionFacts.NoticesIff | app/bot-service/internal/run/compaction.go:404-436 | the notices owed for a range are the positions of its oversized material |
| CompactionFacts.RequestIsFull | app/bot-service/internal/run/compaction.go:398-441 | a request takes in one message after the other within the context, and stops only before one with which it would exceed it |
| CompactionFacts.CoveredOnce | app/bot-service/internal/run/compaction.go:396-543 | every position of a folded range is covered by exactly one chunk, each asked about with the summary of the one before |
| ModelViews.CompactWork | app/bot-service/internal/run/compaction.go:334-597 | the new checkpoint covers strictly more than the prior one, up to the chosen cut, with the last answer of the fold; there is none only for want of a cut, of anything to cover, or of a round |
| ModelViews.WorkingView | app/bot-service/internal/run/compaction.go:155-247 | a fresh working view leaves the headroom free, is compacted only when needed and is the compacted view of the log; it fails only when the fixed part does not fit, nothing can be compacted, or the compacted view does not fit either |
| ModelViews.DeliveryView | app/bot-service/internal/run/knowledge_delivery.go:18-69 | the messages are softened in place by the first of three limits that fits; all the room left, up to the output asked for, is granted, and none only when none fits |
| ModelViews.SoftenedKeepsPlaces | app/bot-service/internal/run/compaction.go:79-92 | softening keeps order, roles and tool pairing and changes only tool or cited content |
| CompactionFacts.SoftenedIff | app/bot-service/internal/run/knowledge_delivery.go:18-69 | after up to three rounds a message is a notice of its place exactly when it is a tool's or cited one above the context, a sixteenth of it, or nothing |
| ModelViews.DeliveryStaysPaired | app/bot-service/internal/run/knowledge_delivery.go:18-69 | the softened messages stay paired |
| SourceKeys.CollectInvalid | app/bot-service/internal/run/sources.go:133-251 | the loops over copies and sources collect the specified marks |
| SourceKeys.DeniedIsInvalid | app/bot-service/internal/run/sources.go:72-87 | every source the rows deny counts as invalid |
| SourceKeys.DeniedIff | app/bot-service/internal/run/sources.go:133-223 | when the rows deny a source, said of the rows: message, parent branch, file, knowledge, history read |
| SourceKeys.VouchedIff | app/bot-service/internal/run/sources.go:224-251 | when a material copy is vouched for |
| SourceKeys.ParentsComeFrom | app/bot-service/internal/run/sources.go:175-204 | a Run counts as a revoked parent only when a revalidated source named its earlier branch |
| SourceKeys.InvalidIff | app/bot-service/internal/run/sources.go:72-87 | a source counts as invalid if and only if something denied names the same thing, or it has no chunk and a replaced knowledge source names neither chunk nor document, or it has no message and a withdrawn snapshot names none |
| SourceKeys.BlankIffBare | app/bot-service/internal/run/sources.go:224-250 | a mark under an empty identity is left exactly by such a source or such a snapshot |
| SourceKeys.ExactIffNotBare | app/bot-service/internal/run/sources.go:133-251 | exactly the sources with something denied behind them count as invalid if and only if there is no such source and no such snapshot |
| SourceKeys.CitationInvalidIff | app/bot-service/internal/run/sources.go:318-328 | a shown citation is removed if and only if a denied source or copy names the same message, parent, file, knowledge base, document or chunk |
| Scrub.RunCopies.Refresh | app/bot-service/internal/run/sources.go:101-389 | the sources of the Run, of its readable actions and of its history copies are revalidated, the rows and their citations are scrubbed if any is invalid; if one that is denied stood before, the result is empty, branch and revision one higher and the Run revoked; if all were authorized and vouched for, nothing changes; afterwards none that is denied stands |
| Scrub.ScrubRids | app/bot-service/internal/run/sources.go:278-389 | after a scrub no readable copy depends on an invalid source |
| Scrub.ScrubIsExact | app/bot-service/internal/run/sources.go:278-403 | a scrub changes nothing but what depends on an invalid source, copy by copy, and calls not yet answered; actions keep their status |
| Scrub.RemovableIff | app/bot-service/internal/run/sources.go:252-256 | which material a scrub removes |
| Scrub.WithdrawnIff | app/bot-service/internal/run/sources.go:262-271 | which accepted input a scrub empties |
| Scrub.ScrubNeededIff | app/bot-service/internal/run/sources.go:252-277 | a Run is scrubbed exactly for a lost source in its provenance or in a readable action, a copy to delete, or a readable input to empty |
| Scrub.ScrubEmpties | app/bot-service/internal/run/sources.go:278-403 | a scrub empties exactly the readable blocks, calls and actions that name a lost source, and every call not yet answered |
| Scrub.HealthyStays | app/bot-service/internal/run/sources.go:274-277 | a Run whose sources are all authorized and vouched for is left as it was |
| Scrub.AnswerWithdrawn | app/bot-service/internal/run/sources.go:278-300 | a denied source in a Run empties its result, raises branch and revision and revokes it |
| ScrubBranches.ScrubMovesBranch | app/bot-service/internal/run/sources.go:278-313 | the scrubbed Run stands at a later branch, revoked, and captures nothing new |
| ScrubBranches.ConsumersFail | app/bot-service/internal/repo/run_repo.go:662-681 | every Run that captured the branch before fails the source fence at once and in every later state, unless its own scrub revoked it |
| Scrub.KeptInOrder | app/bot-service/internal/run/sources.go:301-313 | what deletion keeps are the elements at all the positions not dropped, in their order |
| Scrub.ScrubbedNeedsNoScrub | app/bot-service/internal/run/sources.go:252-277 | repeating the scrub with the same invalid sources finds nothing to do |
| Scrub.DeniedIsNowhere | app/bot-service/internal/run/sources.go:101-389 | a revalidated source that is denied is named by no readable copy after a scrub: not by the provenance, materials, inputs, blocks, model calls or actions |
| Scrub.RefreshLeavesNoneDenied | app/bot-service/internal/run/sources.go:101-277 | after a refresh, scrubbed or not, no denied source stands in the provenance, a readable action or a history copy |
| Scrub.CitationsAreClean | app/bot-service/internal/run/sources.go:318-353 | after a scrub no citation of the Run or of an input names what a denied source or copy names |
| Scrub.LostIff | app/bot-service/internal/run/sources.go:307-313 | which of its own sources a Run loses to a scrub: those with something denied behind them and, given a bare source or snapshot, those without a chunk or a message |
| Scrub.AuthorizedMessageIsLost | app/bot-service/internal/run/sources.go:33-37 | a Run with a message and a legacy knowledge copy: the scrub drops the message, which nothing denied is behind, from the provenance and blanks the block that read it |
| SourceBranches.Refresh | app/bot-service/internal/run/sources.go:95-204 | the recursive refresh ends, settles the whole ancestry, changes a Run only by revoking it, and fails only on a cycle |
| SourceBranches.RunGrows | app/bot-service/internal/run/sources.go:300 | rows stay, branches only grow, revocation lasts, and only a scrub drops a captured branch |
| SourceBranches.MovedBranchFailsForEver | app/bot-service/internal/repo/run_repo.go:662-681 | once a captured Run has moved on, the Run that captured it fails the source fence for ever, unless its own scrub revoked it |
| SourceBranches.ContinuationsInherit | app/bot-service/internal/run/sources.go:43-55 | a continuation captures everything its parent captured, so a scrub above the parent condemns it too |
| SourceBranches.FenceIsNotTransitive | app/bot-service/internal/repo/run_repo.go:662-681 | a run of acceptances, consumptions and one scrub after which a Run passes the fence, the Run it consumed fails it, and a branch below has moved |
| SourceBranches.TransitiveIff | app/bot-service/internal/repo/run_repo.go:662-681 | in every later state the fence of a Run tells of every branch captured anywhere in its ancestry, if and only if the Run captured all that the Runs it captured did |
| SourceBranches.ContinuationClosedIff | app/bot-service/internal/run/sources.go:43-55 | a continuation meets that condition exactly when its parent does |
| SourceBranches.ConsumptionClosedIff | app/bot-service/internal/run/delegation.go:190-210 | consuming a result keeps the condition exactly when the child captured nothing the consumer lacks |
| SourceBranches.MovedAncestorCondemns | app/bot-service/internal/run/sources.go:175-204 | the refresh does: a moved or revoked branch anywhere in the ancestry revokes the Run |
| SourceBranches.MovedAncestorCondemnsForEver | app/bot-service/internal/run/sources.go:175-204 | once a branch anywhere in the ancestry stands no longer, the Run is revoked after the next refresh, whatever ran in between, and for ever after |
| ConnectionIndex.ConnectionIndex.Register | pkg/connections/registry.go:45-75 | registration is a plain map write that tells what it superseded; the route is live at every moment before now + ttl and at none from then on, and no other route's time changes |
| ConnectionIndex.ConnectionIndex.Refresh | pkg/connections/registry.go:77-90 | exactly the current incarnation extends its life, to now + ttl and no further; a refused refresh changes nobody's time |
| ConnectionIndex.ConnectionIndex.Remove | pkg/connections/registry.go:92-104 | exactly the current incarnation removes its device |
| ConnectionIndex.ConnectionIndex.List | pkg/connections/registry.go:106-131 | the list is exactly the unexpired routes, each once |
| ConnectionIndex.ConnectionIndex.Owns | pkg/connections/registry.go:132-149 | ownership is being the current incarnation |
| ConnectionIndex.RegisteredLasts | pkg/connections/registry.go:45-131 | a registered route is listed after less than the lifetime, and after no more |
| ConnectionIndex.RefreshedLasts | pkg/connections/registry.go:77-131 | a refresh starts the lifetime again, whatever was left of it |
| ConnectionIndex.TakeoverHolds | pkg/connections/registry.go:45-149 | a superseded incarnation neither refreshes, removes nor owns its successor's device |

## Left out

- Databases, queues, RPC and clocks: rows are values, each transaction is one step, and its lock order is not modelled except for the delegation barrier.
- Row locks of read checks (`FOR SHARE`) and the flag that asks for them: a check inside a transaction sees one state.
- Identities, JSON, hashes and signatures: digests are compared as strings, decoded columns are datatypes, message cost is any function.
- Inner grant, tool, membership and knowledge queries: each is a predicate or a parameter of the step.
- Delivery status, control memberships, context notices and step history of a Run row: no branch modelled here reads them.
- Outbox items other than execution items: they are claimed by the same lease rule without a generation.
- Model calls, agent checkpoints and their boundary match (`agent.go:211-265`): workers appear by the transactions they run and the order they run them in.
- Rules, hooks, routing, files and credential redaction: outside the protocols.
- User switches and tabs of the browser: one runtime and one user, so the reset generation of the engine is always current.
- SourceFence.CheckOutputSources: refusals of stacks higher than 32 Runs are not characterised, and of a root that is not entangled but reaches a tangle only that the order of the columns decides.
- DelegationProtocol.BudgetsHold: a Run's identity is its position in the order of acceptance, because every edge points to a Run accepted earlier.
- RunTheorems.UpdatesCountUp: stated for external executors, the only ones that send updates; the built-in completion is decided in RunWorkers.CompletedAtMostOnce.
- RunScenario.CompletionIsRepeated: the heartbeat that cancels a worker when a renewal fails is not modelled; the run needs a worker whose renewals have stopped and that goes on before it notices.
- RunTheorems.CalledAtMostOnce: only what crosses the external boundary after the claim is counted; whether a made call took effect outside is not observable here.
- ClientReplay.RecallsEndure: assumes that a change of the recalled kind carries a recalled message, which the normaliser does not check.
- ClientChanges.MutationKeeps: an edit must keep identity, order, recall and reply of its message, as every caller must; the code does not check it.
- Compaction.ViewKeepsRequest: assumes that the first block, the fixed instructions, is visible; it carries no sources a scrub could invalidate.
- Compaction.ViewStaysPaired: assumes a paired log, which appending keeps as WorkLog.AppendStaysPaired says; a scrub that blanks a call and not its answer is not covered.
- Compaction.FoldPrefix: attempts, snapshots and answers of the model are one oracle, and the base request is not cost-checked on its own, as in the code.
- ModelViews.WorkingView: returning the view of a call already pending is not modelled.
- Scrub.RunCopies.Refresh: the receipts, agent checkpoints, compaction summaries and queued messages that the same scrub empties, and the flag that the result is invalid, are not among the copies.
- RunChanges.WorkerTaken: an accepted input that a scrub emptied is skipped by the code without clearing the reason to wait; here inputs are numbers and all are taken alike.
- ClientProgress.CommitStores: one runtime writes the snapshot; a commit that another tab has overtaken is refused by its position, as the step says, and that is not followed further.
- SourceBranches.RunGrows: a consumption names any Run as the child; that it was delegated and succeeded is checked by the source fence and not here.
- SourceBranches.Refresh: a captured Run counts as standing by its branch and revocation; the other reasons its authority may end are not in these rows.
- ConnectionIndex.ConnectionIndex.List: the order of the routes is not modelled, and a key is taken to be gone once its time has come.
