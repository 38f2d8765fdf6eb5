# Verified model of the assistant's durable turns, imports, context, broker and chunker

A Dafny 4.11 model of the stateful core of the Odoo assistant addon and of its privileged host broker.
`dafny verify dfyconfig.toml` checks all of it.

| part | files |
|---|---|
| Turn lifecycle: queue, scheduler, control row, write barrier, effect journal | `TurnTypes`, `EffectJournal`, `TurnSteps`, `TurnInvariant`, `TurnSafety`, `TurnProgress`, `Scheduler`, `WorldSafety`, `TurnRuns`, `JournalRules`, `Fairness`, `InterventionLog`, `ClaimOrder`, `TurnOutcomes`, `TurnApproval`, `TurnLimits`, `TurnExhausted`, `TurnReplay` |
| The same in place: journal rows and turn table | `JournalTable`, `TurnTable` |
| Chunked import with rejection and repair, cleanup rules | `DataImport`, `DataImportProofs`, `ImportOutcomes`, `ImportSession`, `CleanupRules`, `CleanupEffects` |
| Conversation checkpoints | `BoundedMerge`, `ConversationContext` |
| Host broker: replay ledger, configuration patcher | `BrokerLedger`, `BrokerAnswers`, `TextLines`, `ConfigLine`, `ConfigRegion`, `ConfigPatch`, `ConfigText`, `ConfigReadBack`, `ConfigReading`, `ConfigChanges`, `ConfigLineEnds`, `ConfigExample` |
| Knowledge text chunker | `TextChunks`, `TextChunkProofs`, `ChunkMerging`, `TextParagraphs` |

**Turn lifecycle.** A turn is a queue row, a control row with its intervention log, an effect journal and the
workers that still hold one of its lease tokens, superseded ones included. `TurnSteps.TurnNext` is one
database commit; `Scheduler.WorldNext` lifts it to the table and adds enqueueing and claiming. A recovery
unit is "checkpoint, steps, checkpoint": effects of an Odoo-local unit are pending until a commit, an external
effect is durable at once. `TurnInvariant.Inv` ties rows, plan snapshot and effects together;
`TurnSafety.StepKeepsInv` and `WorldSafety.WorldStepKeeps` say exactly which steps keep it, and `TurnRuns` states
what follows for runs. What needs no condition (capacity, leases, attempts, intervention log, fairness) is stated
for every run; the rest says exactly which parking writes it tolerates. The provider, the capability calls and the
clock are event parameters.

**A finding about parking.** `_persist_awaiting_plan` writes the row without looking at the lease. Concrete runs show
what a worker whose lease was recovered can do. In `TurnLimits.ZombieRun` it puts a turn with a committed external
effect back in front of the user, one approval makes it claimable, and `TurnLimits.ZombieRunSendsTwice` sends the effect
a second time. That is no accident of the example: a step whose effect is out can run again after such a write if and
only if no stop was accepted before, the plan that was parked is a fresh one, and the journal accepts it
(`TurnReplay.ParkedMayRunAgainExactly`). A parked plan that the journal refuses leads to a review at most; but the rows
are then classified by the units of that plan, and `TurnReplay.ParkedMayBeClosedExactly` says when the review may be
closed as "no change was confirmed" although an effect is out (`TurnLimits.MismatchedRun` is a run in which it may).
In `TurnExhausted.ExhaustedRun`, a run from the empty table, no barrier is involved: it parks a turn that is queued
without attempts while a later turn of the same conversation runs, and both are live. `WorldSafety.ParkKeepsExactly`
gives the exact condition on any sound table: no barrier, not terminal, and, when the turn is out of attempts, no later
turn of the conversation claimed. The lease holder always meets it (`TurnProgress.HolderParksSafely`). A single row stays
sound exactly when it is not parked behind its barrier (`TurnRuns.RowInvExactly`), the table exactly when also no later
turn was claimed (`TurnRuns.RunInvExactly`); every other step is unconditional. PostgreSQL's REPEATABLE READ refuses
some of these writes; the model lets a transaction see fresh rows.

**A finding about redirects.** What runs after an approval is exactly the approved plan, until a repair or another plan
to confirm takes its place (`TurnApproval.ApprovedPlanIsWhatRuns`), and the worker that runs it does not ask the model
first. A redirect is still accepted while the approved turn waits, but nobody reads it: as long as it is pending every
checkpoint and every repair is refused, and the turn can only end without a result (`TurnApproval.RedirectAfterApproval`,
`TurnApproval.RedirectIsNeverHeard`).

**A finding about replanning.** The journal never looks a rolled-back row up again but keeps its unique
(turn, step) key, so after an atomic repair a new plan is accepted exactly when none of its step ids was used before
(`TurnLimits.ReplanNeedsFreshStepIds`). Call ids of the provider are fresh; a proposal whose steps carry no id of
their own gets `step-1`, `step-2`, ... by position, and those repeat.

**A finding about the broker.** `_effectful` catches what the implementation and the closing write of the ledger
raise, but not what the opening one raises. The catch-all of `handle` answers that as an internal error with effect
"none", also for an id whose implementation ran and could not be recorded (`BrokerLedger.RetryIsToldNoEffect`). The
opening write takes the database's write lock, and a closing write that failed may leave the connection inside a
transaction in which no other can be opened. Nothing runs twice for it (`BrokerLedger.ImplementationAtMostOnce`), but
"uncertain for ever" holds exactly for the answers of a ledger that can be read (`BrokerLedger.OrphanIsUncertain`).

**Findings about the patcher.** A patched value is read back exactly when the key's line was not a terminated blank
value and does not run into a non-blank line (`ConfigReadBack.PatchReadsBackExactly`). The second family are lines
that end with a separator other than a line feed in a file that does not end with one. On the same lines a second
patch may add to the file, and another option may be lost or appear: `ConfigChanges.PatchTwice` and
`ConfigChanges.OtherKeysReadAsBefore` say exactly when, and `ConfigExample` has a file for each.

## Model

| member | source | states |
|---|---|---|
| TurnSafety.StepKeepsInv | addons/odoo_ai_assistant/models/effect_recovery_runtime.py:62-114 | Every commit of a worker, the user or the host, in any order and with superseded workers alive, keeps queue row, intervention log, journal, plan snapshot and durable effects consistent, if and only if it is not a parking write behind a standing barrier |
| TurnSafety.EnterUnitKeeps | addons/odoo_ai_assistant/models/effect_recovery_runtime.py:82-101 | The checkpoint before a unit commits journal intent, barrier and snapshot together and leaves every row tied to its effect |
| TurnSafety.CommitUnitKeeps | addons/odoo_ai_assistant/models/effect_recovery_runtime.py:103-114 | The checkpoint after a unit makes its effects durable and its rows verified in one commit |
| TurnSafety.RepairKeeps | addons/odoo_ai_assistant/models/effect_recovery_runtime.py:178-219 | A repair only happens when no effect of the turn survives |
| TurnSafety.RecoverKeeps | addons/odoo_ai_assistant/models/turn_queue.py:489-547 | Stale recovery keeps the invariant, and its "result already stored" branch is never taken |
| TurnInvariant.DurableEffectIsReported | addons/odoo_ai_assistant/models/effect_journal.py:99-147 | A surviving effect is verified in the journal, or it is external and its row says executing or uncertain; it is never reported as rolled back |
| TurnInvariant.VerifiedEffectIsDurable | addons/odoo_ai_assistant/models/effect_journal.py:288-298 | A verified row has its effect |
| TurnInvariant.NothingSurvives | addons/odoo_ai_assistant/models/effect_journal.py:203-209 | When every row is rolled back or skipped, no effect is durable |
| TurnInvariant.InterruptedUnitIsClassified | addons/odoo_ai_assistant/models/effect_journal.py:150-188 | At rest, a step of an interrupted unit is uncertain if external and rolled back otherwise |
| JournalRules.SyncableExactly | addons/odoo_ai_assistant/models/effect_journal.py:99-147 | A well-formed snapshot is accepted if and only if every row of its steps may still be updated and has the same unit, mode and call, and every other row was rolled back or reverted |
| JournalRules.SyncedExactly | addons/odoo_ai_assistant/models/effect_journal.py:99-147 | An accepted snapshot leaves finished rows and rows of other plans alone and gives every other row the state and binding of its step |
| JournalRules.MarkedExactly | addons/odoo_ai_assistant/models/effect_journal.py:150-188 | What each row becomes when a turn is interrupted, by its state and by mode and state of its unit in the stored plan |
| JournalRules.FinalStays | addons/odoo_ai_assistant/models/effect_journal.py:99-188 | In every run, parking, repair and recovery included, a row that says verified or skipped says so for ever |
| JournalTable.JournalRows.SyncPlan | addons/odoo_ai_assistant/models/effect_journal.py:99-147 | The row-by-row update accepts a snapshot exactly when ids are distinct and every binding fits, then stores the merged rows, and otherwise changes nothing |
| JournalTable.JournalRows.MarkTurnFailure | addons/odoo_ai_assistant/models/effect_journal.py:150-188 | The loop over all rows computes the classification the proofs are about |
| JournalTable.JournalRows.AllTurnEffectsRolledBack | addons/odoo_ai_assistant/models/effect_journal.py:203-209 | True exactly when there are rows and each is rolled back or skipped |
| TurnProgress.TerminalAbsorbs | addons/odoo_ai_assistant/models/embedded_runtime.py:424-462 | A terminal turn stays terminal if and only if the step is no parking write; such a step keeps its very state, except that a reviewed turn without a surviving effect may be closed as failed; attempts never change |
| TurnProgress.HolderParksSafely | addons/odoo_ai_assistant/models/embedded_runtime.py:196-226 | The lease holder's row carries no barrier, is not terminal and not out of attempts |
| TurnProgress.SupersededWorkerIsFenced | addons/odoo_ai_assistant/models/turn_queue.py:355-363 | A worker without the lease changes nothing in the queue row, raises no barrier and commits no effect, if and only if it does not park a row that was not parked with the same plan already |
| TurnProgress.SupersededRepair | addons/odoo_ai_assistant/models/effect_recovery_runtime.py:189-219 | A repair by a superseded worker finds no surviving effect, and a barrier it withdraws belongs to a dead turn |
| TurnProgress.LateExternalCall | addons/odoo_ai_assistant/models/effect_journal.py:183-188 | An external call that goes out after the lease was lost belongs to a terminal turn whose row already says uncertain |
| TurnProgress.BarrierGoesUp | addons/odoo_ai_assistant/models/effect_recovery_runtime.py:80-101 | The barrier goes up only under the lease, with no stop pending and every accepted redirect applied |
| TurnProgress.BarrierComesDown | addons/odoo_ai_assistant/models/effect_recovery_runtime.py:189-219 | The barrier comes down only in a repair that leaves no effect and only rolled-back rows |
| TurnProgress.StopIsAccepted | addons/odoo_ai_assistant/models/turn_control_interrupt_persistence.py:63-77 | After a stop, in whatever state and whoever holds the row, the flag is up or the turn is over and no worker passes the checkpoint in front of a unit |
| TurnProgress.StoppedStaysBehindBarrier | addons/odoo_ai_assistant/models/embedded_runtime_host_loop.py:539-544 | A turn stopped in front of its barrier never gets a barrier and leaves no effect; it stays stopped if and only if the step is no parking write or the stop flag is up |
| TurnProgress.ReconciledIsEffectFree | addons/odoo_ai_assistant/models/embedded_runtime.py:424-462 | A review is closed as "no change" only when nothing survived and nothing external is still on its way |
| TurnProgress.RequeuedIsClaimable | addons/odoo_ai_assistant/models/turn_queue.py:419-437 | Every way back into the queue leaves an attempt, if and only if it is not a redirect at 19 attempts |
| TurnProgress.FailRequeuesExactly | addons/odoo_ai_assistant/models/turn_failure.py:147-220 | A failure is retried if and only if no stop is pending, no barrier stands, the failure may be retried and a try is left; otherwise it is cancelled, goes to review behind a barrier, or fails; the retried turn is claimable, and a provider failure that is not marked safe is never retried |
| TurnProgress.FailCeilingExactly | addons/odoo_ai_assistant/models/turn_queue.py:419-437 | A redirect that finds no try left raises the ceiling by one, up to 19, and no other failure moves it |
| TurnProgress.StepKeepsRowInv | addons/odoo_ai_assistant/models/turn_queue.py:400-556 | Lease exactly on running rows, attempts within a ceiling of 19 plus approvals and a gapless intervention log survive every step, parking included |
| TurnOutcomes.RecoverExactly | addons/odoo_ai_assistant/models/turn_queue.py:489-547 | The stale scan moves running turns only: cancelled if and only if a stop is pending, else to review if and only if the barrier stands, else queued if and only if a try is left, else failed; nothing committed changes and no result appears |
| TurnOutcomes.LostBehindBarrierIsReviewed | addons/odoo_ai_assistant/models/turn_queue.py:511-523 | In every run a turn recovered behind its barrier without a stop goes to review, and stays there if and only if nobody closes the review and no late worker parks the turn |
| TurnOutcomes.StopExactly | addons/odoo_ai_assistant/models/turn_control.py:280-341 | A stop ends a parked turn and a queued one that no scheduler holds, and otherwise only raises the flag of a queued or running turn |
| TurnOutcomes.StoppedAtStart | addons/odoo_ai_assistant/models/turn_queue.py:573-590 | A worker that finds the flag before it began ends the turn as cancelled if it still owns it, and else changes nothing but itself |
| TurnOutcomes.AfterUnitExactly | addons/odoo_ai_assistant/models/effect_recovery_runtime.py:103-114 | For a sound turn the checkpoint after a unit that is not the last succeeds if and only if the worker holds the lease, and makes exactly the unit's pending effects durable |
| TurnOutcomes.NextUnitExactly | addons/odoo_ai_assistant/models/effect_recovery_runtime.py:80-101 | Behind the barrier the lease holder enters its next unit if and only if no stop is pending |
| TurnOutcomes.CompleteExactly | addons/odoo_ai_assistant/models/turn_queue.py:355-397 | The final commit succeeds if and only if the worker holds the lease and has a result; the turn completes and everything still pending becomes durable with it |
| TurnOutcomes.RepairExactly | addons/odoo_ai_assistant/models/effect_recovery_runtime.py:178-219 | The lease holder's failed plan goes back to the model if and only if no stop or redirect is pending and it failed before its first unit or in its only, atomic, unit; then no plan, barrier or effect is left |
| TurnOutcomes.DecisionExactly | addons/odoo_ai_assistant/models/embedded_runtime.py:297-387 | A decision is accepted if and only if a parked turn's stored plan is waiting; approved, the turn is queued with the same plan and a try left, rejected, it ends with a result |
| TurnOutcomes.RedirectExactly | addons/odoo_ai_assistant/models/turn_intervention.py:180-205 | A new redirect takes the plan of a parked turn off the table and queues the turn; on any other turn it changes the log only |
| TurnLimits.ZombieRun | addons/odoo_ai_assistant/models/embedded_runtime.py:196-226 | Concrete run: a plan is parked, approved and executed; a superseded worker then parks the same plan although its external effect is out, and one approval makes the turn claimable |
| TurnLimits.ZombieRunSendsTwice | addons/odoo_ai_assistant/models/embedded_runtime_host_loop.py:139-152 | The same run goes on: the turn is claimed, the approved plan starts again and the external step that is already out may run a second time |
| TurnLimits.MismatchedRun | addons/odoo_ai_assistant/models/effect_journal.py:150-188 | Another end of that run: the superseded worker parks another plan, the checkpoint refuses it, its units turn the external row into rolled back, and the review may be closed as "no change" while the effect is out |
| TurnExhausted.ExhaustedRun | addons/odoo_ai_assistant/models/embedded_runtime.py:196-226 | Concrete run from the empty table without a barrier: parking a turn that is queued without attempts, with every redirect applied and no stop, makes two turns of one conversation live |
| TurnLimits.ReplanNeedsFreshStepIds | addons/odoo_ai_assistant/models/effect_journal.py:90-133 | The first checkpoint of a plan passes if and only if none of its step ids is in the journal yet |
| TurnLimits.RepairBurnsStepIds | addons/odoo_ai_assistant/models/effect_recovery_runtime.py:189-219 | After an executed atomic unit is repaired, all step ids of its plan are in the journal |
| Scheduler.EffectiveCapacity | addons/odoo_ai_assistant/models/turn_scheduler.py:160-166 | The configured number of slots; below one it is raised to one, above two it is lowered to two |
| Scheduler.SelectCandidate | addons/odoo_ai_assistant/models/turn_scheduler.py:219-263 | One pass returns an unlocked eligible turn that goes before every other one: fewer running turns of its user, an earlier last service, an earlier request, a lower id, in this order; or none when there is none |
| Scheduler.ChoiceIsUnique | addons/odoo_ai_assistant/models/turn_scheduler.py:252-258 | The order leaves exactly one choice |
| Scheduler.LastClaimedBounds | addons/odoo_ai_assistant/models/turn_scheduler.py:223-231 | The service time used for ordering is the maximum over the user's rows |
| ClaimOrder.ClaimExactly | addons/odoo_ai_assistant/models/turn_scheduler.py:207-263 | A turn can be claimed if and only if fewer turns run than there are slots, it is queued with a try left behind settled turns of its conversation only, it is not locked and it goes before every other such turn |
| ClaimOrder.ClaimedInOrder | addons/odoo_ai_assistant/models/turn_scheduler.py:252-263 | Every claim of every run takes that turn |
| ClaimOrder.OldestRequestFirst | addons/odoo_ai_assistant/models/turn_scheduler.py:252-258 | At every claim of every run, of two open turns of one user, or of users served alike, the one queued first is claimed, and on a tie the lower id |
| ClaimOrder.NoIdleSlot | addons/odoo_ai_assistant/models/turn_scheduler.py:207-263 | Some turn can be claimed if and only if a slot is free and an open turn is not locked |
| WorldSafety.WorldStepKeeps | addons/odoo_ai_assistant/models/turn_scheduler.py:207-283 | Enqueueing, claiming and every turn step keep capacity, causal order, unique requests, fresh tokens and every turn's invariant, if and only if it is not a parking write that meets a barrier or a later claimed turn of the conversation |
| WorldSafety.StepKeepsTable | addons/odoo_ai_assistant/models/turn_scheduler.py:207-283 | Capacity, unique requests, fresh tokens, leases and attempts survive every step without any condition |
| WorldSafety.ParkKeepsExactly | addons/odoo_ai_assistant/models/embedded_runtime.py:196-226 | Parking leaves a sound table sound and revives no finished turn if and only if the row has no barrier, is not terminal and, when out of attempts, no later turn of its conversation was claimed; it makes two turns live if and only if a later one was live |
| WorldSafety.OneLiveTurnPerConversation | addons/odoo_ai_assistant/models/turn_scheduler.py:232-250 | At most one turn of a conversation is running, being cancelled or awaiting confirmation |
| WorldSafety.ContextErrorExactly | addons/odoo_ai_assistant/models/conversation_context.py:92-104 | For a claimed turn the builder reports a non-terminal predecessor if and only if one of the newest 24 earlier turns of the conversation is queued without attempts |
| TurnRuns.RunIsSafe | addons/odoo_ai_assistant/models/chat_storage.py:493-497 | At every point of every run: at most two active turns, a token exactly on active turns, attempts within the ceiling, the ceiling within 19 plus approvals |
| TurnRuns.RunInvExactly | addons/odoo_ai_assistant/models/turn_scheduler.py:207-283 | A run is sound at all its points if and only if no parking write of it met a barrier or a later claimed turn |
| TurnRuns.RowInvExactly | addons/odoo_ai_assistant/models/effect_recovery_runtime.py:62-114 | One turn's row, journal, snapshot and effects agree at every point of a run if and only if that turn is never parked behind its barrier |
| TurnRuns.GuardedRunHasOneLive | addons/odoo_ai_assistant/models/turn_scheduler.py:232-250 | Up to the first such parking write no conversation has two live turns |
| TurnRuns.NoBlindReplay | addons/odoo_ai_assistant/models/turn_queue.py:400-466 | Once an effect of a turn is committed it stays, and the turn is neither queued nor parked again if and only if no worker parks it; while none does it is never claimed |
| TurnRuns.EffectAtMostOnce | addons/odoo_ai_assistant/models/effect_recovery_runtime.py:62-114 | In every run, whenever a worker executes a step, that step's effect was never committed before, unless the turn was parked behind its barrier |
| TurnReplay.ParkedMayRunAgainExactly | addons/odoo_ai_assistant/models/embedded_runtime_host_loop.py:139-152 | A step whose effect is out when a running turn is parked behind its barrier has a continuation in which it runs again, if and only if no stop was accepted before, the parked plan is a fresh one and the journal accepts it |
| TurnReplay.ParkedMayBeClosedExactly | addons/odoo_ai_assistant/models/effect_journal.py:150-188 | When the journal refuses the parked plan, a review may be closed as "no change" although the effect is out, if and only if no stop was accepted before and the units of the parked plan turn every row into rolled back or skipped |
| TurnApproval.HolderRunsTheStoredPlan | addons/odoo_ai_assistant/models/embedded_runtime_host_loop.py:139-152 | In every run the lease holder of an approved turn stands in front of the stored plan, or has not begun, or has failed |
| TurnApproval.ApprovedPlanIsWhatRuns | addons/odoo_ai_assistant/models/embedded_runtime_host_loop.py:139-152 | In every run an approval stands for the plan stored when the user decided, exactly until a checkpoint in front of a unit, a repair or another parking write; a worker that passes that checkpoint runs this plan from its start |
| TurnApproval.RedirectAfterApproval | addons/odoo_ai_assistant/models/embedded_runtime_host_loop.py:539-544 | In every run, after a new redirect on an approved turn: it stays unapplied, no barrier goes up and the turn keeps its unused approval or ends without a result, if and only if no worker parks the turn and none reports that redirect as applied |
| TurnApproval.RedirectIsNeverHeard | addons/odoo_ai_assistant/models/embedded_runtime_host_loop.py:139-152 | If no superseded worker is at work then, this holds at every later point whatever happens, and no further effect comes out |
| TurnRuns.PendingIsNew | addons/odoo_ai_assistant/models/effect_recovery_runtime.py:138-160 | What a transaction is about to commit is not durable yet |
| TurnRuns.StopBeforeBarrier | addons/odoo_ai_assistant/models/turn_control_effect_boundary.py:11-30 | A stop accepted before the barrier: from then on the turn is stopped, without barrier and without effect, if and only if no worker parks it while the stop flag is down |
| TurnRuns.ReconciledForEver | addons/odoo_ai_assistant/models/embedded_runtime.py:424-462 | After reconciliation nothing of the turn is durable or on its way, whatever late workers do, if and only if none of them parks it |
| TurnRuns.FinitelyManyClaims | addons/odoo_ai_assistant/models/turn_queue.py:526-536 | In every run a turn is claimed at most 19 times plus once per approval |
| TurnRuns.EffectsStay | addons/odoo_ai_assistant/models/effect_recovery_runtime.py:103-114 | In every run an effect that is out stays out |
| Fairness.NobodyIsServedTwice | addons/odoo_ai_assistant/models/turn_scheduler.py:252-258 | In every run, two claims made while a user waits serve two different users, unless the waiting user was itself last served in the very second of the first claim |
| Fairness.BoundedBypass | addons/odoo_ai_assistant/models/turn_scheduler.py:219-283 | In every run a waiting user is passed over at most once for every other user |
| InterventionLog.ValidateSnapshotSequence | addons/odoo_ai_assistant/models/turn_intervention.py:404-417 | Accepts exactly the sequences 1..n with n the expected one |
| InterventionLog.SnapshotNeverFails | addons/odoo_ai_assistant/models/turn_intervention.py:249-268 | In every run the log is 1..n and a row is applied exactly when its sequence is at most the applied one |
| InterventionLog.RedirectAcceptedExactly | addons/odoo_ai_assistant/models/turn_intervention.py:87-151 | Accepts no redirect behind the barrier or on a finished turn, a known client id exactly with its own message, and a new one exactly when there is room |
| InterventionLog.AcceptedIsLogged | addons/odoo_ai_assistant/models/turn_intervention.py:116-151 | An accepted new client id becomes the next, pending row and the log before it is untouched |
| InterventionLog.LoggedIsReplayed | addons/odoo_ai_assistant/models/turn_intervention.py:103-112 | A known client id with the same message changes nothing; with another message it is refused |
| InterventionLog.RedirectIsIdempotent | addons/odoo_ai_assistant/models/turn_intervention.py:103-112 | At any later time of any run, an accepted repetition of a logged client id has the logged message and leaves the table as it is |
| TurnTable.Table.EnqueueForCurrentUser | addons/odoo_ai_assistant/models/turn_queue.py:91-157 | A repeated request id returns the turn it created and adds nothing; otherwise one queued turn with this time and conversation is added at the end |
| TurnTable.Table.ClaimNextTurn | addons/odoo_ai_assistant/models/turn_scheduler.py:190-286 | Claims under a new token the open turn that goes first, or none exactly when no slot is free or every open turn is locked |
| TurnTable.Table.FailClaimedTurn | addons/odoo_ai_assistant/models/turn_queue.py:400-456 | The failure branches compute the step the proofs are about |
| TurnTable.Table.RecoverStaleTurns | addons/odoo_ai_assistant/models/turn_queue.py:469-556 | Exactly the first 25 expired turns are recovered, each running one to the state that stop, barrier and tries decide, and no other row changes |
| TurnTable.Table.CheckpointBefore | addons/odoo_ai_assistant/models/effect_recovery_runtime.py:80-101 | The checkpoint succeeds exactly under lease, control and journal checks and then stores journal, plan and barrier |
| TurnTable.Table.CheckpointAfter | addons/odoo_ai_assistant/models/effect_recovery_runtime.py:103-114 | The checkpoint succeeds exactly under lease, barrier and journal checks and then commits the unit |
| TurnTable.Table.RepairRecoverablePlan | addons/odoo_ai_assistant/models/effect_recovery_runtime.py:162-219 | Repairs exactly when control is current and the journal, or a missing barrier, allows it |
| TurnTable.Table.PersistAwaitingPlan | addons/odoo_ai_assistant/models/embedded_runtime.py:196-226 | Parks unconditionally; the table stays sound if and only if the row had no barrier and no later turn of the conversation was claimed |
| TurnTable.Table.MarkRuntimeControlApplied | addons/odoo_ai_assistant/models/turn_intervention.py:294-311 | Marks exactly the rows up to the sequence, or refuses a sequence from the future |
| TurnTable.Table.CancelForCurrentUser | addons/odoo_ai_assistant/models/turn_control.py:280-341 | Stops a queued, parked or running turn as the state asks |
| TurnTable.Table.RedirectForCurrentUser | addons/odoo_ai_assistant/models/turn_intervention.py:83-205 | The search for the client id and the update compute the redirect step, or nothing changes |
| TurnTable.Table.DecideCapabilityPlan | addons/odoo_ai_assistant/models/embedded_runtime.py:297-387 | Approves or rejects exactly a parked turn whose stored plan says that it is waiting, and changes nothing otherwise |
| TurnTable.Table.ReconcileConfirmedAtomicRollback | addons/odoo_ai_assistant/models/embedded_runtime.py:424-462 | Closes a review only with a journal that proves the rollback; then no effect is durable |
| DataImportProofs.ImportedExactlyOnce | addons/odoo_ai_assistant/models/data_import.py:500-524 | Over every interleaving of accepted, rejected and failed chunks and repairs, the rows received are the first nextRow rows of the current artifact in order; at completion all of them, with every correction counted |
| DataImportProofs.ImportedGrows | addons/odoo_ai_assistant/models/data_import.py:630-670 | What was imported is never imported again, changed or taken back |
| DataImportProofs.GuardsNeverFire | addons/odoo_ai_assistant/models/data_import.py:582-591 | A queued session always has rows and a planned sequence number left |
| DataImportProofs.AcceptedChunksComplete | addons/odoo_ai_assistant/models/data_import.py:342-344 | If every chunk is accepted the session completes with its last planned chunk and not before |
| ImportOutcomes.AcceptedExactly | addons/odoo_ai_assistant/models/data_import.py:630-670 | An accepted chunk delivers exactly the next rows, at most a chunk of them, adds one receipt, moves all counters by that number and completes the session with the last row |
| ImportOutcomes.RejectedExactly | addons/odoo_ai_assistant/models/data_import.py:672-715 | A rejected chunk delivers nothing: one receipt without rows, its rows counted as failed, rows and progress unchanged, and a repair is possible |
| ImportOutcomes.RaisedExactly | addons/odoo_ai_assistant/models/data_import.py:512-521 | Any other exception sets the state to failed and changes nothing else; no chunk and no repair is accepted afterwards |
| ImportOutcomes.RaisedIsLast | addons/odoo_ai_assistant/models/data_import.py:512-521 | In every run nothing follows such an exception |
| ImportOutcomes.RepairFollowsRejection | addons/odoo_ai_assistant/models/data_import_repair.py:653-669 | In every run a repair directly follows the rejection it repairs |
| ImportOutcomes.RepairExactly | addons/odoo_ai_assistant/models/data_import_repair.py:352-390 | A repair writes the corrections into the rows and nothing else, marks exactly the edited rows as changed, leaves receipts and imported rows alone, clears the failed rows and queues the session with a plan for the rest |
| ImportOutcomes.PlannedExactly | addons/odoo_ai_assistant/models/data_import.py:336-380 | A session is accepted if and only if the chunk size is from 1 to 1000 and there are rows for 1 to 4096 chunks; it starts queued with the least number of chunks that holds them |
| DataImportProofs.RepairOnlyAfterRejection | addons/odoo_ai_assistant/models/data_import_repair.py:653-669 | The state checks of a repair pass if and only if the last thing that happened was a rejection |
| DataImportProofs.RepairAcceptedExactly | addons/odoo_ai_assistant/models/data_import_repair.py:264-318 | Exactly which repairs are accepted |
| DataImportProofs.RepairKeeps | addons/odoo_ai_assistant/models/data_import_repair.py:352-390 | A repair leaves imported rows alone and plans exactly the chunks that are left |
| DataImportProofs.CorrectedCell | addons/odoo_ai_assistant/models/data_import_repair.py:282-298 | A cell holds the value of the correction that names it, else what it held, whatever the order of the corrections |
| DataImportProofs.TouchedExactly | addons/odoo_ai_assistant/models/data_import_repair.py:282-298 | A repair changes exactly the rows it names |
| ImportSession.Session.CronProcessPending | addons/odoo_ai_assistant/models/data_import.py:500-524 | At most one chunk, exactly of a queued session: accepted it delivers the next rows, rejected it writes a receipt without rows, and any other exception only sets the state to failed |
| ImportSession.Session.ProcessOneChunk | addons/odoo_ai_assistant/models/data_import_repair.py:425-450 | An accepted chunk advances all counters and adds the corrected rows inside it |
| ImportSession.Session.ResumeWithCorrections | addons/odoo_ai_assistant/models/data_import_repair.py:352-390 | Resumes exactly when the repair is accepted, and otherwise changes nothing |
| ImportSession.NormalizeRepairCorrections | addons/odoo_ai_assistant/models/data_import_repair.py:590-634 | Accepts exactly 1 to 64 corrections of distinct cells of the rejected rows that each change something, with values of at most 1024 characters and no NUL |
| CleanupRules.NormalizeIgnoresOrder | addons/odoo_ai_assistant/models/data_import_repair.py:453-523 | Any permutation of a rule list gives the same canonical list or the same failure |
| CleanupRules.ApplyCleanupRules | addons/odoo_ai_assistant/models/data_import_repair.py:526-587 | Keeps the row count, cleans every row, reports exactly the rows that differ, and refuses exactly when a row becomes blank |
| CleanupRules.UnruledColumnStays | addons/odoo_ai_assistant/models/data_import_repair.py:553-559 | Width and columns without rules are unchanged |
| CleanupEffects.CleanedCell | addons/odoo_ai_assistant/models/data_import_repair.py:555-562 | A cell is trimmed if there is such a rule, then its words are written with one blank between them if there is such a rule, then replaced if a pattern equals it, then set if it is blank and there is a value for blank cells, whatever the order of the rules |
| CleanupEffects.OnlyBlankIsSet | addons/odoo_ai_assistant/models/data_import_repair.py:561-562 | A value for blank cells alone changes blank cells only |
| CleanupEffects.SqueezeKeepsWords | addons/odoo_ai_assistant/models/data_import_repair.py:557-558 | Normalizing white space keeps the words, and twice is once |
| CleanupEffects.CanonicalOrder | addons/odoo_ai_assistant/models/data_import_repair.py:514-523 | The canonical list is ordered by column, then trim, normalize, replacements by pattern, value for blank cells |
| BoundedMerge.MergeByPosition | addons/odoo_ai_assistant/models/conversation_context.py:285-299 | The pop-and-append loop computes the last n items deduplicated by last occurrence |
| BoundedMerge.MergeByFilter | addons/odoo_ai_assistant/models/conversation_context.py:340-357 | The filtering loop computes the same for keyed items |
| BoundedMerge.MergeComposes | addons/odoo_ai_assistant/models/conversation_context.py:285-299 | Truncating between merges loses nothing |
| BoundedMerge.MergeIsIdempotent | addons/odoo_ai_assistant/models/conversation_context.py:117-120 | Merging the same screen twice is merging it once |
| ConversationContext.BuildSnapshot | addons/odoo_ai_assistant/models/conversation_context.py:90-130 | The backward scan and forward fold compute the incremental snapshot, or refuse an open predecessor; built on earlier checkpoints it holds the count, summaries, references with the turn's own screen last, and effects of the whole conversation |
| ConversationContext.BuildMeans | addons/odoo_ai_assistant/models/conversation_context.py:117-130 | The stored snapshot counts all turns, shows the last six summaries, the last eight distinct references of all screens and the turn's own, and the last eight distinct effects |
| ConversationContext.BuildRefusesExactly | addons/odoo_ai_assistant/models/conversation_context.py:92-104 | Nothing is stored if and only if one of the newest 24 predecessors is open |
| ConversationContext.BuildExactly | addons/odoo_ai_assistant/models/conversation_context.py:156-167 | With exact checkpoints behind it the incremental snapshot equals the full fold if and only if the window reaches the start or a checkpoint |
| ConversationContext.IncrementalEqualsFull | addons/odoo_ai_assistant/models/conversation_context.py:90-130 | Checkpoints built one on another stay equal to folding the whole conversation, however long it is |
| ConversationContext.FoldMeans | addons/odoo_ai_assistant/models/conversation_context.py:170-188 | The fold's revision counts turns, its summary is the last six, its references and effects the last eight distinct ones ever seen |
| BrokerLedger.ExecutionLedger.BeginExecution | host_broker/odoo_ai_host_broker/ledger.py:42-86 | Inserts a running row for a new id only, classifies a known one, and writes nothing when the ledger raises |
| BrokerLedger.ExecutionLedger.FinishExecution | host_broker/odoo_ai_host_broker/ledger.py:88-105 | Updates exactly one running row or changes nothing |
| BrokerLedger.BrokerEngine.Effectful | host_broker/odoo_ai_host_broker/engine.py:138-190 | The four ledger answers, a ledger that raises and the failed closing write lead to exactly these answers, runs and rows; the implementation runs if and only if the ledger can be read and the id is new, and a run that could not be recorded, like one still running, is answered as uncertain with effect unknown |
| BrokerAnswers.AnswerIsTheRunOrUncertain | host_broker/odoo_ai_host_broker/engine.py:151-190 | In every run an answer of the closing write, or of a readable ledger under the id's own identity, is the stored receipt with the outcome of the one run, or says uncertain with effect unknown; never that nothing happened |
| BrokerAnswers.StoreExactly | host_broker/odoo_ai_host_broker/engine.py:171-190 | The closing write makes the receipt the row and the answer, or leaves the row open and answers uncertain, effect unknown, with the run's fingerprints and token |
| BrokerAnswers.ExecuteExactly | host_broker/odoo_ai_host_broker/engine.py:160-170 | A run's receipt carries its request and what the implementation said, or uncertain with effect unknown when it broke off |
| BrokerAnswers.ArriveAnswers | host_broker/odoo_ai_host_broker/engine.py:146-159 | A request that starts nothing is answered with the stored receipt, as uncertain, as denied or as an internal error, each exactly in its case |
| BrokerAnswers.ReplayIdentityIs | host_broker/odoo_ai_host_broker/protocol.py:94-112 | Two requests share a replay identity if and only if they differ in their timestamps only |
| BrokerLedger.ImplementationAtMostOnce | host_broker/odoo_ai_host_broker/engine.py:138-190 | Over retries, concurrent handlers, ledger failures and crashes no implementation runs twice for one id |
| BrokerLedger.StoredReceiptNeverChanges | host_broker/odoo_ai_host_broker/ledger.py:88-105 | A stored receipt and the identity of an id never change |
| BrokerLedger.RetryGetsStoredReceipt | host_broker/odoo_ai_host_broker/protocol.py:94-112 | A retry with other timestamps gets exactly the stored receipt and any other request under the id is denied, if and only if the ledger can be read; none of them runs anything |
| BrokerLedger.OrphanIsUncertain | host_broker/odoo_ai_host_broker/engine.py:151-159 | An id left running never runs again; its request is answered as uncertain, at any later time, if and only if the ledger can be read, and otherwise as an error without effect |
| BrokerLedger.RetryIsToldNoEffect | host_broker/odoo_ai_host_broker/engine.py:52-58 | Concrete run: the implementation runs, the closing write fails, and the retry that meets an unreadable ledger is told effect "none" |
| BrokerLedger.InterruptedIsOrphaned | host_broker/odoo_ai_host_broker/engine.py:171-190 | A crash and a failed ledger write both leave the id running without a handler |
| BrokerLedger.ReceiptReportsTheRun | host_broker/odoo_ai_host_broker/engine.py:160-173 | A terminal receipt reports the outcome of the one run |
| ConfigRegion.FindBounds | host_broker/odoo_ai_host_broker/config_ops.py:225-239 | The single pass finds the first options section and the header behind it |
| ConfigRegion.FindPlace | host_broker/odoo_ai_host_broker/config_ops.py:251-271 | Finds the key's only line, the end of the section, or reports a missing section or a duplicate key |
| ConfigLine.ParseUnparse | host_broker/odoo_ai_host_broker/config_ops.py:21 | The option pattern gives back the parts a line was put together from |
| ConfigLine.OptionIsNoSection | host_broker/odoo_ai_host_broker/config_ops.py:20-21 | No line is both an option and a section header |
| ConfigReading.SectionExactly | host_broker/odoo_ai_host_broker/config_ops.py:20 | A line is a header of a section if and only if, its line end aside, it is white space, the name in brackets and at most a comment |
| ConfigReading.BoundsExactly | host_broker/odoo_ai_host_broker/config_ops.py:225-239 | The options section lies exactly between the first options header and the next header or the end |
| ConfigReading.ReadExactly | host_broker/odoo_ai_host_broker/config_ops.py:242-248 | The reader answers with the value on the key's only line of the section, with nothing if there is none, and with an error if there are two |
| ConfigReading.PlaceExactly | host_broker/odoo_ai_host_broker/config_ops.py:251-270 | The patch goes over the key's only line, and to the end of the section if and only if there is none |
| ConfigReadBack.PatchReadsBackExactly | host_broker/odoo_ai_host_broker/config_ops.py:242-270 | For a trimmed one-line value, the patched key reads back if and only if the guard on the old line held |
| ConfigChanges.OneLineChanges | host_broker/odoo_ai_host_broker/config_ops.py:251-270 | Exactly the lines of the patched file: the key's line is replaced, joins an unterminated neighbour or, hidden, has the value behind it; a new option is one line behind a closed last line |
| ConfigChanges.OtherKeysReadAsBefore | host_broker/odoo_ai_host_broker/config_ops.py:242-270 | Another key is read as before if and only if the section shows the same values for it or stays ambiguous; always so when the line lands alone |
| ConfigChanges.SwallowedLineDecides | host_broker/odoo_ai_host_broker/config_ops.py:258-262 | For a line that joins its successor the condition is about the successor: it does not name the other key and is no header in front of lines that do, ambiguity aside |
| ConfigChanges.SpilledLineDecides | host_broker/odoo_ai_host_broker/config_ops.py:258-262 | For a hidden line the condition is about the line the value becomes, new or standing for the successor it runs into |
| ConfigChanges.PatchTwice | host_broker/odoo_ai_host_broker/config_ops.py:251-270 | Patching twice is patching once if and only if the key's line was not hidden and swallows nothing but an empty line |
| ConfigLineEnds.InsertedExactly | host_broker/odoo_ai_host_broker/config_ops.py:261-262 | A new option's line is key, equals sign, value, and CRLF if and only if one stands in the file |
| ConfigLineEnds.CrlfStaysExactly | host_broker/odoo_ai_host_broker/config_ops.py:256-270 | A file whose lines all end with CRLF stays one if and only if the patch does not write behind a hidden value |
| ConfigExample.BlankValueIsLost | host_broker/odoo_ai_host_broker/config_ops.py:258-262 | Concrete file: over a terminated blank value the new value is not read back |
| ConfigExample.EveryPatchAddsALine | host_broker/odoo_ai_host_broker/config_ops.py:258-262 | Concrete file: over a terminated blank value every patch adds the value as one more line |
| ConfigExample.ValueBecomesOption | host_broker/odoo_ai_host_broker/config_ops.py:258-262 | Concrete file: over a terminated blank value the value "other = 2" becomes a second option |
| ConfigExample.OtherOptionIsLost | host_broker/odoo_ai_host_broker/config_ops.py:258-262 | Concrete file: a line that ends with a vertical tab swallows the option behind it |
| ConfigExample.OtherOptionIsRenamed | host_broker/odoo_ai_host_broker/config_ops.py:258-262 | Concrete file: a terminated blank value in front of an open last line makes the new value part of the other option's name |
| TextChunks.Chunked | addons/odoo_ai_assistant/models/knowledge.py:946-993 | The nested loops compute the chunk list of the specification, and raise exactly when it has more than 2048 chunks |
| TextChunkProofs.ChunkingKeepsInk | addons/odoo_ai_assistant/models/knowledge.py:946-993 | The chunks hold exactly the text's characters in order, white space aside |
| TextChunkProofs.ChunksAreBounded | addons/odoo_ai_assistant/models/knowledge.py:996-1002 | At most 2048 chunks of at most 6000 characters, with ordered disjoint ranges inside the text |
| TextParagraphs.BlocksAreParagraphs | addons/odoo_ai_assistant/models/knowledge.py:949-957 | Every block is the stripped text from the start or a longest blank-line separator to the next separator or the end, with no separator inside |
| ChunkMerging.ChunksAreRuns | addons/odoo_ai_assistant/models/knowledge.py:961-993 | The chunks are the non-blank blocks in order, joined by a blank line while they fit; a run ends only before a block that does not fit or is too long, and a long block is cut every 6000 characters |
| TextParagraphs.ChunksAreTidy | addons/odoo_ai_assistant/models/knowledge.py:996-1002 | No chunk has white space at its ends, and its range is as long as its content |

## Left out

- TurnRuns.NoBlindReplay: takes up a turn that was not parked behind its barrier before the effect was committed, for the same reason; from there on the condition is exact. So do `StopBeforeBarrier` and `ReconciledForEver`.
- TurnReplay.ParkedMayRunAgainExactly: is about one turn and the continuations without another parking write; whether the scheduler gets to claim the turn depends on the other turns. For a turn that has ended behind its barrier nothing is stated, nor about reviews after a parked plan that the journal accepts.
- TurnTable.Table.PersistAwaitingPlan: the code looks at stop and redirects shortly before this write, in a read of its own; the model lets either arrive in between and so also parks with one of them pending.
- Fairness.BoundedBypass: assumes that claim times never go back, that the waiting user's row is not locked and that the user was not itself served in the second of a claim; the stored clock has a resolution of one second.
- ConversationContext.BuildExactly: covers revision, rolling summary, active references and effects; recent messages are rebuilt from the window each time, and session settings and evidence references are not modelled.
- TurnTable.Table: worker steps inside a plan unit (one capability call, skipping a step, the final commits) are functions on the row, not methods.
- Advisory effect lock and row locks: sections under them are single steps that see fresh rows; the snapshot a redirect request took before it waited is not modelled.
- Lease expiry is a parameter of the stale scan (which rows have expired); heartbeats never extend a lease.
- Journal retention cleanup, user reversion of completed plans (`_mark_reverted`), payload copies of journal rows: not modelled. Of a binding, capability, version, classification and captured state are one value (`Step.call`); turn, user and company are those of the turn. A segmented unit is treated as database-backed.
- Plan dependencies, approval policy, preview fingerprints and replan limits decide which events occur; they are not modelled.
- The base class redirect and the setting of `cancel_requested` on a running row are shadowed in the composed addon; the model shows that state unreachable.
- Interventions of the format before sequence numbers (`_legacy_interventions`) are taken as absent; they count against the same limits.
- A rolling summary entry is turn, intent and outcome; its state and failure code are copied along unchanged and left out.
- Failure envelopes, browser projections, messages, events and cron triggers.
- Attachment parsing, mapping and field access checks of the import; the native importer accepts, rejects or raises. The byte limit of the artifact is a parameter.
- `_duplicate_rows`, `_normalized_mapping` and the provider's JSON shrinking loop: per-value checks on one payload, without state that spans operations.
- Policy validators, sockets, service and module operations of the broker; file replacement and backups. Case folding of the section name covers ASCII letters.
- The ledger: a closing write that raises is taken to have stored nothing, and which later opening writes raise is a parameter.
- Replay hashes are taken as injective on their canonical input.
- `_normalize_text` runs before chunking and is not modelled; chunking is proved for every text.
