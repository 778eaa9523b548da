# Verified model of the cordis Runtime and Loader

Cordis keeps a tree of Plugin instances (Fibers) settled against a changing set
of Services. This project models the parts of it that have to be right under
concurrency, and the structures that must agree with something simpler, and
proves what the source promises about them.

Paths below are relative to the repository root.

## How the model is laid out

| files | what they model |
|---|---|
| `fibers.dfy`, `sequences.dfy` | shared vocabulary |
| `settle_protocol.dfy` | the settle protocol of one Fiber as a transition system: one step per atomic load, store or exchange, per edge read, per state publication, per half of a store section |
| `settle_invariants.dfy`, `settle_steps.dfy`, `settle_driver.dfy` | what every step keeps: threads outside the slot, then the slot owner, one program point at a time |
| `settle_theorems.dfy`, `settle_ready.dfy` | safety step by step, `ready` and the terminal barrier |
| `settle_outcomes.dfy`, `settle_passes.dfy`, `settle_kicks.dfy`, `settle_closing.dfy` | the published state against the applies of the run, what a restart, an update, a kick and a dispose call achieve |
| `settle_runs.dfy`, `settle_progress.dfy` | the guarantees at every instant of every run, termination of convergence |
| `settle_counterexamples.dfy`, `settle_overlap.dfy` | runs that show where the protocol falls short |
| `settle_slot.dfy`, `state_publication.dfy` | the slot's atomics and the publication cell as classes |
| `services.dfy`, `journal.dfy` | the Service store and the cleanup journal: pure meaning, and classes proved against it |
| `generation_protocol.dfy`, `generation_invariants.dfy`, `generation_steps.dfy`, `generation_theorems.dfy`, `generation_registering.dfy` | registration, manual claims, drains, teardown and era capture of many Fibers over one store |
| `fresh_writes.dfy` | that the Runtime of the generation model drives the edges of the settle model as it assumes |
| `dependency_index.dfy`, `index_scan.dfy`, `registry.dfy` | the reverse index against the resident scan; residency |
| `plan_order.dfy`, `load_plan.dfy`, `plan_loading.dfy` | the Loader's plan: admission, order, pruning, placement |
| `deadline.dfy`, `deadline_monitor.dfy` | the deadline table and its monitor |
| `listeners.dfy`, `event_store.dfy`, `continuations.dfy` | listener order, once-claims, dispatch snapshots, continuation chains |
| `logger_names.dfy` | hyphenation of logger names |

In the settle model any number of threads run: mutators with the kicks they
owe, restart, update, era and dispose callers, `ready`'s kicks, and the spawn
transaction. The step functions follow the source as follows (files of
`crates/cordis-core/src/fiber`, with service.rs one level up): `KickStep`
inertia.rs:353-415, `ReadStep` mod.rs:844-858 (one edge at a time, so reads can
be torn), `SettleStep` mod.rs:902-988, `ExitStep` inertia.rs:296-342,
`ClaimedStep` and `DriveStep` inertia.rs:490-556, 571-589, 596-617, 649-671 and
674-693, `TeardownStep` mod.rs:1097-1126 and 1134-1177, `OtherStep`
mod.rs:1009-1078 and spawn.rs:341-374, `CancelStep` spawn.rs:220-230, `LockStore`
and `WriteStore` service.rs:438-448, 553-560 and 617-643. A thread that commits a
revision and its visibility change does so in two steps under the store lock, in
that order, and a target read waits for the lock. The fields of `Past` are
history that no step reads.

In the generation model `RegisterStep` follows gated.rs:71-98 with the two gates
split into their four loads (mod.rs:701-713), `PublishStep` service.rs:409-449,
`RemoveStep` and `SetStep` service.rs:706-768, the era threads era.rs:169-195, and
`TurnStep` the owner's lifecycle steps: mod.rs:597-628, 815-840, 902-988 and
1097-1126. The settle model lets an edge turn only to an occurrence that was never
visible before (`FreshWrite`), and lets every write follow a revision;
`FreshWrites.MirrorFollows` and `GenerationTheorems.DriftFollowsVisibility` prove
that the Runtime of the generation model does nothing else.

## Where the source and its promises part

- Single driver. After its release recheck the initial pass tests `is_idle` and
  abandons the slot if it is not (inertia.rs:552-554). Its comment says only
  Failed and dead endings get there with the slot held, but a kick may have
  claimed the slot in between; the pass then frees a slot it does not own. Mutual
  exclusion holds over the whole life of a Fiber exactly when that does not happen
  before its handoff. When it does, the harm outlasts the creation: the pass that
  lost its slot runs on, a restart of the delivered Fiber claims the slot beside
  it, and two passes are inside an apply at once. The model follows both to the
  call of the Plugin; in the source the later call finds no Plugin state and its
  `expect` panics (plugin.rs:247-251), which the settle pass contains and publishes
  as Failed (mod.rs:957-960).
- Quiescence. A convergence pass that is turned back by the first-apply guard
  (mod.rs:934-939) still runs its exit recheck and acknowledges the revision. If
  this happens after the initial pass has released, the handed-off Fiber is
  quiescent and Pending with every dependency present. A later
  `ready` on it answers Pending too. The characterisation of quiescent states, and
  of what `ready` answers, holds exactly when the last pass was not turned back;
  only passes inside the creation window are, and only before the first apply.
- Wake-ups. A kick that finds the slot owned leaves its revision to the owner. The
  owner may be one that gives the slot back without a recheck: the handoff test of
  spawn (spawn.rs:348-350), or a restart, update, era or dispose call that loses its
  admission. The revision then stays outstanding, and the Fiber behind it, until a
  later kick, lifecycle call or `ready` drives it. No wake-up is lost in any other way:
  with nobody in a store section or a kick, a live Fiber whose slot is IDLE is
  quiescent unless since its last release some holder did that, or a kick outside the
  Runtime had no executor to drive a pass.

## Model

| member | source | states |
|---|---|---|
| SettleTheorems.StepKeeps | crates/cordis-core/src/fiber/inertia.rs:206-415 | Every atomic step of every thread (claim, settle phases, torn target reads, exit recheck, kicks, store sections, dispose, era, cancellation) keeps the invariant, unless it is the initial pass abandoning a slot it no longer owns. |
| SettleTheorems.RunKeeps | crates/cordis-core/src/fiber/inertia.rs:206-415 | From a state that satisfies the invariant, as a fresh Fiber does, every run in which the initial pass never abandons a slot that is not IDLE keeps it at every instant. |
| SettleTheorems.SingleDriverExactly | crates/cordis-core/src/fiber/inertia.rs:549-556 | After a step nobody owns an IDLE slot and no two threads own it, if and only if the step is not the creation tail abandoning a slot that is not IDLE. |
| SettleTheorems.RunPastHandoff | crates/cordis-core/src/fiber/spawn.rs:348-352 | In every run whatsoever from a fresh Fiber, with one driver or two: once the spawn transaction is over it stays over, and no slot is abandoned any more. |
| SettleRuns.OneDriver | crates/cordis-core/src/fiber/inertia.rs:206-225 | Over every run from a fresh Fiber: nobody ever owns an IDLE slot and no two threads ever own it, if and only if at no step the creation tail abandons a slot that is not IDLE. |
| SettleRuns.HandoffDecides | crates/cordis-core/src/fiber/inertia.rs:549-556 | Once the Fiber is handed off, mutual exclusion holds over its whole run, however long it goes on, if and only if no such step came before the handoff. |
| SettleRuns.QuiescenceSound | crates/cordis-core/src/fiber/inertia.rs:296-342 | In every run from a fresh Fiber whose initial pass abandons no slot it lost: a live, once released Fiber with an IDLE slot and no outstanding revision shows exactly what the run earned, Pending when the live target has a Missing edge, Active when the last apply to return succeeded and ran against exactly the live target, Failed when it failed, if and only if its last pass was not turned back by the first-apply guard, and only a Fiber that never applied can have been; torn multi-edge reads and concurrent mutations included. |
| SettleRuns.DeliveredQuiescence | crates/cordis-core/src/fiber/inertia.rs:296-342 | In every such run a handed-off Fiber that nobody is closing and that has ever applied shows, whenever it is quiescent, what its last apply earned for exactly the live target. |
| SettleRuns.NoLostWakeup | crates/cordis-core/src/fiber/inertia.rs:353-415 | In every such run a live Fiber with an IDLE slot and neither a store section nor a kick under way is quiescent, with every committed revision acknowledged and the earned state shown, unless since its last release a holder gave the slot up without a recheck or a kick had no executor. |
| SettleKicks.RestOwesNothing | crates/cordis-core/src/fiber/inertia.rs:353-415 | The same of the revisions alone: every committed revision is carried by its mutator or kick, or held by a slot owner, until it is acknowledged. |
| SettleKicks.ReleaseAcknowledges | crates/cordis-core/src/fiber/inertia.rs:353-392 | Kick by kick: whatever a kick of the live Fiber found when it ended, the next exit recheck to release the slot has acknowledged its revision. |
| SettleKicks.HistoryIsRun | crates/cordis-core/src/fiber/inertia.rs:296-342 | Writes, reads and releases in the recorded history are those that the run made. |
| SettleRuns.ReleaseHasRead | crates/cordis-core/src/fiber/inertia.rs:296-342 | In every such run, when an exit recheck releases the slot, it has acknowledged the revision of every kick of the live Fiber that ended before, and every revision it acknowledges was written before the target read of that release began. |
| SettleRuns.AppliesAlone | crates/cordis-core/src/fiber/mod.rs:940-960 | In every such run, as long as a thread is inside an apply the Fiber is live and shows Loading, the Plugin state is away, the target is complete and carries the committed input, and no other thread is anywhere inside the slot. |
| SettleRuns.NeutralRecheck | crates/cordis-core/src/fiber/inertia.rs:296-342 | In every such run a kick that wins the slot while the recorded target is the live one, and any pass that probes the live target, goes on to its release with nobody inside an apply, as long as the live target stays, whatever revisions and kicks arrive. |
| SettlePasses.AppliesCounted | crates/cordis-core/src/fiber/mod.rs:940-960 | The recorded number of applies goes up exactly when a thread enters an apply, and by one. |
| SettlePasses.ApplyPublishes | crates/cordis-core/src/fiber/mod.rs:962-980 | In every such run the step after an apply publishes Active if the Plugin answered so, and otherwise Unloading and, after the drain, Failed. |
| SettlePasses.RestartApplies | crates/cordis-core/src/fiber/inertia.rs:596-648 | In every such run a restart or update that found the Fiber alive has been inside a new apply by the time it gives the slot back, or it leaves the Fiber Pending. |
| SettlePasses.InputCounts | crates/cordis-core/src/fiber/inertia.rs:649-693 | In every run whatsoever the committed input counts the updates that found the Fiber alive, so that an apply never runs with an input older than the last committed one. |
| SettlePasses.InitialReleasesSettled | crates/cordis-core/src/fiber/inertia.rs:510-548 | In every such run the exit recheck of the initial pass leaves the Fiber Active or Pending, or Disposed by somebody else, and never Failed: a failed creation it keeps and tears down. |
| SettlePasses.InitialRecordsApplied | crates/cordis-core/src/fiber/inertia.rs:510-548 | In every such run what the initial pass records over any earlier target is the complete one that the last apply of the run ran against. |
| SettleRuns.TerminalBarrier | crates/cordis-core/src/fiber/mod.rs:1009-1078 | In every such run, however many dispose, era and creation-guard threads race: only the winner of the terminal claim carries the teardown and no second thread does, someone carries it until it is complete, and whenever a dispose call has returned the Fiber is Disposed, dead, out of the index and not resident. |
| SettleClosing.DisposeGoesOn | crates/cordis-core/src/fiber/mod.rs:1009-1078 | A dispose call, at each of its steps, stays a dispose call until it has returned: it never stops short of the barrier, and a waiter returns once the barrier is complete. |
| SettleClosing.CloserAdvances | crates/cordis-core/src/fiber/mod.rs:1097-1126 | Every step of the closing thread once it owns the slot brings the barrier nearer, by a measure of at most 14, the last one completes it, and no stage of the teardown is passed over. |
| SettleClosing.TeardownPins | crates/cordis-core/src/fiber/mod.rs:1097-1126 | Disposed is published only with the target cell pinned, the creation window closed, and the Fiber dead and out of the index. |
| SettleClosing.CreationNeverOrphaned | crates/cordis-core/src/fiber/spawn.rs:220-230 | While the creation window is open the spawn transaction is at work or somebody has made the terminal claim, however the spawn future is dropped. |
| SettleClosing.DroppedPassCloses | crates/cordis-core/src/fiber/spawn.rs:220-230 | Dropping the spawn future inside its initial pass leaves the guard in its place: it owns the slot and carries the terminal claim. |
| SettleClosing.DroppedWaitCloses | crates/cordis-core/src/fiber/spawn.rs:220-230 | Dropping it while it waits for the slot leaves the guard with the terminal claim, or waiting for whoever made it before. |
| SettleClosing.CreationEndsUnlinked | crates/cordis-core/src/fiber/spawn.rs:341-374 | A creation that is not handed off ends with its Fiber dead and unlinked, whoever disposed of it and however far that unlink lagged. |
| SettleClosing.EraCloses | crates/cordis-core/src/fiber/era.rs:160-195 | An era swap that owns the slot closes the Fiber exactly if it finds it alive, is not refused, and nobody else has made the terminal claim when it gets there; otherwise it changes nothing. |
| SettleRuns.ReadyLinearizes | crates/cordis-core/src/fiber/mod.rs:1613-1657 | In every such run a ready round that passes its two slot tests and its sequence test never saw a transient state, and at some instant of the call the Fiber showed what it answers with: Disposed if it was dead, and otherwise what the last apply of the run had earned for the then-live target if and only if its last pass had not been turned back by the first-apply guard; a Fiber that had applied by the start of the call has no answer but the earned one. |
| SettleCounterexamples.CreationTailBreaksSingleDriver | crates/cordis-core/src/fiber/inertia.rs:549-556 | A concrete run from a fresh Fiber: a kick claims the slot that the initial pass has released, the pass then abandons it, and an owned slot reads IDLE. |
| SettleOverlap.AbandonOverlapsApplies | crates/cordis-core/src/fiber/inertia.rs:549-556 | A concrete run that goes on from there: the Fiber is handed off alive, a restart claims the slot that reads IDLE, and it and the convergence pass that lost the slot are inside an apply at the same time. |
| SettleTheorems.SkipOnlyInCreation | crates/cordis-core/src/fiber/mod.rs:934-939 | That guard turns back only passes other than the initial one, while the creation is pending and nothing was applied. |
| SettleCounterexamples.HandoffWindowLosesActivation | crates/cordis-core/src/fiber/mod.rs:934-939 | A concrete run: a publication between the release of the initial pass and the handoff is acknowledged by a pass that may not apply; the handed-off Fiber rests quiescent and Pending although nothing is missing, and a whole ready round from then on passes its tests and answers Pending. |
| SettleCounterexamples.HandoffLosesWakeup | crates/cordis-core/src/fiber/spawn.rs:348-352 | A concrete run: a kick trusts the claim of the handoff, which gives the slot back without a recheck; the live Fiber is left at rest with a revision outstanding. |
| SettleTheorems.AcknowledgesOnlyRead | crates/cordis-core/src/fiber/inertia.rs:326 | recheck_settled never moves to a revision whose mutation was not written before the last target read began. |
| SettleTheorems.NeutralProbeStays | crates/cordis-core/src/fiber/inertia.rs:315-341 | While the live target stays the one being probed, or recorded when a kick won the slot, whatever revisions and kicks arrive, the pass keeps probing it until it releases, and nothing is applied. |
| SettleProgress.ConvergenceBounded | crates/cordis-core/src/fiber/inertia.rs:571-589 | In any stretch of a run in which one pass converges, its owner takes fewer than (p + 1) * (27 n + 549) steps, for n edges and p commits, writes and slot-reclaiming kicks of others. |
| SettleProgress.OwnStepDrops | crates/cordis-core/src/fiber/inertia.rs:296-342 | Every unblocked step of a converging owner lowers a three-part measure of rounds owed, probes owed and distance to the release. |
| SettleProgress.BlockedOnlyByWriter | crates/cordis-core/src/fiber/mod.rs:844-858 | An owner is blocked only by a Service-store section whose next step is enabled. |
| SettleReady.RunSettledOrStill | crates/cordis-core/src/fiber/mod.rs:1613-1657 | Between two instants of a run recheck_settled either did not move or some instant in between showed the settled state for the then-live target, exactly unless the last pass had been turned back before the first apply. |
| SettleReady.RunForward | crates/cordis-core/src/fiber/mod.rs:186-193 | Revisions, the publication sequence, the terminal claim, the death mark and the first apply only move forward, and equal sequence readings mean the state was published in between by nobody. |
| SettleReady.CloserStays | crates/cordis-core/src/fiber/mod.rs:1009-1045 | The winner of the terminal claim never changes. |
| SettleSlot.InertiaSlot.TryClaim | crates/cordis-core/src/fiber/inertia.rs:280-292 | The IDLE to ACTIVE exchange wins exactly from IDLE and is the slot part of the protocol steps of a claimer and of a kick. |
| SettleSlot.InertiaSlot.TryReclaim | crates/cordis-core/src/fiber/inertia.rs:368-381 | The RELEASING to ACTIVE exchange of a kick. |
| SettleSlot.InertiaSlot.TryRelease | crates/cordis-core/src/fiber/inertia.rs:327-340 | The guarded RELEASING to IDLE release. |
| SettleSlot.InertiaSlot.Kick | crates/cordis-core/src/fiber/inertia.rs:353-415 | A kick nobody interferes with: no effect on a dead Fiber or with nothing outstanding, the slot taken back from a releasing holder, and a pass to drive exactly when the slot was IDLE and an executor exists. |
| SettleSlot.KickAlone | crates/cordis-core/src/fiber/inertia.rs:353-415 | The protocol steps of a kick, run in a row, end as that whole kick does. |
| SettleSlot.InertiaSlot.MarkPendingIfUntouched | crates/cordis-core/src/fiber/inertia.rs:194-199 | A stored target survives the guarded Pending write. |
| SettleSlot.InertiaSlot.ExitRecheck | crates/cordis-core/src/fiber/inertia.rs:296-342 | The release loop without interference: drift exactly when the live target differs, and otherwise every committed revision acknowledged and the slot given back. |
| StatePublications.StatePublication.Publish | crates/cordis-core/src/fiber/mod.rs:160-179 | Publishing appends to the history unless the state is already current, and keeps revisions, sequence and state in step with the history. |
| StatePublications.StatePublication.Snapshot | crates/cordis-core/src/fiber/mod.rs:195-198 | The revision read for a state is the number of its publications so far. |
| StatePublications.StatePublication.RevisionsMatchSequence | crates/cordis-core/src/fiber/mod.rs:142-179 | The per-state revisions sum to the sequence plus one. |
| StatePublications.StatePublication.EqualReadings | crates/cordis-core/src/fiber/mod.rs:186-193 | Of two readings of the cell with any publications in between, the later sequence is never lower, and it is equal exactly when nothing was published, so that state and revisions held throughout. |
| StatePublications.StatePublication.RevisionReadings | crates/cordis-core/src/fiber/mod.rs:195-256 | Of two readings of a revision the later is greater exactly when that state was published in between, however many others were. |
| StatePublications.RevisionTellsPublished | crates/cordis-core/src/fiber/mod.rs:195-256 | The same of the history: the count of a state grows exactly when it was published since. |
| Services.InstallMeaning | crates/cordis-core/src/service.rs:409-449 | A publication is refused exactly for a foreign contract, reported first, or a live occupant; a dead occupant is evicted; the slot then carries what was offered and nothing else moves; the dependents of its key are owed a revision exactly when what they see changes, and no name ever changes its contract. |
| Services.ExactMeaning | crates/cordis-core/src/service.rs:489-562 | Exact set and remove succeed exactly while the owner admits mutation: a removal takes out that slot, a replacement puts the new value in place of the old one, each hands the old slot back, and both are refused as closed otherwise; a removal owes a revision exactly when it was visible, a replacement never does. |
| Services.StaleTouchesNothing | crates/cordis-core/src/service.rs:489-579 | Set, remove and withdraw never touch a slot that holds another occurrence, and report staleness before closure. |
| Services.ServiceStore.Install | crates/cordis-core/src/service.rs:409-449 | The install section computes exactly that outcome: the offered slot and contract on success, nothing at all on a refusal. |
| Services.ServiceStore.SetExact | crates/cordis-core/src/service.rs:489-524 | The set section succeeds exactly for the current occurrence of an admitted owner, and then the slot holds the new value, everything else stays, and the old slot is handed back. |
| Services.ServiceStore.RemoveExact | crates/cordis-core/src/service.rs:526-562 | The remove section succeeds exactly for the current occurrence of an admitted owner, takes out that slot and no other, and says whether it was visible. |
| Services.ServiceStore.WithdrawExact | crates/cordis-core/src/service.rs:564-579 | The drain's withdrawal takes out the exact occurrence, or nothing. |
| Services.ServiceStore.OccurrenceId | crates/cordis-core/src/service.rs:451-461 | A dependent sees the occupant of a key exactly while its owner is alive and Active. |
| Services.ServiceStore.VisibleValue | crates/cordis-core/src/service.rs:463-487 | A lookup answers with the value last published or set for the visible occurrence, and tells a foreign contract from an absent one. |
| Services.AdmitsExactly | crates/cordis-core/src/fiber/mod.rs:701-713 | The generation gate is open for a live Fiber, Loading or Active, that nobody closes or replaces, and for no other. |
| Journals.TokensExact | crates/cordis-core/src/effect.rs:168-170 | The drain's snapshot names every committed obligation once, in commit order. |
| Journals.DisposableList.Push | crates/cordis-core/src/effect.rs:150-155 | A commit gets a token the journal never used. |
| Journals.DisposableList.Remove | crates/cordis-core/src/effect.rs:162-164 | The exact claim: the obligation goes to the first remover, everyone after gets nothing. |
| Journals.DisposableList.TokenSnapshot | crates/cordis-core/src/effect.rs:168-170 | The snapshot is the ascending list of tokens still owned. |
| Journals.BackwardsAt | crates/cordis-core/src/fiber/mod.rs:815-840 | The obligation run at i is that of the i-th token from the end of the snapshot. |
| Journals.DisposableList.Drain | crates/cordis-core/src/fiber/mod.rs:815-840 | An undisturbed drain runs every obligation once, in reverse commit order, and empties the journal. |
| GenerationSteps.StepKeeps | crates/cordis-core/src/gated.rs:71-98 | Every step of any number of registrations, manual claims, drains, teardowns and era swaps, over any number of Fibers and one store, keeps the generation invariant. |
| GenerationRegistering.RefusedExactly | crates/cordis-core/src/gated.rs:71-98 | A registration ends early exactly when the gate it loads is closed or the store refuses it, and then nothing is left of it; every other step goes on. |
| GenerationRegistering.EffectRegisters | crates/cordis-core/src/gated.rs:71-98 | An admitted effect is registered: its own cleanup is the newest obligation and the caller holds that token. |
| GenerationRegistering.PublicationRegisters | crates/cordis-core/src/gated.rs:71-98 | An admitted publication is refused exactly when the store refuses it; otherwise its slot is installed, its exact withdrawal is the newest obligation, and the caller holds that token. |
| GenerationRegistering.SetReaches | crates/cordis-core/src/service.rs:706-768 | A value set through a live capability is the one the slot holds, under the same occurrence. |
| GenerationRegistering.GateAdmits | crates/cordis-core/src/fiber/mod.rs:701-713 | The four loads of the gate together admit exactly what the store admits. |
| GenerationRegistering.TurnsCloseGate | crates/cordis-core/src/fiber/mod.rs:701-713 | Unloading, death, the terminal claim and a committed replacement each close the gate. |
| GenerationRegistering.ClosedUntilOpened | crates/cordis-core/src/fiber/mod.rs:940-947 | Nothing but the opening of the next generation opens a closed gate. |
| GenerationRegistering.DrainAdvances | crates/cordis-core/src/fiber/mod.rs:815-840 | Every claim, cleanup and end of the drain brings it nearer to its end. |
| GenerationRegistering.DrainResumes | crates/cordis-core/src/fiber/mod.rs:815-840 | A dropped drain starts over with a snapshot of everything still owned, and loses nothing. |
| GenerationRegistering.StateFollowsTurns | crates/cordis-core/src/fiber/mod.rs:902-988 | Nothing but its owner's turns moves the state of a Fiber, each to exactly what it publishes. |
| GenerationRegistering.Lifecycle | crates/cordis-core/src/fiber/mod.rs:902-988 | Over every run a Fiber becomes Active only from Loading, comes to rest or opens anew only out of Unloading or a Pending rest, and Disposed is the end. |
| GenerationRegistering.FreshOpens | crates/cordis-core/src/fiber/spawn.rs:278-341 | A freshly attached Fiber is Pending with an empty journal, may open, and then admits registrations. |
| GenerationTheorems.RunInv | crates/cordis-core/src/gated.rs:71-98 | The generation invariant holds at every instant of every run from an empty Runtime. |
| GenerationTheorems.CleanAtRest | crates/cordis-core/src/fiber/mod.rs:815-840 | In every run a Fiber that is Pending, Failed, Disposed or done draining has an empty journal, owns no Service slot, and has had every token it ever issued claimed. |
| GenerationTheorems.NothingCrosses | crates/cordis-core/src/fiber/mod.rs:940-947 | A new generation opens Loading on an empty journal and without slots, and its gate admits registrations unless a terminal claim has been made. |
| GenerationTheorems.SlotsOwed | crates/cordis-core/src/service.rs:774-859 | Every occupied slot has its exact withdrawal in its owner's journal, or claimed by its drain, or about to be pushed by the registration that holds the journal lock. |
| GenerationTheorems.DrainsBackwards | crates/cordis-core/src/fiber/mod.rs:815-826 | The drain takes the youngest obligation still owned, older than everything it took before, whatever manual claims race it. |
| GenerationTheorems.DriftFollowsVisibility | crates/cordis-core/src/service.rs:438-448 | At every step of every run and for every key: a revision is committed for the dependents of the key if and only if the occurrence visible there changes. |
| GenerationTheorems.ClaimIsExact | crates/cordis-core/src/effect.rs:332-371 | A step claims a token exactly when it takes the token out of the generation, and a claimed token stays claimed. |
| GenerationTheorems.HoldersAreOwned | crates/cordis-core/src/effect.rs:332-371 | Until it is claimed, what a capability stands for, an effect's own cleanup or the exact withdrawal of a publication, is in its Fiber's journal under its token. |
| GenerationTheorems.ClaimedForever | crates/cordis-core/src/effect.rs:332-371 | Once claimed, by hand or by the drain, an obligation is never owned again in the rest of any run. |
| GenerationTheorems.OneInterval | crates/cordis-core/src/service.rs:451-461 | Over any run an occurrence that was visible and is no longer never becomes visible again. |
| FreshWrites.AppearsFromNowhere | crates/cordis-core/src/service.rs:409-449 | An occurrence that becomes visible at a key was visible at no key just before: it never moves while it is seen. |
| FreshWrites.MirrorStarts | crates/cordis-core/src/fiber/mod.rs:844-858 | A fresh Fiber that shows the visible occurrence of each of its edges starts in step with the Runtime at any instant of it. |
| FreshWrites.MirrorFollows | crates/cordis-core/src/service.rs:451-461 | Along every run of the Runtime the edges of any Fiber change only as its settle protocol allows: whatever appears on an edge was never visible before, at any key, and this goes on to hold after the change. |
| GenerationTheorems.EraSnapshotComplete | crates/cordis-core/src/fiber/era.rs:169-195 | Every slot the source owns at the terminal claim of an era swap, or at any later instant, lies in the edge set the swap captured. |
| DependencyIndexes.DependencyIndex.Register | crates/cordis-core/src/deps.rs:57-83 | Registering adds exactly the rows of a live Fiber to a complete index. |
| DependencyIndexes.DependencyIndex.Unregister | crates/cordis-core/src/deps.rs:88-100 | Unregistering removes exactly the rows of the Fiber. |
| DependencyIndexes.DependencyIndex.DependentsOf | crates/cordis-core/src/deps.rs:111-156 | The answer lists, without duplicates, exactly the existing Fibers with a row for some requested edge, and prunes exactly the vanished ones. |
| IndexScan.DifferOnlyInWindows | crates/cordis-core/src/context.rs:100-125 | Index and resident scan differ about a Fiber only between its attach and its registration or between its death and its unregistration. |
| IndexScan.IndexEqualsScan | crates/cordis-core/src/context.rs:100-125 | Outside those windows the index answers exactly what the scan finds. |
| IndexScan.NeverResurrected | crates/cordis-core/src/deps.rs:63-73 | However late a registration runs, a Fiber that was unregistered never has a row again. |
| IndexScan.ComesAndGoes | crates/cordis-core/src/deps.rs:57-100 | A Fiber is scanned for from its attach and found by both from its registration; its death takes it out of the scan and its unregistration out of the index. |
| IndexScan.PrunedOnceGone | crates/cordis-core/src/deps.rs:111-156 | A dead Fiber can vanish once its residency is released, and the next query of its edges leaves no row of it there and every other row in place. |
| Registries.StepSound | crates/cordis-core/src/registry.rs:90-162 | Attach, detach and release keep each resident in exactly one allocation, members residents, and mapped allocations nonempty. |
| Registries.ReleaseIsExact | crates/cordis-core/src/registry.rs:212-248 | A release unmaps its own allocation exactly when it took the last member, and no other allocation, in particular no same-key replacement. |
| Registries.DetachedShrinks | crates/cordis-core/src/registry.rs:117-136 | A detached allocation never gains a member and is never mapped again. |
| Registries.RemovalEmpties | crates/cordis-core/src/registry.rs:148-162 | Whatever interleaves, the members of a detached allocation are the frozen ones not yet released. |
| Registries.MembersExactly | crates/cordis-core/src/registry.rs:90-136 | Over any run, the members of the allocation mapped for a key, which a removal freezes, are exactly the Fibers attached under the key since its last detach and not yet released. |
| Registries.Registry.AttachFiber | crates/cordis-core/src/registry.rs:90-110 | Attach appends the Fiber to the allocation mapped for its key and leaves the mapping alone, or, if there is none, maps a fresh allocation that holds it alone. |
| Registries.Registry.DetachForRemoval | crates/cordis-core/src/registry.rs:117-136 | Detach freezes the members and unmaps in one section; a recursive removal changes nothing. |
| Registries.Registry.ReleaseClaim | crates/cordis-core/src/registry.rs:212-248 | Release of the exact claim, by position in group and residents. |
| Registries.Registry.DisposeAll | crates/cordis-core/src/registry.rs:148-162 | Disposing the frozen members empties the detached allocation and leaves every mapped allocation alone. |
| LoadPlans.ValidatePlugin | crates/cordis-loader/src/plan.rs:607-633 | A declaration is accepted exactly when it has an identity and names no Service twice; otherwise the first fault is reported. |
| LoadPlans.ValidateComplete | crates/cordis-loader/src/plan.rs:635-653 | A lineage is accepted exactly when complete; otherwise the fault of the first faulty declaration is reported. |
| LoadPlans.LoadPlanBuilder.AddPlugin | crates/cordis-loader/src/plan.rs:343-357 | Admission succeeds exactly for an admitted parent of this lineage and a valid declaration, under a fresh identity, and otherwise changes nothing. |
| LoadPlans.LoadPlanBuilder.AddGroup | crates/cordis-loader/src/plan.rs:360-375 | The same for a group. |
| LoadPlans.LoadPlanBuilder.Finish | crates/cordis-loader/src/plan.rs:378-383 | Freezing a builder-made plan never fails. |
| LoadPlans.ExecutionOrder | crates/cordis-loader/src/plan.rs:581-604 | The explicit stack yields the recursive preorder. |
| PlanOrder.PreorderPermutes | crates/cordis-loader/src/plan.rs:581-604 | The order is a permutation of the declarations. |
| PlanOrder.ParentFirst | crates/cordis-loader/src/plan.rs:470-475 | Every declaration stands after everything above it. |
| PlanOrder.SiblingsInOrder | crates/cordis-loader/src/plan.rs:470-475 | Of two siblings, the one declared first has its whole subtree first. |
| PlanLoading.ShadowedExactly | crates/cordis-loader/src/plan.rs:508-525 | A row is shadowed exactly when a proper ancestor is disabled, and the recorded one is the outermost. |
| PlanLoading.InheritedExactly | crates/cordis-loader/src/plan.rs:508-520 | Looking up only the parent in disabled_by_entry decides that for the whole ancestry. |
| PlanLoading.RealmEnvironment.Select | crates/cordis-loader/src/plan.rs:449-457 | One row selects its realm and keeps the rendezvous of all rows placed so far. |
| PlanLoading.RealmEnvironment.Place | crates/cordis-loader/src/plan.rs:440-466 | A validated declaration maps each Service once, and over one execution two rows share a realm exactly when both are Shared under one label. |
| PlanLoading.Load | crates/cordis-loader/src/plan.rs:493-575 | One outcome for each declaration in preorder, pruned exactly below disabled Plugins, and the rows of all placed declarations rendezvous by label only. |
| Deadlines.Schedule.Insert | crates/cordis-core/src/deadline.rs:106-133 | The insert section keeps the table ordered and reports whether the entry is the earliest. |
| Deadlines.Schedule.Disarm | crates/cordis-core/src/deadline.rs:137-141 | A cancellation removes exactly its entry. |
| Deadlines.Schedule.TakeDue | crates/cordis-core/src/deadline.rs:205-212 | The pop loop takes everything due, earliest first, and nothing else. |
| Deadlines.Schedule.NextWake | crates/cordis-core/src/deadline.rs:226-231 | The worker's next wake is the earliest armed deadline. |
| DeadlineMonitor.StepKeeps | crates/cordis-core/src/deadline.rs:106-232 | Every lock section, notification, send, loss of the worker and passing of time keeps the monitor invariant. |
| DeadlineMonitor.NoLateWake | crates/cordis-core/src/deadline.rs:191-232 | At every instant of every run a parked worker that nobody owes a notification has a timer set no later than any armed deadline. |
| DeadlineMonitor.OrphansMeanRefusal | crates/cordis-core/src/deadline.rs:158-187 | Armed entries without a worker mean that the last request for a thread in the run was refused. |
| DeadlineMonitor.ScanTakesDue | crates/cordis-core/src/deadline.rs:205-225 | The worker's section leaves nothing due in the table and takes nothing that is not. |
| DeadlineMonitor.LeavesOnce | crates/cordis-core/src/deadline.rs:106-232 | An entry leaves once, by being fired no earlier than its deadline or by being disarmed, and never comes back. |
| DeadlineMonitor.ArmedOrRefused | crates/cordis-core/src/deadline.rs:106-133 | A refused spawn inserts nothing; an accepted arm adds exactly one new entry and finds a worker. |
| DeadlineMonitor.ArmAnswers | crates/cordis-core/src/deadline.rs:78-91 | A deadline beyond the clock never elapses, one due at once has fired, and any other is the instant of arming plus the timeout. |
| DeadlineMonitor.DeadlineIsTimeout | crates/cordis-core/src/deadline.rs:78-91 | At every instant of every run a waiter's deadline is the instant at which it armed plus its timeout. |
| DeadlineMonitor.FiresAfterTimeout | crates/cordis-core/src/deadline.rs:191-232 | What an armed waiter waits for fires no earlier than its whole timeout after it armed. |
| DeadlineMonitor.DropDisarms | crates/cordis-core/src/deadline.rs:137-141 | Dropping a waiter takes its own entry, and no other, out of the table. |
| DeadlineMonitor.ParksUntilEarliest | crates/cordis-core/src/deadline.rs:226-231 | A worker that finds nothing due parks until exactly the earliest armed deadline, or for a notification if there is none. |
| DeadlineMonitor.SendsEarliest | crates/cordis-core/src/deadline.rs:213-225 | The worker delivers what it took one by one, earliest first and equal deadlines in the order of arming, each at the instant it is sent. |
| DeadlineMonitor.RetirementHandsOver | crates/cordis-core/src/deadline.rs:158-175 | A retiring worker leaves the table alone and hands over whenever entries are armed and a thread is granted. |
| DeadlineMonitor.NotifiesEarliest | crates/cordis-core/src/deadline.rs:125-132 | An insertion owes the worker a notification exactly when its entry is now the earliest. |
| DeadlineMonitor.DeliversInTime | crates/cordis-core/src/deadline.rs:191-232 | Once the clock has reached a parked worker's timer, its wake-up and next section put exactly what is due by then into its hands. |
| Listeners.CompactionInvisible | crates/cordis-core/src/events/store.rs:129-137 | Compaction changes no listener and no order and leaves fewer than max(32, live) stale ids. |
| Listeners.EventHooks.CompactIfSparse | crates/cordis-core/src/events/store.rs:129-137 | The retain loop computes that compaction. |
| Listeners.EventHooks.Add | crates/cordis-core/src/events/store.rs:104-115 | A fresh hook goes to the front or the back of what iteration shows. |
| Listeners.EventHooks.Remove | crates/cordis-core/src/events/store.rs:117-119 | A removal takes out exactly one hook. |
| Listeners.WithoutHookAt | crates/cordis-core/src/events/store.rs:117-119 | Removing the hook in the middle of a list leaves what stood before and after it, in order. |
| EventStores.LazyEqualsEager | crates/cordis-core/src/events/store.rs:98-142 | Over any run of add, remove, claim and preflight, iteration equals the eagerly kept list, and a row is compact after each add or preflight. |
| EventStores.ClaimedOnce | crates/cordis-core/src/events/store.rs:198-220 | A once-listener is claimed at most once in any run. |
| EventStores.EventStore.Register | crates/cordis-core/src/events/store.rs:172-178 | Registration binds the Event contract once and adds the hook. |
| EventStores.EventStore.Remove | crates/cordis-core/src/events/store.rs:180-196 | Removal drops a row that has no live hook left. |
| EventStores.EventStore.ClaimHook | crates/cordis-core/src/events/store.rs:198-220 | The claim says whether the hook may run and consumes a once-hook. |
| EventStores.EventStore.PreflightDispatch | crates/cordis-core/src/events/store.rs:222-269 | The snapshot is the eligible part of the eager list with compatible roles only, or the first incompatible eligible role; the contract is bound, the row at most compacted, and no other Event is touched. |
| EventStores.EligibleExactly | crates/cordis-core/src/events/store.rs:236-246 | A dispatch reaches every hook without a Scope, and under one the global ones, those of no Scope, and those of the dispatch Scope or a Scope that encloses it. |
| EventStores.CompatibleExactly | crates/cordis-core/src/events/store.rs:247-254 | Mappers and Arounds run in a waterfall and nowhere else, Observers and Responders everywhere else. |
| EventStores.Reaches | crates/cordis-core/src/context.rs:547-556 | The outward walk finds a Scope exactly when it is the dispatch Scope or one of its ancestors. |
| Continuations.BuildChain | crates/cordis-core/src/events/dispatch.rs:476-540 | The closure chain folded from the back equals the index recursion on state, result, claims and tail runs, for every payload. |
| Continuations.TailReached | crates/cordis-core/src/update.rs:154-197 | The tail runs at most once, exactly when every claimed listener passed the payload on, and claims are attempted in snapshot order, each once. |
| Continuations.ChainAgrees | crates/cordis-core/src/update.rs:154-197 | Update control's chain is the waterfall of the same listeners with a tail that hands the change back. |
| Continuations.Blamed | crates/cordis-core/src/update.rs:160-196 | Every failure of update control names a hook. |
| Continuations.ControlExactly | crates/cordis-core/src/update.rs:141-152 | Control yields a candidate exactly when every policy passed the change on and none failed, and then it is the very value that came out of the chain; a policy that keeps the change vetoes; a failure is the chain's and names a hook. |
| Continuations.MappersYield | crates/cordis-core/src/update.rs:173-179 | Of Mappers alone the candidate is the change as the claimed ones rewrote it in turn. |
| Continuations.AroundDecides | crates/cordis-core/src/update.rs:180-194 | An outermost claimed Around that goes on has the last word: the candidate, or the failure, is what it returns on seeing what the rest of the chain made of what it handed in. |
| Continuations.InnermostBlamed | crates/cordis-core/src/update.rs:195-196 | The innermost failing hook is blamed, with the diagnostic it gave, however many Arounds its failure passes. |
| LoggerNames.Hyphenate | crates/cordis-core/src/logger.rs:439-479 | The loop computes the recursive spelling. |
| LoggerNames.HyphensExactly | crates/cordis-core/src/logger.rs:439-479 | Each character is spelled by its own surroundings only, with hyphens exactly where words begin and single delimiters stood. |
| LoggerNames.KeepsLetters | crates/cordis-core/src/logger.rs:439-479 | Only hyphens come and go; every other character stays, in lower case. |
| LoggerNames.LowerCase | crates/cordis-core/src/logger.rs:439-479 | No capital and no underscore is left. |
| LoggerNames.HyphenateIdempotent | crates/cordis-core/src/logger.rs:439-479 | A hyphenated name is its own hyphenation. |

## Left out

- SettleProgress.ConvergenceBounded: bounds the steps of a pass between two perturbations of others; that the scheduler eventually runs the owner is not claimed.
- SettleRuns.NoLostWakeup: its condition is what happened since the last release, not what a caller can test; `ready` tests the outstanding revision itself and kicks again (mod.rs:1613-1657).
- SettleRuns.ReadyLinearizes: speaks of a Fiber that its initial pass has released, which every FiberHandle names. On a Fiber whose activation was lost in the handoff window it answers the Pending described above, not only in that window but at any later time until a pass applies. It does not model the parked error cell, so a Failed answer stands for the error return and the retry when the cell was cleared meanwhile (mod.rs:1641-1649); `ready`'s own kick is one of the arriving kicks.
- StatePublications.StatePublication.Publish: does not model the overflow panics of the 64-bit revisions and sequence; all counters are unbounded, so the wrap of recheck_committed after 2^64 commits is not modelled either.
- Continuations.ChainAgrees: covers tails that hand their input back, as update control's does; a failing waterfall tail reaches its caller without a registration unless an Around is on the way.
- GenerationProtocol: takes from the settle model that a Fiber has one slot owner; the owner's steps may otherwise come in any order the source allows and more. A second, redundant gate at the start of `provide` (service.rs:778-781) is not repeated.
- The protocol files (inertia.rs, fiber/mod.rs, gated.rs, fiber/era.rs, fiber/spawn.rs) are modelled as transition systems over values, where many threads interleave inside one operation; update in place and aliasing of Fiber fields within one step are not captured there. The slot, the publication cell, the store, the journal and the other tables are classes.
- UpdateStore's own listener list, which is kept eagerly and has no order to refine.
- Async cleanups on the completion runtime, `CallerDriven` and `DetachedWork`: a cleanup is claimed, runs, and finishes; who polls it is not modelled.
- Recursion refusal and settle attribution (`settle_ctx.rs`): refusals are an input of the step that may refuse.
- Tokio, wakers, `Notify`, thread spawning and memory orderings: atomics are sequentially consistent, waits may wake at any time.
- Panic containment, destructors and diagnostic text; user callbacks succeed or fail.
- The Plugin state lease beyond its being home (plugin.rs:193-330): swap_input and into_successor are not modelled.
- Runtime observations, exporters, `RuntimeSnapshot`, timer streams, serde wire forms and the resolver's JSON preparation.
- The era swap after its terminal claim: successor creation, dependent convergence and handoff.
- emit, emit_parallel and query loops, and the isolate axis of a Context, which would only add easy members.
- The deadline worker's containment of a panicking wake, and its two test hooks other than losing the worker.
