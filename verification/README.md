# Photos Local Keyword Indexer: verified models

The helper behind the Photos keyword indexer writes keywords and captions into a photo library that
cannot be recovered from a mistake. Its promises are about runs: what happens when a write fails after
it became visible, when the user pauses while a photo is being decided, when the helper dies between two
files, when several threads share one ledger. This project states those promises and proves them over every
run or every input.

- **Durable campaign** (`Campaign*.dfy`, `Intake.dfy`). The disk is a map of immutable artifacts and one
  replaceable checkpoint. Every write ends in one of three fates: done, lost, or torn (published, then
  reported as failed). A run is any sequence of the dispatcher's calls, the stages of the single apply
  gate, pauses, manual rollbacks, crashes and reopenings. `CampaignStore` and `CampaignRuns` say what each
  step does on values; `CampaignObject` and `CampaignGate` are the objects that change their fields step by
  step and are proved to do exactly that; `Intake` is the acceptance of controls in front of them, and
  `CampaignHelper` puts both together over all the lives of a helper. `CampaignVerdicts` and
  `CampaignAnnouncements` say in terms of rows, conditions and counters alone what a position is settled as
  and what the app is shown.
- **Authenticated inventory** (`Inventory*.dfy`). Runs, levels and merges of the external sort, the
  duplicate check, the pages, the Merkle tree with its duplicated odd nodes, and the reader that trusts
  only the root.
- **Review queue** (`Queue*.dfy`, `PhotosLanes.dfy`, `Handoff.dfy`). The ledger with its revisions and
  idempotent decisions; the coordinator as atomic steps between lock acquisitions with memory and disk side
  by side; the fill, the scheduler and the lane; recovery; and the handover of the helper from manual to
  autonomous work. `QueueRules` and `QueueMoves` spell out what each operation and each event does to a card.
- **Image containers** (`Containers.dfy`, `ContainerGrammar.dfy`). The three byte walks against recursive
  specifications, and those against written-out grammars.
- **Smaller algorithms** (`Reservoir.dfy`, `Keywords.dfy`, `Records.dfy`, `RecordStates.dfy`, `PlacesBatch.dfy`). Uniform
  reservoir sampling, keyword proposals, persisted photo records and their digests, and the re-entrant
  Apple Maps batch.

`dafny verify dfyconfig.toml` checks everything. Photos, Ollama, Apple Maps, the review and apply runners
and the clock enter as arguments that may take any value.

## Where the code does less than it says

In each case a lemma exhibits the failing input or run, and another gives the condition under which the promise
holds.

- Reopening after a crash is promised, but a file left in a position directory without `examined.json`
  blocks it for good (`OrphanBlocksReopening`, `CrashBlocksExactlyUnexamined`), and so does a manual rollback
  that leaves a saved run unverified (`RollbackExactlyHarmless`; after every other run the evidence is sound,
  `AlwaysLoadable`).
- A new helper loads a campaign only after it read its status, and it refuses a checkpoint that announces
  a manual drain or counts more analyses than examinations. A crash during the drain leaves the first, a
  torn examination can leave the second. Neither hides the status alone: no later status, start, resume
  or pause is answered, in any later process (`DrainingCrashSilences`, `LaggingCountersSilence`,
  `AnswersNowOrNever`). When a helper answers and when it reopens a campaign is exact: `AnswersExactly`,
  `ReopensExactly`, `StatusReadableExactly`, and `BenignReopensExactly` where the evidence is sound.
- Saves are promised to be counted from their receipts, but one whose run cannot be read while it is being
  settled is published as needing attention for good (`VerifiedSaveForgotten`, `UnreadSaveStaysLost`,
  `DecidedSettledFromReceipts`).
- Counters are promised to equal the evidence, but they lag it once an examination is published without being
  counted (`TornWriteMakesCountersLag`). They never exceed it, whatever fails (`CountersNeverRunAhead`); the
  app refuses a snapshot exactly when analyzed exceeds examined (`SnapshotValidExactly`); the steps that leave
  an examination uncounted are named exactly (`StepCountedExactly`), and without one since the start or the
  last load every snapshot is accepted (`CountedRunStaysValid`, `LoadedRunStaysValid`). Equal counters are
  kept by every run without a failed write (`ExactRun`) and rebuilt by every load (`ReopenedIsExact`).
- An accepted control is durable, except that a pause may take the identifier of an activation whose index
  write failed; after a restart that campaign root answers nothing (`UsurpedActivationStrandsTheDesk`,
  `ConsistentUnlessUsurped`, `RecoversExactlyWhenConsistent`).
- Terminal cards are terminal by the coordinator's care, not the ledger's (`LedgerAloneResurrects`,
  `TerminalStays`).
- A card deferred for a write is not always picked up again: after the last write it is, exactly when
  somebody is still going to look at the queue, and an uncertain end is nobody
  (`DeferredCardCanBeStranded`, `VerifiedWriteBesideItIsNotEnough`, `PickedUpExactlyWhenLookToCome`).
- A fill that raises may lose or repeat candidates (`CandidateLostOrRepeated`, `CommitConservesExactly`,
  `EveryRunConservesExactly`).
- A second activation of the campaign that owns the helper has no generation of its own and is not
  exclusive (`SecondActivationIsUnprotected`, `ProtectedExactlyWithSlot`).

## Model

| member | source | states |
|---|---|---|
| CampaignSafety.AppliedAtMostOnce | src/photos_indexer/autonomous_runtime.py:732-825 | Over every interleaving of the gate, the control thread, failed or torn writes, crashes and reopenings, each position is applied at most once, and only with a published decision naming an authorization on disk |
| CampaignSafety.ApplyNeedsEvidence | src/photos_indexer/autonomous_runtime.py:794-809 | The only step that calls the apply runner finds the position decided, reviewed and its run linked to that very decision, and the position not applied before |
| CampaignSafety.StepKeeps | src/photos_indexer/autonomous_runtime.py:116-149 | Every step keeps the store invariant; no write, torn or failed, alters or loses an immutable artifact |
| CampaignSafety.RunKeeps | src/photos_indexer/autonomous_runtime.py:116-149 | The same over whole runs |
| CampaignSafety.EvidenceIsImmutable | src/photos_indexer/autonomous_runtime.py:128-146 | What any run has published is still there, unchanged, after any continuation of it |
| CampaignAdmission.StepDiscipline | src/photos_indexer/autonomous_runtime.py:778-793 | A decision appears in one step only, for an undecided position, naming the authorization in force under the lock; nothing but a fresh activation opens closed admission |
| CampaignAdmission.ClosingCloses | src/photos_indexer/autonomous_runtime.py:405-412 | A pause, a revocation or a fail-closed takes effect in its own step, even when its write fails |
| CampaignAdmission.NoAdmissionWhileClosed | src/photos_indexer/autonomous_runtime.py:778-793 | While admission is closed and no never-used activation arrives, no decision is published over any run |
| CampaignAdmission.PauseLinearizes | src/photos_indexer/autonomous_runtime.py:778-793 | From a pause, revocation or failure on, no new decision is published until an activation under a never-used identifier, whatever fails, crashes or is replayed |
| CampaignAdmission.AdmissionNamesLiveAuthorization | src/photos_indexer/autonomous_runtime.py:778-793 | Each new decision names the authorization live at its admission, sound on disk, and the analysis published for the position |
| CampaignAdmission.DecidedSettledFromReceipts | src/photos_indexer/autonomous_runtime.py:678-704 | A decided position gets exactly the outcome its own run's receipts show; attention instead exactly where it was given up (abandoned, a raising runner, an apply that exited with an error) or where its run could not be read at that moment |
| CampaignVerdicts.SettledByItsRow | src/photos_indexer/autonomous_runtime.py:649-688 | In terms of the row of the reviewed run: with a clean status, a caption as approved and no rollback or a receipted one, a decided position is a save exactly with a verified apply and its receipt, no change exactly when nothing was to apply, and attention in every other case |
| CampaignVerdicts.UndecidedSettledExactly | src/photos_indexer/autonomous_runtime.py:732-778 | A position is settled before any decision only by being abandoned or by its manifest, its screening or its reading; it is never a save, and no change exactly when the photo already had everything |
| CampaignVerdicts.DueIsSettled | src/photos_indexer/autonomous_runtime.py:732-825 | With confirmed writes nothing is passed over: a position that a stage turns away, that is given up, that was decided before, or that comes back from its apply is settled in that very step |
| CampaignEvidence.RowOutcomeSpelledOut | src/photos_indexer/autonomous_runtime.py:649-675 | When a row proves a save, when no change and when neither, field by field |
| CampaignAnnouncements.ControlsAnnounce | src/photos_indexer/autonomous_runtime.py:377-412 | A pause or failure is shown as pausing while photos are in flight and as paused otherwise, with its reason, and clears the authorization; an accepted activation is shown running and opens admission under its own identifier |
| CampaignAnnouncements.SettlementAnnounces | src/photos_indexer/autonomous_runtime.py:439-463 | A settlement shows the completed campaign exactly when nothing is left and nothing has failed, a failure while one is remembered, and a pause come to rest when the last photo leaves the flight; it adds one to its own counter |
| CampaignAnnouncements.DriveEndAnnounces | src/photos_indexer/autonomous_dispatcher.py:570-581 | A drive ends with its own failure, with the end of the campaign, or with a pause that keeps a failure announced before it, and closes admission |
| CampaignAnnouncements.ErrorsCloseAdmission | src/photos_indexer/autonomous_runtime.py:725-825 | Errors of permissions or of storage close admission in the stage that meets them, whatever becomes of its writes |
| CampaignAnnouncements.PositionsTakenExactly | src/photos_indexer/autonomous_runtime.py:415-436 | When an examination and an analysis are taken in, counted, repeated or refused |
| CampaignAnnouncements.StagesInOrder | src/photos_indexer/autonomous_runtime.py:736-818 | With confirmed writes, the position goes from each stage to the next exactly under the conditions of that stage, and out of the gate otherwise |
| CampaignEvidence.VerifiedRollbackKeepsSave | src/photos_indexer/autonomous_runtime.py:649-675 | A save still reads as a save after a verified rollback of keywords and caption |
| CampaignEvidence.SettledPartition | src/photos_indexer/autonomous_runtime.py:439-463 | Saved, unchanged and attention outcomes partition the settled positions |
| CampaignCounters.ExactIsValid | app/PhotosLocalKeywordIndexer/Models/AutonomyCampaignModels.swift:147-157 | Counters equal to the cardinalities of the evidence satisfy every inequality the app demands of a snapshot |
| CampaignRecovery.ExactRun | src/photos_indexer/autonomous_runtime.py:341-347 | Without a failed write, every run keeps the counters equal to the cardinalities of the evidence on disk and in-flight a set of open positions |
| CampaignRecovery.ReopenedIsExact | src/photos_indexer/autonomous_runtime.py:206-250 | From any loadable crash point, whatever the stale checkpoint says, a load gives exact counters and closed admission and settles every decided position; each agrees with its receipts if and only if its run could be read or proves no more than attention |
| CampaignRecovery.ShownSnapshotsAreExact | src/photos_indexer/autonomous_runtime.py:522-559 | After any history of failures ending in a load, every snapshot of a fault-free continuation is exact and accepted by the app |
| CampaignRecovery.FreshCampaignIsExact | src/photos_indexer/autonomous_runtime.py:173-203 | The same for a campaign that was never closed |
| CampaignRecovery.RevisionGrows | src/photos_indexer/autonomous_runtime.py:341-347 | No step but a reopening or a status read lowers the checkpoint revision, and either of them, when it goes through, shows one more than the checkpoint it started from |
| CampaignRecovery.ReopensExactlyWhenLoadable | src/photos_indexer/autonomous_runtime.py:206-250 | Reopening succeeds if and only if the saved checkpoint is valid with revision headroom, the evidence is sound and the final write goes through |
| CampaignRecovery.InterruptedReopeningIsHarmless | src/photos_indexer/autonomous_runtime.py:547-553 | A load that dies after settling any subset of positions leaves a loadable store; a later load ends alike if and only if every position settled so could be read or proves no more than attention |
| CampaignRecovery.UnreadSaveStaysLost | src/photos_indexer/autonomous_runtime.py:683-688 | A proven save being settled by a load is counted as saved after every later run if and only if its run could be read during that load, although its receipts still prove it |
| CampaignLostSave.HistoryEndsInSave | src/photos_indexer/autonomous_runtime.py:732-825 | One activation, one photo examined, decided, reviewed, linked and applied, then a crash: a loadable store whose receipts prove a save not yet settled |
| CampaignLostSave.VerifiedSaveForgotten | src/photos_indexer/autonomous_runtime.py:685-688 | Counterexample: after that history, a load that cannot read the run makes the verified save attention for good |
| CampaignRecovery.CrashBlocksExactlyUnexamined | src/photos_indexer/autonomous_runtime.py:532-536 | A crash that leaves a file in a position directory keeps a loadable campaign loadable if and only if that position was already examined |
| CampaignRecovery.OrphanBlocksReopening | src/photos_indexer/autonomous_runtime.py:532-536 | Counterexample: a helper that is activated and dies while it examines its first photo leaves a campaign no later run can open; the same crash without the file would not |
| CampaignLag.CountersNeverRunAhead | src/photos_indexer/autonomous_runtime.py:341-347 | Over every run, failed and torn writes included, no counter in memory or on disk exceeds its evidence, what is left is the total less what is counted as settled, and no more is in flight than is left |
| CampaignLag.SnapshotValidExactly | app/PhotosLocalKeywordIndexer/Models/AutonomyCampaignModels.swift:147-157 | So over every run the app accepts a snapshot, shown or on disk, if and only if it counts no more photos as analyzed than as examined |
| CampaignLag.StatusReadableExactly | src/photos_indexer/autonomous_runtime.py:253-316 | Over every run the status of the checkpoint on disk can be read if and only if it announces no manual drain, counts no more analyses than examinations and has a revision left |
| CampaignCounted.StepCountedExactly | src/photos_indexer/autonomous_runtime.py:415-436 | Once memory and disk count every examination, a step of whatever fate ends that if and only if it examines a new photo and its directory sync, or the checkpoint after it, is not confirmed |
| CampaignCounted.CountedRunStaysValid | src/photos_indexer/autonomous_runtime.py:415-436 | Over every run without such a step, however many other writes fail, every snapshot is one the app accepts, and the status can be read unless a drain is announced or the revision is exhausted |
| CampaignCounted.LoadedRunStaysValid | src/photos_indexer/autonomous_runtime.py:547-559 | The same from any completed load on, whatever was left uncounted before it |
| CampaignStatus.BenignReopensExactly | src/photos_indexer/autonomous_runtime.py:253-316 | After any run with verified manual rollbacks, new review directories and no orphan file, the status can be read and the campaign loaded if and only if the checkpoint announces no drain, counts no analysis ahead and has a revision left |
| CampaignStatus.DrainingCrashStrands | src/photos_indexer/autonomous_runtime.py:299 | Counterexample: a campaign started, paused and resumed whose helper dies while it drains manual work: a load would accept it, its status cannot be read |
| CampaignStatus.LaggingCountersStrand | src/photos_indexer/autonomous_runtime.py:308 | Counterexample: an examination torn at its directory sync, a resume, an analysis and an ordinary end leave a checkpoint that says nothing of a drain and whose status cannot be read either |
| CampaignRecovery.TornWriteMakesCountersLag | src/photos_indexer/autonomous_runtime.py:137-146 | Counterexample: an examination that was published and then failed lets the checkpoint shown and written violate analyzed <= examined until the next load |
| CampaignBacking.BenignRunStands | src/photos_indexer/autonomous_runtime.py:661-704 | Over every run whose review directories are new, whose manual rollbacks are verified and whose crashes leave no orphan file, every saved outcome stays proven by the receipts of its own run and no run is shared |
| CampaignBacking.AlwaysLoadable | src/photos_indexer/autonomous_runtime.py:691-704 | After any such run the evidence passes the checks of a load, which is refused if and only if the checkpoint revision is exhausted |
| CampaignBacking.RollbackExactlyHarmless | src/photos_indexer/autonomous_runtime.py:661-704 | A manual rollback leaves a loadable campaign loadable if and only if its run backs no save, or its status is clean and its row still shows a verified apply with no rollback or a verified one |
| CampaignObject.StoreObject.PublishCheckpoint | src/photos_indexer/autonomous_runtime.py:341-347 | The in-memory checkpoint advances only when the write reports success; a torn write leaves disk ahead of memory |
| CampaignObject.StoreObject.CloseOnFailure | src/photos_indexer/autonomous_runtime.py:472-484 | Clears the authorization and in-flight set and keeps the first failure reason even when the checkpoint cannot be written |
| CampaignObject.StoreObject.Control | src/photos_indexer/autonomous_runtime.py:349-374 | Exact replays are accepted without effect, a reused identifier or a foreign campaign is refused, a new control is published once |
| CampaignObject.StoreObject.Activate | src/photos_indexer/autonomous_runtime.py:377-402 | The authorization is set only after control, authorization and checkpoint are on disk; every storage failure closes the campaign |
| CampaignObject.StoreObject.PauseAdmission | src/photos_indexer/autonomous_runtime.py:405-412 | The authorization is cleared before anything is written |
| CampaignObject.StoreObject.Examine | src/photos_indexer/autonomous_runtime.py:415-436 | Counts a position once, bounded by the photo count and the open authorization |
| CampaignObject.StoreObject.SettlePosition | src/photos_indexer/autonomous_runtime.py:439-463 | Publishes the outcome once; settling again is accepted exactly for the same value |
| CampaignObject.StoreObject.ReleasePosition | src/photos_indexer/autonomous_runtime.py:466-470 | Takes a position out of flight and out of the checkpoint |
| CampaignObject.StoreObject.RecordSource | src/photos_indexer/autonomous_runtime.py:487-520 | Publishes the analysis of an examined position once and demands the same source afterwards |
| CampaignObject.StoreObject.VisitEntry | src/photos_indexer/autonomous_runtime.py:527-554 | One directory of a load: it is counted and its decided position settled from what could be read of its receipts, or the evidence is left at one of the two recoverable points |
| CampaignObject.StoreObject.ReadStatus | src/photos_indexer/autonomous_runtime.py:253-316 | Shows the checkpoint on disk as paused and recovered, with nothing in flight or authorized, exactly when its reason, counters and revision pass, and otherwise leaves the store as it was |
| CampaignObject.StoreObject.Reload | src/photos_indexer/autonomous_runtime.py:206-250 | The load loop ends in exactly the reloaded store of the specification, succeeds when the store is loadable and no write or reading it insists on fails, and otherwise has settled some subset |
| CampaignObject.TallyEntry | src/photos_indexer/autonomous_runtime.py:537-554 | Counting one more directory extends the tally by that directory's evidence and nothing else |
| CampaignObject.AllTallied | src/photos_indexer/autonomous_runtime.py:527-559 | Once every directory is counted, in any order, the tally is the rebuilt checkpoint |
| CampaignObject.EntryJudged | src/photos_indexer/autonomous_runtime.py:691-704 | The check of one settled directory decides soundness of that position alike before and after reconciliation |
| CampaignGate.GateObject.BeginStage | src/photos_indexer/autonomous_runtime.py:736-741 | A settled or decided position never goes on to an analysis |
| CampaignGate.GateObject.AnalyseStage | src/photos_indexer/autonomous_runtime.py:742-746 | Records the analysis; a source manifest that does not validate is settled as attention |
| CampaignGate.GateObject.AdmitStage | src/photos_indexer/autonomous_runtime.py:778-793 | Authorization read and decision published under one hold of the lock |
| CampaignGate.GateObject.LinkStage | src/photos_indexer/autonomous_runtime.py:801-808 | The run is linked and the chain checked before anything may be applied |
| CampaignGate.GateObject.ApplyStage | src/photos_indexer/autonomous_runtime.py:809 | The only stage that adds to the count of applies |
| CampaignGate.GateObject.FinishStage | src/photos_indexer/autonomous_runtime.py:810-818 | Settles from the receipts, fails closed where they are broken or unreadable, and closes admission on permission and storage codes |
| CampaignGate.GateObject.Decide | src/photos_indexer/autonomous_runtime.py:736-793 | The staged body up to the admission is the run of its first events |
| CampaignGate.GateObject.CarryOut | src/photos_indexer/autonomous_runtime.py:794-825 | The rest of the body, from the published decision on, always leaves the gate idle |
| CampaignGate.GateObject.Process | src/photos_indexer/autonomous_runtime.py:725-825 | An undisturbed call is the run of its nine stage events over the shared store, and leaves the gate idle; what other threads do between two stages is in the theorems over runs |
| Intake.FreshAtMostOnce | src/photos_indexer/autonomous_dispatcher.py:184-213 | Across crashes, failed writes and conflicting requests a decision identifier is reported fresh at most once |
| Intake.ConsistentUnlessUsurped | src/photos_indexer/autonomous_dispatcher.py:241-255 | The one request that makes activation and index disagree is a pause, of the campaign shown or still pending, reusing the identifier of an activation whose index write failed |
| Intake.AcceptedForGood | src/photos_indexer/autonomous_dispatcher.py:110-167 | Without such a pause, an accepted control stays known over every run, crashes included |
| Intake.KnownIsReplayed | src/photos_indexer/autonomous_dispatcher.py:184-213 | A known identifier is answered as a replay of its control and refused to any other; it is fresh if and only if it is that usurping pause, fully written |
| Intake.FreshIsKnown | src/photos_indexer/autonomous_dispatcher.py:202-213 | Whatever is answered fresh, or changes the activation, is known to every later recovery |
| Intake.RecoveryExactly | src/photos_indexer/autonomous_dispatcher.py:110-167 | What a recovery finds, answers and leaves on disk, whatever fails: what it wrote before a failure stays |
| Intake.IntakeExactly | src/photos_indexer/autonomous_dispatcher.py:184-213 | What the intake of a new control leaves on disk and answers, for every fate of its three publications |
| Intake.AnsweredExactly | src/photos_indexer/autonomous_dispatcher.py:184-298 | On a consistent desk whose writes are confirmed: when a request is fresh, a replay, a reused identifier, busy or not current, and what each leaves on disk |
| Intake.ReplaysLeaveTheGenerationAlone | src/photos_indexer/autonomous_dispatcher.py:193-201 | A replay, a refusal, a foreign campaign or an unrecovered desk neither opens nor closes admission; a failure only closes |
| Intake.OldPauseIsHarmless | src/photos_indexer/autonomous_dispatcher.py:233-259 | Replaying an accepted pause after any run never closes a newer generation |
| Intake.RecoversExactlyWhenConsistent | src/photos_indexer/autonomous_dispatcher.py:110-137 | After a restart a request is answered if and only if the stored activation agrees with the index, the campaign it names can be read, and, for a resume of that campaign, also loaded |
| Intake.InconsistentForGood | src/photos_indexer/autonomous_dispatcher.py:130-137 | A desk whose activation disagrees with the index refuses every request after every run |
| Intake.UsurpedActivationStrandsTheDesk | src/photos_indexer/autonomous_dispatcher.py:184-259 | Counterexample: a campaign started, resumed with a failing index write, then paused under the identifier of that resume, and after a restart no request is answered again |
| Intake.Dispatcher.RecoverDesk | src/photos_indexer/autonomous_dispatcher.py:110-137 | Rebuilds the index entry an activation lacks and refuses a conflicting one |
| Intake.Dispatcher.TakeInControl | src/photos_indexer/autonomous_dispatcher.py:184-213 | Replay, reuse, activation record before index entry, in the order of the code |
| Intake.Dispatcher.Admit | src/photos_indexer/autonomous_dispatcher.py:233-298 | Recovery, the check that the campaign is the one shown or pending, the active check and the intake of one request |
| CampaignHelper.RunSound | src/photos_indexer/autonomous_dispatcher.py:110-167 | Over all lives of a helper, failing disks, deaths and manual rollbacks included, the counters of every campaign lag at most and only the campaign on the desk is shown or loaded |
| CampaignHelper.AnswersExactly | src/photos_indexer/autonomous_dispatcher.py:110-167 | After any of them a new helper whose disk answers gets through its recovery if and only if the accepted activation agrees with the index and the checkpoint of its campaign announces no drain, counts no analysis ahead and has a revision left |
| CampaignHelper.ReopensExactly | src/photos_indexer/autonomous_dispatcher.py:278-288 | Asked to resume that campaign, it has it loaded afterwards, and answers at all, if and only if moreover every position directory is examined and every save on disk is proven |
| CampaignHelper.AnswersNowOrNever | src/photos_indexer/autonomous_dispatcher.py:110-167 | A new helper gets through its recovery as soon as its disk answers, or neither it nor any later one ever answers a status, start, resume or pause again |
| CampaignSilence.DrainingCrashSilences | src/photos_indexer/autonomous_dispatcher.py:342-347 | Counterexample: a start, a pause, a resume and the death of the helper during the manual drain, and every later request fails, although the controls agree and a load would accept the campaign |
| CampaignSilence.LaggingCountersSilence | src/photos_indexer/autonomous_dispatcher.py:110-167 | Counterexample: a torn examination, a resume, an analysis and an ordinary quit end in the same silence |
| InventorySort.SortedRecords | src/photos_indexer/autonomous_inventory.py:98-135 | For any input length, a sorted permutation of the valid records with exact valid and invalid counts |
| InventorySort.NewestFirstSays | src/photos_indexer/autonomous_inventory.py:81-84 | One record stands before another exactly when its date is later, compared from year to microsecond, or the dates are equal and its identifier comes first by code point |
| InventorySort.ValidByRank | src/photos_indexer/autonomous_inventory.py:98-111 | The listed items are taken in the order they come in, each once |
| InventorySort.InitialRuns | src/photos_indexer/autonomous_inventory.py:104-118 | Sorted runs of 1 to 200 records that together are the valid records |
| InventorySort.MergeLevel | src/photos_indexer/autonomous_inventory.py:119-131 | One level of 32-way merging keeps the records and leaves ceil(count/32) sorted runs |
| InventorySort.MergeRuns | src/photos_indexer/autonomous_inventory.py:125 | Merging at most 32 sorted runs gives one sorted run of the same records |
| InventorySort.SmallestHead | src/photos_indexer/autonomous_inventory.py:125 | The merge takes a least head, the earliest run among equals |
| InventorySort.FewerRuns | src/photos_indexer/autonomous_inventory.py:119-131 | Each level has fewer runs than the one before, so the merge ends |
| InventorySort.NewestFirstInjective | src/photos_indexer/autonomous_inventory.py:81-84 | The catalogue order has no ties between different records |
| InventorySort.SortedPermutationUnique | src/photos_indexer/autonomous_inventory.py:81-84 | A set of records has one sorted permutation under that order |
| InventoryMerkle.PathLength | src/photos_indexer/autonomous_inventory.py:273-276 | Every proof has length bit_length(count - 1), at any width |
| InventoryMerkle.LevelByLevel | src/photos_indexer/autonomous_inventory.py:165-192 | Each node is the hash of the two below it, left before right, the odd last one taken twice; the root is alone on the last level; entry k of a page's proof is what stands beside it k levels up, itself where nothing does |
| InventoryMerkle.Completeness | src/photos_indexer/autonomous_inventory.py:156-194 | Every page's own path folds to the root, with odd nodes duplicated at any level |
| InventoryMerkle.FoldCollision | src/photos_indexer/autonomous_inventory.py:277-284 | Two different digests or proofs that fold alike at one position and length yield two different nodes with one hash, for any hash; and two nodes of well-formed digests when everything folded is well-formed |
| InventoryMerkle.FoldInjective | src/photos_indexer/autonomous_inventory.py:277-284 | So, short of a collision, the fold at a fixed position and length is injective in the digest and in the proof |
| InventoryMerkle.ForgeryShowsCollision | src/photos_indexer/autonomous_inventory.py:273-286 | A digest and proof that fold to the root without being the committed ones yield a collision, for any hash |
| InventoryMerkle.Soundness | src/photos_indexer/autonomous_inventory.py:273-286 | A digest and proof of the right length fold to the root if and only if they are the committed digest and its own path |
| InventoryMerkle.BuildTree | src/photos_indexer/autonomous_inventory.py:165-178 | The level files form the tree over the page digests and end in its root |
| InventoryMerkle.ReadPath | src/photos_indexer/autonomous_inventory.py:182-192 | The siblings read off the level files are the authentication path |
| InventoryMerkle.AttachProofs | src/photos_indexer/autonomous_inventory.py:156-194 | The returned root and the attached proofs are the root and paths of the tree, for every page count, zero included |
| Inventory.UniqueRecords | src/photos_indexer/autonomous_inventory.py:138-144 | Refuses exactly the inputs in which two valid records share an identifier and keeps all records otherwise |
| Inventory.ClashIsAdjacent | src/photos_indexer/autonomous_inventory.py:138-144 | Ordered by identifier, duplicates are neighbours, so comparing neighbours finds every one |
| Inventory.Paginate | src/photos_indexer/autonomous_inventory.py:217-231 | Pages of 200 in order, the last one shorter |
| Inventory.Create | src/photos_indexer/autonomous_inventory.py:207-246 | Rejects an input exactly when two valid records share an identifier; otherwise stores the inventory of their canonical order, with the exact invalid count |
| Inventory.CatalogueIsNewestFirst | src/photos_indexer/autonomous_inventory.py:207-216 | In the order that is stored no photo stands behind an earlier one, and photos of one date stand in increasing identifiers by code point |
| Inventory.CreatedSpelledOut | src/photos_indexer/autonomous_inventory.py:138-144 | Two listed items of the input share an identifier exactly when the creation is refused; otherwise the catalogue holds each listed item |
| Inventory.FilesSpelledOut | src/photos_indexer/autonomous_inventory.py:217-241 | Page i holds the records 200i to 200i + 199 of that order, the last one what is left, with a proof that folds to the stored root |
| Inventory.EnumerationIrrelevant | src/photos_indexer/autonomous_inventory.py:207-241 | Two enumerations give the same order, hence the same pages and root, if and only if they hold the same records |
| Inventory.ForgedMetadataShowsCollision | src/photos_indexer/autonomous_inventory.py:249-262 | Metadata that loads under the digest of a created snapshot without being it yields a collision, for any hash |
| Inventory.LoadedByDigest | src/photos_indexer/autonomous_inventory.py:249-262 | A created snapshot loads; short of a hash collision, metadata that loads under its digest is that snapshot |
| Inventory.Page | src/photos_indexer/autonomous_inventory.py:264-301 | Reads a page exactly when index, size, proof, root, records and order are right |
| Inventory.AcceptedExactly | src/photos_indexer/autonomous_inventory.py:264-301 | A page file is accepted exactly with its own index, the size left for it, a proof of well-formed hashes of the right length that folds to the root, records each valid, and newest first |
| Inventory.CreatedPageReads | src/photos_indexer/autonomous_inventory.py:264-301 | Every page of a created inventory is read back with exactly its records |
| Inventory.TamperedPageShowsCollision | src/photos_indexer/autonomous_inventory.py:264-286 | A file accepted as page i under a created snapshot with other records than those committed for page i yields a collision of two pages or two nodes, for any hash |
| Inventory.AcceptedPageIsCommitted | src/photos_indexer/autonomous_inventory.py:264-286 | So, short of a collision, whatever file is accepted as page i holds the records committed for page i |
| Inventory.IterFrom | src/photos_indexer/autonomous_inventory.py:303-308 | Yields page by page from the offset on, stopping where a page is refused |
| Inventory.IterFromDrops | src/photos_indexer/autonomous_inventory.py:303-308 | Over an untouched inventory, for every 0 <= k <= total it yields the canonical order without its first k records |
| Inventory.WrongPhotosShowCollision | src/photos_indexer/autonomous_inventory.py:303-308 | An iteration over tampered page files that yields anything but a prefix of the true order from the offset, or completes short of it, yields a collision, for any hash |
| Inventory.NeverWrongPhotos | src/photos_indexer/autonomous_inventory.py:303-308 | So, short of a collision, it yields a prefix of that order, and all of it if it completes |
| Containers.ValidateContainer | src/photos_indexer/vision_image.py:20-88 | The three walks with their offsets and flags stay in bounds, end, and accept exactly what the specification accepts |
| Containers.WalkJpeg | src/photos_indexer/vision_image.py:21-54 | The marker walk, in and out of scan data |
| Containers.WalkPng | src/photos_indexer/vision_image.py:55-74 | The chunk walk |
| Containers.WalkWebp | src/photos_indexer/vision_image.py:75-88 | The RIFF chunk walk |
| ContainerGrammar.NamesSpelledOut | src/photos_indexer/vision_image.py:20-88 | The signatures, the required chunks and the image chunks, letter by letter |
| Containers.NeitherTruncatedNorExtended | src/photos_indexer/vision_image.py:20-88 | No strict prefix and no strict extension of an accepted file is accepted, whatever their formats |
| ContainerGrammar.PngGrammar | src/photos_indexer/vision_image.py:55-74 | A file with the PNG signature is accepted if and only if it is the serialization of a chunk list with IHDR(13) first, an IDAT, one final empty IEND and correct checksums |
| ContainerGrammar.WebpGrammar | src/photos_indexer/vision_image.py:75-88 | A RIFF file is accepted if and only if it is the serialization of a padded chunk list with an image chunk and an exact size field |
| ContainerGrammar.JpegGrammar | src/photos_indexer/vision_image.py:21-54 | A file with the JPEG start marker is accepted if and only if it is the serialization of a legal list of segments, fill bytes, scan data and restarts with a scan and a final end marker |
| ContainerGrammar.JpegEnds | src/photos_indexer/vision_image.py:21-54 | An accepted JPEG ends with its end marker |
| QueueSession.ApplyValid | src/photos_indexer/queue_session.py:309-446 | Every operation, accepted or raising, leaves a ledger that validates |
| QueueRules.LedgerSpelledOut | src/photos_indexer/queue_session.py:266-307 | A ledger validates exactly with canonical identifiers, numbers in range, no revision twice and none missing below another, no decision identifier twice, and decisions about revisions that are there |
| QueueRules.RecordSpelledOut | src/photos_indexer/queue_session.py:401-446 | A decision with a new identifier about the newest revision is accepted exactly as persist of a ready or edited card, rescan of a ready, failed or uncertain one, or discard of one that is not being saved, verified or discarded; and its effect on the card |
| QueueRules.EnqueueSpelledOut | src/photos_indexer/queue_session.py:309-326 | A card is added exactly when its identifier is well-formed and not in use and the unfinished cards are fewer than the configured number |
| QueueRules.CheckpointSpelledOut | src/photos_indexer/queue_session.py:364-392 | A checkpoint is refused for anything but the newest revision and a well-formed run, and otherwise changes that one card |
| QueueSession.RunsStayValid | src/photos_indexer/queue_session.py:266-307 | Over every sequence of operations the ledger validates, its revision never decreases, cards and decisions are only added or moved |
| QueueSession.CurrentIndexCorrect | src/photos_indexer/queue_session.py:394-399 | The current item is the card's newest revision, and is missing exactly when the card is |
| QueueSession.RecordedForGood | src/photos_indexer/queue_session.py:401-416 | After any run, replaying a recorded decision changes nothing and is accepted; its identifier with any other command is a conflict |
| QueueSession.RecordLeavesATrace | src/photos_indexer/queue_session.py:401-446 | An accepted decision is on the ledger; a conflict or a stale revision changes nothing |
| QueueSession.EnqueueWithinLimit | src/photos_indexer/queue_session.py:309-326 | An enqueue that changes the ledger leaves at most photo_count active cards |
| QueueLedger.SessionObject.Validate | src/photos_indexer/queue_session.py:266-307 | The loops accept exactly the valid ledgers: contiguous revisions from 1, unique decision identifiers naming existing revisions |
| QueueLedger.SessionObject.Latest | src/photos_indexer/queue_session.py:309-326 | One newest revision per card |
| QueueLedger.SessionObject.ActiveCount | src/photos_indexer/queue_session.py:309-326 | The number of cards whose newest revision is not terminal |
| QueueLedger.SessionObject.EnqueueItem | src/photos_indexer/queue_session.py:309-326 | New state and reply of an enqueue, the partial change before a raise included |
| QueueLedger.SessionObject.SetSessionState | src/photos_indexer/queue_session.py:343-351 | New state and reply under the expected revision |
| QueueLedger.SessionObject.Configure | src/photos_indexer/queue_session.py:353-362 | New configuration and reply under the expected revision |
| QueueLedger.SessionObject.CheckpointItem | src/photos_indexer/queue_session.py:364-392 | Moves the current revision of one card only |
| QueueLedger.SessionObject.RecordDecision | src/photos_indexer/queue_session.py:401-446 | Replay, conflict, stale revision, then the decision and the card's new state or revision |
| QueueJson.LedgerReadsBack | src/photos_indexer/queue_session.py:448-477 | from_dict reads s from j if and only if to_dict writes j for s: round trips in both directions |
| QueueJson.ConfigReadsBack | src/photos_indexer/queue_session.py:105-141 | The same for the configuration, exactly for valid ones |
| QueueCards.CheckpointMoves | src/photos_indexer/queue_session.py:364-392 | A checkpoint moves the current revision of its own card and no other card |
| QueueCards.EnqueueMoves | src/photos_indexer/queue_session.py:309-326 | An enqueue adds one newcomer at revision 1 |
| QueueCards.RecordMoves | src/photos_indexer/queue_session.py:401-446 | A decision moves its own card once, and a replay moves nothing |
| QueueCards.CurrentIffNotSuperseded | src/photos_indexer/queue_session.py:394-399 | A card is current if and only if it has no next revision |
| QueueCards.RecoveredExactly | src/photos_indexer/queue_runtime.py:668-761 | Recovery gives every current card its recovered state and leaves history and decisions alone |
| QueueCards.RecoveredSpelledOut | src/photos_indexer/queue_runtime.py:668-758 | After a recovery a current card that was discovered, queued, preparing, analyzing or validating is queued; a ready or edited one is failed exactly when its source run is gone; one being saved is uncertain; every other card is as it was |
| QueueCards.RecoversExactlyWithRoom | src/photos_indexer/queue_runtime.py:668-758 | A recovery moves each newest card at most once and goes through exactly when the ledger has a revision left for every card it moves |
| QueueSafety.StepKeeps | src/photos_indexer/queue_coordinator.py:274-559 | Every atomic step of coordinator, workers, crash and recovery keeps the invariant tying memory, disk, decisions and outstanding operations of each card |
| QueueSafety.RunKeeps | src/photos_indexer/queue_coordinator.py:274-559 | The same over every interleaving |
| QueueMoves.StepMovesExactly | src/photos_indexer/queue_coordinator.py:274-559 | For every event, card and reachable state: which state each card is in after it, written out |
| QueueMoves.SubmittedExactly | src/photos_indexer/queue_coordinator.py:274-318 | Only a new, accepted decision about a card with a manifest is submitted, and only once it is on disk; a replay writes and submits nothing |
| QueueMoves.StartedExactly | src/photos_indexer/queue_coordinator.py:343-361 | A submitted save starts when no other runs and once it is on disk as saving; otherwise it is given up |
| QueueMoves.PreparedExactly | src/photos_indexer/queue_coordinator.py:469-490 | A prepared card is analysed once it is on disk as analyzing, or when it was discarded meanwhile |
| QueueSafety.RecoveredCard | src/photos_indexer/queue_runtime.py:668-761 | Recovery keeps settled and superseded cards and turns an interrupted write into an uncertain one |
| QueueGuarantees.PersistedAtMostOnce | src/photos_indexer/queue_coordinator.py:274-361 | Over every interleaving, replay and restart from a new session, each (item, revision) has its Photos operation started at most once |
| QueueGuarantees.AtMostOnce | src/photos_indexer/queue_coordinator.py:343-361 | At most one operation per revision, and exactly one where memory or disk says verified |
| QueueGuarantees.OperationBehindWrittenDecision | src/photos_indexer/queue_coordinator.py:274-361 | An operation starts only with save_queued and exactly one persist decision on disk, and leaves saving on disk |
| QueueGuarantees.NeverPersistedAgain | src/photos_indexer/queue_coordinator.py:274-361 | Once its decision is on disk and no submission waits, a revision is never operated on again over any run |
| QueueGuarantees.InterruptedWriteIsUncertain | src/photos_indexer/queue_runtime.py:673-682 | After a crash during a submitted or running write, recovery shows the card uncertain and no later run operates on that revision |
| QueueGuarantees.TerminalStays | src/photos_indexer/queue_coordinator.py:503-559 | While the coordinator lives, nothing moves a verified, discarded or superseded revision |
| QueueGuarantees.TerminalStaysOnDisk | src/photos_indexer/queue_coordinator.py:363-404 | Settled on disk is settled in memory and on disk after every run, crashes included |
| QueueGuarantees.LateResultsAreHarmless | src/photos_indexer/queue_coordinator.py:519-559 | An analysis result moves no card but its own, and that one only while it is analyzing |
| QueueGuarantees.LedgerAloneResurrects | src/photos_indexer/queue_session.py:364-392 | Counterexample: the ledger itself lets a checkpoint move a verified card anywhere |
| QueueObject.CoordinatorObject.PersistCard | src/photos_indexer/queue_coordinator.py:274-341 | Records the decision, writes the session, and only then submits the operation; replays submit nothing |
| QueueObject.CoordinatorObject.RefuseSaving | src/photos_indexer/queue_coordinator.py:308-318 | A call the executor refuses goes on without its operation |
| QueueObject.CoordinatorObject.StartSaving | src/photos_indexer/queue_coordinator.py:343-361 | The worker writes saving before it runs the operation, and gives up where it cannot |
| QueueObject.CoordinatorObject.FinishSaving | src/photos_indexer/queue_coordinator.py:318-341 | Verified or uncertain by the outcome; uncertain where saving could not be written |
| QueueObject.CoordinatorObject.DiscardCard | src/photos_indexer/queue_coordinator.py:363-376 | Records a discard |
| QueueObject.CoordinatorObject.RescanCard | src/photos_indexer/queue_coordinator.py:378-404 | Records a rescan and keeps the candidate for the new revision |
| QueueObject.CoordinatorObject.SubmitAnalysis | src/photos_indexer/queue_coordinator.py:469-490 | A prepared card moves to analyzing unless it was settled or superseded meanwhile |
| QueueObject.CoordinatorObject.RestoreCard | src/photos_indexer/queue_coordinator.py:464-471 | A card deferred for a write goes back to the queue while it is still preparing, and fails when that raises |
| QueueObject.CoordinatorObject.FailPreparation | src/photos_indexer/queue_coordinator.py:511-517 | A failed preparation moves its card only while it is not settled |
| QueueObject.CoordinatorObject.AnalysisFinished | src/photos_indexer/queue_coordinator.py:519-559 | Validating and then ready or failed, with the manifest kept; nothing for a settled card |
| QueueObject.RecoverSession | src/photos_indexer/queue_runtime.py:668-761 | The recovery loop computes exactly the recovered ledger and keeps it valid |
| QueueFill.Filler.Snapshot | src/photos_indexer/queue_coordinator.py:163-173 | How many cards are missing and how many deferred candidates to take |
| QueueFill.Filler.Commit | src/photos_indexer/queue_coordinator.py:185-205 | The admission loop computes the commit of the specification, raising enqueue and failing write included |
| QueueFill.CommitEndsAs | src/photos_indexer/queue_coordinator.py:188-205 | From room, revision headroom and the fate of each write before the commit: how many candidates it keeps for a card, where it raises, what stays deferred, and which cards the ledger gets |
| QueueFill.CommitSpelledOut | src/photos_indexer/queue_coordinator.py:185-205 | The cards are the candidates in order, deferred before discovered, as many as the session has room for; what is left is deferred; and where the commit raises it is at the first write not confirmed |
| QueueFill.CommitFillsUp | src/photos_indexer/queue_session.py:309-326 | A commit that adds cards leaves at most photo_count active, and one that returns with candidates left over has filled the session |
| QueueFill.CommitConservesExactly | src/photos_indexer/queue_coordinator.py:159-205 | With no candidate deferred or discovered twice, every one is kept for one card or still deferred, once, if and only if the commit returns, or its first enqueue raises with nothing discovered, or it took none from the deferred list and only the write of its last card fails |
| QueueFill.EveryRunConservesExactly | src/photos_indexer/queue_coordinator.py:159-205 | Over any run of fills, failing ones included and with any changes to the session between them, with no candidate found twice, none is lost or repeated if and only if each fill meets that condition |
| QueueFill.EnlistedOnce | src/photos_indexer/queue_coordinator.py:196-201 | Each kept candidate is the candidate of its own card and of no other |
| QueueFill.CandidateLostOrRepeated | src/photos_indexer/queue_coordinator.py:188-205 | Counterexamples: with the revision counter exhausted a discovered candidate is nowhere while its card is in the ledger; a deferred one whose card could not be written is a card and still deferred |
| QueueScheduler.OnePassBoundedFutures | src/photos_indexer/queue_coordinator.py:425-501 | One scheduling pass at a time, and never more outstanding analyses than the largest concurrency asked for |
| QueueScheduler.FuturesWithinConcurrency | src/photos_indexer/queue_coordinator.py:449-455 | Under an unchanged concurrency, never more outstanding analyses than that |
| QueueScheduler.RequestsAreAnswered | src/photos_indexer/queue_coordinator.py:425-501 | A pass does not end while a request that came in during it is unanswered: its end starts a fresh one |
| QueueScheduler.RequestGetsALook | src/photos_indexer/queue_coordinator.py:425-501 | Whoever asks in a running session, during a pass or not, has the queue looked at before the passes end, over every run without an exception or a stop |
| QueueScheduler.IdleOwesNothing | src/photos_indexer/queue_coordinator.py:425-501 | Over a run without an exception or a stop, no request is owed once no pass is alive |
| QueueScheduler.WaitIsExact | src/photos_indexer/queue_coordinator.py:406-415 | The wait condition holds exactly without analysis, callback or pass, and none of their steps can then change anything |
| QueueScheduler.PickedUpExactlyWhenLookToCome | src/photos_indexer/queue_coordinator.py:425-501 | With no write registered, room and a waiting card, every continuation without a new command picks a card if and only if a verified write has yet to ask, an analysis or its callback is outstanding, or the pass is about to pick or has noted a request |
| QueueScheduler.LookComesSoon | src/photos_indexer/queue_coordinator.py:425-501 | That pick comes within a bounded number of steps |
| QueueScheduler.LastWriteDecides | src/photos_indexer/queue_coordinator.py:338-341 | The end of the last write makes a pick certain when it is verified, and changes nothing when it is not |
| QueueScheduler.DeferredCardCanBeStranded | src/photos_indexer/queue_coordinator.py:338-341 | Counterexample: a pass meets a registered write, puts its card back and ends; the write ends uncertain; everything is idle, the card queued, with capacity to spare |
| QueueScheduler.VerifiedWriteBesideItIsNotEnough | src/photos_indexer/queue_coordinator.py:338-341 | Counterexample: a second write that ended verified does not help when its pass ran before the first one ended uncertain |
| PhotosLanes.QueueLaneExclusive | src/photos_indexer/queue_coordinator.py:36-89 | At most one Photos operation at a time over every interleaving |
| PhotosLanes.ReadsYieldToWrites | src/photos_indexer/queue_coordinator.py:50-76 | While a write stays registered no read starts |
| PhotosLanes.DispatcherLaneExclusive | src/photos_indexer/autonomous_dispatcher.py:39-64 | The dispatcher's lane admits one operation at a time |
| PhotosLanes.DispatcherStepKeeps | src/photos_indexer/autonomous_dispatcher.py:48-64 | Its count of waiting writes is exact, and a read waits while there is one |
| PhotosLanes.PhotosLane.Read | src/photos_indexer/queue_coordinator.py:50-64 | Waits, steps aside for a write, or takes the lane |
| PhotosLanes.PhotosLane.Write | src/photos_indexer/queue_coordinator.py:79-89 | Takes the free lane whatever is registered |
| Handoff.HandoffIsExclusive | src/photos_indexer/ipc.py:986-1034 | While a dispatcher that holds the owner slot runs, it owns the helper, no accepted manual work or queue is alive and none is admitted |
| Handoff.OwnershipUntilRelease | src/photos_indexer/ipc.py:936-984 | From the acquisition to its own generation's release the slot keeps owner and generation, and the accepted manual threads only shrink |
| Handoff.OldReleaseIsHarmless | src/photos_indexer/ipc.py:979-984 | An older generation's release never clears a newer owner |
| Handoff.StartIsSafe | src/photos_indexer/ipc.py:986-1014 | A dispatcher starts only for an unrevoked generation and, with the slot, after every accepted thread and coordinator is idle |
| Handoff.PauseStopsActivations | src/photos_indexer/ipc.py:955-970 | After a pause neither the generation that owns the helper nor the latest one handed out ever drives, unless it did already |
| Handoff.ClosedAdmitsNothing | src/photos_indexer/ipc.py:836-973 | A server that shuts down admits nothing |
| Handoff.RevokedNeverStarts | src/photos_indexer/autonomous_dispatcher.py:348-398 | A generation revoked before its start never drives, over any run |
| Handoff.ProtectedExactlyWithSlot | src/photos_indexer/ipc.py:936-973 | The running dispatcher is the owner's generation if and only if its activation acquired the slot |
| Handoff.SecondActivationIsUnprotected | src/photos_indexer/ipc.py:947-954 | Counterexample: an activation that arrives while its campaign owns the helper gets no generation, and manual work is admitted beside it |
| Handoff.WorkerServer.AdmitManual | src/photos_indexer/ipc.py:836-919 | Manual and queue commands are admitted exactly without an owner and a shutdown |
| Handoff.WorkerServer.AdmitActivation | src/photos_indexer/ipc.py:927-973 | An activation takes the free slot, joins its own campaign's, or is refused |
| Handoff.WorkerServer.Release | src/photos_indexer/ipc.py:979-984 | Clears the slot only for the generation that holds it |
| Reservoir.HeldDistinct | src/photos_indexer/adapters.py:440-469 | After k or more eligible photos the reservoir holds k distinct positions of the stream seen so far |
| Reservoir.SelectRandom | src/photos_indexer/adapters.py:440-469 | With no more usable assets than the limit, every usable asset's photo in order; otherwise, for each held position, the photo of the usable asset with that many usable ones before it; all screenshots are counted |
| Reservoir.SelectRecent | src/photos_indexer/adapters.py:470-491 | In order, the photos of the first k usable assets, with the walk ending at the k-th |
| Reservoir.AllDrawsExact | src/photos_indexer/adapters.py:458-465 | The counted draw sequences are exactly those randrange can return |
| Reservoir.SelectingExact | src/photos_indexer/adapters.py:458-465 | The counted selections are exactly the draws under which the position ends up in the reservoir |
| Reservoir.SelectionIsUniform | src/photos_indexer/adapters.py:440-469 | For every stream of n >= k eligible photos and every position, the number of draw sequences that select it times n is k times the number of all draw sequences |
| Reservoir.AssetIsUniform | src/photos_indexer/adapters.py:443-468 | The same for assets: for each usable asset, the draw sequences that hold its place among the usable ones, times the number of usable assets, are the limit times all sequences |
| Reservoir.HeldIsLastHit | src/photos_indexer/adapters.py:458-468 | A place of the reservoir holds the photo of the last draw that hit it, or the one it began with |
| Keywords.ProposeKeywords | src/photos_indexer/taxonomy.py:360-395 | The loop with its seen-set computes the proposals of the specification; a negative maximum is refused |
| Keywords.ProposalsAreNew | src/photos_indexer/taxonomy.py:360-395 | At most 8 and at most the maximum, with pairwise different keys, none of them the key of a normalized keyword the photo has, each from a candidate; and every safe candidate whose key the photo lacks is proposed under that key unless min(maximum, 8) proposals were made |
| Keywords.ProposedInOrder | src/photos_indexer/taxonomy.py:360-395 | The proposals stand in the order of their candidates, the first one of each key; and every candidate is proposed, without a mapping, taken by a key the photo has or by an earlier candidate, unless min(maximum, 8) were made |
| Keywords.IdempotentExactlyWhenStable | src/photos_indexer/taxonomy.py:360-395 | Proposing is idempotent on all inputs if and only if every single proposal proposes itself |
| Keywords.ClosedTablesSettle | src/photos_indexer/taxonomy.py:173-182 | Tables whose equivalents are stored as they stand and are not themselves keys of the table meet that condition |
| Keywords.ProposalsAreFixed | src/photos_indexer/taxonomy.py:360-395 | With such tables, proposals proposed again stay as they are |
| Keywords.ChainedEquivalentsBreak | src/photos_indexer/taxonomy.py:360-395 | A table with an equivalent that is itself replaced is not idempotent |
| Records.PhotoRecord.Initialize | src/photos_indexer/manifest.py:402-534 | Normalizes the fields in place and accepts exactly the records the specification constructs |
| Records.NormalizedFixed | src/photos_indexer/manifest.py:402-534 | A constructed record constructs as itself |
| RecordStates.NormalizedSpelledOut | src/photos_indexer/manifest.py:414-418 | Which fields are respelled and what becomes of the keyword lists |
| RecordStates.ScanByState | src/photos_indexer/manifest.py:403-429 | Which scan fields go with each scan state: proposals exactly in ready photos, no caption and possibly no identifier in failed ones |
| RecordStates.ErrorsByState | src/photos_indexer/manifest.py:439-451 | Which states admit errors of which stage, and which demand one |
| RecordStates.CaptionByState | src/photos_indexer/manifest.py:512-533 | Which caption fields go with each caption state |
| RecordStates.ReviewByPresence | src/photos_indexer/manifest.py:469-511 | A keyword review is absent or complete and approves what is to be applied; a caption review too, or it rejects the caption |
| RecordStates.ProgressByState | src/photos_indexer/manifest.py:559-596 | Which progress is accepted: for each apply status the receipts, keywords, rollback and caption that go with it |
| Records.RowsRoundTrip | src/photos_indexer/manifest.py:598-714 | Writing and reading a constructed record gives it back if and only if the two schema flags fit it |
| Records.NoCaptionNoProgress | src/photos_indexer/manifest.py:536-596 | A valid record without a proposed caption shows no caption progress but a failure |
| Records.ProgressLeavesScanAlone | src/photos_indexer/manifest.py:716-721 | Two valid records that differ only in progress have equal immutable rows if and only if a caption was proposed or both or neither show a caption failure |
| RecordStates.ImmutableCoversScan | src/photos_indexer/manifest.py:716-721 | Two records have equal immutable rows exactly when they agree in all the scan found, its errors, the routing and review where written, and in whether there is a caption to speak of |
| RecordStates.RowsReadExactly | src/photos_indexer/manifest.py:636-714 | Which keys a reader demands, which it refuses and which may not be null; a row that passes is read as the record its values make |
| Records.DigestSurvivesProgress | src/photos_indexer/manifest.py:881-908 | The digest over the immutable rows survives apply, rollback and caption progress in which no photo comes to or from an unproposed caption failure; with collision-free digests, no other progress |
| PlacesBatch.BatchIsOrderly | src/photos_indexer/places.py:272-375 | Whatever the order and re-entrancy of the callbacks, at most 4 searches are active and at most one completion is delivered, with the items in query order |
| PlacesBatch.CompletionSpelledOut | src/photos_indexer/places.py:364-375 | The completion holds the items of the fourteen categories in order, and an error only when each was refused |
| PlacesBatch.CompletionIsNotLost | src/photos_indexer/places.py:364-375 | Once every search has answered, a started batch that was not cancelled has completed |
| PlacesBatch.CancelIsFinal | src/photos_indexer/places.py:307-311 | After a cancellation nothing is launched and nothing delivered |
| PlacesBatch.BatchSearch.LaunchAvailable | src/photos_indexer/places.py:317-346 | The launch loop with callbacks that may re-enter it keeps the invariant and ends |
| PlacesBatch.BatchSearch.FinishQuery | src/photos_indexer/places.py:348-362 | A callback stores its answer once and launches what it freed |
| PlacesBatch.BatchSearch.PartialItems | src/photos_indexer/places.py:299-305 | The items received so far, in query order |

## Left out

- Files: a private file is an atomic map entry. Inodes, links, permissions, symlink checks, size limits of
  single artifacts, and a crash between `os.link` and `os.unlink` in `_write` are not modelled; a size limit
  that is hit counts as a write that failed. A file a load insists on reading and cannot read ends that load.
- SHA-256, JSON text and Unicode forms are parameters. A forged page is shown to exhibit a collision of
  whatever hash it is; completeness of the inventory assumes well-formed digests; keyword and record results
  assume that NFC and storage normalization are idempotent and that dates print and parse back.
- CRC-32 in the PNG walk is an arbitrary function.
- Photos, AppleScript, Ollama, Apple Maps and ImageIO, the review, apply and rollback runners, and the
  validation inside receipts: arbitrary results and receipts.
- Text policy: safe keywords, safe captions and place names are predicates given as arguments.
- Which string `_process` returns, and the error codes and field checks of the IPC payloads.
- Rebuilding candidates and manifests from old runs on recovery: the sets of cards for which that works are
  arguments of the recovery step.
- Aliasing of the `QueueItem` objects `enqueue` and `checkpoint_item` return: callers hold keys instead.
- One coordinator per session, one thread reading requests, and one handler call per Apple Maps search are
  assumed, as the server and the framework provide them.
- Progress of cards that wait while a write is registered, or behind a session that stopped.
- Fairness and waking of threads that wait on the Photos lane: a waiting caller is one that tries again.
- The futures loop of `_drive` enters through the calls it makes and through how it ends, not as a loop.
- `TechnicalTrace` is an opaque field of a record, and the manifest around the records only enters through
  its scan digest.
- `workflows.py`, `service.py`, `cli.py`, `landmarks.py`, packaging and the Swift views: thin wrappers or
  foreign calls; only the app's snapshot check is used.
- Pause, resume, stop and configuration commands of the queue: their effect on the ledger is
  `SetSessionState` and `Configure`, and in runs one control event each.
- CampaignRecovery.ShownSnapshotsAreExact: asks for revisions below the bound of the counters, which
  `_checkpoint_state` enforces by refusing to write beyond it.
- CampaignBacking.AlwaysLoadable: speaks of runs with verified manual rollbacks, new review directories and
  no orphan files; RollbackExactlyHarmless and CrashBlocksExactlyUnexamined say what the first and the last
  exclude. So does CampaignStatus.BenignReopensExactly; CampaignHelper.ReopensExactly speaks of every run.
- `CampaignHelper` joins the desk and its campaigns as steps on values; its halves are the classes
  `Intake.Dispatcher` and `CampaignObject.StoreObject`.
- Creating a campaign directory is one step: a helper that dies between its catalogue and its first checkpoint
  is not modelled in runs. `latest.json` and `preparing.json` only enter through a campaign that has no
  directory yet, whose recovery reads them.
- QueueScheduler.IdleOwesNothing: speaks of runs without an exception inside a pass, because the code's
  `finally` then drops a request that came in meanwhile.
- Keywords.ProposalsAreFixed: assumes tables whose equivalents are not themselves replaced; that the
  entries of `_SPANISH_EQUIVALENTS` are such is not proved, because their keys depend on Unicode folding.
