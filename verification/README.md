# Verified model of ha_spark's authority, settings and device-safety cores

ha_spark runs a battery site in two processes: an add-on that plans, and a Home Assistant
integration that owns the devices. This project models the parts of both whose correctness
depends on what survives a crash, a lost reply, a failed save or a failed write, and proves
what they promise over every run.

Each stateful component is a class whose methods follow the source branch by branch and are
proved equal to a step function over an immutable view of the object; the runs, crashes and
interleavings are then sequences of those steps, and the lemmas speak about the step
functions. Durable writes carry a fault: `Clean`, `FailsBefore` (raised, disk unchanged) or
`FailsAfter` (raised, disk changed). A crash is a faulted write followed by a reload of the
same disk. Fresh identifiers, clock readings, bus answers and the evidence of other
components are parameters, so they are arbitrary.

| file | what it models |
|---|---|
| `Basics.dfy`, `Sequences.dfy` | files and write faults; filters and subsequences |
| `AddonAuthority.dfy`, `AddonAnswers.dfy`, `AddonRecovery.dfy` | the add-on's authority store and its retirement marker; what each operation leaves and answers; redelivery and crash recovery |
| `SiteAuthority.dfy`, `Ownership.dfy` | the integration's authority store and its owner record |
| `StoreReplacement.dfy` | the saves that put a new authority over the old one, for any record kept in it |
| `Handshake.dfy`, `HandshakeAnswers.dfy` | both halves, the heartbeat between them, mutual exclusion; what the heartbeat route answers |
| `SettingsStore.dfy`, `SettingsDocument.dfy` | the two-file settings commit; update, export and import of documents |
| `ChargeClamp.dfy`, `ClampedWriting.dfy` | the proportional charge clamp; the reductions-first plan |
| `RecordedWriting.dfy`, `RecordedRuns.dfy`, `RecordExactness.dfy` | the writer and its record of what is resident; runs of requests and guard re-applies; exactly which records and intents it may be trusted with |
| `NativeWriting.dfy`, `NativeRuns.dfy`, `NativeExactness.dfy` | the verified native boundary, runs of its requests, and exactly when it keeps a whole connection within bounds |
| `SocTrust.dfy`, `SocBlocking.dfy`, `SocEnergy.dfy`, `SocMonitoring.dfy` | the state-of-charge trust monitor: its judgement; failures, blocking and recovery; baseline and energy; the object |
| `PowerHold.dfy`, `HoldRelease.dfy`, `HoldEvidence.dfy`, `EvClearance.dfy` | protection holds on the power switch; when they are kept and ended; what the evidence alone decides; EV clearance |
| `TransitionProposal.dfy`, `TransitionExecutor.dfy`, `TransitionAnswers.dfy`, `TransitionEpochs.dfy` | mode proposals, the verified step machine, what its saves and attempts leave, and the epochs its verdicts are given under |
| `ExportLog.dfy` | the capped, acknowledged export transition log |
| `Tripwire.dfy`, `StopLatch.dfy`, `StopAnswers.dfy`, `ExportClock.dfy` | export tripwire, its durable stop, exactly what a stop and an expiry change, arming by clock face |
| `CommandDispatch.dfy`, `ReplanQueue.dfy` | at-most-once commands; request queues and replan coalescing |

## Main results

- Ownership: no guarded run of both halves has two writers, and a second one is possible exactly
  with the stale flag (`Handshake.MutualExclusion`, `Handshake.SoleWriterIff`); retirements and
  rollbacks converge from every crash (`AddonRecovery`); a switch that is withdrawn gives back
  exactly what it began from (`Ownership.WithdrawnSwitchReturns`).
- Settings: every load of every run is of one whole commit (`SettingsStore.LoadsOneWholeCommit`,
  `SettingsStore.LoadsWholeOrRepairs`); an export imports back (`SettingsDocument.ImportOfExport`).
- Charging: the bounds hold between any two writes exactly for faithful records
  (`RecordedRuns.RunStaysInBounds`, `RecordExactness.AllowanceKeptExactlyWhenFaithful`), and over
  native registers exactly where they are tracked (`NativeExactness.WholeKeptExactlyWhenTracked`);
  a guard's replay reaches its targets (`NativeWriting.NativeBoundary.Guard`).
- State of charge: blocked exactly when due, ready exactly after an unbroken span, the energy an
  exact integral (`SocBlocking`, `SocEnergy.EnergyIsTheIntegral`).
- Holds: every On undoes an Off of our own exactly when no sighting was lost
  (`PowerHold.UndoesOursExactlyWhen`), and the evidence alone decides whether the switch is Off
  (`HoldEvidence.EvidenceDecides`).
- Transitions: commits follow every step, verified in order, under epochs that are characterised
  exactly (`TransitionExecutor.CommittedMeansVerified`, `TransitionEpochs.OneEpochThroughout`).
- Export: a stopped event stays stopped exactly until its window ends or the store is replaced
  (`StopLatch.WritableAgainExactlyWhen`); the log stays bounded and drains (`ExportLog`).
- Queues: commands start at most once, in order (`CommandDispatch.AtMostOnce`); a joined replan is
  a later one (`ReplanQueue.JoinersGetALaterRun`).

Beside them, for each operation, lemmas whose names end in `ExactlyWhen`, `Exactly` or `Ends` say
what it leaves and answers without naming its definition.

## Assumptions

- Disk: renames, links and unlinks are atomic and ordered. Files are absent, unreadable or
  valid; a valid file is typed data, so schema validation appears only where a branch turns
  on it.
- A new store identity is new: no replacement reuses the identity of the store it replaces.
- Heartbeat channel: one heartbeat is outstanding at a time, snapshots and replies may be
  lost at any point, and a snapshot that was given up is never delivered later. A restart of
  the integration drops whatever is outstanding. Without this the handshake invariant fails:
  an old request to retire could arrive after a completed rollback.
- Daemon channel: a request is taken in one step, though the code waits between checking
  that the channel serves and putting the request in its queue. `NothingIsLeftBehind` thus
  rests on the request handlers being stopped before the queues are drained.
- Arithmetic is over exact reals and unbounded integers; a register current is an exact
  floor to tenths of an amp. Instants are integer microseconds or plain integers.

## Findings

Where a promised property is not a property of the code, the model keeps the code and states
exactly when the property holds.

- **A stale `_initialising` flag can undo a retirement.** After a failed initial save, a
  later successful `save` leaves the flag set; a retirement that follows can then be
  overwritten by the retry of a refused save, and the site has two writers
  (`Handshake.TwoWritersWithoutTheGuard`). `Handshake.SoleWriterIff` and
  `AddonRecovery.UnfencesItselfIff` show the flag is the exact condition, and
  `Handshake.MutualExclusion` holds over every run in which no retirement is delivered while
  it is set. Whether the daemon's scheduler ever issues these calls in that order is not
  modelled.
- **A retired peer cannot be handed the site back by request.** Its own reply reports no
  operating mode, so `refusal` always refuses the switch back
  (`Handshake.FencedReplyRefusesReturn`).
- **A write that raised after it reached the device breaks the allowance.** The writer does
  not record it, so the next request plans without it: two requests take a connection with a
  10 kW allowance to 15 kW (`RecordExactness.ALandedRaiseOverdraws`). The exact condition is
  on the record of a connection with two or more inverters: it must never say less than a
  device carries, and where it says more of one no other may carry anything, because an
  increase is then taken for a reduction. `RecordExactness.AllowanceKeptExactlyWhenFaithful`
  proves that every request at every allowance, on any site of the same wiring, keeps the
  bounds if and only if that holds; `RecordedRuns.RunStaysInBounds` and
  `RecordedRuns.NeverExceeds` carry it over runs.
- **A guard re-apply after a stopped call breaks the allowance.** It raises its inverter into
  room that a peer has not yet given up, with every record true
  (`RecordExactness.AReapplyAfterAStopOverdraws`). A re-apply is safe exactly when it does not
  raise or there is room for it beside what the others carry
  (`RecordedRuns.ReapplyIsSafeExactlyWhen`), which is so after any completed call on its
  connection (`RecordedRuns.CompletedCallSettles`, `RecordedRuns.ReappliesAfterACompletedCall`).
- **A forgotten request breaks the allowance at the native boundary.** The bound covers the
  devices that have a request. The first request of a new epoch forgets the others while their
  registers keep their currents, and a transaction that raises restores the earlier request
  though its register may have moved (`NativeExactness.TwoWaysToForget`); the next request
  then draws 20 kW where 10 are allowed (`NativeExactness.AForgottenRequestOverdraws`). Over
  all inverters of a connection, every request at every allowance on any site of its wiring is
  within bounds if and only if every register that is not zero has a request, or its inverter
  is alone (`NativeExactness.WholeKeptExactlyWhenTracked`), and that carries over runs within
  one epoch (`NativeRuns.NeverExceedsFromZero`).
- **An intent that names another inverter's bank breaks the allowance**
  (`ClampedWriting.MismatchedBankOverdraws`). The plan covers everything resident if and only
  if the bank is the inverter's own, or the inverter carries nothing, or it sits on another
  connection (`ClampedWriting.PlanCoversExactlyWhen`), and outside that condition some request
  overdraws as soon as the named connection has another recorded inverter
  (`RecordExactness.IntentKeptExactlyWhenAccounted`).
- **A sighting of On whose save failed is forgotten by a restart.** The owner's next Off is
  then taken for the system's own and switched On (`PowerHold.ALostSightingUndoesTheOwner`).
  Each On write undoes an Off of the system's own exactly when no sighting was lost since the
  last such Off (`PowerHold.UndoesOursExactlyWhen`).
- **An owner's Off hidden by failed reads can be claimed.** When both reads of one evaluation
  fail, an Off is written into an unreadable switch and the read-back makes the resident Off
  look like the system's own. `PowerHold.FoundOffIsTurnedOnIff` shows that this is the only
  way an Off that was there before is ever turned On.
- **A stop is forgotten with the store.** The refusal of a tripped event is promised until its
  window ends. A repair after any later failed save, and a handover out and back with none, put
  a new store in place that starts without latches, and the event can then be supervised and
  written again (`StopLatch.ARepairForgetsTheStop`, `StopLatch.AHandoverForgetsTheStop`). For
  every run before the window's end, it can be written again if and only if the store was
  replaced by one that loads and holds no unended latch of its own
  (`StopLatch.WritableAgainExactlyWhen`); a replacement that reaches its marker releases every
  event (`StopLatch.ReplacementReleasesEveryEvent`).
- **So are the mode and the epoch.** The same repair takes optimise off the disk with its export
  never cancelled, and the epoch back to 1 (`TransitionEpochs.ARepairForgetsTheExport`). A mode
  other than optimise is on disk only after the verified cancel or such a replacement
  (`TransitionExecutor.CommittedMeansVerified`, `TransitionEpochs.UnreplacedMeansCancelled`),
  and within one store the epoch never goes back (`TransitionEpochs.EpochsRiseWithinAStore`).
- **Verified steps of one transition may span epochs.** A new session, a fallback or a
  manual session's new return mode bumps the epoch between two steps without discarding the
  steps already verified (`TransitionEpochs.VerdictsMaySpanEpochs`). For every commit, all the
  verdicts it rests on carry the epoch of its proposal exactly when no bump came before one
  of them, and the disk is still at that epoch when the commit is made exactly when no bump
  came at all (`TransitionEpochs.OneEpochThroughout`). The two differ by a bump after the
  last verdict (`TransitionEpochs.ABumpMayComeAfterTheVerdicts`). A step in progress across a
  bump is discarded.

## Model

| member | source | states |
|---|---|---|
| `AddonAuthority.AuthorityStore.Save` | ha_spark/authority.py:502-517 | a save of another store id or over an unreadable pair is refused and kept as pending; a clean one becomes memory; any fault fences |
| `AddonAuthority.AuthorityStore.PersistInitial` | ha_spark/authority.py:295-309 | store before marker, with the initialising flag cleared only after both |
| `AddonAuthority.AuthorityStore.StartProcess` | ha_spark/authority.py:278-285 | a known store gets a new epoch, an absent one is initialised to Observe, an unknown one yields no authority |
| `AddonAuthority.AuthorityStore.RetryPending` | ha_spark/authority.py:287-293 | the pending record is retried as the kind of write it was |
| `AddonAuthority.AuthorityStore.SaveFallback` | ha_spark/authority.py:481-500 | only an actual change of fallback bumps the epoch and is saved |
| `AddonAuthority.AuthorityStore.ConfirmObserve` | ha_spark/authority.py:437-455 | never overwrites a retirement marker or a known store |
| `AddonAuthority.AuthorityStore.Handover` | ha_spark/authority.py:347-435 | the answer and every file and field after each owner message, in each state of the marker and at each write fault |
| `AddonAuthority.AuthorityStore.RetireFresh` | ha_spark/authority.py:347-435 | a settled, known, unfenced store retires by its marker alone and drops its memory |
| `AddonAuthority.AuthorityStore.RollBack` | ha_spark/authority.py:387-420 | the candidate is persisted in the marker before the store, and replayed from it |
| `AddonAnswers.LoadsExactlyWhen` | ha_spark/authority.py:159-172 | a store is known exactly under the plain marker that names it, and uninitialised exactly without any file |
| `AddonAnswers.RetirementIsReportedExactlyWhen` | ha_spark/authority.py:181-197 | "retired" is reported exactly over the store the marker retired, "active" exactly once a rollback's new candidate is the store |
| `AddonAnswers.SaveEnds` | ha_spark/authority.py:502-517 | a save ends known with nothing owed, or with the candidate owed, the failure published and the permission unmoved |
| `AddonAnswers.RetryFinishesTheSave` | ha_spark/authority.py:287-293 | one clean retry of a failed save leaves exactly what a clean save would have left |
| `AddonAnswers.RetryFinishesTheInitialSave` | ha_spark/authority.py:287-309 | the same for a first save, wherever between store and marker it stopped |
| `AddonAnswers.FallbackMovesTheEpoch` | ha_spark/authority.py:481-500 | a fallback that really starts or ends is a new epoch, one that does not is not saved |
| `AddonAnswers.ConfirmReplacesExactlyWhen` | ha_spark/authority.py:437-455 | the repair leaves a fence and a known state alone and, done cleanly over anything else, ends in a new store in observe |
| `AddonAnswers.RetiresExactlyWhen` | ha_spark/authority.py:347-385 | a fresh retirement is acknowledged exactly for a pending integration over a settled known store with no failed save, cleanly; acknowledged it leaves no permission, failed it publishes the failure |
| `AddonAnswers.ClaimIsAcknowledgedExactlyWhen` | ha_spark/authority.py:347-435 | a redelivered claim is acknowledged exactly over the retired store, after a failed save only once the marker is rewritten |
| `AddonAnswers.ReturnIsAcknowledgedExactlyWhen` | ha_spark/authority.py:347-435 | a return is acknowledged exactly when the persisted candidate is the store, and the fence stays |
| `AddonAnswers.ReturnEndsExactlyWhen` | ha_spark/authority.py:420-435 | the confirmed return lifts the fence exactly over the candidate, which is known then |
| `AddonRecovery.FenceHoldsOverLocalRuns` | ha_spark/authority.py:278-322 | no run of the add-on's own saves, retries, confirmations and restarts lifts a retirement or regains permission |
| `AddonRecovery.UnfencesItselfIff` | ha_spark/authority.py:287-322 | a retired add-on can regain permission by its own calls if and only if the initialising flag is stale |
| `AddonRecovery.RetirementConverges` | ha_spark/authority.py:347-435 | from any crash point of a retirement, redelivery after a clean restart retires; without a restart exactly when the marker had reached the disk |
| `AddonRecovery.RetirementConvergesAfterAny` | ha_spark/authority.py:347-435 | after any number of redeliveries and crashes a clean restart and one clean delivery retire the store for good; without the restart, exactly when the marker is on disk or the process still stands by its state |
| `AddonRecovery.AttemptsKeepTheCandidate` | ha_spark/authority.py:114-132 | across any redeliveries and crashes the first persisted rollback candidate stays the candidate |
| `AddonRecovery.RollbackConverges` | ha_spark/authority.py:347-435 | from any crash point one clean redelivery and the owner's confirmation make the persisted candidate known: a new store id, Observe, epoch 1, no holds; further redeliveries change nothing |
| `AddonRecovery.RestoredAfterCrash` | ha_spark/authority.py:420-435 | a crash in the last step leaves either the fence or the whole candidate |
| `AddonRecovery.RestartMovesTheEpoch` | ha_spark/authority.py:278-293 | a new process over a known store moves the epoch on by one and nothing else; a bump that was not saved stays pending and one clean retry makes it |
| `SiteAuthority.SiteAuthorityStore.Persist` | custom_components/ha_spark/authority.py:139-167 | a candidate is exposed only after every write was clean and the pair reloads as it |
| `SiteAuthority.SiteAuthorityStore.Save` | custom_components/ha_spark/authority.py:169-178 | a save under another identity, or over a pair that does not load, publishes unknown and writes nothing |
| `SiteAuthority.SiteAuthorityStore.Initialise` | custom_components/ha_spark/authority.py:186-192 | fresh Observe, only over nothing or a retired store, never after a failed save |
| `SiteAuthority.SiteAuthorityStore.Retire` | custom_components/ha_spark/authority.py:194-218 | a settled store is revoked by its marker; redelivery is acknowledged without a write |
| `SiteAuthority.SiteAuthorityStore.ConfirmObserve` | custom_components/ha_spark/authority.py:220-231 | repairs only unknown or failed authority, never a retired one |
| `SiteAuthority.InitialSaveIsAllOrNothing` | custom_components/ha_spark/authority.py:139-167 | at every fault of the two writes a reload shows what was there before, the whole candidate, or unknown: never a part |
| `SiteAuthority.SaveIsShownExactlyWhen` | custom_components/ha_spark/authority.py:139-178 | a save over an exposed state is shown exactly when it is valid, of the same identity and clean, and nothing else is shown in its place |
| `SiteAuthority.LoadsExactlyWhen` | custom_components/ha_spark/authority.py:84-130 | what a pair of files loads as: bound, nothing at all, revoked, and anything else unknown |
| `SiteAuthority.StrangeStoreIsNotSaved` | custom_components/ha_spark/authority.py:169-178 | a save against a store that does not load, or is not the one in memory, touches and publishes nothing |
| `SiteAuthority.RetiredExactlyWhen` | custom_components/ha_spark/authority.py:194-218 | a retirement is counted exactly when the store is revoked already, or settled, saved and revoked cleanly now |
| `SiteAuthority.ConfirmReplacesExactlyWhen` | custom_components/ha_spark/authority.py:220-231 | the repair replaces exactly what does not load or could not be saved, never a revoked store |
| `SiteAuthority.RevokedStaysRevoked` | custom_components/ha_spark/authority.py:194-218 | a retired store never loads as authority again by saving, confirming or retiring |
| `StoreReplacement.ReplacementsAreTheSites` | custom_components/ha_spark/authority.py:180-231 | confirmation, initialisation, retirement and reload, stated for any record, are the site store's own, branch for branch |
| `Ownership.OwnershipStore.constructor` | custom_components/ha_spark/ownership.py:60-101 | what a restart makes of the record and the topology's wish: withdraw an opposed pending switch, reconcile an opposed owner, fail closed on an unreadable record |
| `Ownership.OwnershipStore.Save` | custom_components/ha_spark/ownership.py:103-121 | permission is withdrawn before the write and returned only with the record verified |
| `Ownership.OwnershipStore.AsyncRequest` | custom_components/ha_spark/ownership.py:157-173 | the refusal given, or the pending owner saved, or the answer that the save failed; no answer means the target or its pending owner is verified |
| `Ownership.SwitchBeginsExactlyWhen` | custom_components/ha_spark/ownership.py:123-173 | a switch begins if and only if the owner is verified and at rest, the peer reports itself settled and the integration's own authority, where it owns, is settled |
| `Ownership.SaveEnds` | custom_components/ha_spark/ownership.py:103-121 | while a save runs nothing is permitted or claimed; a clean one is the verified new owner, any other leaves everything fenced |
| `Ownership.PermittedExactlyWhen` | custom_components/ha_spark/authority.py:27-39 | either side may write only under a verified record the topology does not contradict, the integration only with its own authority exposed |
| `Ownership.RefusalNamesACause` | custom_components/ha_spark/ownership.py:123-155 | every refusal names something that is really in the way |
| `Ownership.RestartDecides` | custom_components/ha_spark/ownership.py:60-101 | every record and topology: what is verified, kept, taken back or marked for reconciliation |
| `Ownership.WithdrawnSwitchReturns` | custom_components/ha_spark/ownership.py:157-235 | a switch that begins and is aborted, or meets a reply that does not allow it, gives back exactly the integration it began from, with the old owner on record |
| `Ownership.RestartedSwitchReturns` | custom_components/ha_spark/ownership.py:85-94 | a restart over the pending record, with the topology asking for the side it came from, gives back that side, verified and on record |
| `Ownership.SwitchArrives` | custom_components/ha_spark/ownership.py:157-245 | the awaited reply ends a begun switch on its target: over a fresh authority, or with the integration's own revoked |
| `Ownership.ClaimsExactlyWhen` | custom_components/ha_spark/ownership.py:230-240 | a retired reply ends in the integration's ownership exactly over a fresh authority, or one that can be made and is saved cleanly |
| `Ownership.WithdrawsExactlyWhen` | custom_components/ha_spark/ownership.py:241-244 | an active reply gives the site back exactly when the integration's authority is revoked, already or cleanly now |
| `Ownership.ReconcileBeginsASwitch` | custom_components/ha_spark/ownership.py:197-207 | a restored topology begins the ordinary switch on a reply that would allow one, and asks until its pending record is saved |
| `Ownership.OwnershipStore.AsyncAbort` | custom_components/ha_spark/ownership.py:179-191 | a pending switch returns to the side it came from, and the answer is the reason or that even this save failed |
| `Ownership.OwnershipStore.AsyncAdvance` | custom_components/ha_spark/ownership.py:193-245 | which reply moves the owner where, with every partial failure, and what is answered when a pending switch loses its admission |
| `Handshake.StepKeepsInv` | custom_components/ha_spark/ownership.py:60-245 | the invariant of both disks, both memories and the message in flight is kept by every step of either side |
| `Handshake.MutualExclusion` | custom_components/ha_spark/authority.py:27-39 | in no reachable state are the add-on's `known` and the integration's ownership both true, across aborts, lost replies, faulted writes and crashes |
| `Handshake.MutualExclusionFromInstallation` | ha_spark/authority.py:270-276 | the same from a new integration beside any add-on disk |
| `Handshake.TwoWritersWithoutTheGuard` | ha_spark/authority.py:295-309 | a concrete run that ends with two writers when a retirement meets a stale initialising flag |
| `Handshake.SoleWriterIff` | ha_spark/authority.py:287-322 | once the integration owns, the add-on can become a second writer if and only if that flag is set |
| `Handshake.HandoverCompletes` | custom_components/ha_spark/ownership.py:157-245 | nine undisturbed steps hand a settled site over, the add-on losing permission first |
| `Handshake.FencedReplyRefusesReturn` | custom_components/ha_spark/ownership.py:123-155 | the retired peer's own reply always refuses the request to switch back |
| `Handshake.ServedKeepsFence` | ha_spark/api/server.py:1078-1096 | serving any snapshot but the owner "addon" keeps a fenced store fenced, and "retired" is only answered while it is |
| `HandshakeAnswers.ReplyReports` | ha_spark/api/contract.py:224-245 | the reply is a projection of the add-on: its files' retirement or rollback, its known state, or nothing but the failed save |
| `HandshakeAnswers.TurnedAwayExactlyWhen` | ha_spark/api/server.py:1078-1089 | a snapshot is turned away exactly where it claims a site that is not retired or asks for a side its topology contradicts |
| `HandshakeAnswers.HandoverBeginsExactlyWhen` | ha_spark/authority.py:324-345 | a pending snapshot begins a handover exactly over a settled known store with no failed save or, once fenced, over the retired store or its candidate |
| `HandshakeAnswers.ClaimIsAnswered` | ha_spark/api/server.py:1078-1155 | the reply to a claim lets the integration go on exactly when this snapshot retired the store cleanly; after a failed write it makes it withdraw |
| `HandshakeAnswers.RedeliveredClaimIsAnswered` | ha_spark/api/server.py:1078-1155 | a redelivered claim is answered the same, from the files alone |
| `HandshakeAnswers.ReturnIsAnswered` | ha_spark/api/server.py:1078-1155 | the reply to a return allows it exactly when the persisted candidate is the store, and the add-on stays without permission |
| `HandshakeAnswers.ConfirmationIsAnswered` | ha_spark/api/server.py:1096-1100 | the confirmed owner lifts the fence exactly over the candidate |
| `Handshake.CompletionIsARun` | custom_components/ha_spark/ownership.py:193-245 | a serialised ownership method is a run of the interleavable steps |
| `SettingsStore.SettingsService.CommitPair` | ha_spark/settings_service.py:607-643 | the disk after each prefix of link, link, secrets, config |
| `SettingsStore.SettingsService.Save` | ha_spark/settings_service.py:800-856 | one more revision than the one the caller saw, or the fence after an error, and no write at all while fenced or on a revision conflict |
| `SettingsStore.SettingsService.Seed` | ha_spark/settings_service.py:533-556 | the first start commits the pair before the marker |
| `SettingsStore.SettingsService.Load` | ha_spark/settings_service.py:432-500 | a whole pair is published, a mismatched one falls back to the linked previous pair, anything else is repair |
| `SettingsStore.SettingsService.RepairImport` | ha_spark/settings_service.py:729-792 | a repair import numbers above every readable revision and keeps no rollback target |
| `SettingsStore.LoadsOneWholeCommit` | ha_spark/settings_service.py:607-643 | over every run of saves, injected failures, crashes, reloads and recoveries a load yields both halves of one commit: the last acknowledged or the one attempted since |
| `SettingsStore.AcknowledgedSaveSurvives` | ha_spark/settings_service.py:800-856 | an acknowledged save is what the next start publishes |
| `SettingsStore.CompletedStartServes` | ha_spark/settings_service.py:432-556 | a start that is not cut short serves a whole commit that the next load needs no recovery for; only a disk no load accepts is left for repair |
| `SettingsStore.LoadedExactlyWhen` | ha_spark/settings_service.py:432-500 | a commit is loaded exactly from two sound halves of its revision: the current pair, or the previous one behind a current pair of two revisions |
| `SettingsStore.NoUpdateIsLost` | ha_spark/settings_service.py:800-856 | of two saves that expect the same revision the second changes nothing |
| `SettingsStore.RefusedChangesNothing` | ha_spark/settings_service.py:729-856 | a save from a stale caller or over the fence, and an import outside an unfailed repair, change nothing |
| `SettingsStore.ImportIsNewest` | ha_spark/settings_service.py:729-792 | a repair import is numbered above every revision any file still shows, and by one |
| `SettingsStore.WithoutTheFenceHalvesMix` | ha_spark/settings_service.py:800-856 | ignoring the save-failed fence, a second save can leave two commits' halves that load as one |
| `SettingsStore.WithoutTheBackupThePairIsLost` | ha_spark/settings_service.py:607-643 | without the links an interrupted swap leaves only repair |
| `SettingsStore.RepairImportNeverMixes` | ha_spark/settings_service.py:729-792 | a repair import stopped anywhere leaves repair or the whole imported commit |
| `SettingsStore.LoadsWholeOrRepairs` | ha_spark/settings_service.py:729-792 | over every run that damage from outside, repair imports and their failures may interrupt, a load yields repair or both halves of one commit, and what runs was loaded whole |
| `SettingsStore.RepairedStaysWhole` | ha_spark/settings_service.py:729-792 | after a completed repair import no run of the service needs repair again |
| `SettingsDocument.Merge` | ha_spark/settings_service.py:174-197 | the loop over an update yields the merged inputs and secrets, whatever the order of its keys, or an error |
| `SettingsDocument.MergesEachKey` | ha_spark/settings_service.py:174-197 | key by key: a secret is kept where masked, cleared or replaced; any other key is set, and removed by a null or an empty device list |
| `SettingsDocument.ImportOfExport` | ha_spark/settings_service.py:704-727 | importing an export, over any other committed inputs, restores the effective inputs, an empty hub included, and moves no secret |
| `SettingsDocument.ImportReplaces` | ha_spark/settings_service.py:712-727 | an accepted import leaves exactly what the document names and the hub it implies |
| `SettingsDocument.DocumentDecidesTheHub` | ha_spark/settings_service.py:691-702 | the document alone decides the hub: its own name, or `solis_control` exactly when it omits the hub and configures a Solis |
| `SettingsDocument.ExportNormalises` | ha_spark/settings_service.py:137-171 | normalising an export changes nothing |
| `SettingsDocument.NormalisedExactlyWhen` | ha_spark/settings_service.py:137-171 | a document is turned down exactly for another database path or, strictly, a key outside every vocabulary |
| `SettingsDocument.KeptExactlyWhen` | ha_spark/settings_service.py:137-171 | a key survives exactly when it is in the vocabulary and says something |
| `SettingsDocument.ImportedExactlyWhen` | ha_spark/settings_service.py:704-727 | an import is accepted exactly when its document is and each secret it names is a new text or an order to clear it |
| `ChargeClamp.BanksAddUpToInverters` | custom_components/ha_spark/clamp.py:60-70 | the clamp's total by banks is the connection's power by inverters |
| `ChargeClamp.AllowedIsItsPart` | custom_components/ha_spark/clamp.py:50-75 | an inverter's allowed current costs exactly its share, by requested power, of the allowance |
| `ChargeClamp.PartsAddUp` | custom_components/ha_spark/clamp.py:40-75 | the shares of a connection's inverters sum to at most its allowance |
| `ChargeClamp.BankPartsAddUp` | custom_components/ha_spark/clamp.py:40-75 | the shares of a bank's inverters sum to at most its limit |
| `ChargeClamp.ClampPassesWhatFits` | custom_components/ha_spark/clamp.py:40-75 | when the requests fit allowance and bank limit, an inverter gets its request, up to its ceiling, to within one driver step |
| `ChargeClamp.WithinPartsIsSafe` | custom_components/ha_spark/clamp.py:40-75 | if every inverter is within its share the connection is within the allowance and the bank within its limit |
| `ChargeClamp.Setpoint` | custom_components/ha_spark/topology.py:338-352 | none exactly when the driver cannot be set, else at most one step below the lesser of request and ceiling, and never above |
| `ClampedWriting.EveryPrefixIsSafe` | custom_components/ha_spark/clamp.py:115-140 | any prefix of a reductions-first plan is within bounds |
| `ClampedWriting.PlanIsSound` | custom_components/ha_spark/clamp.py:124-134 | the plan covers everything resident on the connection and each write fits its share |
| `ClampedWriting.PlanCoversExactlyWhen` | custom_components/ha_spark/clamp.py:124-134 | the plan covers what the record knows to be resident if and only if the intent's bank is the inverter's own, or the inverter carries nothing, or it is on another connection |
| `ClampedWriting.MismatchedBankOverdraws` | custom_components/ha_spark/clamp.py:115-140 | an intent naming a bank that is not the inverter's own exceeds the allowance |
| `RecordedWriting.ClampedWriter.AsyncWrite` | custom_components/ha_spark/clamp.py:111-140 | record, device and requests after a call that may stop or raise at any write, landed or not; with a record it may rely on, every state between writes keeps the connection and its banks within what they drew before or their bounds |
| `RecordedWriting.ClampedWriter.AsyncWriteLocked` | custom_components/ha_spark/clamp.py:142-148 | a re-apply keeps those bounds if and only if it does not raise or there is room beside the others, and there is when the others already fit |
| `RecordedWriting.OneWriteIsWithinExactlyWhen` | custom_components/ha_spark/clamp.py:142-148 | the same of any single write, against what the other inverters of the connection and of the bank carry |
| `RecordedWriting.CallIsSafe` | custom_components/ha_spark/clamp.py:115-140 | from a faithful record, stale or not, every state of a call is within bounds |
| `RecordedRuns.RunStaysInBounds` | custom_components/ha_spark/clamp.py:111-148 | over any sequence of calls and guard re-applies under constant allowances no state between any two writes exceeds them, as long as each call finds a faithful record and each re-apply finds room |
| `RecordedRuns.NeverExceeds` | custom_components/ha_spark/clamp.py:111-148 | from nothing written, while no raised write has landed and each re-apply finds room, a connection never exceeds a constant allowance: not after any step, nor between its writes |
| `RecordedRuns.ReapplyIsSafeExactlyWhen` | custom_components/ha_spark/clamp.py:142-148 | a re-apply keeps its connection and bank within bounds if and only if it finds room |
| `RecordedRuns.CompletedCallSettles` | custom_components/ha_spark/clamp.py:124-140 | after a call that completes over a true record every inverter of the connection carries what the requests leave it |
| `RecordedRuns.ReappliesAfterACompletedCall` | custom_components/ha_spark/guard_loop.py:576-583 | any re-applies of a connection that follow find room |
| `RecordExactness.AllowanceKeptExactlyWhenFaithful` | custom_components/ha_spark/clamp.py:111-140 | all requests at all allowances keep the bounds if and only if the record is faithful to the device, over all drivers, voltages and limits of one wiring; for the drivers of one given site only faithfulness implying the bounds is proved |
| `RecordExactness.IntentKeptExactlyWhenAccounted` | custom_components/ha_spark/clamp.py:115-140 | with a true record, all intents of one inverter naming one bank keep the bounds if and only if the intent is accounted for or nothing else is recorded on that connection, over all drivers, voltages and limits of one wiring |
| `RecordExactness.ALandedRaiseOverdraws` | custom_components/ha_spark/clamp.py:107-109 | two calls from an empty record after which a connection allowed 10 kW draws 15 |
| `RecordExactness.AReapplyAfterAStopOverdraws` | custom_components/ha_spark/guard_loop.py:576-583 | two calls, the second stopped before its peer is reduced, and a re-apply after which a connection allowed 10 kW draws 15 |
| `NativeWriting.CurrentWord` | custom_components/ha_spark/native_write.py:80-82 | the largest register word not above the current |
| `NativeWriting.FlooringKeepsOrder` | custom_components/ha_spark/native_write.py:1384-1384 | rounding to register steps never changes what is a reduction |
| `NativeWriting.NativeBoundary.Commit` | custom_components/ha_spark/native_write.py:1416-1488 | the outcome, the register and the record after one commit, at every gate, read, fault and cut |
| `NativeWriting.NativeBoundary.Settle` | custom_components/ha_spark/native_write.py:1440-1488 | the same from the resident word on |
| `NativeWriting.WrittenExactlyWhen` | custom_components/ha_spark/native_write.py:1426-1478 | a write is sent exactly past every gate, a raise trusted twice, for another word or for a zero that a second read denies |
| `NativeWriting.CommitAnswers` | custom_components/ha_spark/native_write.py:1416-1488 | each outcome is given exactly where it should be: a good one shows the target, a refusal moves nothing, nothing rises without trust at the write, and with nothing in the way the outcome is good |
| `NativeWriting.RecordIsShown` | custom_components/ha_spark/native_write.py:1416-1488 | what the record says of a device after a commit that tried to write it is what its register shows, or nothing |
| `NativeWriting.WorstIsMostSevere` | custom_components/ha_spark/native_write.py:77-77 | of a run of commits the answer is one of theirs, and the most severe |
| `NativeWriting.NativeBoundary.ReadResidents` | custom_components/ha_spark/native_write.py:1371-1383 | the first planned device that cannot be read ends the transaction, and only its record is forgotten |
| `NativeWriting.NativeBoundary.Transaction` | custom_components/ha_spark/native_write.py:1349-1402 | at every commit, verified or not, the planned devices draw at most what they drew or the allowance, and so does the whole connection where every register that is not zero has a request; no increase follows a failed reduction; a good outcome means that every requested inverter shows what the requests leave it, and with all devices settable and readable and every commit unhindered the outcome is good |
| `NativeWriting.RefusalNeverRaises` | custom_components/ha_spark/native_write.py:1384-1402 | the requested device is planned last, so after a refusal anywhere in the order it shows its old word or a lower one |
| `NativeWriting.NativeBoundary.Request` | custom_components/ha_spark/native_write.py:1304-1402 | a request refused or never attempted is taken back, and then its device is never left higher, even when a later peer was the one refused; one that was carried out stays counted; a transaction that raises restores the earlier request wherever its registers are; and a new epoch forgets the earlier ones |
| `NativeWriting.NativeBoundary.Guard` | custom_components/ha_spark/native_write.py:1225-1280 | a guard replay keeps every connection, all its inverters counted, within its allowance or what it drew, and never raises a device it may only lower; a good outcome means that every requested inverter shows its own clamp, or the lesser of that and its old current where it may only go down, and that each requested connection draws at most its allowance; it is good whenever nothing is left out, refused, unreadable or unsettable and no commit is hindered, and the first device barred otherwise decides the answer |
| `NativeWriting.ReachedDrawsAtMost` | custom_components/ha_spark/native_write.py:1266-1280 | a whole connection whose inverters show their guard targets draws no more than its allowance, and each bank no more than its limit |
| `NativeWriting.EveryCommitIsSafe` | custom_components/ha_spark/native_write.py:1384-1393 | any number of commits of an ordered plan, in register steps, is within bounds |
| `NativeWriting.StopsBeforeIncreases` | custom_components/ha_spark/native_write.py:1386-1393 | a transaction that stopped early raised nothing, or all its reductions are in place |
| `NativeRuns.RequestIsAStep` | custom_components/ha_spark/native_write.py:1304-1347 | what the boundary's request promises makes it a step of a run: some number of its commits, and a request that counts, is taken back or is restored after a raise |
| `NativeRuns.CommitsStayWhole` | custom_components/ha_spark/native_write.py:1349-1402 | at every commit the connection's total over all inverters is at most what it was or the allowance, where every register that is not zero has a request |
| `NativeRuns.NeverExceedsFromZero` | custom_components/ha_spark/native_write.py:1304-1402 | from registers at zero, over any requests of one epoch of which none raised and left its device higher, no connection exceeds a constant allowance at any commit, all inverters counted |
| `NativeExactness.WholeKeptExactlyWhenTracked` | custom_components/ha_spark/native_write.py:1349-1402 | all requests at all allowances keep the whole connection within bounds at every commit if and only if every register that is not zero has a request or is alone, over all drivers, voltages and limits of one wiring |
| `NativeExactness.TwoWaysToForget` | custom_components/ha_spark/guard_loop.py:162-170 | a new epoch, and a transaction cut short after its write, both leave a full register without a request |
| `NativeExactness.AForgottenRequestOverdraws` | custom_components/ha_spark/native_write.py:1328-1330 | the next request then takes a connection allowed 10 kW to 20 |
| `SocMonitoring.SocMonitor.Observe` | custom_components/ha_spark/soc_trust.py:136-212 | the fields are always those of the whole history, trust is earned, failures are the failed wall minutes since the last clear, and a fallback is requested exactly while a block is due and the recovery does not span the policy's time |
| `SocTrust.ReadyMeansContinuousRecovery` | custom_components/ha_spark/soc_trust.py:193-204 | whenever recovery is ready, every wall minute since its start had a strictly newer passing read and no lost validation, for at least the policy's span |
| `SocTrust.BlockLiftsOnlyAfterRecovery` | custom_components/ha_spark/soc_trust.py:204-209 | a block clears only by a counted call that completes such a recovery with no fallback active |
| `SocTrust.TrustedMeansSound` | custom_components/ha_spark/soc_trust.py:46-84 | trusted implies not blocked and an in-range reading of a fresh counted call, not future and not over age at the last counted minute |
| `SocTrust.TrustedExactlyWhen` | custom_components/ha_spark/soc_trust.py:46-84 | unblocked, a fresh counted read is trusted exactly when it passes and the energy, or a repeated candidate, accounts for it |
| `SocTrust.BaselineJumpsOnlyOnAgreement` | custom_components/ha_spark/soc_trust.py:167-183 | with power and capacity known the baseline moves beyond energy and two points only to a value two counted calls in a row read freshly |
| `SocTrust.AtMostOneFailureAMinute` | custom_components/ha_spark/soc_trust.py:124-161 | however many calls a wall minute takes, it adds at most one failure |
| `SocBlocking.BlockedExactlyWhenDue` | custom_components/ha_spark/soc_trust.py:124-212 | over every history: failures are the wall minutes with a counted failure since the last pass or lift, and the bank is blocked exactly when a fallback was active or they reached the threshold since the last lift |
| `SocBlocking.ThresholdRequestsFallback` | custom_components/ha_spark/soc_trust.py:116-134 | the threshold's number of failed minutes in a row requests the fallback, and it is requested until recovery is ready |
| `SocBlocking.ReadyExactlyWhen` | custom_components/ha_spark/soc_trust.py:193-204 | recovery is ready exactly when an unbroken run of recovering minutes up to the last counted one spans the policy's time |
| `SocBlocking.BlockLiftsExactlyWhen` | custom_components/ha_spark/soc_trust.py:193-212 | a block lifts exactly at a call that completes such a run with no fallback active |
| `SocBlocking.PassesExactlyWhen` | custom_components/ha_spark/soc_trust.py:156-192 | which counted calls pass: a fresh plausible reading, or the last good one while it is young |
| `SocEnergy.FreshCallSettles` | custom_components/ha_spark/soc_trust.py:158-177 | a fresh reading becomes the baseline exactly when it is in time, explained by the energy to two points or read twice in a row, and not stuck while energy flowed; the energy, the candidate and the power sample after it |
| `SocEnergy.OtherCallsLeave` | custom_components/ha_spark/soc_trust.py:145-187 | a call without a newer read drops the candidate and, without a power, the sample, and moves nothing else |
| `SocEnergy.EnergyIsTheIntegral` | custom_components/ha_spark/soc_trust.py:158-184 | over every history the energy is the sum of the trapezoids between neighbouring samples since the baseline last moved |
| `SocEnergy.ReasonNamesTheFault` | custom_components/ha_spark/soc_trust.py:46-84 | the reason names what is wrong with a reading, and a value is shown exactly where it is a percentage |
| `PowerHold.NativeHolds.WritePower` | custom_components/ha_spark/native_power.py:49-94 | pre-read, gate, one write and up to three verifying reads: every outcome and what it means for the switch |
| `PowerHold.OutcomeMeans` | custom_components/ha_spark/native_power.py:49-94 | applied and unchanged mean the switch is at the target, refused and unreadable that nothing was sent, and an On is sent only to a switch read as Off |
| `PowerHold.NativeHolds.Reconcile` | custom_components/ha_spark/native_holds.py:186-294 | records, disk and switch after one evaluation, at each failed save and each bus answer |
| `PowerHold.NativeHolds.Release` | custom_components/ha_spark/native_holds.py:325-372 | the same for a release |
| `PowerHold.OnlyOwnOffsAreUndone` | custom_components/ha_spark/native_holds.py:325-372 | over every run, repairs included, each On write follows one of our own verified Offs with no recorded sighting of On since |
| `PowerHold.UndoesOursExactlyWhen` | custom_components/ha_spark/native_holds.py:325-372 | each On write of every run undoes an Off of our own, with no sighting of On in between, if and only if no sighting was lost since the last Off of our own |
| `PowerHold.SavedSightingsAreBinding` | custom_components/ha_spark/native_holds.py:325-372 | with every sighting saved that holds of every On write |
| `PowerHold.ALostSightingUndoesTheOwner` | custom_components/ha_spark/native_holds.py:239-264 | a run in which a sighting could not be saved and the owner's later Off is switched On |
| `PowerHold.FoundOffIsNeverTurnedOn` | custom_components/ha_spark/native_holds.py:239-280 | a pre-existing Off, or an unconfirmed request found Off after a restart, is never turned On while one read of each evaluation answers |
| `PowerHold.FoundOffIsTurnedOnIff` | custom_components/ha_spark/native_power.py:75-94 | all else succeeding, an Off found on the switch is turned On exactly when both reads of the evaluation failed |
| `HoldRelease.WriteAnswersExactlyWhen` | custom_components/ha_spark/native_power.py:49-94 | the switch moves exactly where the write is sent and lands; each outcome exactly where it should be, and applied only with a read that shows the target |
| `HoldRelease.ReleasedExactlyWhenOver` | custom_components/ha_spark/native_holds.py:186-294 | over our own Off with nothing newly wanted, an evaluation turns the switch On and drops the records exactly when no owned record is both not over and confirmed or running on; otherwise it keeps them all and writes nothing |
| `HoldRelease.ConfirmedReleasedExactlyWhenOver` | custom_components/ha_spark/native_holds.py:230-294 | with every record confirmed that is exactly when each owned one is over |
| `HoldRelease.UnconfirmedHeldExactlyWhile` | custom_components/ha_spark/native_holds.py:230-280 | unconfirmed requests over On are written and confirmed exactly while an owned dispatch among them is not over and runs past now, and are dropped otherwise |
| `HoldRelease.UnconfirmedOverOffStands` | custom_components/ha_spark/native_holds.py:239-294 | an Off that is not ours stands, and the requests are dropped exactly when each is over |
| `HoldRelease.WantedIsHeld` | custom_components/ha_spark/native_holds.py:245-284 | what is wanted over On is recorded, written and confirmed, no other record lost |
| `HoldRelease.ReleaseEndsExactlyWhen` | custom_components/ha_spark/native_holds.py:325-372 | a release drops the records exactly when its On was applied; any other outcome keeps them, marked |
| `HoldEvidence.EvidenceDecides` | custom_components/ha_spark/native_holds.py:186-294 | after every history of evaluations the switch is Off, and there are records, exactly when the evidence says so |
| `HoldEvidence.EvHeldExactlyUntilCleared` | custom_components/ha_spark/native_holds.py:195-233 | charging alone holds the switch Off exactly until five different clear reports in a row |
| `HoldEvidence.DispatchHeldExactlyUntilItsEnd` | custom_components/ha_spark/native_holds.py:199-233 | a dispatch alone holds it exactly for its window and, through an outage of its reports, until the last end they showed |
| `EvClearance.CountsDistinctReports` | custom_components/ha_spark/native_hold.py:89-103 | the clear count is the number of different report times since clearance last started over, capped at five, and release is due exactly at five |
| `TransitionProposal.ProposalMovesTheEpoch` | custom_components/ha_spark/transitions.py:75-155 | no proposal rests on a stale epoch; each makes a new one and leaves identity, session, holds and fallback alone |
| `TransitionProposal.ProposalIsWarranted` | custom_components/ha_spark/transitions.py:108-141 | active modes need their preconditions, and only observe or manual replaces an unfinished transition |
| `TransitionProposal.GrantsAwaitVerification` | custom_components/ha_spark/transitions.py:117-146 | a newly granted active mode stays in transition until its plan, fallback or protection is verified |
| `TransitionProposal.LeavingOptimiseCancelsFirst` | custom_components/ha_spark/transitions.py:90-150 | leaving optimise keeps the mode, cancels the export first and ends the supervisions at once |
| `TransitionProposal.ModeIsTakenAtTheGrant` | custom_components/ha_spark/transitions.py:90-155 | the saved mode moves with the grant itself exactly for optimise from another mode, protect from observe and a resume into another mode, always with steps left to verify |
| `TransitionProposal.ManualAsksFor` | custom_components/ha_spark/transitions.py:101-109 | a manual session keeps the mode and remembers it; the holds are released exactly unless the owner keeps the protection, and the export is cancelled, first, exactly out of optimise |
| `TransitionProposal.ObserveAsksFor` | custom_components/ha_spark/transitions.py:119-131 | observe ends a session and asks for the release last, for the cancel where optimise or an unfinished cancel leaves one, and for the fallback out of optimise |
| `TransitionProposal.ResumeAsksFor` | custom_components/ha_spark/transitions.py:110-118 | a resume takes the mode returned to and asks for its one verification |
| `TransitionProposal.ModeAsksFor` | custom_components/ha_spark/transitions.py:85-155 | another active mode moves a session's return only, or asks for exactly the steps of its own target |
| `TransitionProposal.RefusedExactlyWhen` | custom_components/ha_spark/transitions.py:75-155 | each refusal is given exactly for its own condition |
| `TransitionExecutor.AuthorityControl.Advance` | custom_components/ha_spark/authority_control.py:108-149 | the loop over persisted steps, with arbitrary saves by others while the device works and a failed save at any point |
| `TransitionExecutor.AuthorityControl.Apply` | custom_components/ha_spark/authority_control.py:196-223 | fallback, session, hold and proposal saves, each against the published state, and the saves that replace the store |
| `TransitionExecutor.CommittedMeansVerified` | custom_components/ha_spark/authority_control.py:108-149 | over every run, repairs and handovers included, a transition is ended by its commit only after every step of the last proposal was verified in order since it was made, each while that transition stood, and once for each proposal; a mode other than optimise is on disk only if the export was verified cancelled, or the store was replaced, since optimise was last granted. The saved mode itself may move earlier, at the grant |
| `TransitionExecutor.ObserveMeansReleased` | custom_components/ha_spark/authority_control.py:141-149 | observe is committed only after the release of the holds was verified since the request |
| `TransitionExecutor.UnprotectedManualMeansReleased` | custom_components/ha_spark/authority_control.py:108-149 | over every run, while a manual session without protection is in force and no transition is left, the release of the holds was verified since it began |
| `TransitionExecutor.ManualIsCommittedLast` | custom_components/ha_spark/authority_control.py:108-149 | the transition of a manual session is committed only after the release it asks for and, out of optimise, the cancel were verified |
| `TransitionAnswers.FallbackMovesTheEpoch` | custom_components/ha_spark/authority_control.py:196-210 | a change of fallback is a change of epoch exactly when it starts or ends one, and an active one ends the supervisions |
| `TransitionAnswers.ProtectionNeedsNoGrace` | custom_components/ha_spark/authority_control.py:108-140 | what touches charging or export waits for the grace after a start, what protects does not |
| `TransitionAnswers.CommitEnds` | custom_components/ha_spark/authority_control.py:141-149 | the commit takes the transition's mode and ends a fallback exactly outside manual sessions and optimise |
| `TransitionAnswers.OvertakenRequestIsDropped` | custom_components/ha_spark/authority_control.py:69-95 | a request whose state changed while it waited is dropped |
| `TransitionAnswers.VerdictIsHeldExactlyWhen` | custom_components/ha_spark/authority_control.py:127-131 | a verdict counts exactly while the site is owned and the same store shows the same transition in the same epoch |
| `TransitionEpochs.OneEpochThroughout` | custom_components/ha_spark/authority_control.py:108-149 | for every commit of every run, one that ends a fallback included: its verdicts all carry the proposal's epoch if and only if no bump came before one of them; the disk was at that epoch before the commit if and only if no bump came at all, which is that they all carry it and none came after the last |
| `TransitionEpochs.VerdictsMaySpanEpochs` | custom_components/ha_spark/authority_control.py:127-149 | a run whose committed transition was verified under two epochs |
| `TransitionEpochs.ABumpMayComeAfterTheVerdicts` | custom_components/ha_spark/authority_control.py:141-149 | a run in which all verdicts carry the proposal's epoch and the commit is made under a later one |
| `TransitionEpochs.EpochNeverDecreases` | custom_components/ha_spark/authority_control.py:69-149 | no action, whatever interferes or fails, takes the epoch on disk back or changes the store, unless it logs that a new store replaced it |
| `TransitionEpochs.EpochsRiseWithinAStore` | custom_components/ha_spark/authority.py:169-184 | between any two points of a run with no new store in between the epoch did not go back |
| `TransitionEpochs.ARepairForgetsTheExport` | custom_components/ha_spark/authority.py:220-231 | a run in which a failed save and the repair's confirmation leave observe at epoch 1 with the export never cancelled |
| `TransitionEpochs.UnreplacedMeansCancelled` | custom_components/ha_spark/authority_control.py:108-149 | without a new store, a mode other than optimise is on disk only after the verified cancel |
| `TransitionExecutor.FailingStepStays` | custom_components/ha_spark/authority_control.py:122-140 | a failing step stays at the head and is named |
| `ExportLog.Trim` | custom_components/ha_spark/native_export_log.py:55-75 | terminates with the rows kept and the number of unacknowledged rows dropped |
| `ExportLog.ShrunkFits` | custom_components/ha_spark/native_export_log.py:39-75 | the caps hold, what is left is a subsequence, oldest rows go first, acknowledged before unacknowledged, and the count is exact |
| `ExportLog.ShrunkNoFurther` | custom_components/ha_spark/native_export_log.py:64-75 | trimming stops as soon as the caps hold |
| `ExportLog.NeighboursAreSpared` | custom_components/ha_spark/native_export_log.py:64-75 | with the total in bounds, an inverter within its cap loses no unacknowledged row |
| `ExportLog.TrimsNothingThatFits` | custom_components/ha_spark/native_export_log.py:39-75 | nothing is given up while there is room for everything |
| `ExportLog.AppendsExactlyWhen` | custom_components/ha_spark/native_export_log.py:78-97 | a kind is added once for each inverter and event |
| `ExportLog.KeptExactlyUntilItsEnd` | custom_components/ha_spark/native_export_log.py:100-131 | a row goes exactly when it is acknowledged and its event has ended; every other one stays, in its place |
| `ExportLog.Acknowledge` | custom_components/ha_spark/native_export_log.py:100-119 | the named rows are marked and those no longer needed dropped, in one pass |
| `ExportLog.LogStaysBounded` | custom_components/ha_spark/native_export_log.py:55-130 | after any appends, acknowledgements and prunes: at most 1024 rows, 64 of one inverter, unique keys, and what is left in order of what was appended |
| `ExportLog.RoundsDrain` | custom_components/ha_spark/native_export_log.py:33-36 | k rounds of offering and acknowledging leave the newest max(0, n - 8k) unacknowledged rows of every inverter |
| `Tripwire.CountIsTrailingRun` | custom_components/ha_spark/native_tripwire.py:61-83 | the counter is the trailing run of over-limit readings among fresh ones newer than all before; missing ones neither count nor reset |
| `Tripwire.TripsOnTwoInARow` | custom_components/ha_spark/native_tripwire.py:78-83 | a stop is due exactly on a fresh reading that leaves the latest two counting ones over |
| `Tripwire.WarnsOnceAGap` | custom_components/ha_spark/native_tripwire.py:68-77 | one warning a gap, on the first reading a minute or more into it |
| `Tripwire.ReadingCountsExactlyWhen` | custom_components/ha_spark/native_tripwire.py:51-58 | a reading counts from a minute old to five seconds ahead, and is over from more than 200 W above the limit |
| `Tripwire.RepairsTwoMinutesIn` | custom_components/ha_spark/native_tripwire.py:68-77 | the repair is due from two minutes into a gap, and a fresh reading ends the gap |
| `Tripwire.ExportTripwire.Observe` | custom_components/ha_spark/native_tripwire.py:121-150 | each connection's state is that of its readings since it was last unwatched, unlimited or stopped |
| `Tripwire.ExportTripwire.AfterTrip` | custom_components/ha_spark/native_tripwire.py:187-190 | a trip whose latch was saved starts the count over, one whose save failed does not |
| `StopLatch.ExportAuthority.AsyncTrip` | custom_components/ha_spark/native_tripwire.py:152-193 | latches, records and supervisions after a trip, and nothing to clear unless the latch is saved |
| `StopLatch.ExportAuthority.AsyncExpire` | custom_components/ha_spark/coordinator.py:359-383 | a latch is kept to its window's end |
| `StopLatch.ExportAuthority.AsyncConfirmObserve` | custom_components/ha_spark/authority.py:220-231 | the repair replaces the store only after a failed save or over one that does not load, and then keeps no latch |
| `StopLatch.RefusedUntilWindowEnd` | custom_components/ha_spark/native_write.py:859-874 | once latched an event has no live record on any inverter and no permitted write, through any saves of the same store and restarts, until an expiry at the window's end |
| `StopLatch.StandsExactlyUntilReplaced` | custom_components/ha_spark/authority.py:169-231 | over every run the disk keeps the identity an event was latched under if and only if the store was not replaced, and then the latch stands |
| `StopLatch.RegainsExactlyWhen` | custom_components/ha_spark/native_write.py:859-874 | without a replacement an event can be written again, by any newly supervised inverter, if and only if the store loads and every latch of the event has ended |
| `StopLatch.WritableAgainExactlyWhen` | custom_components/ha_spark/authority.py:220-231 | over every run before the window's end, if and only if the store was replaced by one that loads and holds no unended latch of the event |
| `StopLatch.ReplacementReleasesEveryEvent` | custom_components/ha_spark/authority.py:180-184 | a replacement releases every event at once if and only if its record and marker are both on disk |
| `StopLatch.ARepairForgetsTheStop` | custom_components/ha_spark/authority.py:220-231 | a run that writes a tripped event before its window's end, after a failed save and the repair |
| `StopLatch.AHandoverForgetsTheStop` | custom_components/ha_spark/authority.py:186-218 | the same after a handover out and back with every save clean |
| `StopLatch.TripRefusesTheEvent` | custom_components/ha_spark/native_tripwire.py:152-193 | a trip that reaches the disk does all this for every record it watches: refused until its window's end while the store is the same, and writable before exactly when it was replaced |
| `StopLatch.LatchEndsWithItsWindow` | custom_components/ha_spark/native_export.py:156-171 | and no longer: after the expiry a new supervision and record are live exactly when every latch of the event has ended |
| `StopAnswers.LiveExactlyWhen` | custom_components/ha_spark/native_export.py:156-188 | an inverter's last record is live exactly under all of: phase, store, epoch, end, no fallback, no latch, its own supervision, verified here |
| `StopAnswers.SupervisedExactlyWhen` | custom_components/ha_spark/native_export.py:174-180 | exactly while the last supervision of inverter and event has not ended |
| `StopAnswers.TripChangesExactly` | custom_components/ha_spark/native_tripwire.py:152-193 | a trip stops exactly the watched records and ends exactly the members' supervisions |
| `StopAnswers.ExpiryChangesExactly` | custom_components/ha_spark/coordinator.py:359-383 | an expiry ends exactly what has ended |
| `StopAnswers.NothingEndedNothingSaved` | custom_components/ha_spark/coordinator.py:359-383 | and saves nothing where nothing has |
| `StopAnswers.RecordReplacesItsOwn` | custom_components/ha_spark/native_write.py:859-874 | a saved record replaces its inverter's and no other, and verifies it unless it is a cleanup |
| `ExportClock.NextOccurrence` | custom_components/ha_spark/native_export.py:204-216 | the first instant at or after now that shows the face |
| `ExportClock.ArmedExactlyWhen` | custom_components/ha_spark/native_export.py:219-232 | before the start, arming is deferred exactly until the previous daily occurrence is over |
| `ExportClock.ClosedUntilStart` | custom_components/ha_spark/native_export.py:196-232 | once arming is allowed the face is closed at every instant until the start |
| `ExportClock.OpensExactlyForTheEvent` | custom_components/ha_spark/native_export.py:196-232 | from arming to a day after the start the face is open at exactly the instants of the event |
| `ExportClock.ArmingIsPossible` | custom_components/ha_spark/native_export.py:219-232 | every window has a non-empty time before its start in which arming is allowed to the end |
| `ExportClock.RefusedWithReason` | custom_components/ha_spark/native_export.py:219-232 | whenever arming is deferred the face would come round before the event |
| `CommandDispatch.CommandConsumer.Begin` | custom_components/ha_spark/command_dispatch.py:22-40 | the answer or the handler start, and the cache, of the part of a call before any wait |
| `CommandDispatch.CommandConsumer.Evict` | custom_components/ha_spark/command_dispatch.py:35-36 | the smallest sequences are dropped until 64 are left |
| `CommandDispatch.AtMostOnce` | custom_components/ha_spark/command_dispatch.py:22-46 | however calls overlap, handlers start once a sequence, in increasing order, only under the current epoch, and the cache holds exactly the greatest min(64, n) sequences |
| `CommandDispatch.ReplayAnswers` | custom_components/ha_spark/command_dispatch.py:27-30 | after any run a replay of a finished command returns its result while it is kept and is refused afterwards; it never runs again |
| `CommandDispatch.NewCommandStarts` | custom_components/ha_spark/command_dispatch.py:31-42 | a command newer than all before is taken: its handler starts at once under the current epoch, and under any other the refusal is kept |
| `CommandDispatch.OldCommandIsAnswered` | custom_components/ha_spark/command_dispatch.py:23-30 | any other command changes nothing and is answered from the cache or refused |
| `CommandDispatch.ResultIsKept` | custom_components/ha_spark/command_dispatch.py:38-46 | a handler's result replaces the pending one, while that is kept |
| `ReplanQueue.DaemonChannel.Submit` | ha_spark/daemon_channel.py:304-370 | queued, joined, full, repairing or not serving |
| `ReplanQueue.DaemonChannel.RequestReplan` | ha_spark/daemon_channel.py:285-299 | a settings change queues a replan unless one is pending or there is no room |
| `ReplanQueue.DaemonChannel.NextRequest` | ha_spark/daemon_channel.py:263-272 | mode requests first, then the rest in turn; a replan handed over is no longer pending |
| `ReplanQueue.DaemonChannel.Close` | ha_spark/daemon_channel.py:188-209 | every queued request is answered once, in turn, and nothing else |
| `ReplanQueue.OneReplanQueued` | ha_spark/daemon_channel.py:263-299 | at most one unstarted replan is queued and it is the pending one; nothing is handed over or answered twice; each class starts in order |
| `ReplanQueue.JoinersGetALaterRun` | ha_spark/daemon_channel.py:354-370 | every caller's reply is that of a run handed over after it asked |
| `ReplanQueue.BurstSharesOneRun` | ha_spark/daemon_channel.py:354-360 | while a queued replan has not started, every further request joins it |
| `ReplanQueue.NothingIsLeftBehind` | ha_spark/daemon_channel.py:188-209 | after closing every request is answered or with the daemon, and none is taken any more |
| `ReplanQueue.SubmitAnswersExactlyWhen` | ha_spark/daemon_channel.py:304-370 | each answer exactly where it should be; a refusal changes nothing, a join waits for the pending replan, any other request gets a ticket of its own |
| `ReplanQueue.NotifyQueuesExactlyWhen` | ha_spark/daemon_channel.py:285-299 | a change of settings queues exactly while the channel serves healthy settings, none is pending and there is room |
| `ReplanQueue.QueuesStayBounded` | ha_spark/daemon_channel.py:304-370 | over every run at most 8 mode requests and 64 others are queued |

## Left out

- Disk corruption, deleted ownership files, reordered directory syncs, and reads that differ
  from what was written; the branches that compare a fresh read-back with the write are
  modelled only as the write's own fault.
- Native writing: the guard's replay is not a step of `NativeRuns`; it keeps whole connections by
  its own contract.
- Heartbeats delivered after they were given up; see the channel assumption.
- Schema validation, secrecy masking, timestamps, requester kinds, notices and repairs.
- Cancellation of a task in mid-save; it leaves the same files as a faulted write.
- The caller that decides when the add-on's saves, retries and confirmations run.
- Both halves switching back together after an abort: only safety is claimed there.
- SettingsStore.SettingsService.Load: does not model the second commit of a load that migrates
  an old hub key, which is one more backed-up commit, nor repair before the first seed.
- SettingsStore.SettingsService.RepairImport: does not model the repair token and the operating
  mode check, which only refuse.
- Settings: validation of values, the log level, the pending-change marker, and where the seed
  comes from.
- Clamp: names that resolve to nothing (inverters and banks are positions), non-finite
  values, and the constant voltages and efficiencies, of which only the ratio matters.
- RecordedWriting.ClampedWriter.AsyncWrite: promises the bounds only for a record it may rely
  on, because they fail otherwise; see the findings.
- Native writing: entity writes, restoration, fallback and window commits, which use the
  same commit with other gates.
- Power holds: notices, degradation and back-off timers, the schedule check behind a release,
  and how sensors become reports and windows; their results are inputs.
- `dispatch_kept` and the other evidence ladders, and the export rating, bound and clock-trust
  refusals: branch tables without state.
- SoC: a power reading that is not finite is taken for none on a repeated read as well.
- Transition executor: startup stages, callbacks after a manual session begins or ends, and
  the computation of a manual deadline; holds and supervisions are opaque.
- StopLatch.ExportAuthority.AsyncTrip: does not append the "tripped" rows to the transition
  log, which never change what is live, and does not clear the device afterwards.
- ExportLog.Trim: takes at most 64 reserved rows; both callers reserve none or one, and with
  more for one inverter the code raises once the log is empty.
- Arming across a change of the zone's offset, and the clock-offset search.
- Command payloads, handlers and the wire format; requests answered without queueing.
- The supply guard's own state machine, the planner, the scheduler and the transports.
