# Verified model of the go-syrius wallet core

go-syrius is a desktop wallet for the Zenon network: a Go backend (`app/`, `internal/`) behind a
TypeScript front end (`frontend/`). This project models the parts whose mistakes cost money or data
and proves what the code is meant to guarantee.

`dafny verify dfyconfig.toml` checks everything.

## What is modelled

**Exactly-once publication** (`TxHold`, `Journal`, `Publications`, `JournalCodec`, `WalletSession`,
`Protocol*`). A dapp's transfer passes through one slot: it is prepared and held, shown, confirmed,
latched, given proof of work, checked again, written to a durable journal, broadcast, marked and
cleared. The classes `TxService`, `WcJournal` and `WalletService` carry the fields and the critical
sections. `Protocol` runs them as a transition system, one lock section per step, with any number of
prepares, one publishing thread (a confirm, a receive or a reconcile, as `publishMu` allows), lock,
unlock, account and node switches, acknowledgements, and crashes that keep only the journal and the
chains. Proof of work returns any block; a broadcast is accepted, accepted with the answer lost, or
rejected.

Exactly-once needs one rule about scheduling, stated on steps (`Disciplined`): a WalletConnect hold is
made only while no confirm that can still write is in flight and nothing was written since its lookups,
and no confirm names a hold whose prepare has not returned. Two kinds of callers are proved to keep it.
Serial ones never overlap the prepare of a request with the confirm of one: the store's own calls are
serial (`StoreCallsAreSerial`), and a first-party prepare or confirm may come at any time, because it
names the hold of its own preview and never a request's. Atomic ones run each prepare, each session
change with its callback, and each stretch from the session recheck to the journal write without
interruption. Every clause of the rule is needed: a run of `ProtocolRaces` breaks one, keeps the other
two at every step, and publishes twice, or outside the journal. The session, preview, intent,
chain and cancel theorems hold at lock granularity with no rule.

`ProtocolProgress` is the other side of safety: from every reachable state that is ready for it, an
undisturbed prepare, confirm, acknowledgement, reconcile or receive goes through, and changes exactly
what it should; and the failures that stop a confirm are listed, with what each does to the hold.

**Node connection and embedded node** (`NodeState`, `NodeLifecycle`, `NodeProgress`). Connection generations, the outer
transition lock, the inner state lock, the bounded stop with its transient and permanent flags, the
package mutex of the embedded node, and a shutdown stop that takes no transition lock.

**The WalletConnect store** (`WcStore*`). The store's actions as a machine over its await points: the
modal slot, the preparation slot, the replay queue, and every suspended action, composed with holds,
latch, journal and broadcast. Backend calls take effect in one step and return in a later one.
`WcStoreActions` holds the object and the code its actions run before their first await, proved to be
the machine's steps. Beside what must never be sent, `WcStoreTracking` proves that no request is lost,
`WcStoreOutcomes` what becomes of an approved and of a rejected one, and `WcStoreSessions` that results
never cross sessions.

**Arithmetic, language and codecs** (`Decimals`, `Format`, `FormatDisplay`, `PillarName`, `TxPager`,
`Transcript`, `StallTracker`).

## What the proofs found

- A prepare that holds on an outdated lookup, a delayed session callback, and a confirm of a hold whose
  identity is not yet attached each defeat the journal (`ProtocolRaces`). The backend does not exclude
  them by itself; the store's serial calls do. The middle one exists because `SelectAccount` moves the
  session generation and clears the hold in two separate sections.
- `NeverRefusesAHandedRequest` is false without its condition: a record can be dropped without an
  answer to its own request, in two ways. A dapp reissues a transfer under a new id, gets the result
  under that id, and the acknowledgement drops the record of the old id (`ReissueLosesTheFirstAnswer`);
  or another session asks for the same transfer, is refused, and the user clears the record by local
  recovery (`RecoveryLosesTheFirstAnswer`). When the relay delivers the old id again after a restart,
  the store finds no record. It refuses the request although its block was sent or, with both slots
  free, offers it for approval a second time (`RecoveredIsOfferedAgain`).
  `RefusesAHandedRequestIffDroppedElsewhere`, `OffersAHandedRequestIffDroppedElsewhere` and
  `OnlyThoseDrop` show that there is no third way.
- A request can also lose its answer within one process. While its replay waits in the queue, a
  duplicate from another session may put the same record up for local recovery; the queue keeps one
  entry for each record, so the entry that owed the first dapp its outcome is gone
  (`RecoveryReplacesTheReplay`). `NoRequestIsLost` lists this among the only ways to go unanswered.
- The two exact formatters differ on a negative zero: Go keeps the sign. They agree on every canonical
  signed integer (`FormattersDiffer`, `FormattersAgree`). The comment at frontend/src/lib/format.ts:1
  calls `toBase` the inverse of the exact formatter; that holds on canonical non-negative amounts, and
  a negative one does not parse.
- The comment at app/node_service.go:203-206 makes status emission atomic with the change it reports;
  `emitStatus` (app/node_service.go:383-400) takes its snapshot under the lock and emits outside it, so
  nothing is claimed about emitted status.
- A journal key written with leading zeros (`t#007`) is backfilled to the owner (t, 7) but is not the
  key that owner's own lookup reads (`KeyOfParsed`).

## Model

| member | source | states |
|---|---|---|
| TxHold.TxService.HoldTemplate | app/tx_service.go:243-255 | a hold is made only in an empty slot, under the next id, and an occupied slot is left as it is |
| TxHold.TxService.AttachWalletConnectIdentity | app/tx_service.go:458-466 | the identity goes to that very hold or nowhere |
| TxHold.TxService.LatchPublishing | app/tx_service.go:315-321 | the latch is taken only by the id that is still in the slot |
| TxHold.TxService.UnlatchPublishing | app/tx_service.go:322-326 | only the latch is reset |
| TxHold.TxService.CancelPending | app/tx_service.go:599-613 | a latched hold, and any hold while one is latched when no id is given, is refused; otherwise the named hold, or any when none is named, is gone, and every other is spared |
| TxHold.TxService.ClearPendingLocked | app/tx_service.go:617-623 | every field of the slot is emptied, counter and latch stay |
| TxHold.TxService.ClearPendingIf | app/tx_service.go:634-640 | a newer hold is never cleared |
| Journal.LookupIsComplete | app/walletconnect.go:136-205 | the key, same-session and cross-session lookups together miss no retained record of the request or its intent |
| Journal.PutKeepsUnique | app/walletconnect_journal.go:192-210 | writing a fresh request keeps at most one record for each intent |
| Publications.WcJournal.Load | app/walletconnect_journal.go:95-126 | the backfill loop gives ownerless records the owner their key spells and changes nothing else |
| Publications.WcJournal.Get | app/walletconnect_journal.go:181-190 | returns the backfilled record of the key; a failed read is not an absent record |
| Publications.WcJournal.PutRecord | app/walletconnect_journal.go:192-210 | a full journal refuses a new key, an existing key stays writable, and a refusal leaves the file unchanged |
| Publications.WcJournal.MarkRecordPublished | app/walletconnect_journal.go:212-226 | success means the record is published; its other fields and every other record are as loaded |
| Publications.WcJournal.DeletePublishedRecord | app/walletconnect_journal.go:277-293 | only a resolved record is deleted; an unresolved one is refused |
| Publications.WcJournal.FindByIntent | app/walletconnect_journal.go:235-249 | finds a record of the session and intent under another key exactly when there is one |
| Publications.WcJournal.FindByIntentAnyTopic | app/walletconnect_journal.go:256-270 | the same over all other sessions |
| Publications.WcJournal.LookupPublication | app/walletconnect.go:136-205 | nothing is reported exactly when no retained record has the key or the intent; conflict, replay and duplicate are told apart exactly; a failure is reported exactly when one of the reads it makes fails |
| Publications.BackfillOnce | app/walletconnect_journal.go:111-124 | loading twice is loading once, and never changes intent, state or block |
| Publications.LegacyRecordsKeepTheirSession | app/walletconnect_journal.go:111-124 | a record older than the ownership fields still blocks its intent, in its session and in any other |
| JournalCodec.ParseInvertsKey | app/walletconnect_journal.go:60-62 | parsing a written key returns topic and id, for topics with hash signs and every 64-bit id |
| JournalCodec.ParseRejectsOverflow | app/walletconnect_journal.go:130-140 | a number beyond 64 bits names no owner |
| JournalCodec.KeyIsInjective | app/walletconnect_journal.go:60-62 | two requests never share a journal key |
| JournalCodec.KeyOfParsed | app/walletconnect_journal.go:130-140 | a parsed key is the one written for its owner if and only if its number is canonical |
| JournalCodec.PreimageIsInjective | app/walletconnect_journal.go:67-75 | different validated intents have different hash inputs, whatever bytes the call data holds |
| WalletSession.WalletService.Unlock | app/wallet_service.go:546-578 | a new generation starts on the first account of the new keystore, or on none if its address cannot be derived |
| WalletSession.WalletService.Lock | app/wallet_service.go:618-641 | a new generation starts with no account, also when already locked |
| WalletSession.WalletService.SelectAccount | app/wallet_service.go:794-866 | a selection refused before the switch changes nothing; after it the selected account is active, in a new generation exactly when it differs, and an address that cannot be derived leaves that generation without an account and runs no callback |
| WalletSession.WalletService.SigningKeyPair | app/wallet_service.go:948-987 | the signing key is the active account's, or there is none |
| ProtocolInvariant.StepKeeps | app/tx_service.go:274-453 | every step of every thread keeps the session, connection, preview and ledger invariants |
| ProtocolSafety.ChainAgreement | app/tx_service.go:349-392 | a block accepted by a node carries that node's chain identifier, under all node switches |
| ProtocolSafety.ResolvedMeansAccepted | app/walletconnect.go:404-427 | a record is resolved, and may be dropped, only once its exact block was accepted by a node |
| ProtocolSafety.WhoHands | app/tx_service.go:425-431 | only a confirm's broadcast, a receive and a reconcile's rebroadcast hand over blocks, and a reconcile hands the recorded one |
| ProtocolSafety.BroadcastIsReviewed | app/tx_service.go:89-94 | a confirmed block has the sender, destination, token, amount and data of the preview with its hold id, signed by the displayed sender, for any proof-of-work result |
| ProtocolRequests.MovesWhatWasAsked | app/tx_service.go:338-387 | over runs at full interleaving, a block handed over for a request, by confirm or reconcile, moves exactly what its intent says, from the account it names and signed by it, whichever account was active when it was prepared |
| ProtocolRequests.RecordsSayWhatWasAsked | app/tx_service.go:405-424 | every journaled block does what its recorded intent says |
| ProtocolSafety.OneSessionPerBroadcast | app/tx_service.go:333-384 | between the start of the prepare and the check after proof of work no lock, unlock, switch or crash happened |
| ProtocolSafety.CancelKills | app/tx_service.go:599-613 | a successful cancel leaves the hold neither held nor latched |
| ProtocolSafety.CancelIsFinal | app/tx_service.go:309-326 | after a successful cancel no later step of the process broadcasts that hold |
| ProtocolSafety.CancelRefusedOnlyWhilePublishing | app/tx_service.go:602-604 | a cancel is refused only while that publication is under way |
| ProtocolSafety.HoldPublishesOnce | app/tx_service.go:302-326 | a hold id reaches a node at most once in a process |
| ProtocolSafety.ConfirmClearsOnlyItsOwn | app/tx_service.go:634-640 | no path of a confirm empties the slot of another hold, whatever cleared it meanwhile |
| ProtocolSafety.CancelSparesOthers | app/tx_service.go:605-608 | over runs, a cancel that names another hold leaves slot, counter, latch and publication as they are |
| ProtocolSafety.CancelEndsItsOwn | app/tx_service.go:599-613 | a cancel empties the slot of the hold it names, or of any when it names none, unless that hold is latched |
| ProtocolExactlyOnce.HoldsOnlyFreshRequests | app/walletconnect.go:207-271 | a prepare that makes a hold had no retained record under its key or with its intent |
| ProtocolExactlyOnce.RecordLife | app/walletconnect_journal.go:192-226 | a record keeps its block and only goes from signed to published to deleted |
| ProtocolExactlyOnce.HandedIsRecorded | app/tx_service.go:405-441 | the block handed over for a request is the one its record holds |
| ProtocolExactlyOnce.RetainedUntilAcked | app/walletconnect_journal.go:277-293 | a record stays, block unchanged, until it is acknowledged |
| ProtocolExactlyOnce.OnlyTheRecordedBlock | app/tx_service.go:401-448 | from the journal write until an acknowledgement, every block handed over for the intent is the recorded one, under the recorded request |
| ProtocolExactlyOnce.ExactlyOnce | app/tx_service.go:315-448 | from the first block handed over for an intent until an acknowledgement, every block handed over for it, under any id or session, is that block |
| ProtocolExactlyOnce.WriteAhead | app/tx_service.go:401-441 | in every state, crashes included, each block ever handed over for a request has its record, unless that record was acknowledged as published |
| ProtocolExactlyOnce.ResolvingPublishes | app/tx_service.go:441-446 | after an acceptance, or a block found on the chain, the record is published, its block and every other record unchanged |
| ProtocolExactlyOnce.AckDropsResolved | app/walletconnect_journal.go:277-293 | an acknowledgement drops a resolved record and keeps an unresolved one |
| ProtocolExactlyOnce.ResolvedCanBeAcked | app/walletconnect.go:435-437 | over runs, the first acknowledgement after a record was resolved removes it, with its block counted as acknowledged |
| ProtocolProgress.PrepareGoesThrough | app/walletconnect.go:207-271 | a request that no retained record answers is held for the active account, with its identity |
| ProtocolProgress.ConfirmGoesThrough | app/tx_service.go:274-453 | a hold of the current session and connection is published: block accepted, record resolved, slot and latch free, nothing else changed |
| ProtocolProgress.RequestGoesThrough | app/tx_service.go:274-453 | from request to acknowledgement: one block handed over and accepted, no record left, everything else as it was |
| ProtocolProgress.ReconcileGoesThrough | app/walletconnect.go:349-433 | an unresolved record on its own chain is resolved; a block found there is not sent again, an absent one is sent once, unchanged |
| ProtocolProgress.ReceiveGoesThrough | app/tx_service.go:540-586 | a receive hands one block of the active account to the connected chain |
| ProtocolProgress.RetryableKeepsTheHold | app/tx_service.go:342-398 | without a node, on another chain before the proof of work, or without consent, the hold stays for a retry |
| ProtocolProgress.FinalReleasesTheHold | app/tx_service.go:333-432 | every other failing check, build, journal write or broadcast releases the hold and hands over nothing more |
| ProtocolProgress.NothingElseStops | app/tx_service.go:302-448 | those failures and the loss of the hold before the latch are the only ones that stop a confirm |
| ProtocolProgress.WrongHoldChangesNothing | app/tx_service.go:302-321 | a confirm that names another hold than the one held, or comes too late to latch it, changes nothing |
| ProtocolProgress.CheckReadsTheActiveAccount | app/tx_service.go:333-341 | each session check stops a confirm whose reviewed sender is not the account active at its read, or whose session has passed |
| ProtocolProgress.ConsentGatesTheRebroadcast | app/walletconnect.go:404-427 | without consent a reconcile sends nothing |
| ProtocolProgress.BuildTouchesOnlyTheTemplate | app/tx_service.go:354-373 | the proof of work may rewrite the held template, but not what was approved nor another hold |
| ProtocolProgress.PreviewIsTheTemplate | app/tx_service.go:476-538 | what is displayed for a hold is what its template moves, from the account the prepare read |
| ProtocolProgress.FailedMarkKeepsTheRecord | app/tx_service.go:441-446 | a mark that fails leaves the record unresolved |
| ProtocolProgress.ConnectionOutcome | app/node_service.go:325-356 | without a connection there is no client and no chain id; a new client brings its node's chain id |
| ProtocolProgress.AbortOutcome | app/walletconnect.go:207-271 | an abandoned prepare leaves nothing behind |
| ProtocolProgress.SessionOutcome | app/wallet_service.go:546-641 | unlock, lock and a switch each open one generation on the right account, and only lock and a derivable switch owe the slot its callback |
| ProtocolSchedules.SerialCallersAreDisciplined | frontend/src/stores/walletconnect.ts:615-640 | callers that never overlap the prepare of a request with the confirm of one keep the scheduling rule, whatever first-party calls, cancels, sessions and connections do meanwhile |
| ProtocolSchedules.LatchedStaysOrMoved | app/tx_service.go:315-339 | a latched hold that left the slot has lost its session generation |
| ProtocolSchedules.AtomicSectionsAreDisciplined | app/walletconnect.go:207-271 | atomic prepares and an atomic check-to-journal stretch keep the rule, overlapping freely |
| ProtocolSchedules.ExactlyOnceInPractice | app/walletconnect.go:337-343 | with serial request calls and free first-party ones, or with atomic sections under any overlap, only one block is handed over for an intent until its record is acknowledged |
| ProtocolSchedules.WriteAheadInPractice | app/tx_service.go:401-441 | under the same schedules each block ever handed over for a request has its record, or the record was acknowledged |
| ProtocolRaces.StaleLookupDuplicates | app/walletconnect.go:217-264 | with the other two clauses kept, a hold on an outdated lookup lets one intent be signed and sent twice |
| ProtocolRaces.DelayedClearDuplicates | app/wallet_service.go:839-857 | with the other two clauses kept, a delayed session callback lets one intent be sent twice |
| ProtocolRaces.HalfAttachedIsUnjournaled | app/walletconnect.go:260-269 | with the other two clauses kept, a confirm before attachment broadcasts a request with no record |
| NodeState.NodeService.DisconnectLocked | app/node_service.go:325-356 | a teardown is a new connection intent with no client and chain id 0 |
| NodeState.NodeService.DegradeConnection | app/node_service.go:170-179 | a superseded failure touches nothing |
| NodeState.NodeService.InstallConnection | app/node_service.go:187-201 | client, url and chain id go in together, for the latest intent only; a superseded one changes nothing |
| NodeState.NodeService.BeginSwitch | app/node_service.go:453-457 | mode and connection change in one section |
| NodeState.NodeService.TakeEmbeddedHandle | app/node_service.go:615-631 | the handle disappears and the stopping flag rises together |
| NodeState.NodeService.FinishStop | app/node_service.go:637-650 | a stop that times out becomes permanent with no gap between the flags |
| NodeState.NodeService.GuardEmbeddedStart | app/node_service.go:492-509 | a refused start changes nothing; an allowed one has seen neither flag |
| EmbeddedPackage.EmbeddedNode.StartNode | internal/embeddednode/embeddednode.go:65-87 | at most one node becomes current, and a start that fails leaves none behind |
| EmbeddedPackage.EmbeddedNode.StopNode | internal/embeddednode/embeddednode.go:90-102 | stopping is idempotent and clears the guard only for its own node |
| NodeLifecycle.StepKeeps | app/node_service.go:405-536 | every section of every transition, and every stop, keeps the lifecycle invariants |
| NodeLifecycle.OneEmbeddedNode | internal/embeddednode/embeddednode.go:65-101 | at most one embedded node is live in any interleaving |
| NodeLifecycle.StartNeverBlocks | app/node_service.go:476-517 | a start is never called while a stop holds or will want the package mutex, and is never refused by the package |
| NodeLifecycle.NoStopDuringStart | app/node_service.go:615-652 | no stop is due while a start is inside the package |
| NodeLifecycle.DeleteIsSafe | app/node_service.go:759-789 | the data directory is never removed under a live node |
| NodeLifecycle.WedgeIsForever | app/node_service.go:642-650 | after a stop timed out no start and no delete happens again in the process |
| NodeLifecycle.TransitionsAreConsistent | app/node_service.go:405-468 | whenever the transition lock is free, mode, settings, handle and endpoint agree |
| NodeLifecycle.ClientIsCurrent | app/node_service.go:187-201 | an installed client is of the current generation, and no client means chain id 0 |
| NodeLifecycle.InstallReplacesNothing | app/node_service.go:119-152 | a successful install never overwrites a client |
| NodeLifecycle.OnlyTransitionsInstall | app/node_service.go:803-818 | only the holder of the transition lock installs a client |
| NodeLifecycle.ClientHasItsChain | app/node_service.go:187-201 | over runs, an installed client's chain id is the one its own dial was answered with |
| NodeLifecycle.DegradeSparesOthers | app/node_service.go:170-179 | a degrade of a superseded connection changes nothing, one of the current connection leaves no client |
| NodeProgress.RemoteGoesThrough | app/node_service.go:405-468 | switching to remote stops any embedded node and connects the remote endpoint |
| NodeProgress.EmbeddedGoesThrough | app/node_service.go:405-536 | switching to embedded leaves exactly one embedded node running, the one that ran already if there was one, and connected |
| NodeProgress.ConnectGoesThrough | app/node_service.go:803-818 | connect follows the persisted mode and endpoint |
| NodeProgress.UrlGoesThrough | app/node_service.go:567-609 | a new remote endpoint is persisted, and connected at once in remote mode only |
| NodeProgress.DisconnectGoesThrough | app/node_service.go:359-368 | a disconnect leaves no client and nothing else changed |
| NodeProgress.DeletesIffNoNode | app/node_service.go:759-789 | the data directory may go exactly when no embedded node runs or may still run |
| NodeProgress.FailedStartLeavesNoNode | app/node_service.go:518-536 | whenever the dial, a newer intent or the subscription fails a started node, it is stopped again |
| NodeProgress.FailedSubscriptionDisconnects | app/node_service.go:119-152 | a subscription that fails takes its own connection down and spares a newer one |
| NodeProgress.RefusedSwitchChangesNothing | app/node_service.go:405-440 | a switch to a wedged embedded node, or one that cannot be persisted, changes nothing |
| NodeProgress.ShutdownLaunchesTheStop | app/node_service.go:615-631 | shutdown takes the handle and launches its stop whatever a transition is doing |
| WcStoreActions.QueueStaysDistinct | frontend/src/stores/walletconnect.ts:115-120 | queueing keeps one entry for each request, the newest, and the others in order |
| WcStoreActions.EndDropsExactlyTheHit | frontend/src/stores/walletconnect.ts:1061-1063 | an ending drops exactly the entries it hits that are not for local recovery, and keeps the order of the others |
| WcStoreActions.EndingTwiceIsOnce | frontend/src/stores/walletconnect.ts:1047-1091 | the deletion and the expiry of one session, both reported, do what one of them does |
| WcStoreActions.WalletConnectStore.EnqueuePendingReplay | frontend/src/stores/walletconnect.ts:115-120 | the search and splice replace the earlier entry of the request |
| WcStoreActions.WalletConnectStore.DropEndedReplays | frontend/src/stores/walletconnect.ts:1061-1063 | the backward loop removes exactly the entries hit that are not for local recovery |
| WcStoreActions.WalletConnectStore.HandleEnded | frontend/src/stores/walletconnect.ts:1047-1091 | marks or withdraws exactly what the ended session or expired request owns, and returns the hold to cancel |
| WcStoreActions.WalletConnectStore.ClaimDelivery | frontend/src/stores/walletconnect.ts:749-754 | the marker is claimed only when both slots are free |
| WcStoreActions.WalletConnectStore.DrainPendingReplays | frontend/src/stores/walletconnect.ts:805-835 | the queue is looked at only when both slots are free, oldest entry first |
| WcStoreActions.WalletConnectStore.CancelForAccount | frontend/src/stores/walletconnect.ts:1016-1026 | lock and account change withdraw only a request still awaiting or refused, and never local recovery on lock |
| WcStoreActions.WalletConnectStore.ApproveRequest | frontend/src/stores/walletconnect.ts:838-857 | an expired request is withdrawn, any other goes to publishing with its own hold |
| WcStoreSlots.StepKeeps | frontend/src/stores/walletconnect.ts:520-837 | every step keeps slot exclusion and slot ownership |
| WcStoreSlotSafety.SlotsExclude | frontend/src/stores/walletconnect.ts:593-640 | at every await point the two slots are not both occupied, and each occupied one has exactly one suspended action that will release it |
| WcStoreSlotSafety.ModalIsNeverDisplaced | frontend/src/stores/walletconnect.ts:740-837 | a displayed request keeps its identity, record and hold until a step that is its own end |
| WcStoreSlotSafety.PreparationIsNeverDisplaced | frontend/src/stores/walletconnect.ts:712-720 | only its owner gives the preparation slot back |
| WcStoreSlotSafety.PreparationKeepsItsSlot | frontend/src/stores/walletconnect.ts:675-685 | a returning prepare always finds its own slot |
| WcStoreSlotSafety.OffersExactlyUnmarkedPrepares | frontend/src/stores/walletconnect.ts:675-699 | a request comes up for approval exactly when its prepare returns with a hold and nothing overtook it, with that hold |
| WcStoreSlotSafety.OvertakenIsNeverOffered | frontend/src/stores/walletconnect.ts:1067-1068 | a preparation overtaken by a session end, expiry, lock or account change never comes up for approval in that process |
| WcStoreSlotSafety.WithdrawsExactlyUnpublished | frontend/src/stores/walletconnect.ts:1130-1148 | those events withdraw exactly the requests not being published, answer them only where the relay still knows them, and pass their hold to a cancellation |
| WcStoreSlotSafety.StoreCallsAreSerial | frontend/src/stores/walletconnect.ts:615-643 | no two prepares or confirms are in flight together: the store's request calls are serial, as the publication protocol needs |
| WcStoreHolds.StepKeeps | frontend/src/stores/walletconnect.ts:838-883 | every step keeps hold ownership |
| WcStoreHolds.NoHoldIsOrphaned | frontend/src/stores/walletconnect.ts:675-700 | every live WalletConnect hold belongs to the displayed request or to one prepare or cancellation in flight |
| WcStoreHolds.CancellationsTakeEffect | frontend/src/stores/walletconnect.ts:866-872 | a cancellation the store sends is never refused by the publishing latch |
| WcStoreAnswers.StepKeeps | frontend/src/stores/walletconnect.ts:520-1148 | every step keeps each request either claimed or owed a result, never both, and never claimed twice |
| WcStoreAnswerSafety.NeverRefusesARetainedRequest | frontend/src/stores/walletconnect.ts:521-583 | an error is sent only for a request with no journal record and no result |
| WcStoreAnswerSafety.RefusesAHandedRequestIffDroppedElsewhere | frontend/src/stores/walletconnect.ts:755-763 | a request whose block was handed over is refused exactly when its record was dropped by another request's acknowledgement or by local recovery |
| WcStoreAnswerSafety.OffersAHandedRequestIffDroppedElsewhere | frontend/src/stores/walletconnect.ts:615-699 | a request comes up for approval only without record and result, and is one whose block was handed over already exactly when its record was dropped in one of those two ways |
| WcStoreAnswerSafety.AnswersNeverConflict | frontend/src/stores/walletconnect.ts:838-907 | no request gets both an error and a result, and no refused request has a record, restarts included |
| WcStoreAnswerSafety.OnlyThoseDrop | frontend/src/stores/walletconnect.ts:895-898 | a record is dropped without an answer exactly by an acknowledgement under another request or by a local recovery |
| WcStoreAnswerSafety.NeverRefusesAHandedRequest | frontend/src/stores/walletconnect.ts:856-883 | while every record is dropped by its own request's answer, no handed request is ever refused |
| WcStoreReissue.ReissueLosesTheFirstAnswer | frontend/src/stores/walletconnect.ts:755-763 | a run in which a handed request is refused after a reissue and a restart |
| WcStoreReissue.RecoveryLosesTheFirstAnswer | frontend/src/stores/walletconnect.ts:963-983 | a run in which a handed request is refused after a local recovery, no request having been answered |
| WcStoreReissue.RecoveredIsOfferedAgain | frontend/src/stores/walletconnect.ts:615-699 | a run in which a handed request is offered for approval again after a local recovery |
| WcStoreReissue.RecoveryReplacesTheReplay | frontend/src/stores/walletconnect.ts:115-120 | a run in which a queued replay makes way for the local recovery of its record, and its request is answered by nothing in the process |
| WcStoreTracking.NoRequestIsLost | frontend/src/stores/walletconnect.ts:444-1148 | whenever the store is at rest, every request delivered in the process was answered, unless one of the listed things happened to it |
| WcStoreTracking.StepTracks | frontend/src/stores/walletconnect.ts:444-1148 | one step loses a request only for a listed reason |
| WcStoreOutcomes.UndisturbedRequestIsSettled | frontend/src/stores/walletconnect.ts:838-907 | a request approved at a free store gets one block to a node and one result to its dapp, and leaves no record, hold, slot or action |
| WcStoreOutcomes.RejectedIsAnswered | frontend/src/stores/walletconnect.ts:996-1005 | over runs, a rejected request leaves the screen, its hold is cancelled, and its error is on its way until it is sent, unless that response itself fails |
| WcStoreOutcomes.LockedOutIsAnswered | frontend/src/stores/walletconnect.ts:1006-1026 | the same for a request withdrawn by a lock or an account change |
| WcStoreOutcomes.DrainTakesTheOldest | frontend/src/stores/walletconnect.ts:805-835 | with both slots free the oldest entry is delivered or shown, otherwise nothing moves |
| WcStoreOutcomes.FreedSlotsAreDrained | frontend/src/stores/walletconnect.ts:712-720 | the steps that look at the queue never leave both slots free with an entry waiting |
| WcStoreOutcomes.ConfirmReplyIsShown | frontend/src/stores/walletconnect.ts:856-883 | a published, unknown or refused confirm is shown as such, and a refusal after the session ended is withdrawn |
| WcStoreOutcomes.EndedIsNotInformed | frontend/src/stores/walletconnect.ts:884-907 | a result is sent only while the session of its request has not ended |
| WcStoreOutcomes.EndingQuells | frontend/src/stores/walletconnect.ts:1047-1066 | the end of its session leaves of a request being looked up only a lookup that knows so |
| WcStoreOutcomes.ResponseIsShown | frontend/src/stores/walletconnect.ts:884-907 | a response that did not arrive is shown for another try, one that did is acknowledged |
| WcStoreOutcomes.FollowUpsNameTheirRecord | frontend/src/stores/walletconnect.ts:908-983 | a retried delivery sends the displayed result once more, and a reconcile or recovery names the record behind the request |
| WcStoreOutcomes.SettledIsNotSentAgain | app/walletconnect.go:349-403 | a settled record answers a reconcile and nothing is sent |
| WcStoreOutcomes.ReconcileSettles | app/walletconnect.go:404-433 | a reconcile settles a record exactly when the node answered and the mark was written |
| WcStoreOutcomes.BroadcastSettles | app/tx_service.go:425-448 | a broadcast ends latch and hold, and settles the record exactly when the node answered and the mark was written |
| WcStoreOutcomes.CancellationOutcome | app/tx_service.go:599-613 | a cancellation empties the slot of the hold it names unless that hold is latched, and changes nothing else |
| WcStoreOutcomes.RefusalUnlatches | app/tx_service.go:309-341 | a confirm refused before its journal write leaves no latch and no record |
| WcStoreOutcomes.EndedLookupIsNeverOffered | frontend/src/stores/walletconnect.ts:1047-1066 | a request whose session ended while it was looked up or waited for another try never comes up for approval in the process |
| WcStoreSessions.ResultsStayInTheirSession | app/walletconnect.go:156-200 | over runs, every result, displayed outcome and queued replay is of a record of the dapp's own session |
| Decimals.ValueOfDecimal | app/walletconnect_journal.go:60-62 | the number a numeral spells is the one it was written from |
| Decimals.CanonicalIsDecimal | frontend/src/lib/format.ts:14-14 | a canonical numeral is the one its number is written as |
| Format.AmountRule | frontend/src/lib/format.ts:9-9 | the regular expression accepts exactly digits with at most one dot and at least one digit |
| Format.ToBaseIsFloor | frontend/src/lib/format.ts:7-15 | for every string, accepted or not: the result is the floor of the value times the power of ten |
| Format.RoundTrip | frontend/src/lib/format.ts:20-27 | parsing the exact form gives back every canonical amount at every number of decimals |
| Format.ExactIsNormal | frontend/src/lib/format.ts:20-27 | the exact form has a canonical integer part, no trailing zero and no empty fraction; a negative one is the same behind a sign |
| Format.TrimRemovesSpaces | frontend/src/lib/format.ts:8-8 | trimming removes white space at both ends and nothing else |
| Format.PadLeft | app/nom_service.go:28-30 | the padding loop is the padding of the TypeScript formatter |
| Format.FormatBaseAmount | app/nom_service.go:22-41 | writes what the TypeScript formatter does if and only if the text is not a minus sign and at most one more zeros than decimals |
| Format.FormattersDiffer | frontend/src/lib/format.ts:20-27 | the two exact formatters differ exactly on a minus sign followed by at most one more zeros than decimals, over all strings |
| Format.FormattersAgree | app/nom_service.go:22-41 | the two formatters write the same for every canonical signed integer |
| FormatDisplay.CommasGroupByThrees | frontend/src/lib/format.ts:61-61 | replacing with the regular expression, lookaheads as written, groups digits by threes from the right |
| FormatDisplay.CommaRule | frontend/src/lib/format.ts:61-61 | on digits the regular expression holds exactly where a positive multiple of three digits remains, except in front |
| FormatDisplay.UngroupedIsSame | frontend/src/lib/format.ts:61-61 | grouping only adds commas |
| FormatDisplay.DisplayDenotesRounded | frontend/src/lib/format.ts:42-64 | what is displayed, commas removed, is the rounded amount |
| FormatDisplay.DisplayBands | frontend/src/lib/format.ts:42-64 | no decimals from 100 up, at most two below, and the number shown is the exact one rounded half up to them |
| FormatDisplay.DisplayIsNormal | frontend/src/lib/format.ts:58-63 | what is displayed is in normal form, with only its integer part grouped |
| FormatDisplay.NegativeDisplay | frontend/src/lib/format.ts:63-63 | a negative amount is displayed like its absolute value behind a sign, unless that is displayed as zero |
| FormatDisplay.RoundsHalfUp | frontend/src/lib/format.ts:50-56 | the displayed amount is within half a unit of the exact one and exact halves go up |
| FormatDisplay.DisplayIsMonotone | frontend/src/lib/format.ts:45-46 | a larger amount is never displayed smaller, also across the change of precision at 100 |
| PillarName.GoRule | app/nom_service.go:485-485 | the nested rule accepts exactly alphanumeric ends with single separators between |
| PillarName.TsRule | frontend/src/lib/format.ts:73-73 | the linear rule accepts exactly the same shape |
| PillarName.SameLanguage | app/nom_service.go:489-497 | for every string the two validators agree, each with its own notion of length |
| TxPager.FetchedIsPrefix | frontend/src/stores/txs.ts:41-43 | what was fetched, filtered, is a prefix of the filtered ledger |
| TxPager.RowsAreTheBlocks | app/node_service.go:1143-1157 | the unfiltered rows are one for each value moved, out or in, and one for each receive block |
| TxPager.FilterKeepsTransfers | frontend/src/stores/txs.ts:18-26 | the filter keeps a row exactly when it carries value and is no pairing row, as often as it occurs |
| TxPager.TransfersAreTheMoves | app/node_service.go:1143-1157 | the transfers shown are exactly the values moved by the blocks |
| TxPager.PagesCover | frontend/src/stores/txs.ts:44-46 | paging through shows every row once, in order |
| TxPager.TxsStore.EnsuredShowsTruth | frontend/src/stores/txs.ts:44-49 | an ensured view shows the slice and the flag of the filtered first thousand blocks |
| TxPager.TxsStore.ShowsPrefixOfTruth | frontend/src/stores/txs.ts:44-46 | after any failure no row is shown out of place |
| TxPager.TxsStore.FetchChunk | frontend/src/stores/txs.ts:52-66 | one chunk is appended, or fetching is over |
| TxPager.TxsStore.Ensure | frontend/src/stores/txs.ts:69-73 | the loop ends by the chunk cap, with an ensured view |
| TxPager.TxsStore.Load | frontend/src/stores/txs.ts:77-99 | the reload ends by the chunk cap, with an ensured view |
| TxPager.TxsStore.Goto | frontend/src/stores/txs.ts:100-103 | shows the page asked for, or the first for a negative one |
| TxPager.TxsStore.SetTransfersOnly | frontend/src/stores/txs.ts:104-108 | shows the first page under the new filter |
| TxPager.TxsStore.ResetPage | frontend/src/stores/txs.ts:109-111 | the first page needs no fetch |
| Transcript.DeltaMicros | frontend/src/lib/wallet-entropy.ts:40-45 | the nearest microsecond, zero when time runs backwards, clamped to 32 bits |
| Transcript.ClampInt32 | frontend/src/lib/wallet-entropy.ts:34-37 | nearest integer in range, halves up, clamped at both ends |
| Transcript.IntRoundTrip | frontend/src/lib/wallet-entropy.ts:94-96 | two's-complement coordinates read back as written |
| Transcript.RecordLayout | frontend/src/lib/wallet-entropy.ts:91-98 | kind, time and the two coordinates stand in their fields, little-endian, a negative coordinate as two's complement |
| Transcript.PointerIsScaled | frontend/src/lib/wallet-entropy.ts:72-81 | each coordinate is recorded in 1024ths, rounded and clamped, in its own field |
| Transcript.LastPointerIs | frontend/src/lib/wallet-entropy.ts:72-81 | spacing is measured from the last accepted pointer or touch sample |
| Transcript.CountIsCardinality | frontend/src/lib/wallet-entropy.ts:101-104 | the two counters count the samples of their kinds |
| Transcript.DecodeAllEncodeAll | frontend/src/lib/wallet-entropy.ts:91-98 | a transcript decodes to exactly its samples, in order |
| Transcript.EarlierBytesStay | frontend/src/lib/wallet-entropy.ts:91-98 | later events never change an earlier byte |
| Transcript.AcceptedPointersAreSpaced | frontend/src/lib/wallet-entropy.ts:72-81 | accepted pointer samples are at least 16 ms apart, for every event sequence |
| Transcript.InteractionCollector.Append | frontend/src/lib/wallet-entropy.ts:91-98 | thirteen bytes are written after the others |
| Transcript.InteractionCollector.AddPointerSample | frontend/src/lib/wallet-entropy.ts:72-81 | accepts exactly when not frozen, not full and spaced, and records the clamped sample |
| Transcript.InteractionCollector.AddKeySample | frontend/src/lib/wallet-entropy.ts:83-89 | accepts exactly when not frozen, not full and not a repeat |
| Transcript.InteractionCollector.Freeze | frontend/src/lib/wallet-entropy.ts:101-104 | returns bytes that decode to the accepted samples, and the estimate is their weighted count |
| Transcript.InteractionCollector.Reset | frontend/src/lib/wallet-entropy.ts:107-115 | the buffer is wiped and collection starts anew |
| StallTracker.StalledIffSinceRestart | app/node_sync.go:84-98 | measuring from the last restart decides whether an unbroken unsynced run at one height spans the window |
| StallTracker.Tracker.Observe | app/node_sync.go:84-98 | reports a stall exactly when the history's definition holds |
| StallTracker.Tracker.ObserveError | app/node_sync.go:107-116 | reports a stall exactly when the current error run spans the window and there is a baseline |
| StallTracker.RunStartsAtFirst | app/node_sync.go:107-116 | on a clock past the zero time an error run begins at its first failure |

## Left out

- ProtocolExactlyOnce.ExactlyOnce: holds under the scheduling rule above, because the backend alone does not order a prepare against a confirm; the races show each clause is needed.
- ProtocolExactlyOnce.OnlyTheRecordedBlock: holds under the same rule, for the same reason.
- ProtocolExactlyOnce.WriteAhead: holds under the same rule; without it a second confirm of one request may overwrite its record, or broadcast with none.
- ProtocolExactlyOnce.RecordLife: holds in states reached under the same rule, for the same reason.
- ProtocolExactlyOnce.RetainedUntilAcked: holds in runs under the same rule, for the same reason.
- ProtocolExactlyOnce.HoldsOnlyFreshRequests: holds under the same rule; a lookup that is outdated by the time of the hold is the race above.
- ProtocolExactlyOnce.ResolvedCanBeAcked: holds in runs under the same rule, for the same reason.
- ProtocolRequests.MovesWhatWasAsked: speaks of effect and signer, not of the chain; the gate that compares the settings with mainnet is not modelled.
- ProtocolSchedules.ExactlyOnceInPractice: the serial schedule assumes that a confirm names an id some prepare returned, and that only the store confirms a request's hold.
- Format.FormatBaseAmount: compared with the TypeScript formatter on ASCII text only, because Go measures other text in bytes and JavaScript in UTF-16 units.
- WcStoreAnswerSafety.NeverRefusesAHandedRequest: the condition on acknowledgements is the exact one; the code does not meet the property without it.
- StallTracker.Tracker.Observe: the definition is claimed for clocks that do not run backwards; the state after each sample is claimed for all.
- The relay is assumed to deliver a request at most once in a process, and only while no response to it reached its dapp, with the same content each time.
- In the store's machine a prepare is one backend step, and so is a lookup; the lock-level interleavings are those of the protocol model. The conflict outcome cannot occur there, because a redelivered id carries the same content.
- A receive block is assumed to keep the chain identifier of its template, which app/tx_service.go checks before the proof of work and not after it.
- Network, RPC, signing, proof of work, key derivation, JSON, base64, bech32 and contract decoding are nondeterministic results or identities; the intent hash is assumed free of collisions.
- A journal write either happens or does not; temporary files, fsync and rename are not modelled.
- First-party transfers use the same hold but have no journal, so no exactly-once claim is made for them.
- The order of the journal's map iteration, and which of several matching records a lookup returns.
- Emitted status events, the height field, the sync poller and the momentum loop of a connection.
- That the replay queue is always drained: the finally block of deliverReplayPublished releases its marker without looking at the queue.
- Proposals, pairing, znn_info and the other WalletConnect methods, and timers as durations.
- formatAmount and toBase on inputs other than digits with an optional sign and surrounding space; BigInt also reads hexadecimal and throws elsewhere.
- The request epoch that discards another account's chunks, and overlapping actions of the pager.
- Event times that are not finite, and rounding of floating-point times in the transcript.
- Governance, staking, token and accelerator templates, contacts, settings, prices, views and the wallet manifest.
