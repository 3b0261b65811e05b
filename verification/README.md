# OffPay client models

OffPay is a Solana wallet client. This project models the parts of it whose correctness depends on the order of events: the payroll
store that must not pay a row twice, the live activity stream with its reconnect protocol and transaction caches, the settlement
scheduler, the epoch and last-writer protocols around it (network switching, app lock, network preference), three bounded caches
and the chart arithmetic. `dafny verify dfyconfig.toml` checks everything.

Asynchronous code is modelled as atomic steps between awaits. A promise settling, a timer firing, a callback or an app-state change
is one event, and the environment chooses which comes next; results are for every sequence of events. Each stateful source file
appears twice: as a step function on values, about which the properties are proved, and as a class whose methods overwrite fields
as the source does and are proved equal to the step function.

| file | models |
|---|---|
| `PayrollTypes`, `Payroll`, `PayrollEffects`, `PayrollSafety`, `PayrollStore` | rows and runs, the store as a state machine, what each action does field by field, double-pay safety over whole histories, the store as a class |
| `ActivityStream`, `ActivityStreamEffects`, `ActivityStreamProgress`, `ActivityStreamHook` | the reconnect protocol (epochs, abort controllers, timers, pause and resume), its delays and what each outcome leaves, its pending flag and its progress, and the effect as a class |
| `TransactionPages`, `PageContents`, `LiveTokenPages`, `SeenSignatures`, `RawAmount` | transaction upsert against warm rebuild, what both show, the guard of the live upsert, the set of shown signatures, the amount printer |
| `Settlement`, `SettlementEffects`, `SettlementSafety`, `SettlementOverlap`, `SettlementBackoff`, `SettlementEngine` | the backoff scheduler with its status record over mounted and unmounted instances of the hook, what each event does, what each instance keeps, when they overlap, the promised retry, and both as classes |
| `NetworkTransition`, `AppLock`, `Preferences` | switch suspension, the lock write queue, network preference recovery |
| `ClaimedUtxos`, `RecurringIdentities` | claimed-index lists, recurring idempotency keys |
| `ChartSampling`, `TokenPriceHistory`, `HoldingsInputs`, `HoldingsValueChange` | downsampling, the token chart, the choice of holdings, the portfolio chart |
| `Ordering`, `Common` | the stable sort behind every bounded cache, options and text trimming |

Some properties hold only under a condition. Each of these comes with its exact condition or an input that breaks it:

- A payroll row that a replacement list drops and lists again is claimed again, and so are two rows under one id
  (`DroppedRowIsClaimedAgain`, `DuplicateIdIsClaimedTwice`). `LostExactlyWhenDropped` says which actions drop a row.
- The stream's `openStreamPending` flag does not keep opens apart: the `finally` of an older open clears it
  (`PendingFlagIsNotEnough`). `PendingFlagExactlyWhen` says for every run when it is right.
- A live stream effect can end up waiting for nothing: an aborted open resolves after its reconnect timer fired, or a late `onOpen`
  of an aborted open stops the polling (`AbortedOpenPutsToSleep`, `LateOpenPutsToSleep`). `DormantExactlyWhen` says for every run
  when that is so. The next foreground check ends it.
- The live stream trims native mints and the warm rebuild does not, so under white space they disagree on what belongs to a token
  (`WarmMatchIsLiveMatch`, `LiveUpsertAgreesExactlyWhen`).
- The lock write queue orders its own writes only. Unlocking, passcode setup, wallet hydration and the wallet reset write the flag
  past it (components/features/security/PasscodeScreen.tsx:233,
  components/features/security-setup/LightweightPasscodeSetupScreen.tsx:370, store/walletStore.ts:130,
  lib/wallet/security-settings.ts:152-158), in either order with a queued write (`UnlockOverwritesTheLock`,
  `LockOverwritesTheUnlock`). `StoredExactlyWhen` and `LastWriterWins` carry the exact condition.
- The live upsert keeps a token page's continuation cursor, which a rebuild recomputes. `CursorAgreesExactlyWhen` says when they
  agree, told from the page before the upsert; `CursorSkipsARecord` is a page on which they do not.
- Settlement runs overlap across instances of the hook. Locking the app unmounts it (app/_layout.tsx:489-497,
  providers/AppProviders.tsx:28-50) and unlocking mounts a new one with fresh refs, while an old run may still be awaited:
  `RemountOverlaps` and `RemountDoublesTimers` are such histories, `RunsOverlapExactlyWhen` and `TimersDoubleExactlyWhen` the
  exact conditions, and `OverlapNeedsUnmountInRun` the guarantee for all other histories.
- An unmount in backoff leaves a status record that promises a retry no timer will make (`UnmountLosesTheRetry`,
  `BackoffHasItsTimer`).
- A suspension during a network switch moves the version under it. The switch's own finish then never clears the flag
  (`SuspendedSwitchStays`; components/features/home/HomeScreenContent.tsx:480 suspends,
  components/features/settings/PreferencesModal.tsx:176-182 finishes), and an epoch no begin returned would
  (`ForeignEpochClearsExactlyWhen`).
- A failed mirror read is taken for an absent mirror, and hydration may then overwrite the newer copy
  (`FailedReadIsHarmlessExactlyWhen`, `FailedReadLosesTheNetworkExactlyWhen`). Hydration also decides on the copy seen before the
  read (`ChoiceDuringTheRead`). Losing a network needs a catalogue with two selectable networks. Today's has one
  (constants/networks.ts:24-35), so there no network can be lost (`ShippedCatalogueHasOneNetwork`), only timestamps.
- A recurring key is returned without being stored when 20 live entries last at least as long
  (`CreationIsStoredExactlyWhen`); `TieDropsTheNewKey` is a full record created in one instant.

## Model

| member | source | states |
|---|---|---|
| PayrollTypes.SendableIffNoEvidence | lib/payroll/payroll-types.ts:143-158 | a row may be sent if and only if it carries no durable evidence and is ready or failed, which is what the retry rule of the store relies on |
| PayrollTypes.AttemptIdIsNotBlank | lib/payroll/payroll-types.ts:161-167 | every attempt id that is produced counts as evidence; a blank key throws instead |
| PayrollTypes.ReconcileKeepsEvidence | store/payrollStore.ts:122-148 | recovery of a row keeps all evidence, and an orphaned `sending` row becomes a failed row locked by a non-blank attempt id and the reconciliation flag |
| PayrollTypes.PreserveKeepsEvidence | store/payrollStore.ts:97-120 | whatever a replacement row says, evidence of the existing row is kept unchanged |
| PayrollTypes.ClaimKeepsEvidence | store/payrollStore.ts:266-286 | a claim overwrites no evidence, and a row it changes carries an attempt id afterwards |
| PayrollTypes.EvidenceComposes | store/payrollStore.ts:86-95 | keeping evidence is transitive and implies that a row with evidence stays a row with evidence |
| Payroll.PruneKeepsNewest | store/payrollStore.ts:77-84 | pruning leaves min(count, 25) runs, unchanged, and drops none updated later than one it keeps, for any property order |
| Payroll.PruneDropsExactly | store/payrollStore.ts:77-84 | a run is dropped if and only if 25 or more come ahead of it, newer or equally old and listed earlier |
| Payroll.StepKeepsShape | store/payrollStore.ts:156-410 | every action keeps equal key sets of runs and row lists, each run under its own id and at most 25 runs, for all row lists |
| Payroll.StepKeepsValid | store/payrollStore.ts:156-410 | lists with distinct row ids keep row ids distinct as well |
| PayrollSafety.ReachableHasShape | store/payrollStore.ts:156-410 | the shape holds after any number of actions, also when lists repeat ids |
| PayrollSafety.ReachableIsValid | store/payrollStore.ts:156-410 | with distinct ids in the lists handed in, they stay distinct after any number of actions |
| PayrollSafety.StepProtects | store/payrollStore.ts:156-401 | one action of any kind maps each stored row to rows of the same id that keep its evidence |
| PayrollSafety.EvidenceIsWriteOnce | store/payrollStore.ts:86-148 | over any history, while a row stays stored, a signature, tx id or init signature never changes, an attempt id changes at most by trimming, and the reconciliation flag never clears |
| PayrollSafety.GrantedExactlyWhen | store/payrollStore.ts:260-293 | a claim is granted if and only if the row is routed, ready, without evidence, the attempt id is that of its own key and the start time is safe and positive; it throws if and only if such a row has a blank key |
| PayrollSafety.GrantedClaim | store/payrollStore.ts:260-293 | a granted claim leaves a stored `sending` row that carries the attempt id |
| PayrollSafety.AttemptedRowIsRefused | store/payrollStore.ts:260-293 | once a stored row has carried an attempt id, every later claim on it is refused |
| PayrollSafety.NoSecondClaim | store/payrollStore.ts:238-401 | two granted claims on one row id imply that some state between them did not store the row |
| PayrollSafety.RunLostExactlyWhenDropped | store/payrollStore.ts:156-170 | an action loses a run if and only if it deletes the run or creates one that pushes it out of the 25 newest |
| PayrollSafety.LostExactlyWhenDropped | store/payrollStore.ts:156-190 | an action loses a stored row if and only if it does that to its run or hands in a list for the run without the row |
| PayrollSafety.ClaimedAtMostOnce | store/payrollStore.ts:156-401 | with no such action in between, a claim is granted at most once per run and row, under arbitrary patches, skips, retries, replacements and crash recovery |
| PayrollSafety.StaysStored | store/payrollStore.ts:156-410 | a row that no action drops is stored in every state in between |
| PayrollSafety.DroppedRowIsClaimedAgain | store/payrollStore.ts:171-190 | a concrete history of four actions that claims a dropped and relisted row twice |
| PayrollSafety.DuplicateIdIsClaimedTwice | store/payrollStore.ts:266-293 | two rows under one id with different keys are both claimed |
| PayrollSafety.LaunchRecovers | store/payrollStore.ts:367-401 | launch recovery leaves no running or confirming run, locks every orphaned row of those runs and changes nothing else |
| PayrollSafety.LaunchIsIdempotent | store/payrollStore.ts:367-401 | a second recovery changes nothing |
| PayrollSafety.RecoveredRowStaysLocked | store/payrollStore.ts:327-401 | a recovered row is never again reset by a retry nor taken by any claim while it stays stored |
| PayrollEffects.UpdateRowPatches | store/payrollStore.ts:238-258 | a patch leaves every other row and every run as it was; the named row takes each given field and keeps each other one, apart from the artifacts, the attempt and the reconciliation flag it already carried |
| PayrollEffects.SignatureIsRecorded | store/payrollStore.ts:245-255 | a status and signature handed in are stored on a row that had no signature |
| PayrollEffects.PaidRowSurvivesLaunch | store/payrollStore.ts:122-148 | a payment recorded before the client was killed is still recorded after launch recovery |
| PayrollEffects.ClaimWrites | store/payrollStore.ts:260-293 | a granted claim writes status, attempt id and start time on exactly the ready, routed rows without evidence under that key, and any other claim writes nothing |
| PayrollEffects.SkipToggles | store/payrollStore.ts:295-325 | exactly ready rows become skipped and skipped ones ready, and then the routes of the run are dirty |
| PayrollEffects.RetryResets | store/payrollStore.ts:327-349 | exactly the failed rows without evidence are ready again, without their error |
| PayrollEffects.RecoveryLocks | store/payrollStore.ts:122-148 | exactly the rows interrupted while sending are failed, under their own attempt id or one made from key or id |
| PayrollEffects.LaunchPausesAndLocks | store/payrollStore.ts:367-401 | running and confirming runs are paused with such rows locked, and nothing else changes |
| PayrollEffects.ReplaceStores | store/payrollStore.ts:171-190 | the list handed in is stored, a row whose stored namesake carries evidence keeping what was paid, and the run names its rows |
| PayrollEffects.CreateStores | store/payrollStore.ts:156-170 | the run and its list are stored under its id unless pruned at once; up to 25 runs nothing is pruned |
| PayrollEffects.SettersWrite | store/payrollStore.ts:192-236 | each setter of a run writes its field and the time, and on an unknown run nothing |
| PayrollStore.PruneRunsMethod | store/payrollStore.ts:77-84 | the loop that rebuilds the record keeps exactly the pruned runs |
| PayrollStore.Store.CreateRun | store/payrollStore.ts:156-170 | deleting row lists key by key leaves the rows of exactly the kept runs |
| PayrollStore.Store.ReplaceRows | store/payrollStore.ts:171-190 | the new state is that of the replacement step; an unknown run changes nothing |
| PayrollStore.Store.UpdateRow | store/payrollStore.ts:238-258 | the new state is that of the patch step, and every row of the run is patched or left as it was |
| PayrollStore.Store.ClaimRowSubmission | store/payrollStore.ts:260-293 | the returned flag and the exception are those of the claim outcome, and the rows change only when it is granted |
| PayrollStore.Store.SetRowSkipped | store/payrollStore.ts:295-325 | returns true exactly when a row was toggled, and then marks the routes dirty |
| PayrollStore.Store.PrepareRetryFailedRows | store/payrollStore.ts:327-349 | returns the number of failed rows without evidence, and resets exactly those |
| PayrollStore.Store.ReconcileInterruptedRows | store/payrollStore.ts:351-365 | returns the number of orphaned rows, and recovers exactly those |
| PayrollStore.Store.ReconcileOrphanedRunsOnLaunch | store/payrollStore.ts:367-401 | returns the number of live runs, whatever the property order, and performs launch recovery |
| PayrollStore.Store.DeleteRun | store/payrollStore.ts:403-410 | removes the run and its rows together |
| ActivityStream.ConnectionSafety | hooks/useOffpayWalletActivityStream.ts:605-656 | on every run of events at most one awaited open is un-aborted, none is while a connection is attached, and a supported connection is attached if and only if it was not closed |
| ActivityStream.StepSafe | hooks/useOffpayWalletActivityStream.ts:717-909 | every event keeps the abort discipline: the un-aborted open is the one the controller ref names, and an attached connection belongs to that controller |
| ActivityStream.CloseConnectionSafe | hooks/useOffpayWalletActivityStream.ts:605-615 | closing detaches both refs even when abort or close calls the stream's handlers before returning |
| ActivityStream.PendingFlagIsNotEnough | hooks/useOffpayWalletActivityStream.ts:834-839 | a reachable state in which the pending flag is false while a live open is awaited |
| ActivityStreamProgress.PendingFlagExactlyWhen | hooks/useOffpayWalletActivityStream.ts:745-839 | on every run of events, while the latest open is awaited and not stale, the pending flag is false if and only if an older open of its generation resolved or rejected since it started |
| ActivityStreamProgress.DormantExactlyWhen | hooks/useOffpayWalletActivityStream.ts:636-909 | on every run of events, a live effect has no connection, polling, armed reconnect timer or awaited open if and only if an event put it to sleep and none since has roused it; only a resume, an aborted open that resolves with nothing else left, and an `onOpen` with nothing else left do so |
| ActivityStreamProgress.StepFlows | hooks/useOffpayWalletActivityStream.ts:717-909 | every event keeps a pending reconnect tied to its timer or to polling, a paused effect detached, and the flag tied to the latest open |
| ActivityStreamProgress.AbortedOpenPutsToSleep | hooks/useOffpayWalletActivityStream.ts:820-830 | mount, stream error, reconnect timer, resolution of the aborted open: a live effect that waits for nothing without ever having paused |
| ActivityStreamProgress.LateOpenPutsToSleep | hooks/useOffpayWalletActivityStream.ts:760-771 | after a rate limit a late `onOpen` of the aborted open stops the polling and shows the stream as connected |
| ActivityStream.ReconnectBudget | hooks/useOffpayWalletActivityStream.ts:717-743 | between resets at most four delays are recorded, 1, 2, 4 and 8 seconds, and no reconnect timer is pending after the fifth failure |
| ActivityStreamEffects.PendingDelay | hooks/useOffpayWalletActivityStream.ts:717-743 | on every run a pending reconnect timer waits 1000 * 2^(a-1) ms for a failures since the last reset, the delay recorded last; one left over from before a reset waits at most 8 s, so the 30 s cap never applies |
| ActivityStreamEffects.AddedDelayIsPending | hooks/useOffpayWalletActivityStream.ts:737-742 | on every run an event that records a delay leaves exactly that delay in the timer, or nothing armed |
| ActivityStreamEffects.FailureArms | hooks/useOffpayWalletActivityStream.ts:717-743 | on every run an acted-on failure after a others detaches everything and arms 1000 * 2^a ms for a < 4; the fifth polls |
| ActivityStreamEffects.RateLimitRefreshes | hooks/useOffpayWalletActivityStream.ts:720-725 | a rate-limited failure polls and refreshes after the delay asked for, held between 1 s and 60 s, and does not reconnect |
| ActivityStreamEffects.FailureAfterOpenWaitsASecond | hooks/useOffpayWalletActivityStream.ts:760-771 | after an accepted `onOpen` the next failure waits one second, however many came before |
| ActivityStreamEffects.AcceptedOpenResets | hooks/useOffpayWalletActivityStream.ts:760-771 | an accepted `onOpen` clears the failure count and the pending reconnect and stops the polling |
| ActivityStreamEffects.ResolutionDecides | hooks/useOffpayWalletActivityStream.ts:820-839 | an open that resolves live is attached if supported, and otherwise the client polls |
| ActivityStreamEffects.OpeningShows | hooks/useOffpayWalletActivityStream.ts:745-758 | on every run an event that starts an open starts one, awaited under its own controller and shown as connecting, or reconnecting while failures are counted |
| ActivityStreamEffects.ControllerIsInUse | hooks/useOffpayWalletActivityStream.ts:834-839 | on every run the controller ref names an awaited open or the attached connection |
| ActivityStream.DelayIsUncapped | hooks/useOffpayWalletActivityStream.ts:93-95 | the delay of attempt a in 1..4 is 1000 * 2^(a-1), below the cap |
| ActivityStream.StepBudget | hooks/useOffpayWalletActivityStream.ts:717-853 | every event keeps the count of armed timers tied to the attempt counter |
| ActivityStream.FifthFailureFallsBack | hooks/useOffpayWalletActivityStream.ts:727-735 | on every run of events, the event that counts the fifth failure leaves fallback polling on |
| ActivityStream.FifthFailureBlocks | hooks/useOffpayWalletActivityStream.ts:717-853 | on every run of events, from the fifth failure to the next reset nothing is opened, no reconnect timer is armed or pending and the count stays |
| ActivityStreamHook.WalletActivityStream.StopWithFallback | hooks/useOffpayWalletActivityStream.ts:701-715 | polls once, arms a refresh only for a positive delay, and nothing while cancelled or paused |
| ActivityStreamHook.WalletActivityStream.CloseConnection | hooks/useOffpayWalletActivityStream.ts:605-615 | the ref is cleared before the abort and the close, which may re-enter |
| ActivityStreamHook.WalletActivityStream.ScheduleReconnect | hooks/useOffpayWalletActivityStream.ts:717-743 | equals the step whose timer and delays are fixed by `ActivityStreamEffects.FailureArms`, the counter being read after the re-entrant close |
| ActivityStreamHook.WalletActivityStream.OpenStream | hooks/useOffpayWalletActivityStream.ts:745-758 | aborts the previous request before the new controller replaces it |
| ActivityStreamHook.WalletActivityStream.Settle | hooks/useOffpayWalletActivityStream.ts:834-839 | clears the controller ref only if it still names this open, and the pending flag of its own generation |
| ActivityStreamHook.WalletActivityStream.Resolved | hooks/useOffpayWalletActivityStream.ts:820-839 | attaches a connection only if its open is neither stale nor aborted and closes it otherwise |
| ActivityStreamHook.WalletActivityStream.Rejected | hooks/useOffpayWalletActivityStream.ts:832-839 | a stale rejection schedules nothing |
| ActivityStreamHook.WalletActivityStream.OnOpen | hooks/useOffpayWalletActivityStream.ts:760-771 | a live `onOpen` resets the failure count and stops polling |
| ActivityStreamHook.WalletActivityStream.PauseStream | hooks/useOffpayWalletActivityStream.ts:636-648 | equals the pause step: a new epoch, no timers, no connection |
| ActivityStreamHook.WalletActivityStream.ReconnectIfDormant | hooks/useOffpayWalletActivityStream.ts:842-853 | opens only without a connection and without a pending open |
| ActivityStreamHook.WalletActivityStream.RetryTimerFires | hooks/useOffpayWalletActivityStream.ts:739-742 | a fired reconnect timer releases the reconnect flag and opens |
| ActivityStreamHook.WalletActivityStream.Cleanup | hooks/useOffpayWalletActivityStream.ts:899-909 | equals the cleanup step: cancelled, no timers, nothing attached |
| ActivityStreamHook.WalletActivityStream.Mount | hooks/useOffpayWalletActivityStream.ts:404-461 | a new effect starts from closed refs and fresh closure variables |
| TransactionPages.UpsertTransactionPage | hooks/useOffpayWalletActivityStream.ts:268-317 | the first page holds the newest `limit` records of the page with the incoming one merged in; later pages and page params are unchanged |
| TransactionPages.BuildWarmTokenTransactionsPage | hooks/useOffpayWalletTokenTransactions.ts:108-161 | the nested loops compute the warm page of the wallet history, or nothing if no record matches |
| PageContents.UpsertShows | hooks/useOffpayWalletActivityStream.ts:287-300 | on any page the upsert shows, newest first, the newest of: the last record of every other signature, and the incoming one with the display it lacks taken from the record it replaces |
| PageContents.WarmPageShows | hooks/useOffpayWalletTokenTransactions.ts:108-161 | the warm page shows, newest first, the newest of the first matching record of every signature, with the cursor of its last row when cut; there is none exactly when nothing matches |
| PageContents.LastShownCursor | hooks/useOffpayWalletTokenTransactions.ts:122-125 | over several pages the cursor is that of the last page of this wallet and network |
| PageContents.NewestFetchIsLatest | hooks/useOffpayWalletTokenTransactions.ts:119-124 | the fetch time is the latest of those pages |
| PageContents.ViewsOfNext | hooks/useOffpayWalletTokenTransactions.ts:143-145 | the display list holds the displays of the records that have one, in order |
| PageContents.NativeNamesAgree | hooks/useOffpayWalletTokenTransactions.ts:89-106 | the three names of the native mint are interchangeable in the query and on the record |
| TransactionPages.MostRecentIsStrictWeak | hooks/useOffpayWalletActivityStream.ts:258-266 | on any strict total order of signatures the comparator is consistent |
| TransactionPages.SortedStaysInCacheOrder | hooks/useOffpayWalletTokenTransactions.ts:134-139 | a sorted and cut page is newest first with distinct signatures |
| TransactionPages.PutAllIsDistinct | hooks/useOffpayWalletActivityStream.ts:287-291 | filling the map from a page with repeats leaves each signature once and loses none |
| TransactionPages.UpsertFreshIsInsert | hooks/useOffpayWalletActivityStream.ts:287-300 | on a page in cache order, upserting a fresh record is one bounded insertion |
| TransactionPages.CollectPagesAround | hooks/useOffpayWalletTokenTransactions.ts:122-132 | adding a fresh matching record anywhere in the history adds exactly that record to what is collected |
| TransactionPages.UpsertAgreesWithRebuild | hooks/useOffpayWalletTokenTransactions.ts:108-161 | upserting a fresh matching transaction into the warm page gives the transaction list of the page rebuilt with it, for every limit of at least 1 |
| TransactionPages.CursorAgreesExactlyWhen | hooks/useOffpayWalletTokenTransactions.ts:146-150 | told from the page before: while the history is shorter than the page, the kept cursor is the rebuilt one; once it overflows, exactly when the record does not precede the last one shown, and otherwise it names the record pushed off; on a history that fills the page, exactly when the source's cursor names the record that comes to be last |
| TransactionPages.CursorSkipsARecord | hooks/useOffpayWalletTokenTransactions.ts:146-150 | a page of one row on which the upsert goes on after a record it no longer shows |
| LiveTokenPages.WarmMatchIsLiveMatch | hooks/useOffpayWalletActivityStream.ts:211-233 | what the warm rebuild matches the live guard matches too, and the exact padded mints on which they differ |
| LiveTokenPages.LiveNamesAgree | hooks/useOffpayWalletActivityStream.ts:211-233 | to the live guard native names are interchangeable, white space around them included |
| LiveTokenPages.PaddedNameIsLiveOnly | hooks/useOffpayWalletActivityStream.ts:211-218 | a record the live guard takes and the warm matcher does not |
| LiveTokenPages.CollectPagesWithout | hooks/useOffpayWalletTokenTransactions.ts:122-132 | a record that the warm matcher refuses is not collected, wherever it stands in the history |
| LiveTokenPages.LiveUpsertAgreesExactlyWhen | hooks/useOffpayWalletActivityStream.ts:501-516 | the guarded live upsert of any fresh record leaves the list a rebuild with it shows, if and only if the guard refuses it, the warm matcher takes it too, or it is too old for the page |
| TransactionPages.FreshUpsertsCommute | hooks/useOffpayWalletActivityStream.ts:268-317 | upserts of two fresh signatures commute, whatever the page looked like |
| Ordering.RankIsPosition | store/payrollStore.ts:77-84 | the stable sort behind every bounded list puts each element at its rank, so the cut is known element by element |
| SeenSignatures.Scope.RememberSeenSignature | hooks/useOffpayWalletActivityStream.ts:81-91 | the bounded set stays the last 200 signatures let through, and a signature is let through exactly when it is not among them |
| SeenSignatures.ShownAgainOnlyAfterTheLimit | hooks/useOffpayWalletActivityStream.ts:81-91 | a signature is shown again only after at least 200 others, the set holds none twice, and every event's signature is shown at least once |
| RawAmount.PrintsExactly | hooks/useOffpayWalletActivityStream.ts:117-126 | the printed decimal, read back independently, denotes rawAmount / 10^decimals and is canonical |
| RawAmount.PrintsOnlyNumerals | hooks/useOffpayWalletActivityStream.ts:118-119 | the answer is null if and only if the text is no numeral; negative decimals throw |
| RawAmount.PrintsAlikeIffEqual | hooks/useOffpayWalletActivityStream.ts:117-126 | at the same decimals two numerals print alike if and only if they are the same integer |
| RawAmount.ReprintsCanonical | hooks/useOffpayWalletActivityStream.ts:117-126 | every canonical decimal that fits is the print of the integer it denotes |
| RawAmount.CanonicalIsUnique | hooks/useOffpayWalletActivityStream.ts:122-125 | two canonical decimals denoting one number are the same text |
| SettlementSafety.StepKeepsInv | hooks/useSettlementEngine.ts:280-531 | every event, unmounts and remounts included, keeps each instance's refs true to the runs and timers it has pending, and leaves alone those of the others |
| SettlementSafety.SchedulerSafety | hooks/useSettlementEngine.ts:339-531 | on every run of events each instance has at most one settlement run in flight and at most one retry timer live, never both, and its wait is min(1000 * 2^n, 60000) for n timer firings since its last clean or empty run |
| SettlementEffects.InvalidationEndsTheRun | hooks/useSettlementEngine.ts:484-528 | with no upload, payment or cleanup failed and no payment pending the wait is a second again and nothing is armed; otherwise the record is in backoff, a timer due at now plus the wait is live and the wait stays |
| SettlementEffects.RestIsRetried | hooks/useSettlementEngine.ts:506-511 | what is left failed or pending is taken up again: once the wait is over the timer starts the next run where the context still allows one |
| SettlementEffects.FailureEndsTheRun | hooks/useSettlementEngine.ts:514-528 | a run that rejects anywhere arms a retry too, with the counts at zero |
| SettlementEffects.StatsDecide | hooks/useSettlementEngine.ts:367-379 | an empty queue ends the run with an idle record, any other is shown as running with its count |
| SettlementEffects.WorkIsRecorded | store/settlementEngineStore.ts:85-96 | the result is recorded with its time, as an error exactly when a payment or cleanup failed |
| SettlementEffects.TriggerStarts | hooks/useSettlementEngine.ts:339-365 | a trigger starts a run of the mounted instance exactly when it is enabled for a known wallet, idle, and neither before the retry moment nor manual; starting cancels its timer |
| SettlementEffects.FiringDoubles | hooks/useSettlementEngine.ts:506-511 | a live due timer doubles the wait up to a minute and starts a run where the context allows; any other firing is inert |
| SettlementEffects.ContextReaches | hooks/useSettlementEngine.ts:280-296 | losing the gate cancels the timer and idles the record |
| SettlementEffects.UnmountAndMount | hooks/useSettlementEngine.ts:274-305 | unmounting cancels the timer alone; a mount starts idle with a wait of a second |
| SettlementSafety.FiringRestarts | hooks/useSettlementEngine.ts:506-510 | a due timer starts a run of its instance whenever the context it last saw allows one, mounted or not |
| SettlementSafety.WaitDoubles | hooks/useSettlementEngine.ts:506-510 | doubling with a cap is the closed form of the wait |
| SettlementOverlap.RunsOverlapExactlyWhen | hooks/useSettlementEngine.ts:274-305 | without another unmount, two runs can come to be in flight together if and only if an unmounted instance still has a run in flight or a live timer whose context lets it start one |
| SettlementOverlap.TimersDoubleExactlyWhen | hooks/useSettlementEngine.ts:298-305 | without another unmount, two timers can come to be live together if and only if an unmounted instance still has a run in flight or a live timer |
| SettlementOverlap.OverlapNeedsUnmountInRun | hooks/useSettlementEngine.ts:298-305 | in a history that never unmounts the hook during a run, the whole engine has at most one run and one timer, and an unmounted instance has neither |
| SettlementOverlap.UnmountInRunLeavesIt | hooks/useSettlementEngine.ts:298-305 | right after an unmount during a run that run is left behind, which is the condition for an overlap |
| SettlementOverlap.RemountOverlaps | hooks/useSettlementEngine.ts:274-278 | mount, launch, unmount, mount, launch: two runs in flight |
| SettlementOverlap.RemountDoublesTimers | hooks/useSettlementEngine.ts:514-525 | when both of these runs fail, two timers are live |
| SettlementBackoff.ArmedTimerWaits | hooks/useSettlementEngine.ts:499-525 | a newly armed timer is due after its instance's current wait, and the status record names that moment |
| SettlementBackoff.OnlyArmingArms | hooks/useSettlementEngine.ts:484-528 | no event but the two that arm a retry adds a timer or turns the record to backoff |
| SettlementBackoff.BackoffFollowed | hooks/useSettlementEngine.ts:339-531 | from the arming of the latest retry on, its timer stays live until it is due, its mounted instance runs again, or the hook is unmounted |
| SettlementBackoff.BackoffHasItsTimer | hooks/useSettlementEngine.ts:298-305 | with the record in backoff, its moment still to come and the mounted instance idle, the timer armed with the record is live if and only if its instance was already unmounted then or no unmount came since |
| SettlementBackoff.OnlyManualStartsEarly | hooks/useSettlementEngine.ts:56-67 | before the retry moment only a manual trigger starts a run, unless an unmounted instance has a timer live |
| SettlementBackoff.UnmountLosesTheRetry | hooks/useSettlementEngine.ts:298-305 | four events after which the record promises a retry without a timer |
| SettlementEngine.EngineStore.SetIdle | store/settlementEngineStore.ts:66-74 | every field is overwritten except the last run time |
| SettlementEngine.EngineStore.SetRunning | store/settlementEngineStore.ts:76-83 | keeps the counts of the last run apart from the queued one |
| SettlementEngine.EngineStore.SetResult | store/settlementEngineStore.ts:85-96 | the record is in error exactly when a settlement or a cleanup failed |
| SettlementEngine.EngineStore.SetBackoff | store/settlementEngineStore.ts:98-106 | the retry moment and the cause are recorded, the last run time kept |
| SettlementEngine.Hook.constructor | hooks/useSettlementEngine.ts:274-296 | a new instance has fresh refs whatever the others have pending, and idles the record when it may not run |
| SettlementEngine.Hook.RunSettlement | hooks/useSettlementEngine.ts:339-365 | a refused trigger changes nothing; an accepted one clears the instance's timer before the first await |
| SettlementEngine.Hook.ArmRetry | hooks/useSettlementEngine.ts:514-528 | the record, the timer and the end of the run are those of the arming step; other instances' runs and timers are untouched |
| SettlementEngine.Hook.StatsArrive | hooks/useSettlementEngine.ts:367-379 | an empty queue ends the run and resets the wait |
| SettlementEngine.Hook.WorkCompletes | hooks/useSettlementEngine.ts:472-484 | the result is recorded before the queries are invalidated |
| SettlementEngine.Hook.Invalidated | hooks/useSettlementEngine.ts:484-528 | with all counts zero the wait is a second and nothing is armed; otherwise a timer due at now plus the wait is live and the wait stays |
| SettlementEngine.Hook.Fails | hooks/useSettlementEngine.ts:514-528 | a rejected call anywhere in the run arms a retry and ends the run |
| SettlementEngine.Hook.TimerFires | hooks/useSettlementEngine.ts:506-510 | a timer that is live and due, and no other, doubles the wait and triggers |
| SettlementEngine.Hook.ContextChanges | hooks/useSettlementEngine.ts:280-296 | disabling clears the instance's timer together with the record |
| SettlementEngine.Hook.Unmount | hooks/useSettlementEngine.ts:298-305 | clears the timer, keeps the refs, the record and a run in flight |
| NetworkTransition.SuspensionHasItsRelease | store/offpayNetworkTransitionStore.ts:74-138 | token and version stay equal, and access is suspended if and only if a release is pending, which is the latest scheduled and not cancelled |
| NetworkTransition.SuspendedExactlySince | store/offpayNetworkTransitionStore.ts:74-111 | over every history access is suspended if and only if the latest suspend or begin was followed by no clear and its release has not fired |
| NetworkTransition.SuspendingSuspends | store/offpayNetworkTransitionStore.ts:74-138 | right after every suspend and every begin access is suspended, a new uncancelled release of the new version is pending, and a begin also switches |
| NetworkTransition.OnlyPendingTaskReleases | store/offpayNetworkTransitionStore.ts:87-99 | a firing releases if and only if its task is the pending one; stale, cancelled or repeated firings change nothing |
| NetworkTransition.SwitchFollowed | store/offpayNetworkTransitionStore.ts:113-146 | the version still equals a begin's epoch if and only if nothing superseded that begin |
| NetworkTransition.FinishClearsExactly | store/offpayNetworkTransitionStore.ts:140-146 | finishing with a begin's epoch clears the flag if and only if no begin, suspend or clear followed it and it was not finished already |
| NetworkTransition.SwitchingIsALiveBegin | store/offpayNetworkTransitionStore.ts:69-147 | on every history the version counts the begins, suspends and clears, and the flag is set if and only if some begin was neither cleared nor finished |
| NetworkTransition.ForeignEpochClearsExactlyWhen | store/offpayNetworkTransitionStore.ts:140-146 | an epoch no begin returned clears the flag if and only if a begin is live and the last superseding event is a suspend that moved the version to that epoch |
| NetworkTransition.ForeignEpochClears | store/offpayNetworkTransitionStore.ts:140-146 | the shortest such history |
| NetworkTransition.SuspendedSwitchStays | store/offpayNetworkTransitionStore.ts:74-100 | after a suspend during a switch, finishes with epochs that begins returned never clear the flag; it stays until the next begin or clear |
| NetworkTransition.TransitionStore.Suspend | store/offpayNetworkTransitionStore.ts:74-100 | access is suspended and a release that closes over the new token and version is scheduled |
| NetworkTransition.TransitionStore.Clear | store/offpayNetworkTransitionStore.ts:102-111 | the class reaches the clear step's state |
| NetworkTransition.TransitionStore.Begin | store/offpayNetworkTransitionStore.ts:113-138 | access is suspended for the switch with a release scheduled, and the new version is returned as the epoch |
| NetworkTransition.TransitionStore.Finish | store/offpayNetworkTransitionStore.ts:140-146 | the class reaches the finish step's state |
| NetworkTransition.TransitionStore.Fire | store/offpayNetworkTransitionStore.ts:127-135 | the class reaches the release step's state for any scheduled task |
| AppLock.WritesAreSerial | hooks/useAppLockState.ts:76-89 | at most one queued write is in flight, and queued writes start in request order |
| AppLock.OnlyLatestStarts | hooks/useAppLockState.ts:78-81 | only the latest request of the moment starts a write, so a superseded one never does |
| AppLock.RequestIsChained | hooks/useAppLockState.ts:71-78 | a request is chained last under the next id and writes nothing yet |
| AppLock.TurnComesAfterSettling | hooks/useAppLockState.ts:76-89 | a queued request acts exactly once every earlier one has settled, rejected ones included: the last starts its write, an earlier one is superseded |
| AppLock.CompletionSettles | hooks/useAppLockState.ts:81-89 | success and rejection both settle the request and change nothing else |
| AppLock.LandingsInOrder | hooks/useAppLockState.ts:76-89 | queued writes reach the store in request order, each at most once |
| AppLock.StoredExactlyWhen | lib/wallet/security-settings.ts:261-264 | on every run, the stored flag is that of the last queued write to land if and only if no direct write landed after it, or the last one that did wrote the same flag |
| AppLock.TrueMeansStored | hooks/useAppLockState.ts:81-83 | a request resolves true if and only if its write succeeded with no later request made; its flag is then stored if and only if no direct write has overwritten it since it landed |
| AppLock.LastWriterWins | hooks/useAppLockState.ts:71-92 | when the queue has drained, the last request was not superseded, and if its write succeeded its flag is the stored one if and only if no direct write has overwritten it since it landed |
| AppLock.UnlockOverwritesTheLock | components/features/security/PasscodeScreen.tsx:218-235 | a drained queue whose request resolved true, and an unlock after it: the store holds the other flag |
| AppLock.LockOverwritesTheUnlock | components/features/security/PasscodeScreen.tsx:218-235 | an unlock and a queued lock in flight together; the lock lands last and is stored |
| AppLock.LockWriter.WriteWalletLocked | hooks/useAppLockState.ts:71-91 | enqueues behind every earlier request with a new mutation id |
| AppLock.LockWriter.TakeTurn | hooks/useAppLockState.ts:78-81 | acts only when the predecessor has settled |
| AppLock.LockWriter.Land | lib/wallet/security-settings.ts:261-264 | only a write in flight reaches the store, and once |
| AppLock.LockWriter.Complete | hooks/useAppLockState.ts:81-89 | a rejected write settles the request too, whether or not it reached the store |
| AppLock.LockWriter.LandDirectly | components/features/security/PasscodeScreen.tsx:233 | a direct write reaches the store whatever the queue is doing |
| Preferences.MirrorRoundTrip | store/preferencesStore.ts:100-120 | a copy survives printing and parsing if and only if its network is selectable and its timestamp positive |
| Preferences.HydrationKeepsTheNewer | store/preferencesStore.ts:230-284 | with a readable mirror the store ends with the newer valid copy, normalised, the mirror winning ties, and with a writable one both copies do |
| Preferences.HydrationIsStable | store/preferencesStore.ts:230-284 | a second hydration changes nothing under any clock |
| Preferences.LostMirrorWriteIsRepaired | store/preferencesStore.ts:265-283 | a lost mirror write is made good by the next hydration |
| Preferences.FailedReadIsHarmlessExactlyWhen | store/preferencesStore.ts:122-128 | with a failed read the result is the newer copy if and only if the mirror held nothing that beats the store copy |
| Preferences.FailedReadLosesTheNetworkExactlyWhen | store/preferencesStore.ts:235-252 | a failed read changes the network hydration ends on if and only if the mirror holds a valid copy at least as new as the store's and naming another network |
| Preferences.FailedReadLosesAChoice | store/preferencesStore.ts:235-252 | on every catalogue with two selectable networks, a newer choice in the mirror is overwritten after one failed read |
| Preferences.ShippedCatalogueHasOneNetwork | constants/networks.ts:24-51 | with the default as the only selectable network, every hydration and every choice ends on it, whatever fails |
| Preferences.ChoiceDuringTheRead | store/preferencesStore.ts:230-284 | a choice made while the read is awaited, from a stamped or never stamped copy, survives if and only if the read returned it, or the old copies agreed, or nothing was read and the old copy made presentable is the choice |
| Preferences.ChoiceIsStored | store/preferencesStore.ts:176-197 | choosing a selectable network stores it and queues it for the mirror under a later stamp, choosing the current one does nothing, and an unselectable one counts as the default |
| Preferences.StampIsAhead | store/preferencesStore.ts:80-82 | the stamp is the clock, or one past the previous stamp where the clock is not ahead |
| Preferences.RunKeepsInv | store/preferencesStore.ts:80-82 | under any clock and any failing writes, timestamps strictly increase and the mirror holds what it held at launch or one of the copies since |
| Preferences.MirrorNeverGoesBack | store/preferencesStore.ts:130-137 | however mirror writes fail, the mirror never goes back to an older copy |
| Preferences.HydrationLeavesMirrorBehind | store/preferencesStore.ts:230-284 | a hydration whose read or write worked leaves no mirror that beats the store, even if the mirror is missing or garbage |
| Preferences.KillRecoversTheLater | store/preferencesStore.ts:176-197 | from any launch, whatever the mirror held: whichever store copy and mirror survive a kill, hydration recovers the later of the two, or the untouched mirror of the launch if it still beats the store |
| Preferences.KillRecoversTheChoice | store/preferencesStore.ts:176-197 | when either of its writes survived, the chosen network is recovered if and only if the mirror is not the untouched one of the launch with a copy that beats it, even if the store blob opens empty or stale |
| Preferences.NotAheadBeatsNothing | store/preferencesStore.ts:230-284 | a mirror that did not beat the store at launch never does later, so after every launch that could read or write it nothing is lost |
| Preferences.PreferencesStore.SetNetwork | store/preferencesStore.ts:176-197 | choosing the current network changes nothing; any other choice gets a later timestamp and a queued mirror write |
| Preferences.PreferencesStore.SettleMirrorWrite | store/preferencesStore.ts:130-137 | queued writes settle in order, and a failed one leaves the mirror |
| Preferences.PreferencesStore.HydrateCriticalPreferencesFallback | store/preferencesStore.ts:230-284 | the two persisted copies become those of the hydration function |
| ClaimedUtxos.ListIsTheLargest | store/umbraPrivacyStore.ts:112-144 | after any marks and clears, each wallet's list is exactly the 256 largest valid indices marked since its last clear, strictly descending |
| ClaimedUtxos.MergeKeepsLargest | store/umbraPrivacyStore.ts:121-123 | merging into a truncated list gives what merging into the untruncated one would |
| ClaimedUtxos.IndexIsTheInteger | store/umbraPrivacyStore.ts:56-68 | an index is taken as n exactly when it is the safe integer n as a number, a big integer or decimal digits |
| ClaimedUtxos.NotationsAgree | store/umbraPrivacyStore.ts:56-68 | the three notations of an index are one index |
| ClaimedUtxos.ValidIndicesExactly | store/umbraPrivacyStore.ts:114-116 | marking takes exactly the indices that some raw value denotes |
| ClaimedUtxos.LargestIsUnique | store/umbraPrivacyStore.ts:121-123 | the list is determined by the set of indices |
| ClaimedUtxos.OrderDoesNotMatter | store/umbraPrivacyStore.ts:112-136 | histories that marked the same indices show the same list |
| ClaimedUtxos.KeysAreDistinct | store/umbraPrivacyStore.ts:51-52 | two wallets share a key only if they are the same wallet on the same network |
| ClaimedUtxos.PrivacyStore.MarkUtxosClaimed | store/umbraPrivacyStore.ts:112-136 | the early return on an equal list skips only writes that would change nothing |
| ClaimedUtxos.PrivacyStore.ClearClaimedUtxos | store/umbraPrivacyStore.ts:137-144 | removes the wallet's list and no other |
| RecurringIdentities.NextKeepsValid | store/advancedSwapStore.ts:74-122 | the record never exceeds 20 entries, one per fingerprint, and a creation leaves only unexpired ones |
| RecurringIdentities.RunKeepsValid | store/advancedSwapStore.ts:74-122 | the same over any sequence of calls, clears and wallet resets |
| RecurringIdentities.LiveKeeps | store/advancedSwapStore.ts:74-84 | an unexpired entry with fewer than 20 others lasting at least as long is kept |
| RecurringIdentities.ReturnsUnexpiredOrNew | store/advancedSwapStore.ts:86-109 | a call returns a stored key of its fingerprint only unexpired, and otherwise the new key with 24 hours to live |
| RecurringIdentities.CallLeavesUnexpired | store/advancedSwapStore.ts:86-109 | whether it reuses or creates, a call leaves only unexpired entries |
| RecurringIdentities.CreationIsStoredExactlyWhen | store/advancedSwapStore.ts:102-108 | a created identity is stored if and only if fewer than 20 live entries last at least as long; its key is returned either way |
| RecurringIdentities.AdvancingClockHasNoRivals | store/advancedSwapStore.ts:86-109 | with a clock ahead of every earlier creation there are none such |
| RecurringIdentities.KeyIsStable | store/advancedSwapStore.ts:86-109 | under any clock, a stored key that is unexpired and neither cleared nor reset is returned by every call with its fingerprint while the entries lasting at least as long and the identities created since are fewer than 20 together |
| RecurringIdentities.CreatedKeyIsReturned | store/advancedSwapStore.ts:86-109 | the same from the creation at t0 to any call before t0 plus 24 hours |
| RecurringIdentities.TieDropsTheNewKey | store/advancedSwapStore.ts:102-108 | a full record created in one instant returns a new key without storing it |
| RecurringIdentities.SwapStore.GetOrCreatePersistedRecurringOperationIdentity | store/advancedSwapStore.ts:86-109 | the record is rewritten on reuse only when an entry has expired |
| RecurringIdentities.SwapStore.ClearPersistedRecurringOperationIdentity | store/advancedSwapStore.ts:112-122 | the early return skips only writes that would change nothing |
| RecurringIdentities.SwapStore.ResetRecurringOperationIdentities | lib/wallet/wallet-reset.ts:79 | a wallet reset empties the record, so that every next call creates |
| ChartSampling.Downsample | hooks/useOffpayHoldingsValueChange.ts:102-121 | a list above the cap is cut to exactly the cap at strictly increasing source positions, with first and last kept and gaps of at most ceil((n-1)/(cap-1)); a shorter list is returned as it is |
| ChartSampling.SourceIndexStep | hooks/useOffpayTokenPriceHistory.ts:177-181 | neighbouring samples never share a source position, so the duplicate check never fires |
| ChartSampling.RoundingIsRobust | hooks/useOffpayTokenPriceHistory.ts:178-180 | for an even cap, such as 160 and 180, any value within half a step of the exact share rounds to the same position |
| ChartSampling.DownsampledKeeps | hooks/useOffpayHoldingsValueChange.ts:102-121 | sampling keeps both ends and every relation between earlier and later samples |
| TokenPriceHistory.BuildView | hooks/useOffpayTokenPriceHistory.ts:247-273 | the view shows at most 180 samples and the change of the whole converted history; an unusable rate empties it |
| TokenPriceHistory.ChangeSurvivesSampling | hooks/useOffpayTokenPriceHistory.ts:190-208 | the change on the sampled list is the change on the full list |
| TokenPriceHistory.ConvertedAt | hooks/useOffpayTokenPriceHistory.ts:154-167 | the converted samples are the usable points, in order, each at the rate |
| TokenPriceHistory.UsableExactly | hooks/useOffpayTokenPriceHistory.ts:158 | exactly the points with a positive value and a finite time are usable |
| TokenPriceHistory.ChangeIsTheDollarChange | hooks/useOffpayTokenPriceHistory.ts:190-208 | percentage and tone do not depend on the display currency, and the absolute change is the dollar change at the rate |
| HoldingsInputs.SelectHoldingsValueChangeInputs | hooks/useOffpayHoldingsValueChange.ts:181-234 | the loop over mutated map entries computes the merged holdings, and the result lists the pegged ones first |
| HoldingsInputs.MergeConserves | hooks/useOffpayHoldingsValueChange.ts:189-222 | one entry per held mint, whose balance is the sum of all positive balances held under it and whose price is the first known one; nothing is lost or moved between mints |
| HoldingsInputs.PriceInOrder | hooks/useOffpayHoldingsValueChange.ts:195-200 | the price brought along is the peg of a dollar symbol, else a positive cached unit price, else the holding's own positive price |
| HoldingsInputs.FirstHoldingNames | hooks/useOffpayHoldingsValueChange.ts:201-222 | an entry is named and pegged as its first holding says, whatever comes later under the mint |
| HoldingsInputs.EstimateIsBalanceAtPrice | hooks/useOffpayHoldingsValueChange.ts:94-101 | entries are compared by balance at the peg, else at the known price |
| HoldingsInputs.SelectionKeepsTheLargest | hooks/useOffpayHoldingsValueChange.ts:224-233 | all pegged entries are kept, and of the others the most valuable up to the limit: one left out is worth no more than any kept |
| HoldingsValueChange.Nearest | hooks/useOffpayHoldingsValueChange.ts:123-143 | the first of the samples at minimal distance in time |
| HoldingsValueChange.FindClosestHistorySample | hooks/useOffpayHoldingsValueChange.ts:123-143 | the loop finds that sample, and nothing exactly on an empty history |
| HoldingsValueChange.BuildCurrentSample | hooks/useOffpayHoldingsValueChange.ts:145-179 | a sample exactly when the inputs are worth something now, showing the sum of balance times peg, else positive live price, else positive price brought along |
| HoldingsValueChange.CollectLivePrices | hooks/useOffpayHoldingsValueChange.ts:259-266 | the map holds a live price for an eligible input if and only if its history has a positive one |
| HoldingsValueChange.ValueAtAnchor | hooks/useOffpayHoldingsValueChange.ts:291-305 | the inner loop computes the running totals of one anchor |
| HoldingsValueChange.BuildSamples | hooks/useOffpayHoldingsValueChange.ts:236-331 | the chart is the downsampled full chart with its change, and where the inputs are worth something and every anchor is older its last sample shows that worth |
| HoldingsValueChange.EligibleExactly | hooks/useOffpayHoldingsValueChange.ts:243-246 | exactly the pegged inputs and those with a history of two samples or more take part |
| HoldingsValueChange.AnchorIsFirstLongest | hooks/useOffpayHoldingsValueChange.ts:247-254 | the anchors are the first of the longest histories of inputs that are not pegged, and missing exactly when there is none |
| HoldingsValueChange.AnchorSamplesAreValuations | hooks/useOffpayHoldingsValueChange.ts:286-314 | with histories converted at one positive rate, the samples at the anchors are exactly the positive one-pass valuations there, in order |
| HoldingsValueChange.StableChartSpans | hooks/useOffpayHoldingsValueChange.ts:268-284 | without a history the chart runs from the pegged holdings at the start of the timeframe to what all inputs are worth now |
| HoldingsValueChange.LastSampleIsHeldNow | hooks/useOffpayHoldingsValueChange.ts:268-330 | a current valuation newer than every anchor is the last sample of the sampled chart, in both branches |
| HoldingsValueChange.EverySampleIsSound | hooks/useOffpayHoldingsValueChange.ts:268-330 | with histories converted at one positive rate, every sample before and after downsampling has positive value equal to rate times usdValue, for any balances |
| HoldingsValueChange.TotalsAgree | hooks/useOffpayHoldingsValueChange.ts:291-305 | the two running totals stay one valuation in two currencies |
| HoldingsValueChange.SplitTotalIsTheValuation | hooks/useOffpayHoldingsValueChange.ts:255-305 | totalling the pegged inputs once and adding the others per anchor is the valuation of all inputs in one pass |
| HoldingsValueChange.ChartIsChronological | hooks/useOffpayHoldingsValueChange.ts:268-330 | on an ascending anchor history timestamps never decrease, in the stable-only branch, the history branch and after downsampling |
| HoldingsValueChange.ChartEndsNow | hooks/useOffpayHoldingsValueChange.ts:316-330 | a current valuation newer than every anchor is the last sample, also after downsampling |
| HoldingsValueChange.ChangeSurvivesSampling | hooks/useOffpayHoldingsValueChange.ts:333-350 | the change on the sampled chart is the change on the full chart |
| HoldingsValueChange.ChangeMeasures | hooks/useOffpayHoldingsValueChange.ts:333-350 | the change is that between first and last sample in both currencies and in percent, apart from rounding noise |
| HoldingsValueChange.ToneHasTheSignOfTheChange | hooks/useOffpayHoldingsValueChange.ts:333-350 | the tone is neutral if and only if the change or its share of the first value is rounding noise, and otherwise has the sign of the change |

## Left out

- PayrollSafety.ClaimedAtMostOnce: excludes lists with repeated row ids and histories that drop the row, because both break the guarantee (see above).
- PayrollSafety.GrantedExactlyWhen: start times are integers (a fractional one fails the source's guard), the time is one value per action, and the property order of records is a parameter.
- PayrollTypes.SendableIffNoEvidence: payee, amount and source fields of a row are one opaque value, which no rule of the store reads.
- PayrollStore.Store.ReconcileOrphanedRunsOnLaunch: stated for states of the shape every history keeps (`PayrollSafety.ReachableHasShape`), so that each run sits under its own key.
- ActivityStream.ConnectionSafety: the connection the stream library builds while connecting and drops on abort is the library's own; notifications, data invalidation timers and foreground refreshes around the protocol are not modelled.
- ActivityStreamProgress.DormantExactlyWhen: the foreground timer, which a resume and a network change arm, is an event that may come at any time; the model does not say whether one is pending.
- ActivityStream.ReconnectBudget: the retry timer is one slot, since every arming site clears the previous timer first.
- TransactionPages.UpsertTransactionPage: an incoming record that carries an explicit null display is taken as carrying none; descriptive fields are one opaque value.
- TransactionPages.UpsertAgreesWithRebuild: signature order is any strict total order in place of `localeCompare`.
- SettlementSafety.SchedulerSafety: the awaited calls between the status update and the query invalidation are one step; two instances mounted at once are not modelled, the hook having one call site (providers/OffpayLaunchProvider.tsx:228).
- AppLock.LastWriterWins: the load path of the hook is not modelled; a flag left by an earlier launch counts as a direct write, and a write that rejects has landed by then or never does.
- Preferences.KillRecoversTheLater: timestamps are integers (below 2^53 in the source), and a mirror write that fails leaves the old mirror whole.
- RecurringIdentities.KeyIsStable: fingerprints do not look like array indices, so the record keeps insertion order.
- ChartSampling.Downsample: stated for caps of at least 2 (the source's are 160 and 180) over the reals; RoundingIsRobust bounds the floating-point error that cannot matter.
- HoldingsValueChange.EverySampleIsSound: money and timestamps are real numbers, so overflow, loss of precision and the negative zero are not modelled.
- HoldingsInputs.SelectHoldingsValueChangeInputs: upper-casing and the table of pegged symbols are parameters.
- Screens, routing, notifications, fiat labels, React Query, capability gates, connectivity, storage internals and HTTP calls.
- The launch orchestrator's run ids, whose reset returns them to zero, and the simple list stores.
- Direction, amount and description inference of activity events, which only reads one event.
