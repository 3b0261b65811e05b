/** What each action of store/payrollStore.ts does to the stored runs and rows, field by field. */
module PayrollEffects {
  import opened Common
  import opened Ordering
  import opened PayrollTypes
  import opened Payroll

  /** The run lists keep their keys, and of the row lists only that of `runId` may differ. */
  ghost predicate OnlyRowsOf(s: State, s': State, runId: string) {
    && s'.runs == s.runs && s'.rowsByRun.Keys == s.rowsByRun.Keys
    && forall k :: k in s.rowsByRun && k != runId ==> s'.rowsByRun[k] == s.rowsByRun[k]
  }

  /** Only the run `runId` may differ, and it keeps its identity. */
  ghost predicate OnlyRun(s: State, s': State, runId: string) {
    && s'.rowsByRun == s.rowsByRun && s'.runs.Keys == s.runs.Keys
    && forall k :: k in s.runs && k != runId ==> s'.runs[k] == s.runs[k]
  }

  // ----- Patching a row ---------------------------------------------------------------------------------------------

  /** A field of a patch: its value if it is given, otherwise what was there. */
  predicate Sets<T(==)>(given: Option<T>, before: T, after: T) {
    after == if given.Some? then given.value else before
  }

  /** An artifact that is there stays; one that is not is taken from the patch. */
  predicate Adds<T(==)>(given: Option<Option<T>>, before: Option<T>, after: Option<T>) {
    if before.Some? then after == before else Sets(given, before, after)
  }

  /** `r'` is `r` with every field of the patch taken over, but for the evidence that `r` already carried. */
  ghost predicate Patched(r: Row, p: Patch, now: int, r': Row) {
    && r'.id == r.id && r'.updatedAt == now
    && Sets(p.details, r.details, r'.details) && Sets(p.route, r.route, r'.route)
    && Sets(p.status, r.status, r'.status) && Sets(p.validationError, r.validationError, r'.validationError)
    && Sets(p.requiresRecipientClaim, r.requiresRecipientClaim, r'.requiresRecipientClaim)
    && Sets(p.idempotencyKey, r.idempotencyKey, r'.idempotencyKey) && Sets(p.retryCount, r.retryCount, r'.retryCount)
    && Adds(p.signature, r.signature, r'.signature) && Adds(p.txId, r.txId, r'.txId)
    && Adds(p.initSignature, r.initSignature, r'.initSignature)
    && (if r.submissionAttemptId.Some? && Trim(r.submissionAttemptId.value) != "" then
          r'.submissionAttemptId == r.submissionAttemptId && r'.submissionStartedAt == r.submissionStartedAt
        else
          && Sets(p.submissionAttemptId, r.submissionAttemptId, r'.submissionAttemptId)
          && Sets(p.submissionStartedAt, r.submissionStartedAt, r'.submissionStartedAt))
    && (if r.reconciliationRequired then r'.reconciliationRequired
        else Sets(p.reconciliationRequired, r.reconciliationRequired, r'.reconciliationRequired))
  }

  ghost predicate RowsPatched(rows: seq<Row>, rowId: string, p: Patch, now: int, rows': seq<Row>) {
    |rows'| == |rows| && forall i :: 0 <= i < |rows| ==>
      if rows[i].id == rowId then Patched(rows[i], p, now, rows'[i]) else rows'[i] == rows[i]
  }

  lemma UpdatePatches(r: Row, p: Patch, now: int)
    ensures Patched(r, p, now, Update(r, r.id, p, now))
  {
  }

  lemma UpdateAllPatches(rows: seq<Row>, rowId: string, p: Patch, now: int)
    ensures RowsPatched(rows, rowId, p, now, UpdateAll(rows, rowId, p, now))
  {
    forall i | 0 <= i < |rows| && rows[i].id == rowId ensures Patched(rows[i], p, now, Update(rows[i], rowId, p, now)) {
      UpdatePatches(rows[i], p, now);
    }
    hide Patched, ApplyPatch;
  }

  /** A patch reaches the row it names, and no other row and no run. */
  lemma UpdateRowPatches(s: State, runId: string, rowId: string, p: Patch, now: int)
    ensures var s' := Step(s, UpdateRow(runId, rowId, p), now);
            if runId !in s.rowsByRun then s' == s
            else OnlyRowsOf(s, s', runId) && RowsPatched(s.rowsByRun[runId], rowId, p, now, s'.rowsByRun[runId])
  {
    hide RowsPatched, UpdateAll;
    if runId in s.rowsByRun { UpdateAllPatches(s.rowsByRun[runId], rowId, p, now); }
  }

  /** A row with the id of `r` is stored with the status, and with the signature unless `r` had one. */
  ghost predicate Records(rows: seq<Row>, r: Row, status: RowStatus, signature: string) {
    exists r' :: r' in rows && r'.id == r.id && r'.status == status
                 && r'.signature == if r.signature.Some? then r.signature else Some(signature)
  }

  /** What every payment ends with: the status and the signature handed in are stored on a row that had none, and a signature
      that was there is not overwritten. */
  lemma SignatureIsRecorded(s: State, runId: string, r: Row, p: Patch, now: int, status: RowStatus, signature: string)
    requires runId in s.rowsByRun && r in s.rowsByRun[runId]
    requires p.status == Some(status) && p.signature == Some(Some(signature))
    ensures Records(Step(s, UpdateRow(runId, r.id, p), now).rowsByRun[runId], r, status, signature)
  {
    var rows := s.rowsByRun[runId];
    var i :| 0 <= i < |rows| && rows[i] == r;
    UpdateRowPatches(s, runId, r.id, p, now);
    hide Step;
    var rows' := Step(s, UpdateRow(runId, r.id, p), now).rowsByRun[runId];
    assert rows'[i] in rows';
  }

  // ----- Claiming, skipping, retrying, recovering -------------------------------------------------------------------

  /** Ready, routed and without evidence, under the key that the attempt id was made from. */
  ghost predicate MayClaim(r: Row, rowId: string, claim: Claim) {
    && r.id == rowId && r.route.Some? && r.status == Ready && !HasDurablePaymentEvidence(r)
    && Trim(r.idempotencyKey) != "" && claim.attemptId == "payroll:" + Trim(r.idempotencyKey)
  }

  ghost predicate RowsClaimed(rows: seq<Row>, rowId: string, claim: Claim, now: int, rows': seq<Row>) {
    |rows'| == |rows| && forall i :: 0 <= i < |rows| ==>
      if MayClaim(rows[i], rowId, claim) then
        && rows'[i].status == Sending && rows'[i].submissionAttemptId == Some(claim.attemptId)
        && rows'[i].submissionStartedAt == Some(claim.startedAt) && !rows'[i].reconciliationRequired
        && rows'[i].validationError.None? && rows'[i].updatedAt == now
        && SameBesides(rows[i], rows'[i])
      else rows'[i] == rows[i]
  }

  /** The fields that no claim, skip, retry or recovery writes. */
  ghost predicate SameBesides(r: Row, r': Row) {
    && r'.id == r.id && r'.details == r.details && r'.route == r.route
    && r'.requiresRecipientClaim == r.requiresRecipientClaim && r'.retryCount == r.retryCount
    && r'.idempotencyKey == r.idempotencyKey
    && r'.signature == r.signature && r'.txId == r.txId && r'.initSignature == r.initSignature
  }

  /** A granted claim writes the attempt on the rows that may be claimed; any other claim writes nothing. */
  lemma ClaimWrites(s: State, runId: string, rowId: string, claim: Claim, now: int)
    ensures var s' := Step(s, ClaimRowSubmission(runId, rowId, claim), now);
            if Outcome(s, runId, rowId, claim) != Granted then s' == s
            else OnlyRowsOf(s, s', runId) && RowsClaimed(s.rowsByRun[runId], rowId, claim, now, s'.rowsByRun[runId])
  {
    if Outcome(s, runId, rowId, claim) == Granted {
      var rows := s.rowsByRun[runId];
      forall i | 0 <= i < |rows| ensures MayClaim(rows[i], rowId, claim) <==> Takes(rows[i], rowId, claim) {
        SendableIffNoEvidence(rows[i]);
      }
    }
  }

  /** Ready becomes skipped and skipped becomes ready; any other status stays. */
  ghost predicate Skippable(r: Row, rowId: string, skipped: bool) {
    r.id == rowId && r.status == if skipped then Ready else Skipped
  }

  ghost predicate RowsSkipped(rows: seq<Row>, rowId: string, skipped: bool, now: int, rows': seq<Row>) {
    |rows'| == |rows| && forall i :: 0 <= i < |rows| ==>
      if Skippable(rows[i], rowId, skipped) then
        && rows'[i].status == (if skipped then Skipped else Ready) && rows'[i].updatedAt == now
        && SameBesides(rows[i], rows'[i]) && SameAttempt(rows[i], rows'[i])
        && rows'[i].validationError == rows[i].validationError
      else rows'[i] == rows[i]
  }

  ghost predicate SameAttempt(r: Row, r': Row) {
    && r'.submissionAttemptId == r.submissionAttemptId && r'.submissionStartedAt == r.submissionStartedAt
    && r'.reconciliationRequired == r.reconciliationRequired
  }

  lemma SkipAllToggles(rows: seq<Row>, rowId: string, skipped: bool, now: int)
    ensures RowsSkipped(rows, rowId, skipped, now, SkipAll(rows, rowId, skipped, now))
    ensures SkipAll(rows, rowId, skipped, now) == rows <==> forall r :: r in rows ==> !Skippable(r, rowId, skipped)
  {
    var rows' := SkipAll(rows, rowId, skipped, now);
    if i :| 0 <= i < |rows| && Skippable(rows[i], rowId, skipped) {
      assert rows'[i].status != rows[i].status;
      assert rows[i] in rows;
    } else {
      assert rows' == rows;
      forall r | r in rows ensures !Skippable(r, rowId, skipped) {
        var i :| 0 <= i < |rows| && rows[i] == r;
      }
    }
  }

  /** Skipping toggles the named row between ready and skipped, and then marks the routes of its run dirty. */
  lemma SkipToggles(s: State, runId: string, rowId: string, skipped: bool, now: int)
    ensures var s' := Step(s, SetRowSkipped(runId, rowId, skipped), now);
            if runId !in s.rowsByRun || (forall r :: r in s.rowsByRun[runId] ==> !Skippable(r, rowId, skipped)) then s' == s
            else
              && OnlyRowsOf(s, s'.(runs := s.runs), runId) && OnlyRun(s, s'.(rowsByRun := s.rowsByRun), runId)
              && RowsSkipped(s.rowsByRun[runId], rowId, skipped, now, s'.rowsByRun[runId])
              && (runId in s.runs ==> s'.runs[runId] == s.runs[runId].(routesDirty := Some(true), updatedAt := now))
  {
    if runId in s.rowsByRun { SkipAllToggles(s.rowsByRun[runId], rowId, skipped, now); }
    hide SkipAll, RowsSkipped, Skippable;
  }

  ghost predicate RowsRetried(rows: seq<Row>, now: int, rows': seq<Row>) {
    |rows'| == |rows| && forall i :: 0 <= i < |rows| ==>
      if rows[i].status == Failed && !HasDurablePaymentEvidence(rows[i]) then
        && rows'[i].status == Ready && rows'[i].validationError.None? && rows'[i].updatedAt == now
        && SameBesides(rows[i], rows'[i]) && SameAttempt(rows[i], rows'[i])
      else rows'[i] == rows[i]
  }

  /** A retry makes exactly the failed rows without evidence ready again. */
  lemma RetryResets(s: State, runId: string, now: int)
    ensures var s' := Step(s, PrepareRetryFailedRows(runId), now);
            if runId !in s.rowsByRun then s' == s
            else OnlyRowsOf(s, s', runId) && RowsRetried(s.rowsByRun[runId], now, s'.rowsByRun[runId])
  {
    if runId in s.rowsByRun {
      var rows := s.rowsByRun[runId];
      forall i | 0 <= i < |rows|
        ensures IsSendable(rows[i]) <==>
                  !HasDurablePaymentEvidence(rows[i]) && (rows[i].status == Ready || rows[i].status == Failed)
      {
        SendableIffNoEvidence(rows[i]);
      }
    }
  }

  /** The attempt id a recovered row is locked under: its own, else one made from its key, else from its id. */
  function LockId(r: Row): string {
    if r.submissionAttemptId.Some? && Trim(r.submissionAttemptId.value) != "" then Trim(r.submissionAttemptId.value)
    else if Trim(r.idempotencyKey) != "" then "payroll:" + Trim(r.idempotencyKey)
    else "payroll:" + r.id
  }

  ghost predicate RowsLocked(rows: seq<Row>, now: int, rows': seq<Row>) {
    |rows'| == |rows| && forall i :: 0 <= i < |rows| ==>
      if rows[i].status == Sending && rows[i].signature.None? && rows[i].txId.None? && rows[i].initSignature.None? then
        && rows'[i].status == Failed && rows'[i].reconciliationRequired && rows'[i].updatedAt == now
        && rows'[i].submissionAttemptId == Some(LockId(rows[i]))
        && rows'[i].submissionStartedAt
           == Some(if rows[i].submissionStartedAt.Some? then rows[i].submissionStartedAt.value else rows[i].updatedAt)
        && rows'[i].validationError
           == Some("Interrupted before confirmation. Verify on-chain before retrying to avoid double payment.")
        && SameBesides(rows[i], rows'[i])
      else rows'[i] == rows[i]
  }

  lemma ReconcileAllLocks(rows: seq<Row>, now: int)
    ensures RowsLocked(rows, now, ReconcileAll(rows, now))
  {
  }

  /** Recovery locks exactly the rows interrupted while sending. */
  lemma RecoveryLocks(s: State, runId: string, now: int)
    ensures var s' := Step(s, ReconcileInterruptedRows(runId), now);
            if runId !in s.rowsByRun then s' == s
            else OnlyRowsOf(s, s', runId) && RowsLocked(s.rowsByRun[runId], now, s'.rowsByRun[runId])
  {
    if runId in s.rowsByRun { ReconcileAllLocks(s.rowsByRun[runId], now); }
  }

  /** At launch, runs that were running or confirming are paused and their interrupted rows locked; nothing else changes. */
  lemma LaunchPausesAndLocks(s: State, now: int)
    ensures var s' := Step(s, ReconcileOrphanedRunsOnLaunch, now);
            && s'.runs.Keys == s.runs.Keys && s'.rowsByRun.Keys == s.rowsByRun.Keys
            && (forall k :: k in s.runs ==>
                  s'.runs[k] == if s.runs[k].status == Running || s.runs[k].status == Confirming
                                then s.runs[k].(status := Paused, updatedAt := now) else s.runs[k])
            && (forall k :: k in s.rowsByRun ==>
                  if k in s.runs && (s.runs[k].status == Running || s.runs[k].status == Confirming)
                  then RowsLocked(s.rowsByRun[k], now, s'.rowsByRun[k]) else s'.rowsByRun[k] == s.rowsByRun[k])
  {
    forall k | k in s.rowsByRun ensures RowsLocked(s.rowsByRun[k], now, ReconcileAll(s.rowsByRun[k], now)) {
      ReconcileAllLocks(s.rowsByRun[k], now);
    }
    hide RowsLocked, ReconcileAll;
  }

  /** A payment recorded before the client was killed is still recorded after the next launch. */
  lemma PaidRowSurvivesLaunch(
      s: State, runId: string, r: Row, p: Patch, now: int, status: RowStatus, signature: string, later: int)
    requires runId in s.rowsByRun && r in s.rowsByRun[runId]
    requires p.status == Some(status) && p.signature == Some(Some(signature))
    ensures var s' := Step(Step(s, UpdateRow(runId, r.id, p), now), ReconcileOrphanedRunsOnLaunch, later);
            runId in s'.rowsByRun && Records(s'.rowsByRun[runId], r, status, signature)
  {
    SignatureIsRecorded(s, runId, r, p, now, status, signature);
    UpdateRowPatches(s, runId, r.id, p, now);
    var paid := Step(s, UpdateRow(runId, r.id, p), now);
    LaunchPausesAndLocks(paid, later);
    hide Step;
    var rows := paid.rowsByRun[runId];
    var r' :| r' in rows && r'.id == r.id && r'.status == status
              && r'.signature == (if r.signature.Some? then r.signature else Some(signature));
    var i :| 0 <= i < |rows| && rows[i] == r';
    var rows' := Step(paid, ReconcileOrphanedRunsOnLaunch, later).rowsByRun[runId];
    assert rows'[i] == r' && rows'[i] in rows';
  }

  // ----- Row lists and runs -----------------------------------------------------------------------------------------

  /** A row handed in for a stored one with evidence: its payee and route are new, what was paid is not. */
  ghost predicate TakenOver(r: Row, handed: Row, r': Row) {
    && r'.id == handed.id && r'.details == handed.details && r'.route == handed.route
    && r'.status == r.status && r'.requiresRecipientClaim == r.requiresRecipientClaim
    && r'.validationError == r.validationError && r'.idempotencyKey == r.idempotencyKey
    && r'.signature == (if r.signature.Some? then r.signature else handed.signature)
    && r'.txId == (if r.txId.Some? then r.txId else handed.txId)
    && r'.initSignature == (if r.initSignature.Some? then r.initSignature else handed.initSignature)
    && r'.submissionAttemptId == (if r.submissionAttemptId.Some? then r.submissionAttemptId else handed.submissionAttemptId)
    && r'.submissionStartedAt == (if r.submissionStartedAt.Some? then r.submissionStartedAt else handed.submissionStartedAt)
    && (r'.reconciliationRequired <==> r.reconciliationRequired || handed.reconciliationRequired)
    && r'.retryCount >= r.retryCount && r'.retryCount >= handed.retryCount && r'.retryCount in {r.retryCount, handed.retryCount}
    && r'.updatedAt >= r.updatedAt && r'.updatedAt >= handed.updatedAt && r'.updatedAt in {r.updatedAt, handed.updatedAt}
  }

  /** The list handed in is stored as it is, but for rows whose stored namesake carries evidence. */
  ghost predicate RowsReplaced(rows: seq<Row>, handed: seq<Row>, rows': seq<Row>) {
    |rows'| == |handed| && forall i :: 0 <= i < |handed| ==>
      && (forall r :: r in rows && r.id == handed[i].id ==>
            if HasDurablePaymentEvidence(r) then TakenOver(r, handed[i], rows'[i]) else rows'[i] == handed[i])
      && ((forall r :: r in rows ==> r.id != handed[i].id) ==> rows'[i] == handed[i])
  }

  lemma {:induction false} ExistingIsStored(rows: seq<Row>, id: string)
    requires DistinctIds(rows)
    ensures forall r :: r in rows && r.id == id ==> Existing(rows, id) == Some(r)
    ensures Existing(rows, id).Some? ==> Existing(rows, id).value in rows && Existing(rows, id).value.id == id
  {
    if rows != [] {
      var init, last := rows[..|rows| - 1], rows[|rows| - 1];
      assert rows == init + [last];
      ExistingIsStored(init, id);
      forall r | r in rows && r.id == id ensures Existing(rows, id) == Some(r) {
        var i :| 0 <= i < |rows| && rows[i] == r;
        if last.id == id { assert i == |rows| - 1; }
      }
    }
  }

  lemma ProtectReplaces(rows: seq<Row>, handed: seq<Row>)
    requires DistinctIds(rows)
    ensures RowsReplaced(rows, handed, Protect(rows, handed))
  {
    forall i | 0 <= i < |handed|
      ensures forall r :: r in rows && r.id == handed[i].id ==> Existing(rows, handed[i].id) == Some(r)
      ensures Existing(rows, handed[i].id).Some? ==>
                Existing(rows, handed[i].id).value in rows && Existing(rows, handed[i].id).value.id == handed[i].id
    {
      ExistingIsStored(rows, handed[i].id);
    }
    hide Existing;
  }

  /** Replacing the list of a known run stores it, names its rows in order and marks the routes dirty. */
  lemma ReplaceStores(s: State, runId: string, rows: seq<Row>, now: int)
    requires Valid(s)
    ensures var s' := Step(s, ReplaceRows(runId, rows), now);
            if runId !in s.runs then s' == s
            else
              && OnlyRowsOf(s, s'.(runs := s.runs), runId) && OnlyRun(s, s'.(rowsByRun := s.rowsByRun), runId)
              && RowsReplaced(s.rowsByRun[runId], rows, s'.rowsByRun[runId])
              && |s'.runs[runId].rowIds| == |rows|
              && (forall i :: 0 <= i < |rows| ==> s'.runs[runId].rowIds[i] == rows[i].id)
              && s'.runs[runId].(rowIds := s.runs[runId].rowIds)
                 == s.runs[runId].(routesDirty := Some(true), updatedAt := now)
  {
    if runId in s.runs {
      ProtectReplaces(s.rowsByRun[runId], rows);
      var rows' := Protect(s.rowsByRun[runId], rows);
      assert forall i :: 0 <= i < |rows| ==> rows'[i].id == rows[i].id;
    }
  }

  lemma SmallRecordsStay(runs: map<string, Run>, order: seq<string>)
    requires NoRepeats(order) && forall k :: k in order <==> k in runs
    ensures |runs| <= 25 ==> PruneRuns(runs, order) == runs
  {
    ValuesFacts(runs, order);
  }

  /** Creating a run stores it with its list under its id unless it is pruned out at once, and changes no other run it keeps. */
  lemma CreateStores(s: State, run: Run, rows: seq<Row>, order: seq<string>, now: int)
    requires Valid(s) && Ordered(s, CreateRun(run, rows, order))
    ensures var s' := Step(s, CreateRun(run, rows, order), now);
            && (run.id in s'.runs ==>
                  && s'.runs[run.id] == run && run.id in s'.rowsByRun
                  && RowsReplaced(if run.id in s.rowsByRun then s.rowsByRun[run.id] else [], rows, s'.rowsByRun[run.id]))
            && (forall k :: k in s'.runs && k != run.id ==>
                  && k in s.runs && s'.runs[k] == s.runs[k]
                  && k in s'.rowsByRun && s'.rowsByRun[k] == s.rowsByRun[k])
            && (|s.runs[run.id := run]| <= 25 ==> s'.runs == s.runs[run.id := run])
  {
    var all := s.runs[run.id := run];
    PruneKeepsNewest(all, order);
    SmallRecordsStay(all, order);
    ProtectReplaces(RowsOf(s, run.id), rows);
    hide RowsReplaced, Protect, Ordered, PruneRuns, DistinctIds, NoRepeats;
  }

  /** Each setter of a run writes its field and the time, and nothing else; the token also marks the routes dirty. */
  lemma SettersWrite(s: State, runId: string, now: int, status: RunStatus, policy: string, token: Option<Token>, dirty: bool,
                     cursor: int)
    ensures runId !in s.runs ==>
              && Step(s, SetRunStatus(runId, status), now) == Step(s, SetRunPolicy(runId, policy), now) == s
              && Step(s, SetRunToken(runId, token), now) == Step(s, SetRunCursor(runId, cursor), now) == s
              && Step(s, SetRunRoutesDirty(runId, dirty), now) == s
    ensures runId in s.runs ==>
              var run := s.runs[runId];
              && RunBecomes(s, runId, run.(status := status, updatedAt := now), Step(s, SetRunStatus(runId, status), now))
              && RunBecomes(s, runId, run.(policy := policy, updatedAt := now), Step(s, SetRunPolicy(runId, policy), now))
              && RunBecomes(s, runId, run.(token := token, routesDirty := Some(true), updatedAt := now),
                            Step(s, SetRunToken(runId, token), now))
              && RunBecomes(s, runId, run.(cursor := cursor, updatedAt := now), Step(s, SetRunCursor(runId, cursor), now))
              && RunBecomes(s, runId, if run.routesDirty == Some(dirty) then run else
                                      run.(routesDirty := Some(dirty), updatedAt := now),
                            Step(s, SetRunRoutesDirty(runId, dirty), now))
  {
  }

  ghost predicate RunBecomes(s: State, runId: string, run: Run, s': State) {
    OnlyRun(s, s', runId) && runId in s'.runs && s'.runs[runId] == run
  }
}
