/** Rows and runs of lib/payroll/payroll-types.ts and the row rules of store/payrollStore.ts. */
module PayrollTypes {
  import opened Common

  datatype Route = Umbra | MagicBlock
  datatype RowStatus = Parsed | Invalid | Ready | Sending | Submitted | Queued | DepositedUnclaimed | Failed | Skipped
  datatype RunStatus =
    | Draft | Validating | Prepared | Confirming | Running | Paused | Completed | CompletedWithClaimsPending
    | CompletedWithErrors | Cancelled | Aborted

  /** `details` stands for the payee, amount and source fields, which no rule of the store reads. */
  datatype Row = Row(
    id: string,
    details: string,
    route: Option<Route>,
    status: RowStatus,
    requiresRecipientClaim: bool,
    validationError: Option<string>,
    signature: Option<string>,
    txId: Option<string>,
    initSignature: Option<string>,
    idempotencyKey: string,
    submissionAttemptId: Option<string>,
    submissionStartedAt: Option<int>,
    reconciliationRequired: bool,
    retryCount: nat,
    updatedAt: int)

  datatype Token = Token(mint: string, symbol: string, decimals: nat)

  datatype Run = Run(
    id: string,
    details: string,
    status: RunStatus,
    policy: string,
    token: Option<Token>,
    rowIds: seq<string>,
    cursor: int,
    routesDirty: Option<bool>,
    updatedAt: int)

  predicate HasAttempt(row: Row) {
    row.submissionAttemptId.Some? && Trim(row.submissionAttemptId.value) != []
  }

  predicate HasArtifact(row: Row) {
    row.signature.Some? || row.txId.Some? || row.initSignature.Some?
  }

  predicate HasDurablePaymentEvidence(row: Row) {
    HasArtifact(row) || HasAttempt(row) || row.reconciliationRequired
  }

  predicate IsSendable(row: Row) {
    if HasArtifact(row) then false
    else if HasAttempt(row) then false
    else if row.reconciliationRequired then false
    else row.status == Ready || row.status == Failed
  }

  /** `getPayrollSubmissionAttemptId`; `None` is the exception on a blank key. */
  function SubmissionAttemptId(idempotencyKey: string): Option<string> {
    if Trim(idempotencyKey) == [] then None else Some("payroll:" + Trim(idempotencyKey))
  }

  // ----- Row rules --------------------------------------------------------------------------------------------------

  function Max(a: int, b: int): int {
    if a >= b then a else b
  }

  function Preserve(existing: Option<Row>, replacement: Row): Row {
    if existing.None? || !HasDurablePaymentEvidence(existing.value) then replacement
    else
      var kept := existing.value;
      replacement.(
        status := kept.status,
        requiresRecipientClaim := kept.requiresRecipientClaim,
        validationError := kept.validationError,
        signature := kept.signature.Or(replacement.signature),
        txId := kept.txId.Or(replacement.txId),
        initSignature := kept.initSignature.Or(replacement.initSignature),
        idempotencyKey := kept.idempotencyKey,
        submissionAttemptId := kept.submissionAttemptId.Or(replacement.submissionAttemptId),
        submissionStartedAt := kept.submissionStartedAt.Or(replacement.submissionStartedAt),
        reconciliationRequired := kept.reconciliationRequired || replacement.reconciliationRequired,
        retryCount := Max(kept.retryCount, replacement.retryCount),
        updatedAt := Max(kept.updatedAt, replacement.updatedAt))
  }

  predicate IsOrphaned(row: Row) {
    row.status == Sending && !HasArtifact(row)
  }

  const INTERRUPTED := "Interrupted before confirmation. Verify on-chain before retrying to avoid double payment."

  function Reconcile(row: Row, now: int): Row {
    if !IsOrphaned(row) then row
    else
      var key := Trim(row.idempotencyKey);
      var attempt := if row.submissionAttemptId.Some? then Trim(row.submissionAttemptId.value) else [];
      row.(
        status := Failed,
        submissionAttemptId := Some(if attempt != [] then attempt else "payroll:" + (if key != [] then key else row.id)),
        submissionStartedAt := row.submissionStartedAt.Or(Some(row.updatedAt)),
        reconciliationRequired := true,
        validationError := Some(INTERRUPTED),
        updatedAt := now)
  }

  /** `Partial<Omit<PayrollRow, 'id'>>`: an absent field is `None`. */
  datatype Patch = Patch(
    details: Option<string>,
    route: Option<Option<Route>>,
    status: Option<RowStatus>,
    requiresRecipientClaim: Option<bool>,
    validationError: Option<Option<string>>,
    signature: Option<Option<string>>,
    txId: Option<Option<string>>,
    initSignature: Option<Option<string>>,
    idempotencyKey: Option<string>,
    submissionAttemptId: Option<Option<string>>,
    submissionStartedAt: Option<Option<int>>,
    reconciliationRequired: Option<bool>,
    retryCount: Option<nat>)

  function ApplyPatch(row: Row, p: Patch, now: int): Row {
    row.(
      details := p.details.GetOr(row.details),
      route := p.route.GetOr(row.route),
      status := p.status.GetOr(row.status),
      requiresRecipientClaim := p.requiresRecipientClaim.GetOr(row.requiresRecipientClaim),
      validationError := p.validationError.GetOr(row.validationError),
      signature := p.signature.GetOr(row.signature),
      txId := p.txId.GetOr(row.txId),
      initSignature := p.initSignature.GetOr(row.initSignature),
      idempotencyKey := p.idempotencyKey.GetOr(row.idempotencyKey),
      submissionAttemptId := p.submissionAttemptId.GetOr(row.submissionAttemptId),
      submissionStartedAt := p.submissionStartedAt.GetOr(row.submissionStartedAt),
      reconciliationRequired := p.reconciliationRequired.GetOr(row.reconciliationRequired),
      retryCount := p.retryCount.GetOr(row.retryCount),
      updatedAt := now)
  }

  function Update(row: Row, rowId: string, p: Patch, now: int): Row {
    if row.id != rowId then row
    else
      var next := ApplyPatch(row, p, now);
      next.(
        submissionAttemptId := if HasAttempt(row) then row.submissionAttemptId else next.submissionAttemptId,
        submissionStartedAt := if HasAttempt(row) then row.submissionStartedAt else next.submissionStartedAt,
        reconciliationRequired := row.reconciliationRequired || next.reconciliationRequired,
        signature := row.signature.Or(next.signature),
        txId := row.txId.Or(next.txId),
        initSignature := row.initSignature.Or(next.initSignature))
  }

  datatype Claim = Claim(attemptId: string, startedAt: int)

  predicate Claimable(row: Row) {
    row.route.Some? && row.status == Ready && IsSendable(row)
  }

  function Claimed(row: Row, rowId: string, claim: Claim, now: int): Row {
    if row.id != rowId || !Claimable(row) || SubmissionAttemptId(row.idempotencyKey) != Some(claim.attemptId) then row
    else row.(status := Sending, submissionAttemptId := Some(claim.attemptId), submissionStartedAt := Some(claim.startedAt),
              reconciliationRequired := false, validationError := None, updatedAt := now)
  }

  function Skip(row: Row, rowId: string, skipped: bool, now: int): Row {
    if row.id != rowId then row
    else if skipped && row.status == Ready then row.(status := Skipped, updatedAt := now)
    else if !skipped && row.status == Skipped then row.(status := Ready, updatedAt := now)
    else row
  }

  function Retry(row: Row, now: int): Row {
    if row.status == Failed && IsSendable(row) then row.(status := Ready, validationError := None, updatedAt := now) else row
  }

  // ----- Evidence ---------------------------------------------------------------------------------------------------

  /** Evidence is monotone and write-once from `r` to `r'`. */
  ghost predicate KeepsEvidence(r: Row, r': Row) {
    && (r.signature.Some? ==> r'.signature == r.signature)
    && (r.txId.Some? ==> r'.txId == r.txId)
    && (r.initSignature.Some? ==> r'.initSignature == r.initSignature)
    && (HasAttempt(r) ==>
          r'.submissionAttemptId.Some? && Trim(r'.submissionAttemptId.value) == Trim(r.submissionAttemptId.value))
    && (r.reconciliationRequired ==> r'.reconciliationRequired)
  }

  /** A row may be sent exactly when it carries no evidence and is ready or failed. */
  lemma SendableIffNoEvidence(row: Row)
    ensures IsSendable(row) <==> !HasDurablePaymentEvidence(row) && (row.status == Ready || row.status == Failed)
  {
  }

  lemma AttemptIdIsNotBlank(key: string)
    ensures var a := SubmissionAttemptId(key); a.Some? ==> Trim(a.value) != []
  {
    VisibleIsNotBlank("payroll:" + Trim(key));
  }

  lemma ReconcileKeepsEvidence(row: Row, now: int)
    ensures KeepsEvidence(row, Reconcile(row, now)) && Reconcile(row, now).id == row.id
    ensures IsOrphaned(row) ==>
              var r := Reconcile(row, now);
              r.status == Failed && HasAttempt(r) && r.reconciliationRequired && !IsOrphaned(r)
  {
    if row.submissionAttemptId.Some? { TrimTwice(row.submissionAttemptId.value); }
    VisibleIsNotBlank("payroll:" + Trim(row.idempotencyKey));
    VisibleIsNotBlank("payroll:" + row.id);
  }

  /** Whatever a replacement row says, preserving keeps the existing row's evidence. */
  lemma PreserveKeepsEvidence(existing: Row, replacement: Row)
    ensures KeepsEvidence(existing, Preserve(Some(existing), replacement))
  {
  }

  lemma ClaimKeepsEvidence(row: Row, rowId: string, claim: Claim, now: int)
    ensures KeepsEvidence(row, Claimed(row, rowId, claim, now)) && Claimed(row, rowId, claim, now).id == row.id
    ensures Claimed(row, rowId, claim, now) != row ==> HasAttempt(Claimed(row, rowId, claim, now))
  {
    AttemptIdIsNotBlank(row.idempotencyKey);
  }

  lemma EvidenceComposes(a: Row, b: Row, c: Row)
    requires KeepsEvidence(a, b) && KeepsEvidence(b, c)
    ensures KeepsEvidence(a, c)
    ensures HasDurablePaymentEvidence(a) ==> HasDurablePaymentEvidence(b)
  {
  }
}
