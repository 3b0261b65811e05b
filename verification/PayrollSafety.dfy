/** Double-pay safety of the payroll store over whole runs of actions. */
module PayrollSafety {
  import opened Common
  import opened PayrollTypes
  import opened Payroll

  datatype Event = Event(now: int, action: Action)

  function Next(s: State, e: Event): State {
    Step(s, e.action, e.now)
  }

  /** The states a run of legal events passes through, starting in a valid one. */
  ghost predicate History(trace: seq<State>, events: seq<Event>) {
    && |trace| == |events| + 1 && Valid(trace[0])
    && (forall n :: 0 <= n < |events| ==> Legal(trace[n], events[n].action) && trace[n + 1] == Next(trace[n], events[n]))
  }

  /** The stored rows of a run with a given id: at most one when ids are distinct. */
  ghost predicate Holds(s: State, runId: string, row: Row) {
    runId in s.rowsByRun && row in s.rowsByRun[runId]
  }

  ghost predicate Present(s: State, runId: string, rowId: string) {
    exists row :: Holds(s, runId, row) && row.id == rowId
  }

  /** The row is stored in every state from the `m`-th to the `n`-th. */
  ghost predicate Stored(trace: seq<State>, m: nat, n: nat, runId: string, rowId: string)
    requires n < |trace|
  {
    forall i :: m <= i <= n ==> Present(trace[i], runId, rowId)
  }

  lemma {:induction false} ReachableIsValid(trace: seq<State>, events: seq<Event>, n: nat)
    requires History(trace, events) && n <= |events|
    ensures Valid(trace[n])
  {
    if n > 0 {
      ReachableIsValid(trace, events, n - 1);
      StepKeepsValid(trace[n - 1], events[n - 1].action, events[n - 1].now);
    }
  }

  /** The shape holds on every run of actions, also when row lists repeat ids. */
  lemma {:induction false} ReachableHasShape(trace: seq<State>, events: seq<Event>, n: nat)
    requires |trace| == |events| + 1 && Shape(trace[0]) && n <= |events|
    requires forall m :: 0 <= m < |events| ==> Ordered(trace[m], events[m].action) && trace[m + 1] == Next(trace[m], events[m])
    ensures Shape(trace[n])
  {
    hide Step, Shape, Ordered;
    if n > 0 {
      ReachableHasShape(trace, events, n - 1);
      StepKeepsShape(trace[n - 1], events[n - 1].action, events[n - 1].now);
    }
  }

  // ----- One action -------------------------------------------------------------------------------------------------

  /** Row by row, `rows'` is `rows` with evidence kept. */
  ghost predicate RowwiseKeeps(rows: seq<Row>, rows': seq<Row>) {
    && |rows'| == |rows|
    && (forall i :: 0 <= i < |rows| ==> rows'[i].id == rows[i].id && KeepsEvidence(rows[i], rows'[i]))
  }

  /** A list whose rows each preserve the evidence of the stored row with their id. */
  ghost predicate Protects(rows: seq<Row>, rows': seq<Row>) {
    forall r, r' :: r in rows && r' in rows' && r'.id == r.id ==> KeepsEvidence(r, r')
  }

  lemma SameProtects(rows: seq<Row>)
    requires DistinctIds(rows)
    ensures Protects(rows, rows)
  {
  }

  lemma {:induction false} ExistingIsTheRow(rows: seq<Row>, r: Row)
    requires DistinctIds(rows) && r in rows
    ensures Existing(rows, r.id) == Some(r)
  {
    var init, last := rows[..|rows| - 1], rows[|rows| - 1];
    assert rows == init + [last];
    if last.id != r.id {
      ExistingIsTheRow(init, r);
    } else {
      var i :| 0 <= i < |rows| && rows[i] == r;
      assert i == |rows| - 1;
    }
  }

  lemma ProtectProtects(existing: seq<Row>, rows: seq<Row>)
    requires DistinctIds(existing)
    ensures Protects(existing, Protect(existing, rows))
  {
    forall r, r' | r in existing && r' in Protect(existing, rows) && r'.id == r.id ensures KeepsEvidence(r, r') {
      var i :| 0 <= i < |rows| && r' == Protect(existing, rows)[i];
      ExistingIsTheRow(existing, r);
      PreserveKeepsEvidence(r, rows[i]);
    }
  }

  lemma RowRulesKeep(rows: seq<Row>, rowId: string, patch: Patch, claim: Claim, skipped: bool, now: int)
    ensures RowwiseKeeps(rows, UpdateAll(rows, rowId, patch, now))
    ensures RowwiseKeeps(rows, ClaimAll(rows, rowId, claim, now))
    ensures RowwiseKeeps(rows, SkipAll(rows, rowId, skipped, now))
    ensures RowwiseKeeps(rows, RetryAll(rows, now))
    ensures RowwiseKeeps(rows, ReconcileAll(rows, now))
  {
    forall i | 0 <= i < |rows|
      ensures KeepsEvidence(rows[i], Claimed(rows[i], rowId, claim, now)) && Claimed(rows[i], rowId, claim, now).id == rows[i].id
    {
      ClaimKeepsEvidence(rows[i], rowId, claim, now);
    }
    forall i | 0 <= i < |rows|
      ensures KeepsEvidence(rows[i], Reconcile(rows[i], now)) && Reconcile(rows[i], now).id == rows[i].id
    {
      ReconcileKeepsEvidence(rows[i], now);
    }
  }

  /** What an action does to the row list of one run. */
  lemma StepProtects(s: State, e: Event, runId: string)
    requires Valid(s) && Legal(s, e.action)
    requires runId in s.rowsByRun && runId in Next(s, e).rowsByRun
    ensures Protects(s.rowsByRun[runId], Next(s, e).rowsByRun[runId])
  {
    var rows := s.rowsByRun[runId];
    SameProtects(rows);
    match e.action
    case CreateRun(run, new_, order) => ProtectProtects(RowsOf(s, run.id), new_);
    case ReplaceRows(id, new_) => ProtectProtects(RowsOf(s, id), new_);
    case UpdateRow(id, rowId, patch) =>
      RowRuleProtects(rows, UpdateAll(rows, rowId, patch, e.now), rowId, patch, NO_CLAIM, false, e.now);
    case ClaimRowSubmission(id, rowId, claim) =>
      RowRuleProtects(rows, ClaimAll(rows, rowId, claim, e.now), rowId, NO_PATCH, claim, false, e.now);
    case SetRowSkipped(id, rowId, skipped) =>
      RowRuleProtects(rows, SkipAll(rows, rowId, skipped, e.now), rowId, NO_PATCH, NO_CLAIM, skipped, e.now);
    case PrepareRetryFailedRows(id) =>
      RowRuleProtects(rows, RetryAll(rows, e.now), "", NO_PATCH, NO_CLAIM, false, e.now);
    case ReconcileInterruptedRows(id) =>
      RowRuleProtects(rows, ReconcileAll(rows, e.now), "", NO_PATCH, NO_CLAIM, false, e.now);
    case ReconcileOrphanedRunsOnLaunch =>
      RowRuleProtects(rows, ReconcileAll(rows, e.now), "", NO_PATCH, NO_CLAIM, false, e.now);
    case _ =>
  }

  lemma RowRuleProtects(
      rows: seq<Row>, rows': seq<Row>, rowId: string, patch: Patch, claim: Claim, skipped: bool, now: int)
    requires DistinctIds(rows)
    requires rows' == UpdateAll(rows, rowId, patch, now) || rows' == ClaimAll(rows, rowId, claim, now)
          || rows' == SkipAll(rows, rowId, skipped, now) || rows' == RetryAll(rows, now) || rows' == ReconcileAll(rows, now)
    ensures Protects(rows, rows')
  {
    RowRulesKeep(rows, rowId, patch, claim, skipped, now);
  }

  // ----- Evidence over whole runs -----------------------------------------------------------------------------------

  /** Durable payment evidence is monotone and write-once: while a row stays stored, whatever happens to it (patches, claims,
      skips, retries, whole-list replacement, crash recovery), its evidence at the start is its evidence at the end. */
  lemma {:induction false} EvidenceIsWriteOnce(
      trace: seq<State>, events: seq<Event>, m: nat, n: nat, runId: string, r: Row, r': Row)
    requires History(trace, events) && m <= n <= |events|
    requires Stored(trace, m, n, runId, r.id)
    requires Holds(trace[m], runId, r) && Holds(trace[n], runId, r') && r'.id == r.id
    ensures KeepsEvidence(r, r')
    decreases n
  {
    hide Step;
    ReachableIsValid(trace, events, n);
    if m == n {
      SameProtects(trace[m].rowsByRun[runId]);
    } else {
      var before := trace[n - 1];
      assert Present(before, runId, r.id);
      var q :| Holds(before, runId, q) && q.id == r.id;
      EvidenceIsWriteOnce(trace, events, m, n - 1, runId, r, q);
      ReachableIsValid(trace, events, n - 1);
      StepProtects(before, events[n - 1], runId);
      EvidenceComposes(r, q, r');
    }
  }

  ghost predicate Claims(s: State, e: Event, runId: string, rowId: string) {
    && e.action.ClaimRowSubmission? && e.action.runId == runId && e.action.rowId == rowId
    && Outcome(s, runId, rowId, e.action.claim) == Granted
  }

  /** A claim on a stored row is granted exactly for a routed, ready row without evidence, under the attempt id of its own key
      and with a safe positive start time; it throws exactly when such a row has a blank key. */
  lemma GrantedExactlyWhen(s: State, runId: string, r: Row, claim: Claim)
    requires Valid(s) && Holds(s, runId, r)
    ensures var outcome := Outcome(s, runId, r.id, claim);
            var sendable := 0 < claim.startedAt <= MAX_SAFE_INTEGER && r.route.Some? && r.status == Ready
                            && !HasDurablePaymentEvidence(r);
            && (outcome == Granted <==> sendable && SubmissionAttemptId(r.idempotencyKey) == Some(claim.attemptId))
            && (outcome == Exception <==> sendable && Trim(r.idempotencyKey) == [])
  {
    var rows := s.rowsByRun[runId];
    var i :| 0 <= i < |rows| && rows[i] == r;
    assert forall j :: 0 <= j < |rows| && rows[j].id == r.id ==> j == i;
    SendableIffNoEvidence(r);
    assert Takes(r, r.id, claim) <==> exists j :: 0 <= j < |rows| && Takes(rows[j], r.id, claim);
    assert Throws(r, r.id) <==> exists j :: 0 <= j < |rows| && Throws(rows[j], r.id);
  }

  /** A granted claim takes a stored row without evidence and leaves a `sending` row that carries its attempt id. */
  lemma GrantedClaim(s: State, e: Event, runId: string, rowId: string) returns (r: Row, r': Row)
    requires Valid(s) && Claims(s, e, runId, rowId)
    ensures Holds(s, runId, r) && r.id == rowId && !HasDurablePaymentEvidence(r)
    ensures Holds(Next(s, e), runId, r') && r'.id == rowId && r'.status == Sending && HasAttempt(r')
    ensures r'.submissionAttemptId == SubmissionAttemptId(r.idempotencyKey)
  {
    var rows, claim := s.rowsByRun[runId], e.action.claim;
    var i :| 0 <= i < |rows| && Takes(rows[i], rowId, claim);
    r, r' := rows[i], ClaimAll(rows, rowId, claim, e.now)[i];
    SendableIffNoEvidence(r);
    AttemptIdIsNotBlank(r.idempotencyKey);
  }

  /** A row that once carried a submission attempt is refused as long as it stays stored. */
  lemma AttemptedRowIsRefused(trace: seq<State>, events: seq<Event>, m: nat, j: nat, runId: string, r: Row)
    requires History(trace, events) && m <= j < |events|
    requires Holds(trace[m], runId, r) && HasAttempt(r)
    requires Stored(trace, m, j, runId, r.id)
    ensures !Claims(trace[j], events[j], runId, r.id)
  {
    if Claims(trace[j], events[j], runId, r.id) {
      ReachableIsValid(trace, events, j);
      var q, q' := GrantedClaim(trace[j], events[j], runId, r.id);
      EvidenceIsWriteOnce(trace, events, m, j, runId, r, q);
      assert false;
    }
  }

  lemma AfterClaim(trace: seq<State>, events: seq<Event>, i: nat, runId: string, rowId: string) returns (r: Row)
    requires History(trace, events) && i < |events|
    requires Claims(trace[i], events[i], runId, rowId)
    ensures Holds(trace[i + 1], runId, r) && r.id == rowId && HasAttempt(r)
    ensures Present(trace[i + 1], runId, rowId)
  {
    ReachableIsValid(trace, events, i);
    var q, q' := GrantedClaim(trace[i], events[i], runId, rowId);
    r := q';
  }

  /** No double payment: if a row is claimed twice, some state in between did not store it. */
  lemma NoSecondClaim(trace: seq<State>, events: seq<Event>, i: nat, j: nat, runId: string, rowId: string)
    requires History(trace, events) && i < j < |events|
    requires Claims(trace[i], events[i], runId, rowId) && Claims(trace[j], events[j], runId, rowId)
    ensures !Stored(trace, i + 1, j, runId, rowId)
  {
    assert |trace| == |events| + 1;
    hide *;
    var r := AfterClaim(trace, events, i, runId, rowId);
    if Stored(trace, i + 1, j, runId, rowId) {
      AttemptedRowIsRefused(trace, events, i + 1, j, runId, r);
    }
  }

  /** The action deletes the run or pushes it out of the 25 newest. */
  predicate DropsRun(s: State, a: Action, runId: string) {
    a == DeleteRun(runId) || (a.CreateRun? && PrunedOut(s.runs[a.run.id := a.run], a.order, runId))
  }

  /** The ways an action can lose a stored row: it drops the run, or hands in a list for the run that does not name the row. */
  predicate DropsRow(s: State, e: Event, runId: string, rowId: string) {
    || DropsRun(s, e.action, runId)
    || (e.action.CreateRun? && e.action.run.id == runId && rowId !in Ids(e.action.rows))
    || (e.action.ReplaceRows? && e.action.runId == runId && rowId !in Ids(e.action.rows))
  }

  /** Exactly those actions lose a stored run. */
  lemma RunLostExactlyWhenDropped(s: State, e: Event, runId: string)
    requires Shape(s) && Ordered(s, e.action) && runId in s.runs
    ensures runId in Next(s, e).runs <==> !DropsRun(s, e.action, runId)
  {
    if e.action.CreateRun? {
      PruneDropsExactly(s.runs[e.action.run.id := e.action.run], e.action.order, runId);
    }
    hide PrunedOut, PruneRuns, Protect, UpdateAll, ClaimAll, SkipAll, RetryAll, ReconcileAll, Outcome;
  }

  lemma SameIdsStay(rows: seq<Row>, rows': seq<Row>, rowId: string)
    requires Ids(rows) == Ids(rows')
    requires exists r :: r in rows && r.id == rowId
    ensures exists r :: r in rows' && r.id == rowId
  {
    var r :| r in rows && r.id == rowId;
    var i :| 0 <= i < |rows| && rows[i] == r;
    assert Ids(rows)[i] == rowId && Ids(rows')[i] == rows'[i].id;
    assert rows'[i] in rows';
  }

  lemma NamedRowIsStored(existing: seq<Row>, rows: seq<Row>, rowId: string)
    requires rowId in Ids(rows)
    ensures exists r :: r in Protect(existing, rows) && r.id == rowId
  {
    var i :| 0 <= i < |rows| && Ids(rows)[i] == rowId;
    assert Protect(existing, rows)[i].id == rowId;
  }

  /** Only a list handed in for the run changes which rows it stores. */
  lemma StepKeepsIds(s: State, e: Event, runId: string)
    requires Valid(s) && runId in s.rowsByRun && runId in Next(s, e).rowsByRun
    requires !(e.action.CreateRun? && e.action.run.id == runId) && !(e.action.ReplaceRows? && e.action.runId == runId)
    ensures Ids(Next(s, e).rowsByRun[runId]) == Ids(s.rowsByRun[runId])
  {
    var rows := s.rowsByRun[runId];
    match e.action
    case UpdateRow(id, rowId, patch) =>
      RowRulesKeep(rows, rowId, patch, NO_CLAIM, false, e.now);
    case ClaimRowSubmission(id, rowId, claim) =>
      RowRulesKeep(rows, rowId, NO_PATCH, claim, false, e.now);
    case SetRowSkipped(id, rowId, skipped) =>
      RowRulesKeep(rows, rowId, NO_PATCH, NO_CLAIM, skipped, e.now);
    case PrepareRetryFailedRows(id) =>
      RowRulesKeep(rows, "", NO_PATCH, NO_CLAIM, false, e.now);
    case ReconcileInterruptedRows(id) =>
      RowRulesKeep(rows, "", NO_PATCH, NO_CLAIM, false, e.now);
    case ReconcileOrphanedRunsOnLaunch =>
      RowRulesKeep(rows, "", NO_PATCH, NO_CLAIM, false, e.now);
    case _ =>
  }

  /** Exactly those actions lose a stored row. */
  lemma LostExactlyWhenDropped(s: State, e: Event, runId: string, rowId: string)
    requires Valid(s) && Legal(s, e.action) && Present(s, runId, rowId)
    ensures Present(Next(s, e), runId, rowId) <==> !DropsRow(s, e, runId, rowId)
  {
    StepKeepsValid(s, e.action, e.now);
    RunLostExactlyWhenDropped(s, e, runId);
    hide DropsRun;
    var s' := Next(s, e);
    if runId in s'.runs {
      if e.action.CreateRun? && e.action.run.id == runId {
        ListStores(RowsOf(s, runId), e.action.rows, rowId);
        assert s'.rowsByRun[runId] == Protect(RowsOf(s, runId), e.action.rows);
      } else if e.action.ReplaceRows? && e.action.runId == runId {
        ListStores(RowsOf(s, runId), e.action.rows, rowId);
      } else {
        StepKeepsIds(s, e, runId);
        SameIdsStay(s.rowsByRun[runId], s'.rowsByRun[runId], rowId);
      }
    }
  }

  lemma ListStores(existing: seq<Row>, list: seq<Row>, rowId: string)
    ensures (exists r :: r in Protect(existing, list) && r.id == rowId) <==> rowId in Ids(list)
  {
    if rowId in Ids(list) { NamedRowIsStored(existing, list, rowId); }
    if r :| r in Protect(existing, list) && r.id == rowId {
      var i :| 0 <= i < |list| && Protect(existing, list)[i] == r;
      assert Ids(list)[i] == rowId;
    }
  }

  /** A claim is granted at most once per row while no action drops the row. */
  lemma ClaimedAtMostOnce(trace: seq<State>, events: seq<Event>, i: nat, j: nat, runId: string, rowId: string)
    requires History(trace, events) && i < j < |events|
    requires Claims(trace[i], events[i], runId, rowId)
    requires forall m :: i < m < j ==> !DropsRow(trace[m], events[m], runId, rowId)
    ensures !Claims(trace[j], events[j], runId, rowId)
  {
    assert |trace| == |events| + 1;
    hide *;
    var r := AfterClaim(trace, events, i, runId, rowId);
    StaysStored(trace, events, i + 1, j, runId, rowId);
    AttemptedRowIsRefused(trace, events, i + 1, j, runId, r);
  }

  lemma {:induction false} StaysStored(trace: seq<State>, events: seq<Event>, m: nat, n: nat, runId: string, rowId: string)
    requires History(trace, events) && m <= n <= |events|
    requires Present(trace[m], runId, rowId)
    requires forall k :: m <= k < n ==> !DropsRow(trace[k], events[k], runId, rowId)
    ensures Stored(trace, m, n, runId, rowId)
    decreases n
  {
    hide Step, DropsRow, Present, Valid, Legal, Next;
    if m < n {
      StaysStored(trace, events, m, n - 1, runId, rowId);
      ReachableIsValid(trace, events, n - 1);
      LostExactlyWhenDropped(trace[n - 1], events[n - 1], runId, rowId);
    }
  }

  const SAMPLE_ROW := Row("row", "", Some(Umbra), Ready, false, None, None, None, None, "key", None, None, false, 0, 0)
  const SAMPLE_RUN := Run("run", "", Running, "", None, ["row"], 0, None, 0)
  const SAMPLE_STATE := State(map["run" := SAMPLE_RUN], map["run" := [SAMPLE_ROW]])
  const SAMPLE_CLAIM := Event(1, ClaimRowSubmission("run", "row", Claim("payroll:key", 1)))
  const DROP_AND_RELIST :=
    [SAMPLE_CLAIM, Event(2, ReplaceRows("run", [])), Event(3, ReplaceRows("run", [SAMPLE_ROW])), SAMPLE_CLAIM]

  /** Dropping is what the guarantee cannot survive: a row dropped from its list and listed again is claimed twice. */
  lemma DroppedRowIsClaimedAgain() returns (trace: seq<State>)
    ensures History(trace, DROP_AND_RELIST)
    ensures Claims(trace[0], DROP_AND_RELIST[0], "run", "row") && Claims(trace[3], DROP_AND_RELIST[3], "run", "row")
  {
    var s0 := SAMPLE_STATE;
    SampleIsClaimed(s0);
    hide Step, Claims;
    var s1 := Next(s0, SAMPLE_CLAIM);
    var s2 := Next(s1, DROP_AND_RELIST[1]);
    var s3 := Next(s2, DROP_AND_RELIST[2]);
    trace := [s0, s1, s2, s3, Next(s3, SAMPLE_CLAIM)];
    assert Protect(RowsOf(s1, "run"), []) == [];
    assert Protect([], [SAMPLE_ROW]) == [SAMPLE_ROW];
    SampleIsClaimed(s3);
  }

  lemma SampleIsClaimed(s: State)
    requires "run" in s.rowsByRun && s.rowsByRun["run"] == [SAMPLE_ROW]
    ensures Claims(s, SAMPLE_CLAIM, "run", "row") && Next(s, SAMPLE_CLAIM).runs == s.runs
  {
    assert "payroll:" + "key" == "payroll:key";
    assert Takes(s.rowsByRun["run"][0], "row", Claim("payroll:key", 1));
  }

  const TWINS := State(map["run" := SAMPLE_RUN], map["run" := [SAMPLE_ROW, SAMPLE_ROW.(idempotencyKey := "yak")]])

  /** So are the distinct ids: two rows under one id are claimed one after the other. */
  lemma DuplicateIdIsClaimedTwice()
    ensures var second := Event(2, ClaimRowSubmission("run", "row", Claim("payroll:yak", 2)));
            Claims(TWINS, SAMPLE_CLAIM, "run", "row") && Claims(Next(TWINS, SAMPLE_CLAIM), second, "run", "row")
  {
    TwinsClaimApart();
    hide Takes, Claimed;
    var rows := TWINS.rowsByRun["run"];
    var next := ClaimAll(rows, "row", Claim("payroll:key", 1), 1);
    assert Next(TWINS, SAMPLE_CLAIM) == WithRows(TWINS, "run", next);
    assert next[1] == rows[1];
  }

  lemma TwinsClaimApart()
    ensures var rows, first, second := TWINS.rowsByRun["run"], Claim("payroll:key", 1), Claim("payroll:yak", 2);
            && Takes(rows[0], "row", first) && Takes(rows[1], "row", second)
            && (forall row :: row in rows ==> !Throws(row, "row"))
            && Claimed(rows[1], "row", first, 1) == rows[1]
            && !Throws(Claimed(rows[0], "row", first, 1), "row")
  {
    assert "payroll:" + "key" == "payroll:key" && "payroll:" + "yak" == "payroll:yak";
    assert "payroll:key"[8] != "payroll:yak"[8];
  }

  // ----- Launch recovery --------------------------------------------------------------------------------------------

  function LiveRuns(s: State): set<string> {
    set k | k in s.runs && IsLive(s.runs[k])
  }

  /** Recovery leaves no live run, fails every orphaned `sending` row of the live runs so that it can never be sent again,
      and touches nothing else. */
  lemma LaunchRecovers(s: State, now: int)
    requires Shape(s)
    ensures var s' := Launch(s, now);
            && LiveRuns(s') == {} && s'.runs.Keys == s.runs.Keys && s'.rowsByRun.Keys == s.rowsByRun.Keys
            && (forall k :: k in s.runs && k !in LiveRuns(s) ==>
                  s'.runs[k] == s.runs[k] && s'.rowsByRun[k] == s.rowsByRun[k])
            && (forall k :: k in LiveRuns(s) ==>
                  && s'.runs[k] == s.runs[k].(status := Paused, updatedAt := now)
                  && RowsRecovered(s.rowsByRun[k], s'.rowsByRun[k]))
  {
    forall k | k in LiveRuns(s) ensures RowsRecovered(s.rowsByRun[k], ReconcileAll(s.rowsByRun[k], now)) {
      ReconcileAllRecovers(s.rowsByRun[k], now);
    }
  }

  ghost predicate RowsRecovered(rows: seq<Row>, rows': seq<Row>) {
    |rows'| == |rows| && forall i :: 0 <= i < |rows| ==> Recovered(rows[i], rows'[i])
  }

  lemma ReconcileAllRecovers(rows: seq<Row>, now: int)
    ensures RowsRecovered(rows, ReconcileAll(rows, now))
  {
    forall i | 0 <= i < |rows| ensures Recovered(rows[i], Reconcile(rows[i], now)) {
      ReconcileKeepsEvidence(rows[i], now);
      SendableIffNoEvidence(Reconcile(rows[i], now));
    }
  }

  /** Recovering again changes nothing. */
  lemma LaunchIsIdempotent(s: State, now: int, later: int)
    ensures Launch(Launch(s, now), later) == Launch(s, now)
  {
    var s' := Launch(s, now);
    assert forall k :: k in s'.runs ==> !IsLive(s'.runs[k]);
    assert Launch(s', later).runs == s'.runs;
    assert Launch(s', later).rowsByRun == s'.rowsByRun;
  }

  ghost predicate Recovered(r: Row, r': Row) {
    if IsOrphaned(r) then r'.id == r.id && r'.status == Failed && HasAttempt(r') && r'.reconciliationRequired && !IsSendable(r')
    else r' == r
  }

  /** A recovered row stays out of reach of every later retry and claim. */
  lemma RecoveredRowStaysLocked(
      trace: seq<State>, events: seq<Event>, m: nat, n: nat, runId: string, r: Row, r': Row, now: int)
    requires History(trace, events) && m <= n <= |events|
    requires Holds(trace[m], runId, r) && HasAttempt(r) && r.reconciliationRequired
    requires Stored(trace, m, n, runId, r.id)
    requires Holds(trace[n], runId, r') && r'.id == r.id
    ensures !IsSendable(r') && Retry(r', now) == r'
    ensures forall claim :: Claimed(r', r'.id, claim, now) == r'
  {
    EvidenceIsWriteOnce(trace, events, m, n, runId, r, r');
    SendableIffNoEvidence(r');
  }
}
