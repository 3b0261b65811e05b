/** The payroll store (store/payrollStore.ts) as a state machine over its actions, and the double-pay guard. */
module Payroll {
  import opened Common
  import opened Ordering
  import opened PayrollTypes

  const MAX_RUNS := 25

  datatype State = State(runs: map<string, Run>, rowsByRun: map<string, seq<Row>>)

  /** `order` is the property order in which `Object.values` lists the runs. */
  datatype Action =
    | CreateRun(run: Run, rows: seq<Row>, order: seq<string>)
    | ReplaceRows(runId: string, rows: seq<Row>)
    | SetRunStatus(runId: string, status: RunStatus)
    | SetRunPolicy(runId: string, policy: string)
    | SetRunToken(runId: string, token: Option<Token>)
    | SetRunRoutesDirty(runId: string, dirty: bool)
    | SetRunCursor(runId: string, cursor: int)
    | UpdateRow(runId: string, rowId: string, patch: Patch)
    | ClaimRowSubmission(runId: string, rowId: string, claim: Claim)
    | SetRowSkipped(runId: string, rowId: string, skipped: bool)
    | PrepareRetryFailedRows(runId: string)
    | ReconcileInterruptedRows(runId: string)
    | ReconcileOrphanedRunsOnLaunch
    | DeleteRun(runId: string)

  // ----- Pruning ----------------------------------------------------------------------------------------------------

  function Newest(): (Run, Run) -> bool {
    (l: Run, r: Run) => l.updatedAt > r.updatedAt
  }

  function Values(runs: map<string, Run>, order: seq<string>): seq<Run> {
    if order == [] then []
    else (if order[0] in runs then [runs[order[0]]] else []) + Values(runs, order[1..])
  }

  function ById(kept: seq<Run>): map<string, Run> {
    if kept == [] then map[] else ById(kept[..|kept| - 1])[kept[|kept| - 1].id := kept[|kept| - 1]]
  }

  function PruneRuns(runs: map<string, Run>, order: seq<string>): map<string, Run> {
    var entries := Values(runs, order);
    if |entries| <= MAX_RUNS then runs else ById(Take(Sort(entries, Newest()), MAX_RUNS))
  }

  // ----- Rows -------------------------------------------------------------------------------------------------------

  /** `new Map(rows.map((row) => [row.id, row])).get(id)`: the last row with the id. */
  function Existing(rows: seq<Row>, id: string): Option<Row> {
    if rows == [] then None
    else if rows[|rows| - 1].id == id then Some(rows[|rows| - 1])
    else Existing(rows[..|rows| - 1], id)
  }

  function RowsOf(s: State, runId: string): seq<Row> {
    if runId in s.rowsByRun then s.rowsByRun[runId] else []
  }

  function Protect(existing: seq<Row>, rows: seq<Row>): seq<Row> {
    seq(|rows|, i requires 0 <= i < |rows| => Preserve(Existing(existing, rows[i].id), rows[i]))
  }

  function Ids(rows: seq<Row>): seq<string> {
    seq(|rows|, i requires 0 <= i < |rows| => rows[i].id)
  }

  function UpdateAll(rows: seq<Row>, rowId: string, patch: Patch, now: int): seq<Row> {
    seq(|rows|, i requires 0 <= i < |rows| => Update(rows[i], rowId, patch, now))
  }

  function ClaimAll(rows: seq<Row>, rowId: string, claim: Claim, now: int): seq<Row> {
    seq(|rows|, i requires 0 <= i < |rows| => Claimed(rows[i], rowId, claim, now))
  }

  function SkipAll(rows: seq<Row>, rowId: string, skipped: bool, now: int): seq<Row> {
    seq(|rows|, i requires 0 <= i < |rows| => Skip(rows[i], rowId, skipped, now))
  }

  function RetryAll(rows: seq<Row>, now: int): seq<Row> {
    seq(|rows|, i requires 0 <= i < |rows| => Retry(rows[i], now))
  }

  function ReconcileAll(rows: seq<Row>, now: int): seq<Row> {
    seq(|rows|, i requires 0 <= i < |rows| => Reconcile(rows[i], now))
  }

  /** Whether the row rule of the claim takes row `row`, and whether it throws on it. */
  predicate Takes(row: Row, rowId: string, claim: Claim) {
    row.id == rowId && Claimable(row) && SubmissionAttemptId(row.idempotencyKey) == Some(claim.attemptId)
  }

  predicate Throws(row: Row, rowId: string) {
    row.id == rowId && Claimable(row) && SubmissionAttemptId(row.idempotencyKey) == None
  }

  datatype ClaimOutcome = Granted | Refused | Exception

  function Outcome(s: State, runId: string, rowId: string, claim: Claim): ClaimOutcome {
    if runId !in s.rowsByRun || !(0 < claim.startedAt <= MAX_SAFE_INTEGER) then Refused
    else
      var rows := s.rowsByRun[runId];
      if exists i :: 0 <= i < |rows| && Throws(rows[i], rowId) then Exception
      else if exists i :: 0 <= i < |rows| && Takes(rows[i], rowId, claim) then Granted
      else Refused
  }

  // ----- Actions ----------------------------------------------------------------------------------------------------

  predicate IsLive(run: Run) {
    run.status == Running || run.status == Confirming
  }

  function Launch(s: State, now: int): State {
    State(
      map k | k in s.runs :: if IsLive(s.runs[k]) then s.runs[k].(status := Paused, updatedAt := now) else s.runs[k],
      map k | k in s.rowsByRun ::
        if k in s.runs && IsLive(s.runs[k]) then ReconcileAll(s.rowsByRun[k], now) else s.rowsByRun[k])
  }

  function WithRows(s: State, runId: string, rows: seq<Row>): State {
    s.(rowsByRun := s.rowsByRun[runId := rows])
  }

  function Step(s: State, a: Action, now: int): State {
    match a
    case CreateRun(run, rows, order) =>
      var runs := PruneRuns(s.runs[run.id := run], order);
      var rowsByRun := s.rowsByRun[run.id := Protect(RowsOf(s, run.id), rows)];
      State(runs, map k | k in rowsByRun && k in runs :: rowsByRun[k])
    case ReplaceRows(runId, rows) =>
      if runId !in s.runs then s
      else
        var protected := Protect(RowsOf(s, runId), rows);
        WithRows(s, runId, protected).(
          runs := s.runs[runId := s.runs[runId].(rowIds := Ids(protected), routesDirty := Some(true), updatedAt := now)])
    case SetRunStatus(runId, status) =>
      if runId !in s.runs then s else s.(runs := s.runs[runId := s.runs[runId].(status := status, updatedAt := now)])
    case SetRunPolicy(runId, policy) =>
      if runId !in s.runs then s else s.(runs := s.runs[runId := s.runs[runId].(policy := policy, updatedAt := now)])
    case SetRunToken(runId, token) =>
      if runId !in s.runs then s
      else s.(runs := s.runs[runId := s.runs[runId].(token := token, routesDirty := Some(true), updatedAt := now)])
    case SetRunRoutesDirty(runId, dirty) =>
      if runId !in s.runs || s.runs[runId].routesDirty == Some(dirty) then s
      else s.(runs := s.runs[runId := s.runs[runId].(routesDirty := Some(dirty), updatedAt := now)])
    case SetRunCursor(runId, cursor) =>
      if runId !in s.runs then s else s.(runs := s.runs[runId := s.runs[runId].(cursor := cursor, updatedAt := now)])
    case UpdateRow(runId, rowId, patch) =>
      if runId !in s.rowsByRun then s else WithRows(s, runId, UpdateAll(s.rowsByRun[runId], rowId, patch, now))
    case ClaimRowSubmission(runId, rowId, claim) =>
      if Outcome(s, runId, rowId, claim) != Granted then s
      else WithRows(s, runId, ClaimAll(s.rowsByRun[runId], rowId, claim, now))
    case SetRowSkipped(runId, rowId, skipped) =>
      if runId !in s.rowsByRun || SkipAll(s.rowsByRun[runId], rowId, skipped, now) == s.rowsByRun[runId] then s
      else
        var s1 := WithRows(s, runId, SkipAll(s.rowsByRun[runId], rowId, skipped, now));
        if runId !in s.runs then s1
        else s1.(runs := s.runs[runId := s.runs[runId].(routesDirty := Some(true), updatedAt := now)])
    case PrepareRetryFailedRows(runId) =>
      if runId !in s.rowsByRun then s else WithRows(s, runId, RetryAll(s.rowsByRun[runId], now))
    case ReconcileInterruptedRows(runId) =>
      if runId !in s.rowsByRun then s else WithRows(s, runId, ReconcileAll(s.rowsByRun[runId], now))
    case ReconcileOrphanedRunsOnLaunch => Launch(s, now)
    case DeleteRun(runId) => State(s.runs - {runId}, s.rowsByRun - {runId})
  }

  // ----- Reachable states -------------------------------------------------------------------------------------------

  ghost predicate DistinctIds(rows: seq<Row>) {
    forall i, j :: 0 <= i < j < |rows| ==> rows[i].id != rows[j].id
  }

  /** The property order lists every run once. */
  ghost predicate Ordered(s: State, a: Action) {
    a.CreateRun? ==> NoRepeats(a.order) && forall k :: k in a.order <==> k in s.runs || k == a.run.id
  }

  /** In addition, new row lists have distinct ids. */
  ghost predicate Legal(s: State, a: Action) {
    Ordered(s, a) && (a.CreateRun? || a.ReplaceRows? ==> DistinctIds(a.rows))
  }

  /** Runs and row lists have the same keys, each run sits under its own id, and there are at most 25 runs. */
  ghost predicate Shape(s: State) {
    && s.runs.Keys == s.rowsByRun.Keys
    && (forall k :: k in s.runs ==> s.runs[k].id == k)
    && |s.runs| <= MAX_RUNS
  }

  /** In addition, row ids are distinct within a run. */
  ghost predicate Valid(s: State) {
    Shape(s) && forall k :: k in s.rowsByRun ==> DistinctIds(s.rowsByRun[k])
  }

  lemma ValuesFacts(runs: map<string, Run>, order: seq<string>)
    requires NoRepeats(order) && forall k :: k in order <==> k in runs
    ensures |Values(runs, order)| == |order| == |runs|
    ensures forall i :: 0 <= i < |order| ==> Values(runs, order)[i] == runs[order[i]]
  {
    ValuesAt(runs, order);
    OrderSize(order, runs.Keys);
  }

  lemma {:induction false} ValuesAt(runs: map<string, Run>, order: seq<string>)
    requires forall k :: k in order ==> k in runs
    ensures |Values(runs, order)| == |order|
    ensures forall i :: 0 <= i < |order| ==> Values(runs, order)[i] == runs[order[i]]
  {
    if order != [] {
      ValuesAt(runs, order[1..]);
      assert order[0] in order;
    }
  }

  lemma {:induction false} OrderSize(order: seq<string>, keys: set<string>)
    requires NoRepeats(order) && forall k :: k in order <==> k in keys
    ensures |order| == |keys|
  {
    if order == [] {
      assert keys == {};
    } else {
      OrderSize(order[1..], keys - {order[0]});
    }
  }

  ghost predicate DistinctRuns(runs: seq<Run>) {
    forall i, j :: 0 <= i < j < |runs| ==> runs[i].id != runs[j].id
  }

  ghost predicate Indexes(m: map<string, Run>, kept: seq<Run>) {
    && |m| == |kept|
    && (forall k :: k in m ==> m[k].id == k && m[k] in kept)
    && (forall i :: 0 <= i < |kept| ==> kept[i].id in m && m[kept[i].id] == kept[i])
  }

  lemma IndexesOneMore(m: map<string, Run>, kept: seq<Run>, last: Run)
    requires Indexes(m, kept) && forall i :: 0 <= i < |kept| ==> kept[i].id != last.id
    ensures Indexes(m[last.id := last], kept + [last])
  {
    assert m[last.id := last].Keys == m.Keys + {last.id};
  }

  lemma {:induction false} ByIdFacts(kept: seq<Run>)
    requires DistinctRuns(kept)
    ensures Indexes(ById(kept), kept)
  {
    if kept != [] {
      var init, last := kept[..|kept| - 1], kept[|kept| - 1];
      ByIdFacts(init);
      IndexesOneMore(ById(init), init, last);
      assert kept == init + [last];
    }
  }

  lemma PermutedRunsDistinct(entries: seq<Run>, sorted: seq<Run>)
    requires DistinctRuns(entries) && multiset(sorted) == multiset(entries)
    ensures DistinctRuns(sorted)
  {
    PermutationHasNoRepeats(entries, sorted);
    forall i, j | 0 <= i < j < |sorted| ensures sorted[i].id != sorted[j].id {
      assert sorted[i] in multiset(entries) && sorted[j] in multiset(entries);
    }
  }

  /** The runs that survive pruning, newest first. */
  lemma KeptRuns(entries: seq<Run>)
    requires DistinctRuns(entries) && |entries| > MAX_RUNS
    ensures var kept := Take(Sort(entries, Newest()), MAX_RUNS);
            && DistinctRuns(kept) && |kept| == MAX_RUNS
            && (forall r :: r in kept ==> r in entries)
            && (forall x, y :: x in entries && x !in kept && y in kept ==> x.updatedAt <= y.updatedAt)
  {
    SortIsSortedPermutation(entries, Newest());
    PermutedRunsDistinct(entries, Sort(entries, Newest()));
    TakeKeepsFirst(entries, MAX_RUNS, Newest());
    var kept := Take(Sort(entries, Newest()), MAX_RUNS);
    forall x, y | x in entries && x !in kept && y in kept ensures x.updatedAt <= y.updatedAt {
      assert !Newest()(x, y);
    }
  }

  /** Pruning keeps the runs themselves, at most 25 of them, and drops none that was updated later than one it keeps. */
  lemma PruneKeepsNewest(runs: map<string, Run>, order: seq<string>)
    requires NoRepeats(order) && forall k :: k in order <==> k in runs
    requires forall k :: k in runs ==> runs[k].id == k
    ensures var kept := PruneRuns(runs, order);
            && |kept| == (if |runs| <= MAX_RUNS then |runs| else MAX_RUNS)
            && (forall k :: k in kept ==> k in runs && kept[k] == runs[k])
            && (forall j, k :: j in kept && k in runs && k !in kept ==> runs[k].updatedAt <= runs[j].updatedAt)
  {
    ValuesFacts(runs, order);
    var entries := Values(runs, order);
    if |entries| > MAX_RUNS {
      assert DistinctRuns(entries);
      KeptRuns(entries);
      ByIdFacts(Take(Sort(entries, Newest()), MAX_RUNS));
      KeptAreRuns(runs, order, entries, Take(Sort(entries, Newest()), MAX_RUNS));
    }
  }

  lemma KeptAreRuns(runs: map<string, Run>, order: seq<string>, entries: seq<Run>, kept: seq<Run>)
    requires forall k :: k in order <==> k in runs
    requires forall k :: k in runs ==> runs[k].id == k
    requires |entries| == |order| && forall i :: 0 <= i < |order| ==> entries[i] == runs[order[i]]
    requires forall r :: r in kept ==> r in entries
    requires forall x, y :: x in entries && x !in kept && y in kept ==> x.updatedAt <= y.updatedAt
    requires Indexes(ById(kept), kept)
    ensures forall k :: k in ById(kept) ==> k in runs && ById(kept)[k] == runs[k]
    ensures forall j, k :: j in ById(kept) && k in runs && k !in ById(kept) ==> runs[k].updatedAt <= runs[j].updatedAt
  {
    forall k | k in ById(kept) ensures k in runs && ById(kept)[k] == runs[k] {
      var i :| 0 <= i < |entries| && entries[i] == ById(kept)[k];
      assert order[i] in order;
    }
    forall k | k in runs && k !in ById(kept) ensures runs[k] in entries && runs[k] !in kept {
      assert k in order;
      var i :| 0 <= i < |order| && order[i] == k;
      assert entries[i] == runs[k];
    }
  }

  /** Twenty-five runs or more come ahead of the run: newer ones, and equally old ones listed earlier. */
  predicate PrunedOut(runs: map<string, Run>, order: seq<string>, runId: string) {
    var entries := Values(runs, order);
    |entries| > MAX_RUNS &&
    exists i :: 0 <= i < |entries| && entries[i].id == runId && Rank(entries, i, Newest()) >= MAX_RUNS
  }

  /** Pruning drops exactly those runs. */
  lemma PruneDropsExactly(runs: map<string, Run>, order: seq<string>, runId: string)
    requires NoRepeats(order) && forall k :: k in order <==> k in runs
    requires forall k :: k in runs ==> runs[k].id == k
    requires runId in runs
    ensures runId in PruneRuns(runs, order) <==> !PrunedOut(runs, order, runId)
  {
    ValuesFacts(runs, order);
    var entries := Values(runs, order);
    if |entries| > MAX_RUNS {
      assert DistinctRuns(entries);
      KeptRuns(entries);
      ByIdFacts(Take(Sort(entries, Newest()), MAX_RUNS));
      var i :| 0 <= i < |order| && order[i] == runId;
      PrunedOutByRank(runs, order, i);
      KeptByRank(entries, i);
      hide Rank, Sort, Take, Newest, ById, Values, NoRepeats, Indexes, DistinctRuns, PrunedOut;
    }
  }

  lemma PrunedOutByRank(runs: map<string, Run>, order: seq<string>, i: nat)
    requires var entries := Values(runs, order);
             i < |entries| && |entries| > MAX_RUNS && DistinctRuns(entries)
    ensures PrunedOut(runs, order, Values(runs, order)[i].id) <==> Rank(Values(runs, order), i, Newest()) >= MAX_RUNS
  {
    hide Rank, Values;
  }

  lemma KeptByRank(entries: seq<Run>, i: nat)
    requires DistinctRuns(entries) && |entries| > MAX_RUNS && i < |entries|
    requires var kept := Take(Sort(entries, Newest()), MAX_RUNS);
             Indexes(ById(kept), kept) && forall r :: r in kept ==> r in entries
    ensures entries[i].id in ById(Take(Sort(entries, Newest()), MAX_RUNS)) <==> Rank(entries, i, Newest()) < MAX_RUNS
  {
    var kept := Take(Sort(entries, Newest()), MAX_RUNS);
    TakeByRank(entries, MAX_RUNS, i, Newest());
    hide Rank, Sort, Take, Newest, ById;
    if entries[i].id in ById(kept) {
      var r := ById(kept)[entries[i].id];
      var j :| 0 <= j < |entries| && entries[j] == r;
      assert i == j;
    }
  }

  lemma CreateKeepsShape(s: State, run: Run, rows: seq<Row>, order: seq<string>, now: int)
    requires Shape(s) && Ordered(s, CreateRun(run, rows, order))
    ensures Shape(Step(s, CreateRun(run, rows, order), now))
  {
    PruneKeepsNewest(s.runs[run.id := run], order);
    hide PruneRuns, Protect, NoRepeats;
    var r := Step(s, CreateRun(run, rows, order), now);
    assert r.runs.Keys == r.rowsByRun.Keys;
  }

  /** The runs of `s` with at most one of them overwritten in place, or all of them by a launch. */
  ghost predicate SameRuns(s: State, r: State) {
    && r.runs.Keys == s.runs.Keys && r.rowsByRun.Keys == s.rowsByRun.Keys
    && forall k :: k in s.runs ==> r.runs[k].id == s.runs[k].id
  }

  lemma OneListWritten(s: State, r: State, runId: string)
    requires r.runs == s.runs
    requires if runId in s.rowsByRun
             then runId in r.rowsByRun && r.rowsByRun == s.rowsByRun[runId := r.rowsByRun[runId]]
             else r.rowsByRun == s.rowsByRun
    ensures SameRuns(s, r)
  {
  }

  lemma OneRunWritten(s: State, r: State, runId: string)
    requires r.rowsByRun == s.rowsByRun
    requires if runId in s.runs
             then runId in r.runs && r.runs == s.runs[runId := r.runs[runId]] && r.runs[runId].id == s.runs[runId].id
             else r.runs == s.runs
    ensures SameRuns(s, r)
  {
  }

  lemma SettersKeepRuns(s: State, a: Action, now: int)
    requires a.SetRunStatus? || a.SetRunPolicy? || a.SetRunToken? || a.SetRunRoutesDirty? || a.SetRunCursor?
    ensures SameRuns(s, Step(s, a, now))
  {
    hide SameRuns;
    OneRunWritten(s, Step(s, a, now), a.runId);
  }

  /** No other action adds or removes a run. */
  lemma OthersKeepRuns(s: State, a: Action, now: int)
    requires Shape(s) && !a.CreateRun? && !a.DeleteRun?
    ensures SameRuns(s, Step(s, a, now))
  {
    hide PruneRuns, Protect, UpdateAll, ClaimAll, SkipAll, RetryAll, ReconcileAll, Ids, Outcome, SameRuns, Launch;
    var r := Step(s, a, now);
    match a
    case ReplaceRows(runId, _) => BothWritten(s, r, runId);
    case SetRowSkipped(runId, _, _) => BothWritten(s, r, runId);
    case UpdateRow(runId, _, _) => OneListWritten(s, r, runId);
    case ClaimRowSubmission(runId, rowId, claim) => ClaimKeepsRuns(s, runId, rowId, claim, now);
    case PrepareRetryFailedRows(runId) => OneListWritten(s, r, runId);
    case ReconcileInterruptedRows(runId) => OneListWritten(s, r, runId);
    case ReconcileOrphanedRunsOnLaunch => LaunchKeepsRuns(s, now);
    case CreateRun(_, _, _) =>
    case DeleteRun(_) =>
    case _ => SettersKeepRuns(s, a, now);
  }

  lemma BothWritten(s: State, r: State, runId: string)
    requires Shape(s)
    requires if runId in s.runs
             then
               && runId in r.runs && r.runs == s.runs[runId := r.runs[runId]] && r.runs[runId].id == s.runs[runId].id
               && runId in r.rowsByRun && r.rowsByRun == s.rowsByRun[runId := r.rowsByRun[runId]]
             else r == s
    ensures SameRuns(s, r)
  {
  }

  lemma ClaimKeepsRuns(s: State, runId: string, rowId: string, claim: Claim, now: int)
    ensures SameRuns(s, Step(s, ClaimRowSubmission(runId, rowId, claim), now))
  {
  }

  lemma LaunchKeepsRuns(s: State, now: int)
    ensures SameRuns(s, Launch(s, now))
  {
  }

  /** Every action keeps the shape of the store, whatever the row lists. */
  lemma StepKeepsShape(s: State, a: Action, now: int)
    requires Shape(s) && Ordered(s, a)
    ensures Shape(Step(s, a, now))
  {
    match a
    case CreateRun(run, rows, order) => CreateKeepsShape(s, run, rows, order, now);
    case DeleteRun(runId) =>
    case _ =>
      OthersKeepRuns(s, a, now);
      hide Step, Ordered;
  }

  lemma RulesKeepIds(rows: seq<Row>, rowId: string, patch: Patch, claim: Claim, skipped: bool, now: int)
    requires DistinctIds(rows)
    ensures DistinctIds(UpdateAll(rows, rowId, patch, now)) && DistinctIds(ClaimAll(rows, rowId, claim, now))
    ensures DistinctIds(SkipAll(rows, rowId, skipped, now))
    ensures DistinctIds(RetryAll(rows, now)) && DistinctIds(ReconcileAll(rows, now))
  {
  }

  /** A patch that says nothing. */
  const NO_PATCH := Patch(None, None, None, None, None, None, None, None, None, None, None, None, None)
  const NO_CLAIM := Claim("", 0)

  /** The row list an action leaves for a run is one of those the row rules and protection make. */
  lemma StepKeepsDistinctIds(s: State, a: Action, now: int, k: string)
    requires Valid(s) && Legal(s, a) && k in Step(s, a, now).rowsByRun
    ensures DistinctIds(Step(s, a, now).rowsByRun[k])
  {
    hide DistinctIds, NoRepeats, PruneRuns, Protect, UpdateAll, ClaimAll, SkipAll, RetryAll, ReconcileAll, Outcome, Ids;
    match a
    case CreateRun(run, rows, order) => ProtectKeepsIds(RowsOf(s, run.id), rows);
    case ReplaceRows(runId, rows) => ProtectKeepsIds(RowsOf(s, runId), rows);
    case UpdateRow(runId, rowId, patch) => RulesKeepIds(s.rowsByRun[k], rowId, patch, NO_CLAIM, false, now);
    case ClaimRowSubmission(runId, rowId, claim) => ClaimKeepsIds(s, runId, rowId, claim, now, k);
    case SetRowSkipped(runId, rowId, skipped) => RulesKeepIds(s.rowsByRun[k], rowId, NO_PATCH, NO_CLAIM, skipped, now);
    case PrepareRetryFailedRows(runId) => RulesKeepIds(s.rowsByRun[k], "", NO_PATCH, NO_CLAIM, false, now);
    case ReconcileInterruptedRows(runId) => RulesKeepIds(s.rowsByRun[k], "", NO_PATCH, NO_CLAIM, false, now);
    case ReconcileOrphanedRunsOnLaunch => RulesKeepIds(s.rowsByRun[k], "", NO_PATCH, NO_CLAIM, false, now);
    case _ =>
  }

  lemma ClaimKeepsIds(s: State, runId: string, rowId: string, claim: Claim, now: int, k: string)
    requires Valid(s) && k in Step(s, ClaimRowSubmission(runId, rowId, claim), now).rowsByRun
    ensures DistinctIds(Step(s, ClaimRowSubmission(runId, rowId, claim), now).rowsByRun[k])
  {
    RulesKeepIds(s.rowsByRun[k], rowId, NO_PATCH, claim, false, now);
  }

  lemma ProtectKeepsIds(existing: seq<Row>, rows: seq<Row>)
    requires DistinctIds(rows)
    ensures DistinctIds(Protect(existing, rows))
  {
  }

  /** With distinct ids in the lists handed in, ids stay distinct too. */
  lemma StepKeepsValid(s: State, a: Action, now: int)
    requires Valid(s) && Legal(s, a)
    ensures Valid(Step(s, a, now))
  {
    StepKeepsShape(s, a, now);
    forall k | k in Step(s, a, now).rowsByRun ensures DistinctIds(Step(s, a, now).rowsByRun[k]) {
      StepKeepsDistinctIds(s, a, now, k);
    }
  }
}
