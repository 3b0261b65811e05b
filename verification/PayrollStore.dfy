/** store/payrollStore.ts in its own shape: actions that overwrite `runs` and `rowsByRun`, with the flags and counters the
    actions return. Each is proved against the step of the state machine. */
module PayrollStore {
  import opened Common
  import opened Ordering
  import opened PayrollTypes
  import opened Payroll
  import opened PayrollEffects

  function CountIf(rows: seq<Row>, p: Row -> bool): nat {
    if rows == [] then 0 else CountIf(rows[..|rows| - 1], p) + (if p(rows[|rows| - 1]) then 1 else 0)
  }

  /** Rows the explicit retry resets. */
  const RETRYABLE: Row -> bool := (row: Row) => row.status == Failed && IsSendable(row)

  /** Rows recovery turns into failures. */
  const ORPHANED: Row -> bool := (row: Row) => IsOrphaned(row)

  /** Only `ready` rows are skipped and only `skipped` rows restored. */
  predicate Toggles(row: Row, rowId: string, skipped: bool) {
    row.id == rowId && row.status == (if skipped then Ready else Skipped)
  }

  lemma CountIfNext(rows: seq<Row>, i: nat, p: Row -> bool)
    requires i < |rows|
    ensures CountIf(rows[..i + 1], p) == CountIf(rows[..i], p) + (if p(rows[i]) then 1 else 0)
  {
    assert rows[..i + 1][..i] == rows[..i];
  }

  /** Launch recovery with the runs in `keys` still to come. */
  function LaunchPart(s: State, keys: set<string>, now: int): State {
    State(
      map k | k in s.runs ::
        if k !in keys && IsLive(s.runs[k]) then s.runs[k].(status := Paused, updatedAt := now) else s.runs[k],
      map k | k in s.rowsByRun ::
        if k !in keys && k in s.runs && IsLive(s.runs[k]) then ReconcileAll(s.rowsByRun[k], now) else s.rowsByRun[k])
  }

  /** The live runs among those not in `keys`; with no keys left these are all live runs. */
  function LivePart(s: State, keys: set<string>): set<string> {
    set k | k in s.runs && k !in keys && IsLive(s.runs[k])
  }

  lemma LaunchPartNext(s: State, keys: set<string>, key: string, now: int)
    requires Shape(s) && key in keys && key in s.runs
    ensures var before, after := LaunchPart(s, keys, now), LaunchPart(s, keys - {key}, now);
            if IsLive(s.runs[key]) then
              && after.runs == before.runs[key := s.runs[key].(status := Paused, updatedAt := now)]
              && after.rowsByRun == before.rowsByRun[key := ReconcileAll(s.rowsByRun[key], now)]
              && |LivePart(s, keys - {key})| == |LivePart(s, keys)| + 1
            else
              && after.runs == before.runs && after.rowsByRun == before.rowsByRun
              && LivePart(s, keys - {key}) == LivePart(s, keys)
  {
    LivePartNext(s, keys, key);
    hide LivePart, ReconcileAll, LaunchPart;
  }

  lemma LivePartNext(s: State, keys: set<string>, key: string)
    requires key in keys && key in s.runs
    ensures if IsLive(s.runs[key]) then |LivePart(s, keys - {key})| == |LivePart(s, keys)| + 1
            else LivePart(s, keys - {key}) == LivePart(s, keys)
  {
    if IsLive(s.runs[key]) {
      assert LivePart(s, keys - {key}) == LivePart(s, keys) + {key};
    }
  }

  lemma LaunchPartAll(s: State, now: int)
    ensures LaunchPart(s, {}, now) == Launch(s, now)
  {
    assert LaunchPart(s, {}, now).runs == Launch(s, now).runs;
    assert LaunchPart(s, {}, now).rowsByRun == Launch(s, now).rowsByRun;
  }

  method PruneRunsMethod(runs: map<string, Run>, order: seq<string>) returns (next: map<string, Run>)
    ensures next == PruneRuns(runs, order)
  {
    var entries := Values(runs, order);
    if |entries| <= MAX_RUNS { return runs; }
    var keep := Take(Sort(entries, Newest()), MAX_RUNS);
    next := map[];
    for i := 0 to |keep|
      invariant next == ById(keep[..i])
    {
      next := next[keep[i].id := keep[i]];
      assert keep[..i + 1][..i] == keep[..i];
    }
    assert keep[..|keep|] == keep;
  }

  class Store {
    var runs: map<string, Run>
    var rowsByRun: map<string, seq<Row>>

    function View(): State
      reads this
    {
      State(runs, rowsByRun)
    }

    constructor ()
      ensures View() == State(map[], map[])
    {
      runs, rowsByRun := map[], map[];
    }

    method CreateRun(run: Run, rows: seq<Row>, order: seq<string>, now: int)
      modifies this
      ensures View() == Step(old(View()), Action.CreateRun(run, rows, order), now)
    {
      var protectedRows := Protect(RowsOf(View(), run.id), rows);
      var nextRuns := PruneRunsMethod(runs[run.id := run], order);
      var nextRows := rowsByRun[run.id := protectedRows];
      ghost var all := nextRows;
      var keys := nextRows.Keys;
      while keys != {}
        invariant nextRows == map k | k in all && (k in keys || k in nextRuns) :: all[k]
        invariant keys <= all.Keys
        decreases keys
      {
        var key :| key in keys;
        keys := keys - {key};
        if key !in nextRuns { nextRows := nextRows - {key}; }
      }
      runs, rowsByRun := nextRuns, nextRows;
      assert rowsByRun == map k | k in all && k in runs :: all[k];
    }

    method ReplaceRows(runId: string, rows: seq<Row>, now: int)
      modifies this
      ensures View() == Step(old(View()), Action.ReplaceRows(runId, rows), now)
    {
      if runId !in runs { return; }
      var protectedRows := Protect(RowsOf(View(), runId), rows);
      rowsByRun := rowsByRun[runId := protectedRows];
      runs := runs[runId := runs[runId].(rowIds := Ids(protectedRows), routesDirty := Some(true), updatedAt := now)];
    }

    method SetRunStatus(runId: string, status: RunStatus, now: int)
      modifies this
      ensures View() == Step(old(View()), Action.SetRunStatus(runId, status), now)
    {
      if runId !in runs { return; }
      runs := runs[runId := runs[runId].(status := status, updatedAt := now)];
    }

    method SetRunPolicy(runId: string, policy: string, now: int)
      modifies this
      ensures View() == Step(old(View()), Action.SetRunPolicy(runId, policy), now)
    {
      if runId !in runs { return; }
      runs := runs[runId := runs[runId].(policy := policy, updatedAt := now)];
    }

    method SetRunToken(runId: string, token: Option<Token>, now: int)
      modifies this
      ensures View() == Step(old(View()), Action.SetRunToken(runId, token), now)
    {
      if runId !in runs { return; }
      runs := runs[runId := runs[runId].(token := token, routesDirty := Some(true), updatedAt := now)];
    }

    method SetRunRoutesDirty(runId: string, dirty: bool, now: int)
      modifies this
      ensures View() == Step(old(View()), Action.SetRunRoutesDirty(runId, dirty), now)
    {
      if runId !in runs || runs[runId].routesDirty == Some(dirty) { return; }
      runs := runs[runId := runs[runId].(routesDirty := Some(dirty), updatedAt := now)];
    }

    method SetRunCursor(runId: string, cursor: int, now: int)
      modifies this
      ensures View() == Step(old(View()), Action.SetRunCursor(runId, cursor), now)
    {
      if runId !in runs { return; }
      runs := runs[runId := runs[runId].(cursor := cursor, updatedAt := now)];
    }

    method UpdateRow(runId: string, rowId: string, patch: Patch, now: int)
      modifies this
      ensures View() == Step(old(View()), Action.UpdateRow(runId, rowId, patch), now)
      ensures runId in rowsByRun ==>
                RowsPatched(old(RowsOf(View(), runId)), rowId, patch, now, rowsByRun[runId])
    {
      UpdateRowPatches(View(), runId, rowId, patch, now);
      if runId !in rowsByRun { return; }
      rowsByRun := rowsByRun[runId := UpdateAll(rowsByRun[runId], rowId, patch, now)];
    }

    /** The outcome tells a granted claim from a refused one and from the exception on a blank idempotency key. */
    method ClaimRowSubmission(runId: string, rowId: string, claim: Claim, now: int) returns (outcome: ClaimOutcome)
      modifies this
      ensures outcome == Outcome(old(View()), runId, rowId, claim)
      ensures View() == Step(old(View()), Action.ClaimRowSubmission(runId, rowId, claim), now)
    {
      if runId !in rowsByRun || claim.startedAt <= 0 || claim.startedAt > MAX_SAFE_INTEGER { return Refused; }
      var rows := rowsByRun[runId];
      var claimed := false;
      var nextRows: seq<Row> := [];
      for i := 0 to |rows|
        invariant nextRows == ClaimAll(rows[..i], rowId, claim, now)
        invariant claimed <==> exists j :: 0 <= j < i && Takes(rows[j], rowId, claim)
        invariant forall j :: 0 <= j < i ==> !Throws(rows[j], rowId)
      {
        var row := rows[i];
        if Throws(row, rowId) { return Exception; }
        if Takes(row, rowId, claim) { claimed := true; }
        nextRows := nextRows + [Claimed(row, rowId, claim, now)];
      }
      assert rows[..|rows|] == rows;
      if claimed {
        rowsByRun := rowsByRun[runId := nextRows];
        return Granted;
      }
      return Refused;
    }

    method SetRowSkipped(runId: string, rowId: string, skipped: bool, now: int) returns (changed: bool)
      modifies this
      ensures changed <==> exists row :: row in old(RowsOf(View(), runId)) && Toggles(row, rowId, skipped)
      ensures View() == Step(old(View()), Action.SetRowSkipped(runId, rowId, skipped), now)
    {
      changed := false;
      if runId !in rowsByRun { return; }
      var rows := rowsByRun[runId];
      var nextRows: seq<Row> := [];
      for i := 0 to |rows|
        invariant nextRows == SkipAll(rows[..i], rowId, skipped, now)
        invariant changed <==> exists row :: row in rows[..i] && Toggles(row, rowId, skipped)
        invariant changed <==> nextRows != rows[..i]
      {
        var row := rows[i];
        if Toggles(row, rowId, skipped) { changed := true; }
        nextRows := nextRows + [Skip(row, rowId, skipped, now)];
        assert rows[..i + 1] == rows[..i] + [row];
      }
      assert rows[..|rows|] == rows;
      if !changed { return; }
      rowsByRun := rowsByRun[runId := nextRows];
      if runId in runs {
        runs := runs[runId := runs[runId].(routesDirty := Some(true), updatedAt := now)];
      }
    }

    method PrepareRetryFailedRows(runId: string, now: int) returns (reset: nat)
      modifies this
      ensures reset == CountIf(old(RowsOf(View(), runId)), RETRYABLE)
      ensures View() == Step(old(View()), Action.PrepareRetryFailedRows(runId), now)
    {
      reset := 0;
      if runId !in rowsByRun { return; }
      var rows := rowsByRun[runId];
      var nextRows: seq<Row> := [];
      for i := 0 to |rows|
        invariant nextRows == RetryAll(rows[..i], now)
        invariant View() == old(View())
        invariant reset == CountIf(rows[..i], RETRYABLE)
      {
        CountIfNext(rows, i, RETRYABLE);
        if RETRYABLE(rows[i]) { reset := reset + 1; }
        nextRows := nextRows + [Retry(rows[i], now)];
      }
      assert rows[..|rows|] == rows;
      assert nextRows == RetryAll(rows, now);
      rowsByRun := rowsByRun[runId := nextRows];
    }

    method ReconcileInterruptedRows(runId: string, now: int) returns (reconciled: nat)
      modifies this
      ensures reconciled == CountIf(old(RowsOf(View(), runId)), ORPHANED)
      ensures View() == Step(old(View()), Action.ReconcileInterruptedRows(runId), now)
    {
      reconciled := 0;
      if runId !in rowsByRun { return; }
      var rows := rowsByRun[runId];
      var nextRows: seq<Row> := [];
      for i := 0 to |rows|
        invariant nextRows == ReconcileAll(rows[..i], now)
        invariant View() == old(View())
        invariant reconciled == CountIf(rows[..i], ORPHANED)
        invariant reconciled == 0 ==> nextRows == rows[..i]
      {
        CountIfNext(rows, i, ORPHANED);
        if ORPHANED(rows[i]) { reconciled := reconciled + 1; }
        nextRows := nextRows + [Reconcile(rows[i], now)];
        assert rows[..i + 1] == rows[..i] + [rows[i]];
      }
      assert rows[..|rows|] == rows;
      assert nextRows == ReconcileAll(rows, now);
      if reconciled == 0 {
        assert nextRows == rows;
        assert rowsByRun[runId := rows] == rowsByRun;
        return;
      }
      rowsByRun := rowsByRun[runId := nextRows];
    }

    /** The number of live runs, each listed once in whatever property order. */
    method ReconcileOrphanedRunsOnLaunch(now: int) returns (demoted: nat)
      requires Shape(View())
      modifies this
      ensures demoted == |LivePart(old(View()), {})|
      ensures View() == Step(old(View()), Action.ReconcileOrphanedRunsOnLaunch, now)
    {
      demoted := 0;
      ghost var s := View();
      var nextRuns, nextRows := runs, rowsByRun;
      var keys := runs.Keys;
      assert LaunchPart(s, s.runs.Keys, now) == s by {
        assert LaunchPart(s, s.runs.Keys, now).runs == s.runs;
        assert LaunchPart(s, s.runs.Keys, now).rowsByRun == s.rowsByRun;
      }
      while keys != {}
        invariant View() == s && keys <= s.runs.Keys
        invariant State(nextRuns, nextRows) == LaunchPart(s, keys, now)
        invariant demoted == |LivePart(s, keys)|
        decreases keys
      {
        var key :| key in keys;
        LaunchPartNext(s, keys, key, now);
        keys := keys - {key};
        var run := runs[key];
        if run.status != Running && run.status != Confirming { continue; }
        nextRows := nextRows[run.id := ReconcileAll(rowsByRun[run.id], now)];
        nextRuns := nextRuns[run.id := run.(status := Paused, updatedAt := now)];
        demoted := demoted + 1;
      }
      LaunchPartAll(s, now);
      runs, rowsByRun := nextRuns, nextRows;
    }

    method DeleteRun(runId: string)
      modifies this
      ensures View() == Step(old(View()), Action.DeleteRun(runId), 0)
    {
      runs, rowsByRun := runs - {runId}, rowsByRun - {runId};
    }
  }
}
