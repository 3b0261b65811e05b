/** What each event of the settlement engine leaves in the status record, the refs, the runs and the timers, counts written
    out. */
module SettlementEffects {
  import opened Common
  import opened Settlement

  /** Of the instances only `i` may differ, and what is mounted stays mounted. */
  ghost predicate OnlyHook(s: State, r: State, i: nat) {
    && i < |s.hooks| == |r.hooks| && r.world.now == s.world.now
    && r.hooks[i].mounted == s.hooks[i].mounted
    && r.hooks[i].enabled == s.hooks[i].enabled && r.hooks[i].identified == s.hooks[i].identified
    && forall j :: 0 <= j < |s.hooks| && j != i ==> r.hooks[j] == s.hooks[j]
  }

  /** Run `k` of instance `i` is over, and no other run changed. */
  ghost predicate RunOver(s: State, r: State, i: nat, k: nat) {
    OnlyHook(s, r, i) && !r.hooks[i].running && r.world.runs == s.world.runs - {k}
  }

  /** Instance `i` armed a timer for the wait of the moment, and the record promises a retry then. */
  ghost predicate RetryArmed(s: State, r: State, i: nat, trigger: Trigger) {
    && i < |s.hooks| == |r.hooks|
    && var due := s.world.now + s.hooks[i].backoffMs;
    && r.world.record.status == Backoff && r.world.record.nextRetryAt == Some(due)
    && r.world.record.trigger == Some(trigger) && r.world.record.failure
    && r.world.record.lastRunAt == s.world.record.lastRunAt
    && r.hooks[i].timer == Some(s.world.nextId)
    && r.world.timers == s.world.timers[s.world.nextId := Timer(i, due)]
    && r.hooks[i].backoffMs == s.hooks[i].backoffMs && r.hooks[i].firings == s.hooks[i].firings
  }

  /** The end of a run: with nothing failed and nothing pending its wait is back to a second and nothing is armed; with any
      upload, payment or cleanup failed or a payment pending, a retry is. */
  lemma InvalidationEndsTheRun(s: State, k: nat)
    requires OwnsRun(s, k) && s.world.runs[k].phase.AwaitsInvalidation?
    ensures var i, phase, r := s.world.runs[k].owner, s.world.runs[k].phase, Step(s, QueriesInvalidated(k));
            && RunOver(s, r, i, k)
            && (if phase.stats.uploadFailed == 0 && phase.stats.pending == 0 && phase.stats.failed == 0
                   && phase.stats.deleteFailed == 0 then
                  && r.world.timers == s.world.timers && r.world.record == s.world.record
                  && r.hooks[i].backoffMs == 1000 && r.hooks[i].firings == 0 && r.hooks[i].timer == s.hooks[i].timer
                else RetryArmed(s, r, i, phase.trigger) && r.world.record.stats == phase.stats)
  {
  }

  /** What is left failed or pending is taken up again: once the wait is over, the timer starts the next run where the context
      still allows one. */
  lemma RestIsRetried(s: State, k: nat)
    requires OwnsRun(s, k) && s.world.runs[k].phase.AwaitsInvalidation?
    requires var stats := s.world.runs[k].phase.stats;
             stats.uploadFailed > 0 || stats.pending > 0 || stats.failed > 0 || stats.deleteFailed > 0
    requires var hook := s.hooks[s.world.runs[k].owner]; hook.enabled && hook.identified && hook.backoffMs >= 0
    ensures var i, t := s.world.runs[k].owner, s.world.nextId;
            var waited := Step(Step(s, QueriesInvalidated(k)), TimePasses(s.hooks[i].backoffMs));
            var r := Step(waited, TimerFired(t));
            && r.hooks[i].running && waited.world.nextId in r.world.runs
            && r.world.runs[waited.world.nextId] == Flight(i, AwaitsStats(Retry))
  {
    var i, t := s.world.runs[k].owner, s.world.nextId;
    InvalidationEndsTheRun(s, k);
    var waited := Step(Step(s, QueriesInvalidated(k)), TimePasses(s.hooks[i].backoffMs));
    assert OwnsTimer(waited, t) && waited.world.timers[t].due == waited.world.now;
    FiringDoubles(waited, t);
  }

  /** A run that rejects anywhere ends with a retry too, and with the counts at zero. */
  lemma FailureEndsTheRun(s: State, k: nat)
    requires OwnsRun(s, k)
    ensures var i, r := s.world.runs[k].owner, Step(s, RunFailed(k));
            && RunOver(s, r, i, k) && RetryArmed(s, r, i, s.world.runs[k].phase.trigger)
            && r.world.record.stats == Stats(0, 0, 0, 0, 0, 0, 0, 0)
  {
  }

  /** Run `k` is still in flight, now in another phase; refs, timers and other runs are as they were. */
  ghost predicate RunMoves(s: State, r: State, k: nat, phase: Phase) {
    && k in s.world.runs && r.hooks == s.hooks && r.world.timers == s.world.timers && r.world.nextId == s.world.nextId
    && r.world.runs == s.world.runs[k := Flight(s.world.runs[k].owner, phase)]
  }

  /** An empty queue ends the run with an idle record; otherwise the run is shown and goes on with the count. */
  lemma StatsDecide(s: State, k: nat, total: nat, queued: nat)
    requires OwnsRun(s, k) && s.world.runs[k].phase.AwaitsStats?
    ensures var i, trigger, r := s.world.runs[k].owner, s.world.runs[k].phase.trigger, Step(s, StatsArrived(k, total, queued));
            var record := r.world.record;
            && record.lastRunAt == s.world.record.lastRunAt && record.nextRetryAt.None? && !record.failure
            && (if total == 0 then
                  && RunOver(s, r, i, k) && r.world.timers == s.world.timers
                  && r.hooks[i].backoffMs == 1000 && r.hooks[i].firings == 0
                  && record.status == Idle && record.trigger.None? && record.stats == Stats(0, 0, 0, 0, 0, 0, 0, 0)
                else
                  && RunMoves(s, r, k, AwaitsWork(trigger, queued))
                  && record.status == Running && record.trigger == Some(trigger)
                  && record.stats == s.world.record.stats.(queued := queued))
  {
  }

  /** The result of the work is recorded at once, as an error exactly when a payment or a cleanup failed. */
  lemma WorkIsRecorded(s: State, k: nat, stats: Stats)
    requires OwnsRun(s, k) && s.world.runs[k].phase.AwaitsWork?
    ensures var phase, r := s.world.runs[k].phase, Step(s, WorkCompleted(k, stats));
            var record, counted := r.world.record, stats.(queued := phase.queued);
            && RunMoves(s, r, k, AwaitsInvalidation(phase.trigger, counted))
            && record.stats == counted && record.lastRunAt == Some(s.world.now)
            && record.trigger.None? && record.nextRetryAt.None?
            && (if stats.failed > 0 || stats.deleteFailed > 0 then record.status == Error && record.failure
                else record.status == Settled && !record.failure)
  {
  }

  /** The live timers but the one instance `i` names. */
  function TimersWithout(s: State, i: nat): map<nat, Timer>
    requires i < |s.hooks|
  {
    if s.hooks[i].timer.Some? then s.world.timers - {s.hooks[i].timer.value} else s.world.timers
  }

  /** Whether a trigger may start a run of the mounted instance now. */
  ghost predicate Accepts(s: State, i: nat, trigger: Trigger) {
    && i < |s.hooks| && s.hooks[i].enabled && s.hooks[i].identified && !s.hooks[i].running
    && (trigger == Manual || trigger == Retry || s.world.record.status != Backoff || s.world.record.nextRetryAt.None?
        || s.world.record.nextRetryAt.value <= s.world.now)
  }

  /** Instance `i` has a new run awaiting the queue, and no timer; `timers` were there before. */
  ghost predicate RunStarted(s: State, r: State, i: nat, trigger: Trigger, timers: map<nat, Timer>) {
    && OnlyHook(s, r, i) && r.hooks[i].running && r.hooks[i].timer.None?
    && r.world.runs == s.world.runs[s.world.nextId := Flight(i, AwaitsStats(trigger))]
    && r.world.nextId == s.world.nextId + 1 && r.world.record == s.world.record
    && r.world.timers == timers
  }

  /** A trigger starts a run of the mounted instance exactly when it is enabled for a known wallet, idle, and neither before the
      retry moment nor manual; starting cancels its timer. */
  lemma TriggerStarts(s: State, trigger: Trigger)
    requires trigger != Retry
    ensures var i, r := |s.hooks| - 1, Step(s, Triggered(trigger));
            if IsMounted(s) && Accepts(s, i, trigger) then
              && RunStarted(s, r, i, trigger, TimersWithout(s, i))
              && r.hooks[i].backoffMs == s.hooks[i].backoffMs
            else r == s
  {
  }

  /** A live and due timer doubles the wait up to a minute, and starts a run where the context allows; any other is inert. */
  lemma FiringDoubles(s: State, t: nat)
    ensures var r := Step(s, TimerFired(t));
            if OwnsTimer(s, t) && s.world.timers[t].due <= s.world.now then
              var i := s.world.timers[t].owner;
              && r.hooks[i].backoffMs == (if 2 * s.hooks[i].backoffMs < 60_000 then 2 * s.hooks[i].backoffMs else 60_000)
              && r.hooks[i].firings == s.hooks[i].firings + 1
              && (if s.hooks[i].enabled && s.hooks[i].identified && !s.hooks[i].running
                  then RunStarted(s, r, i, Retry, s.world.timers - {t})
                  else OnlyHook(s, r, i) && r.world == s.world.(timers := s.world.timers - {t}))
            else r == s
  {
    assert OwnsTimer(s, t) && s.world.timers[t].due > s.world.now ==> Put(s, At(s, s.world.timers[t].owner)) == s;
  }

  /** A context change reaches the mounted instance; losing the gate cancels its timer and idles the record, and enabling again
      changes the context alone. */
  lemma ContextReaches(s: State, enabled: bool, identified: bool, gateChanged: bool)
    requires IsMounted(s)
    ensures var i, r := |s.hooks| - 1, Step(s, ContextChanged(enabled, identified, gateChanged));
            && |r.hooks| == |s.hooks| && (forall j :: 0 <= j < i ==> r.hooks[j] == s.hooks[j])
            && r.hooks[i].enabled == enabled && r.hooks[i].identified == identified
            && r.hooks[i].running == s.hooks[i].running && r.hooks[i].backoffMs == s.hooks[i].backoffMs
            && r.world.runs == s.world.runs
            && (if enabled || (!gateChanged && !s.hooks[i].enabled)
                then r.world == s.world && r.hooks[i].timer == s.hooks[i].timer
                else
                  && r.hooks[i].timer.None? && r.world.record.status == Idle && r.world.record.nextRetryAt.None?
                  && r.world.record.lastRunAt == s.world.record.lastRunAt
                  && r.world.timers == TimersWithout(s, i))
  {
  }

  /** Unmounting cancels the timer the ref names and touches neither runs nor record; mounting starts an idle instance with a
      wait of a second. */
  lemma UnmountAndMount(s: State, enabled: bool, identified: bool)
    ensures IsMounted(s) ==>
              var i, r := |s.hooks| - 1, Step(s, Unmounted);
              && r.hooks == s.hooks[i := s.hooks[i].(mounted := false)]
              && r.world.(timers := s.world.timers) == s.world
              && r.world.timers == TimersWithout(s, i)
    ensures !IsMounted(s) ==>
              var r := Step(s, Mounts(enabled, identified));
              && |r.hooks| == |s.hooks| + 1 && r.hooks[..|s.hooks|] == s.hooks
              && r.hooks[|s.hooks|] == Hook(true, enabled, identified, false, None, 1000, 0)
              && r.world.(record := s.world.record) == s.world
              && (if enabled then r.world.record == s.world.record
                  else r.world.record.status == Idle && r.world.record.nextRetryAt.None?)
  {
  }
}
