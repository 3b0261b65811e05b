/** The settlement engine and its store in their own shape: refs and store fields overwritten step by step. Each method is
    proved against the step of one instance; instances share the store and the platform and nothing else. */
module SettlementEngine {
  import opened Common
  import opened Settlement

  /** store/settlementEngineStore.ts */
  class EngineStore {
    var status: Status
    var trigger: Option<Trigger>
    var lastRunAt: Option<int>
    var nextRetryAt: Option<int>
    var failure: bool
    var stats: Stats

    function View(): Record
      reads this
    {
      Record(status, trigger, lastRunAt, nextRetryAt, failure, stats)
    }

    constructor ()
      ensures View() == EMPTY_RECORD
    {
      status, trigger, lastRunAt, nextRetryAt, failure, stats := Idle, None, None, None, false, EMPTY_STATS;
    }

    method SetIdle(next: Stats)
      modifies this
      ensures View() == Settlement.SetIdle(old(View()), next)
    {
      stats, status, trigger, nextRetryAt, failure := next, Idle, None, None, false;
    }

    method SetRunning(cause: Trigger, queued: nat)
      modifies this
      ensures View() == Settlement.SetRunning(old(View()), cause, queued)
    {
      status, trigger, stats, nextRetryAt, failure := Running, Some(cause), stats.(queued := queued), None, false;
    }

    method SetResult(next: Stats, now: int)
      modifies this
      ensures View() == Settlement.SetResult(old(View()), next, now)
    {
      stats := next;
      failure := next.failed > 0 || next.deleteFailed > 0;
      status := if failure then Error else Settled;
      trigger, lastRunAt, nextRetryAt := None, Some(now), None;
    }

    method SetBackoff(cause: Trigger, retryAt: int, next: Stats)
      modifies this
      ensures View() == Settlement.SetBackoff(old(View()), cause, retryAt, next)
    {
      stats, status, trigger, nextRetryAt, failure := next, Backoff, Some(cause), Some(retryAt), true;
    }
  }

  /** What every instance of the hook shares: the store, the clock, and the runs and timers the platform keeps. */
  class Platform {
    const store: EngineStore
    var now: int
    var runs: map<nat, Flight>
    var timers: map<nat, Timer>
    var nextId: nat

    function View(): World
      reads this, store
    {
      World(store.View(), now, runs, timers, nextId)
    }

    constructor ()
      ensures View() == START.world && fresh(store)
    {
      store := new EngineStore();
      now, runs, timers, nextId := 0, map[], map[], 0;
    }
  }

  /** One instance of hooks/useSettlementEngine.ts. */
  class Hook {
    const id: nat
    const platform: Platform
    var mounted: bool
    var running: bool
    var timer: Option<nat>
    var backoffMs: int
    var enabled: bool
    var identified: bool
    var firings: nat

    function View(): Settlement.Engine
      reads this, platform, platform.store
    {
      Settlement.Engine(id, Settlement.Hook(mounted, enabled, identified, running, timer, backoffMs, firings), platform.View())
    }

    /** Mounting: fresh refs, whatever other instances have pending. */
    constructor (id: nat, platform: Platform, enabled: bool, identified: bool)
      modifies platform.store
      ensures this.platform == platform
      ensures View() == Settlement.Mounted(id, old(platform.View()), enabled, identified)
    {
      this.id, this.platform, this.enabled, this.identified := id, platform, enabled, identified;
      mounted, running, timer, backoffMs, firings := true, false, None, INITIAL_BACKOFF_MS, 0;
      new;
      if !enabled { platform.store.SetIdle(EMPTY_STATS); }
    }

    method ClearTimer()
      modifies this, platform
      ensures View() == Settlement.ClearTimer(old(View()))
    {
      if timer.Some? {
        platform.timers := platform.timers - {timer.value};
        timer := None;
      }
    }

    method RunSettlement(trigger: Trigger)
      modifies this, platform
      ensures View() == Settlement.RunSettlement(old(View()), trigger)
    {
      if !enabled || !identified || running { return; }
      if BackoffDelay(platform.View(), trigger) > 0 { return; }
      running := true;
      ClearTimer();
      platform.runs := platform.runs[platform.nextId := Flight(id, AwaitsStats(trigger))];
      platform.nextId := platform.nextId + 1;
    }

    /** Ends run `k` with a retry. */
    method ArmRetry(k: nat, trigger: Trigger, stats: Stats)
      modifies this, platform, platform.store
      ensures View() == Settlement.Finish(Settlement.ArmRetry(old(View()), trigger, stats), k)
    {
      var nextRetryAt := platform.now + backoffMs;
      platform.store.SetBackoff(trigger, nextRetryAt, stats);
      timer := Some(platform.nextId);
      platform.timers := platform.timers[platform.nextId := Timer(id, nextRetryAt)];
      platform.nextId := platform.nextId + 1;
      running, platform.runs := false, platform.runs - {k};
    }

    method StatsArrive(k: nat, total: nat, queued: nat)
      modifies this, platform, platform.store
      ensures View() == Settlement.StatsArrive(old(View()), k, total, queued)
    {
      if k !in platform.runs || !platform.runs[k].phase.AwaitsStats? { return; }
      if total == 0 {
        platform.store.SetIdle(EMPTY_STATS);
        backoffMs, firings := INITIAL_BACKOFF_MS, 0;
        running, platform.runs := false, platform.runs - {k};
        return;
      }
      var flight := platform.runs[k];
      platform.store.SetRunning(flight.phase.trigger, queued);
      platform.runs := platform.runs[k := flight.(phase := AwaitsWork(flight.phase.trigger, queued))];
    }

    method WorkCompletes(k: nat, stats: Stats)
      modifies this, platform, platform.store
      ensures View() == Settlement.WorkCompletes(old(View()), k, stats)
    {
      if k !in platform.runs || !platform.runs[k].phase.AwaitsWork? { return; }
      var flight := platform.runs[k];
      var counted := stats.(queued := flight.phase.queued);
      platform.store.SetResult(counted, platform.now);
      platform.runs := platform.runs[k := flight.(phase := AwaitsInvalidation(flight.phase.trigger, counted))];
    }

    method Invalidated(k: nat)
      modifies this, platform, platform.store
      ensures View() == Settlement.Invalidated(old(View()), k)
      ensures k in old(platform.runs) && old(platform.runs)[k].phase.AwaitsInvalidation? ==>
                var stats := old(platform.runs)[k].phase.stats;
                if stats.uploadFailed == 0 && stats.pending == 0 && stats.failed == 0 && stats.deleteFailed == 0
                then backoffMs == 1000 && platform.timers == old(platform.timers)
                else
                  && platform.store.status == Backoff && timer.Some? && timer.value in platform.timers
                  && platform.timers[timer.value] == Timer(id, old(platform.now) + old(backoffMs))
                  && backoffMs == old(backoffMs)
    {
      if k !in platform.runs || !platform.runs[k].phase.AwaitsInvalidation? { return; }
      var phase := platform.runs[k].phase;
      if phase.stats.uploadFailed > 0 || phase.stats.pending > 0 || phase.stats.failed > 0 || phase.stats.deleteFailed > 0 {
        ArmRetry(k, phase.trigger, phase.stats);
      } else {
        backoffMs, firings := INITIAL_BACKOFF_MS, 0;
        running, platform.runs := false, platform.runs - {k};
      }
    }

    method Fails(k: nat)
      modifies this, platform, platform.store
      ensures View() == Settlement.Fails(old(View()), k)
    {
      if k !in platform.runs { return; }
      ArmRetry(k, platform.runs[k].phase.trigger, EMPTY_STATS);
    }

    method TimerFires(t: nat)
      modifies this, platform
      ensures View() == Settlement.TimerFires(old(View()), t)
    {
      if t !in platform.timers || platform.timers[t].due > platform.now { return; }
      platform.timers, timer := platform.timers - {t}, None;
      backoffMs := if backoffMs * 2 < MAX_BACKOFF_MS then backoffMs * 2 else MAX_BACKOFF_MS;
      firings := firings + 1;
      RunSettlement(Retry);
    }

    method ContextChanges(nextEnabled: bool, nextIdentified: bool, gateChanged: bool)
      modifies this, platform, platform.store
      ensures View() == Settlement.ContextChanges(old(View()), nextEnabled, nextIdentified, gateChanged)
    {
      var disableEffectRuns := gateChanged || enabled;
      enabled, identified := nextEnabled, nextIdentified;
      if enabled || !disableEffectRuns { return; }
      ClearTimer();
      platform.store.SetIdle(EMPTY_STATS);
    }

    method Unmount()
      modifies this, platform
      ensures View() == Settlement.Unmount(old(View()))
    {
      mounted := false;
      if timer.Some? { platform.timers := platform.timers - {timer.value}; }
    }
  }
}
