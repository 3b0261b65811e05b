/** The settlement scheduler (hooks/useSettlementEngine.ts) and its status record (store/settlementEngineStore.ts) as atomic
    steps between awaits. Locking the app unmounts the hook and unlocking mounts a new instance with fresh refs, while runs and
    timers of the old one may still be pending; all instances share the record. */
module Settlement {
  import opened Common

  const INITIAL_BACKOFF_MS := 1000
  const MAX_BACKOFF_MS := 60_000

  datatype Trigger = Launch | Network | Foreground | Retry | Manual | Queue

  datatype Stats = Stats(
    queued: nat, uploaded: nat, uploadFailed: nat, submitted: nat, confirmed: nat, pending: nat, failed: nat,
    deleteFailed: nat)

  const EMPTY_STATS := Stats(0, 0, 0, 0, 0, 0, 0, 0)

  // ----- The status record ----------------------------------------------------------------------------------------------

  datatype Status = Idle | Running | Backoff | Settled | Error

  /** `failure` says that `error` holds a message. */
  datatype Record = Record(
    status: Status, trigger: Option<Trigger>, lastRunAt: Option<int>, nextRetryAt: Option<int>, failure: bool, stats: Stats)

  function SetIdle(r: Record, stats: Stats): Record {
    r.(stats := stats, status := Idle, trigger := None, nextRetryAt := None, failure := false)
  }

  function SetRunning(r: Record, trigger: Trigger, queued: nat): Record {
    r.(status := Running, trigger := Some(trigger), stats := r.stats.(queued := queued), nextRetryAt := None, failure := false)
  }

  function SetResult(r: Record, stats: Stats, now: int): Record {
    var failed := stats.failed > 0 || stats.deleteFailed > 0;
    r.(stats := stats, status := if failed then Error else Settled, trigger := None, lastRunAt := Some(now),
       nextRetryAt := None, failure := failed)
  }

  function SetBackoff(r: Record, trigger: Trigger, nextRetryAt: int, stats: Stats): Record {
    r.(stats := stats, status := Backoff, trigger := Some(trigger), nextRetryAt := Some(nextRetryAt), failure := true)
  }

  const EMPTY_RECORD := Record(Idle, None, None, None, false, EMPTY_STATS)

  // ----- One instance and the world it shares -----------------------------------------------------------------------------

  /** Where an asynchronous run waits. */
  datatype Phase =
    | AwaitsStats(trigger: Trigger)
    | AwaitsWork(trigger: Trigger, queued: nat)
    | AwaitsInvalidation(trigger: Trigger, stats: Stats)

  /** A run in flight and a live timer, each of the instance that started it. */
  datatype Flight = Flight(owner: nat, phase: Phase)
  datatype Timer = Timer(owner: nat, due: int)

  /** The refs and the context of one mounted or unmounted hook. `firings` counts its retry-timer firings since its last clean
      or empty run. */
  datatype Hook = Hook(
    mounted: bool, enabled: bool, identified: bool, running: bool, timer: Option<nat>, backoffMs: int, firings: nat)

  datatype World = World(record: Record, now: int, runs: map<nat, Flight>, timers: map<nat, Timer>, nextId: nat)

  /** Instance `id` as it sees itself. */
  datatype Engine = Engine(id: nat, hook: Hook, world: World)

  predicate BypassesBackoff(trigger: Trigger) {
    trigger == Manual || trigger == Retry
  }

  function BackoffDelay(w: World, trigger: Trigger): int {
    if BypassesBackoff(trigger) || w.record.status != Backoff || w.record.nextRetryAt.None? then 0
    else if w.record.nextRetryAt.value > w.now then w.record.nextRetryAt.value - w.now
    else 0
  }

  function ClearTimer(e: Engine): Engine {
    if e.hook.timer.None? then e
    else e.(hook := e.hook.(timer := None), world := e.world.(timers := e.world.timers - {e.hook.timer.value}))
  }

  /** `runSettlement` up to its first await. */
  function RunSettlement(e: Engine, trigger: Trigger): Engine {
    if !e.hook.enabled || !e.hook.identified || e.hook.running then e
    else if BackoffDelay(e.world, trigger) > 0 then e
    else
      var e1 := ClearTimer(e.(hook := e.hook.(running := true)));
      var w := e1.world;
      e1.(world := w.(runs := w.runs[w.nextId := Flight(e.id, AwaitsStats(trigger))], nextId := w.nextId + 1))
  }

  /** The end of run `k`: what `finally` does, and the run is no longer in flight. */
  function Finish(e: Engine, k: nat): Engine {
    e.(hook := e.hook.(running := false), world := e.world.(runs := e.world.runs - {k}))
  }

  function CleanOrEmpty(e: Engine): Engine {
    e.(hook := e.hook.(backoffMs := INITIAL_BACKOFF_MS, firings := 0))
  }

  function ArmRetry(e: Engine, trigger: Trigger, stats: Stats): Engine {
    var w := e.world;
    var due := w.now + e.hook.backoffMs;
    e.(hook := e.hook.(timer := Some(w.nextId)),
       world := w.(record := SetBackoff(w.record, trigger, due, stats), timers := w.timers[w.nextId := Timer(e.id, due)],
                   nextId := w.nextId + 1))
  }

  predicate NeedsRetry(stats: Stats) {
    stats.uploadFailed > 0 || stats.pending > 0 || stats.failed > 0 || stats.deleteFailed > 0
  }

  function StatsArrive(e: Engine, k: nat, total: nat, queued: nat): Engine {
    var w := e.world;
    if k !in w.runs || !w.runs[k].phase.AwaitsStats? then e
    else if total == 0 then Finish(CleanOrEmpty(e.(world := w.(record := SetIdle(w.record, EMPTY_STATS)))), k)
    else
      var trigger := w.runs[k].phase.trigger;
      e.(world := w.(record := SetRunning(w.record, trigger, queued),
                     runs := w.runs[k := w.runs[k].(phase := AwaitsWork(trigger, queued))]))
  }

  function WorkCompletes(e: Engine, k: nat, stats: Stats): Engine {
    var w := e.world;
    if k !in w.runs || !w.runs[k].phase.AwaitsWork? then e
    else
      var phase := w.runs[k].phase;
      var counted := stats.(queued := phase.queued);
      e.(world := w.(record := SetResult(w.record, counted, w.now),
                     runs := w.runs[k := w.runs[k].(phase := AwaitsInvalidation(phase.trigger, counted))]))
  }

  function Invalidated(e: Engine, k: nat): Engine {
    var w := e.world;
    if k !in w.runs || !w.runs[k].phase.AwaitsInvalidation? then e
    else
      var phase := w.runs[k].phase;
      Finish(if NeedsRetry(phase.stats) then ArmRetry(e, phase.trigger, phase.stats) else CleanOrEmpty(e), k)
  }

  /** Any awaited call of the run rejects. */
  function Fails(e: Engine, k: nat): Engine {
    if k !in e.world.runs then e else Finish(ArmRetry(e, e.world.runs[k].phase.trigger, EMPTY_STATS), k)
  }

  function TimerFires(e: Engine, t: nat): Engine {
    var w := e.world;
    if t !in w.timers || w.timers[t].due > w.now then e
    else
      var doubled := if e.hook.backoffMs * 2 < MAX_BACKOFF_MS then e.hook.backoffMs * 2 else MAX_BACKOFF_MS;
      RunSettlement(
        e.(hook := e.hook.(timer := None, backoffMs := doubled, firings := e.hook.firings + 1),
           world := w.(timers := w.timers - {t})), Retry)
  }

  /** The context effect, then the disable effect, which runs when the network or settle gate changed. */
  function ContextChanges(e: Engine, enabled: bool, identified: bool, gateChanged: bool): Engine {
    var e1 := e.(hook := e.hook.(enabled := enabled, identified := identified));
    if enabled || !(gateChanged || e.hook.enabled) then e1
    else
      var e2 := ClearTimer(e1);
      e2.(world := e2.world.(record := SetIdle(e2.world.record, EMPTY_STATS)))
  }

  /** Unmounting clears the timer but keeps the refs and the record. */
  function Unmount(e: Engine): Engine {
    var w := e.world;
    e.(hook := e.hook.(mounted := false),
       world := w.(timers := if e.hook.timer.Some? then w.timers - {e.hook.timer.value} else w.timers))
  }

  /** A new instance: fresh refs, then the disable effect. */
  function Mounted(id: nat, w: World, enabled: bool, identified: bool): Engine {
    Engine(id, Hook(true, enabled, identified, false, None, INITIAL_BACKOFF_MS, 0),
           if enabled then w else w.(record := SetIdle(w.record, EMPTY_STATS)))
  }

  // ----- All instances ----------------------------------------------------------------------------------------------------

  /** Every instance so far, in order of mounting; only the last can be mounted. */
  datatype State = State(hooks: seq<Hook>, world: World)

  const START := State([], World(EMPTY_RECORD, 0, map[], map[], 0))

  predicate IsMounted(s: State) {
    s.hooks != [] && s.hooks[|s.hooks| - 1].mounted
  }

  function At(s: State, i: nat): Engine
    requires i < |s.hooks|
  {
    Engine(i, s.hooks[i], s.world)
  }

  function Current(s: State): Engine
    requires IsMounted(s)
  {
    At(s, |s.hooks| - 1)
  }

  function Put(s: State, e: Engine): State
    requires e.id < |s.hooks|
  {
    State(s.hooks[e.id := e.hook], e.world)
  }

  /** The instance that run `k` or timer `t` belongs to. */
  predicate OwnsRun(s: State, k: nat) {
    k in s.world.runs && s.world.runs[k].owner < |s.hooks|
  }

  predicate OwnsTimer(s: State, t: nat) {
    t in s.world.timers && s.world.timers[t].owner < |s.hooks|
  }

  datatype Event =
    | Mounts(enabled: bool, identified: bool)
    | Unmounted
    | Triggered(trigger: Trigger)
    | StatsArrived(k: nat, total: nat, queued: nat)
    | WorkCompleted(k: nat, stats: Stats)
    | QueriesInvalidated(k: nat)
    | RunFailed(k: nat)
    | TimerFired(t: nat)
    | ContextChanged(enabled: bool, identified: bool, gateChanged: bool)
    | RecordReset
    | TimePasses(ms: nat)

  /** The instance an event acts on. One instance is mounted at a time, and the triggers reach it alone, since its subscriptions
      end with it; the retry trigger belongs to the timers. */
  function Actor(s: State, e: Event): Option<nat> {
    match e
    case Unmounted | ContextChanged(_, _, _) => if IsMounted(s) then Some(|s.hooks| - 1) else None
    case Triggered(trigger) => if IsMounted(s) && trigger != Retry then Some(|s.hooks| - 1) else None
    case StatsArrived(k, _, _) => if OwnsRun(s, k) then Some(s.world.runs[k].owner) else None
    case WorkCompleted(k, _) => if OwnsRun(s, k) then Some(s.world.runs[k].owner) else None
    case QueriesInvalidated(k) => if OwnsRun(s, k) then Some(s.world.runs[k].owner) else None
    case RunFailed(k) => if OwnsRun(s, k) then Some(s.world.runs[k].owner) else None
    case TimerFired(t) => if OwnsTimer(s, t) then Some(s.world.timers[t].owner) else None
    case _ => None
  }

  function Act(engine: Engine, e: Event): Engine {
    match e
    case Unmounted => Unmount(engine)
    case Triggered(trigger) => RunSettlement(engine, trigger)
    case StatsArrived(k, total, queued) => StatsArrive(engine, k, total, queued)
    case WorkCompleted(k, stats) => WorkCompletes(engine, k, stats)
    case QueriesInvalidated(k) => Invalidated(engine, k)
    case RunFailed(k) => Fails(engine, k)
    case TimerFired(t) => TimerFires(engine, t)
    case ContextChanged(enabled, identified, gateChanged) => ContextChanges(engine, enabled, identified, gateChanged)
    case _ => engine
  }

  function Step(s: State, e: Event): State {
    var actor := Actor(s, e);
    match e
    case Mounts(enabled, identified) =>
      if IsMounted(s) then s
      else
        var engine := Mounted(|s.hooks|, s.world, enabled, identified);
        State(s.hooks + [engine.hook], engine.world)
    case RecordReset => s.(world := s.world.(record := EMPTY_RECORD))
    case TimePasses(ms) => s.(world := s.world.(now := s.world.now + ms))
    case _ => if actor.Some? then Put(s, Act(At(s, actor.value), e)) else s
  }

  function Run(events: seq<Event>): State {
    if events == [] then START else Step(Run(events[..|events| - 1]), events[|events| - 1])
  }

  lemma RunStep(events: seq<Event>, e: Event)
    ensures Run(events + [e]) == Step(Run(events), e)
  {
    assert (events + [e])[..|events|] == events;
  }
}
