/** What holds of every settlement instance on every run of events: one run, one timer, the closed form of the wait, and the
    retry a backoff promises. */
module SettlementSafety {
  import opened Common
  import opened Settlement

  // ----- What every event keeps -------------------------------------------------------------------------------------------

  /** `min(1000 * 2^n, 60000)` */
  function Wait(n: nat): int {
    if 1000 * Power2(n) < MAX_BACKOFF_MS then 1000 * Power2(n) else MAX_BACKOFF_MS
  }

  function RunsOf(w: World, id: nat): set<nat> {
    set k | k in w.runs && w.runs[k].owner == id
  }

  function TimersOf(w: World, id: nat): set<nat> {
    set t | t in w.timers && w.timers[t].owner == id
  }

  /** The refs of an instance tell what it really has pending. */
  ghost predicate Sound(e: Engine) {
    && (forall a, b :: a in RunsOf(e.world, e.id) && b in RunsOf(e.world, e.id) ==> a == b)
    && (e.hook.running <==> RunsOf(e.world, e.id) != {})
    && (forall t :: t in TimersOf(e.world, e.id) ==> e.hook.timer == Some(t) && !e.hook.running)
    && (e.hook.timer.Some? ==>
          && e.hook.timer.value < e.world.nextId
          && (e.hook.timer.value in e.world.timers ==> e.world.timers[e.hook.timer.value].owner == e.id))
    && e.hook.backoffMs == Wait(e.hook.firings)
  }

  /** Ids are used once, and every run and timer belongs to one of `n` instances. */
  ghost predicate Bookkept(w: World, n: nat) {
    && (forall k :: k in w.runs ==> k < w.nextId && w.runs[k].owner < n)
    && (forall t :: t in w.timers ==> t < w.nextId && w.timers[t].owner < n)
  }

  /** Instance `id` leaves what the others have pending as it is. */
  ghost predicate OthersKept(id: nat, w: World, w': World) {
    && w.nextId <= w'.nextId
    && (forall j :: j != id ==> RunsOf(w', j) == RunsOf(w, j) && TimersOf(w', j) == TimersOf(w, j))
    && (forall t :: t in w'.timers && t < w.nextId ==> t in w.timers && w'.timers[t] == w.timers[t])
  }

  ghost predicate Keeps(e: Engine, e': Engine, n: nat) {
    e'.id == e.id && Sound(e') && Bookkept(e'.world, n) && OthersKept(e.id, e.world, e'.world)
  }

  ghost predicate Inv(s: State) {
    && Bookkept(s.world, |s.hooks|)
    && (forall i :: 0 <= i < |s.hooks| ==> Sound(At(s, i)))
    && (forall i :: 0 <= i < |s.hooks| - 1 ==> !s.hooks[i].mounted)
  }

  lemma PutKeepsInv(s: State, e: Engine)
    requires Inv(s) && e.id < |s.hooks| && Keeps(At(s, e.id), e, |s.hooks|)
    requires e.hook.mounted ==> s.hooks[e.id].mounted
    ensures Inv(Put(s, e))
  {
    var r := Put(s, e);
    forall i | 0 <= i < |r.hooks| ensures Sound(At(r, i)) {
      if i == e.id {
        assert At(r, i) == e;
      } else {
        assert Sound(At(s, i));
        OtherStaysSound(At(s, i), e.id, e.world);
      }
    }
  }

  lemma OtherStaysSound(e: Engine, id: nat, w: World)
    requires Sound(e) && id != e.id && OthersKept(id, e.world, w)
    ensures Sound(e.(world := w))
  {
    assert RunsOf(w, e.id) == RunsOf(e.world, e.id) && TimersOf(w, e.id) == TimersOf(e.world, e.id);
  }

  lemma ClearTimerKeeps(e: Engine, n: nat)
    requires Sound(e) && Bookkept(e.world, n)
    ensures Keeps(e, ClearTimer(e), n) && TimersOf(ClearTimer(e).world, e.id) == {}
  {
    var r := ClearTimer(e);
    assert RunsOf(r.world, e.id) == RunsOf(e.world, e.id);
    assert forall t :: t in TimersOf(r.world, e.id) ==> t in TimersOf(e.world, e.id);
    forall j | j != e.id ensures RunsOf(r.world, j) == RunsOf(e.world, j) && TimersOf(r.world, j) == TimersOf(e.world, j) {}
  }

  lemma RunSettlementKeeps(e: Engine, trigger: Trigger, n: nat)
    requires Sound(e) && Bookkept(e.world, n) && e.id < n
    ensures Keeps(e, RunSettlement(e, trigger), n)
  {
    var r := RunSettlement(e, trigger);
    if r != e {
      ClearTimerKeeps(e, n);
      assert RunsOf(r.world, e.id) == {e.world.nextId};
      forall j | j != e.id ensures RunsOf(r.world, j) == RunsOf(e.world, j) && TimersOf(r.world, j) == TimersOf(e.world, j) {}
    }
  }

  /** Ending a run that armed a retry. */
  lemma ArmKeeps(e: Engine, k: nat, trigger: Trigger, stats: Stats, n: nat)
    requires Sound(e) && Bookkept(e.world, n) && e.id < n && k in RunsOf(e.world, e.id)
    ensures Keeps(e, Finish(ArmRetry(e, trigger, stats), k), n)
  {
    var r := Finish(ArmRetry(e, trigger, stats), k);
    assert forall a :: a in RunsOf(r.world, e.id) ==> a in RunsOf(e.world, e.id);
    assert forall t :: t in TimersOf(r.world, e.id) ==> t in TimersOf(e.world, e.id) || t == e.world.nextId;
    forall j | j != e.id ensures RunsOf(r.world, j) == RunsOf(e.world, j) && TimersOf(r.world, j) == TimersOf(e.world, j) {}
  }

  /** Ending a run that did not. */
  lemma CleanKeeps(e: Engine, k: nat, record: Record, n: nat)
    requires Sound(e) && Bookkept(e.world, n) && k in RunsOf(e.world, e.id)
    ensures Keeps(e, Finish(CleanOrEmpty(e.(world := e.world.(record := record))), k), n)
  {
    var r := Finish(CleanOrEmpty(e.(world := e.world.(record := record))), k);
    assert forall a :: a in RunsOf(r.world, e.id) ==> a in RunsOf(e.world, e.id);
    assert TimersOf(r.world, e.id) <= TimersOf(e.world, e.id);
    forall j | j != e.id ensures RunsOf(r.world, j) == RunsOf(e.world, j) && TimersOf(r.world, j) == TimersOf(e.world, j) {}
  }

  /** A run that goes on. */
  lemma PhaseKeeps(e: Engine, k: nat, record: Record, phase: Phase, n: nat)
    requires Sound(e) && Bookkept(e.world, n) && k in RunsOf(e.world, e.id)
    ensures Keeps(e, e.(world := e.world.(record := record, runs := e.world.runs[k := e.world.runs[k].(phase := phase)])), n)
  {
    var w := e.world.(record := record, runs := e.world.runs[k := e.world.runs[k].(phase := phase)]);
    forall j ensures RunsOf(w, j) == RunsOf(e.world, j) && TimersOf(w, j) == TimersOf(e.world, j) {}
  }

  lemma StatsKeep(e: Engine, k: nat, total: nat, queued: nat, n: nat)
    requires Sound(e) && Bookkept(e.world, n) && k in RunsOf(e.world, e.id)
    ensures Keeps(e, StatsArrive(e, k, total, queued), n)
  {
    var w := e.world;
    if w.runs[k].phase.AwaitsStats? {
      var trigger := w.runs[k].phase.trigger;
      CleanKeeps(e, k, SetIdle(w.record, EMPTY_STATS), n);
      PhaseKeeps(e, k, SetRunning(w.record, trigger, queued), AwaitsWork(trigger, queued), n);
    }
  }

  lemma WorkKeeps(e: Engine, k: nat, stats: Stats, n: nat)
    requires Sound(e) && Bookkept(e.world, n) && k in RunsOf(e.world, e.id)
    ensures Keeps(e, WorkCompletes(e, k, stats), n)
  {
    var w := e.world;
    if w.runs[k].phase.AwaitsWork? {
      var counted := stats.(queued := w.runs[k].phase.queued);
      PhaseKeeps(e, k, SetResult(w.record, counted, w.now), AwaitsInvalidation(w.runs[k].phase.trigger, counted), n);
    }
  }

  lemma InvalidatedKeeps(e: Engine, k: nat, n: nat)
    requires Sound(e) && Bookkept(e.world, n) && e.id < n && k in RunsOf(e.world, e.id)
    ensures Keeps(e, Invalidated(e, k), n)
  {
    var phase := e.world.runs[k].phase;
    if phase.AwaitsInvalidation? {
      ArmKeeps(e, k, phase.trigger, phase.stats, n);
      CleanKeeps(e, k, e.world.record, n);
      assert e.(world := e.world.(record := e.world.record)) == e;
    }
  }

  lemma {:induction false} WaitDoubles(n: nat)
    ensures Wait(n + 1) == if Wait(n) * 2 < MAX_BACKOFF_MS then Wait(n) * 2 else MAX_BACKOFF_MS
  {
    Power2Positive(n);
  }

  lemma {:induction false} Power2Positive(n: nat)
    ensures Power2(n) > 0
  {
    if n > 0 { Power2Positive(n - 1); }
  }

  lemma TimerKeeps(e: Engine, t: nat, n: nat)
    requires Sound(e) && Bookkept(e.world, n) && e.id < n && t in TimersOf(e.world, e.id)
    ensures Keeps(e, TimerFires(e, t), n)
  {
    var w := e.world;
    if w.timers[t].due <= w.now {
      WaitDoubles(e.hook.firings);
      var fired := e.(hook := e.hook.(timer := None, backoffMs := Wait(e.hook.firings + 1), firings := e.hook.firings + 1),
                      world := w.(timers := w.timers - {t}));
      assert forall u :: u in TimersOf(fired.world, e.id) ==> u in TimersOf(w, e.id);
      assert forall a :: a in RunsOf(fired.world, e.id) <==> a in RunsOf(w, e.id);
      forall j | j != e.id ensures RunsOf(fired.world, j) == RunsOf(w, j) && TimersOf(fired.world, j) == TimersOf(w, j) {}
      RunSettlementKeeps(fired, Retry, n);
    }
  }

  lemma RecordIsFree(e: Engine, record: Record, n: nat)
    requires Sound(e) && Bookkept(e.world, n)
    ensures Keeps(e, e.(world := e.world.(record := record)), n)
  {
    var w := e.world.(record := record);
    forall j ensures RunsOf(w, j) == RunsOf(e.world, j) && TimersOf(w, j) == TimersOf(e.world, j) {}
  }

  lemma ContextKeeps(e: Engine, enabled: bool, identified: bool, gateChanged: bool, n: nat)
    requires Sound(e) && Bookkept(e.world, n)
    ensures Keeps(e, ContextChanges(e, enabled, identified, gateChanged), n)
  {
    var e1 := e.(hook := e.hook.(enabled := enabled, identified := identified));
    ClearTimerKeeps(e1, n);
    RecordIsFree(ClearTimer(e1), SetIdle(ClearTimer(e1).world.record, EMPTY_STATS), n);
  }

  lemma UnmountKeeps(e: Engine, n: nat)
    requires Sound(e) && Bookkept(e.world, n)
    ensures Keeps(e, Unmount(e), n) && TimersOf(Unmount(e).world, e.id) == {}
  {
    var r := Unmount(e);
    assert forall t :: t in TimersOf(r.world, e.id) ==> t in TimersOf(e.world, e.id);
    assert RunsOf(r.world, e.id) == RunsOf(e.world, e.id);
    forall j | j != e.id ensures RunsOf(r.world, j) == RunsOf(e.world, j) && TimersOf(r.world, j) == TimersOf(e.world, j) {}
  }

  lemma MountKeepsInv(s: State, enabled: bool, identified: bool)
    requires Inv(s) && !IsMounted(s)
    ensures Inv(Step(s, Mounts(enabled, identified)))
  {
    var n := |s.hooks|;
    var r := Step(s, Mounts(enabled, identified));
    assert RunsOf(r.world, n) == {} && TimersOf(r.world, n) == {};
    forall i | 0 <= i < n ensures Sound(At(r, i)) {
      RecordIsFree(At(s, i), r.world.record, n);
      assert At(r, i) == At(s, i).(world := s.world.(record := r.world.record));
    }
    assert Wait(0) == INITIAL_BACKOFF_MS by { assert Power2(0) == 1; }
    assert Sound(At(r, n));
  }

  lemma ActKeeps(s: State, e: Event)
    requires Inv(s) && Actor(s, e).Some?
    ensures var engine := At(s, Actor(s, e).value); Keeps(engine, Act(engine, e), |s.hooks|)
  {
    var engine, n := At(s, Actor(s, e).value), |s.hooks|;
    assert Sound(engine);
    hide Sound, Bookkept, OthersKept, Inv;
    match e
    case Unmounted => UnmountKeeps(engine, n);
    case Triggered(trigger) => RunSettlementKeeps(engine, trigger, n);
    case StatsArrived(k, total, queued) => StatsKeep(engine, k, total, queued, n);
    case WorkCompleted(k, stats) => WorkKeeps(engine, k, stats, n);
    case QueriesInvalidated(k) => InvalidatedKeeps(engine, k, n);
    case RunFailed(k) => ArmKeeps(engine, k, engine.world.runs[k].phase.trigger, EMPTY_STATS, n);
    case TimerFired(t) => TimerKeeps(engine, t, n);
    case ContextChanged(enabled, identified, gateChanged) => ContextKeeps(engine, enabled, identified, gateChanged, n);
  }

  /** Acting changes neither who an instance is nor, except for unmounting, whether it is mounted. */
  lemma ActStaysItself(s: State, e: Event)
    ensures var actor := Actor(s, e);
            actor.Some? ==>
              && actor.value < |s.hooks|
              && Act(At(s, actor.value), e).id == actor.value
              && Act(At(s, actor.value), e).hook.mounted == (s.hooks[actor.value].mounted && e != Unmounted)
  {
  }

  /** Every event, mounting and unmounting included, keeps each instance's refs true to what it has pending. */
  lemma StepKeepsInv(s: State, e: Event)
    requires Inv(s)
    ensures Inv(Step(s, e))
  {
    ActStaysItself(s, e);
    hide Act, Actor, Sound, Bookkept;
    var actor := Actor(s, e);
    match e
    case Mounts(enabled, identified) => if !IsMounted(s) { MountKeepsInv(s, enabled, identified); }
    case RecordReset => WorldIsFree(s, s.world.(record := EMPTY_RECORD));
    case TimePasses(ms) => WorldIsFree(s, s.world.(now := s.world.now + ms));
    case _ =>
      if actor.Some? {
        ActKeeps(s, e);
        PutKeepsInv(s, Act(At(s, actor.value), e));
      }
  }

  lemma WorldIsFree(s: State, w: World)
    requires Inv(s) && w == s.world.(record := w.record, now := w.now)
    ensures Inv(s.(world := w))
  {
    forall i | 0 <= i < |s.hooks| ensures Sound(At(s.(world := w), i)) {
      assert Sound(At(s, i));
      assert RunsOf(w, i) == RunsOf(s.world, i) && TimersOf(w, i) == TimersOf(s.world, i);
    }
  }

  lemma {:induction false} RunKeepsInv(events: seq<Event>)
    ensures Inv(Run(events))
  {
    if events != [] {
      RunKeepsInv(events[..|events| - 1]);
      StepKeepsInv(Run(events[..|events| - 1]), events[|events| - 1]);
    }
  }

  /** What instance `j` has pending is its own business. */
  lemma OthersStay(s: State, e: Event, j: nat)
    requires Inv(s) && j < |s.hooks| && Actor(s, e) != Some(j)
    ensures var r := Step(s, e);
            && j < |r.hooks| && r.hooks[j] == s.hooks[j]
            && RunsOf(r.world, j) == RunsOf(s.world, j) && TimersOf(r.world, j) == TimersOf(s.world, j)
  {
    if Actor(s, e).Some? { ActKeeps(s, e); }
    hide Sound, Bookkept, Act, Actor, Inv;
    var r := Step(s, e);
    assert RunsOf(r.world, j) == RunsOf(s.world, j) && TimersOf(r.world, j) == TimersOf(s.world, j);
  }

  /** Only a run, a timer or being mounted makes an instance act. */
  lemma ActorHasCause(s: State, e: Event, j: nat)
    requires Actor(s, e) == Some(j)
    ensures s.hooks[j].mounted || RunsOf(s.world, j) != {} || (e.TimerFired? && e.t in TimersOf(s.world, j))
  {
    match e
    case TimerFired(t) => assert t in TimersOf(s.world, j);
    case StatsArrived(k, _, _) => assert k in RunsOf(s.world, j);
    case WorkCompleted(k, _) => assert k in RunsOf(s.world, j);
    case QueriesInvalidated(k) => assert k in RunsOf(s.world, j);
    case RunFailed(k) => assert k in RunsOf(s.world, j);
    case _ =>
  }

  /** On every run of events, each instance has at most one settlement run in flight and at most one retry timer live, never
      both, and its wait is `min(1000 * 2^n, 60000)` for `n` timer firings since its last clean or empty run. */
  lemma {:induction false} SchedulerSafety(events: seq<Event>)
    ensures var s := Run(events);
            && (forall a, b :: a in s.world.runs && b in s.world.runs && s.world.runs[a].owner == s.world.runs[b].owner ==> a == b)
            && (forall t, u :: t in s.world.timers && u in s.world.timers && s.world.timers[t].owner == s.world.timers[u].owner
                  ==> t == u)
            && (forall a, t :: a in s.world.runs && t in s.world.timers ==> s.world.runs[a].owner != s.world.timers[t].owner)
            && (forall i :: 0 <= i < |s.hooks| ==> s.hooks[i].backoffMs == Wait(s.hooks[i].firings))
  {
    RunKeepsInv(events);
    InvMeans(Run(events));
  }

  lemma InvMeans(s: State)
    requires Inv(s)
    ensures forall a, b :: a in s.world.runs && b in s.world.runs && s.world.runs[a].owner == s.world.runs[b].owner ==> a == b
    ensures forall t, u :: t in s.world.timers && u in s.world.timers && s.world.timers[t].owner == s.world.timers[u].owner
                           ==> t == u
    ensures forall a, t :: a in s.world.runs && t in s.world.timers ==> s.world.runs[a].owner != s.world.timers[t].owner
    ensures forall i :: 0 <= i < |s.hooks| ==> s.hooks[i].backoffMs == Wait(s.hooks[i].firings)
  {
    var w := s.world;
    forall a, b | a in w.runs && b in w.runs && w.runs[a].owner == w.runs[b].owner ensures a == b {
      assert Sound(At(s, w.runs[a].owner));
      assert a in RunsOf(w, w.runs[a].owner) && b in RunsOf(w, w.runs[a].owner);
    }
    forall t, u | t in w.timers && u in w.timers && w.timers[t].owner == w.timers[u].owner ensures t == u {
      assert Sound(At(s, w.timers[t].owner));
      assert t in TimersOf(w, w.timers[t].owner) && u in TimersOf(w, w.timers[t].owner);
    }
    forall a, t | a in w.runs && t in w.timers ensures w.runs[a].owner != w.timers[t].owner {
      assert Sound(At(s, w.runs[a].owner));
      assert a in RunsOf(w, w.runs[a].owner);
      assert t !in TimersOf(w, w.runs[a].owner);
    }
    forall i | 0 <= i < |s.hooks| ensures s.hooks[i].backoffMs == Wait(s.hooks[i].firings) {
      assert Sound(At(s, i));
    }
  }

  /** A due timer on an instance whose context allows it starts a run, mounted or not: a backoff never gets stuck on its own. */
  lemma FiringRestarts(s: State, t: nat)
    requires Inv(s) && OwnsTimer(s, t) && s.world.timers[t].due <= s.world.now
    requires var hook := s.hooks[s.world.timers[t].owner]; hook.enabled && hook.identified
    ensures var i, r := s.world.timers[t].owner, Step(s, TimerFired(t));
            r.hooks[i].running && r.hooks[i].mounted == s.hooks[i].mounted
  {
    assert Sound(At(s, s.world.timers[t].owner)) && t in TimersOf(s.world, s.world.timers[t].owner);
  }
}
