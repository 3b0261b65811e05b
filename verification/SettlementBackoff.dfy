/** The retry a backoff promises, over every run of events with unmounts and remounts. */
module SettlementBackoff {
  import opened Common
  import opened Settlement
  import opened SettlementSafety
  import opened SettlementOverlap

  /** The event ends a run with a retry: the only way to a new timer and to a record in backoff. */
  predicate Arms(s: State, e: Event) {
    match e
    case QueriesInvalidated(k) =>
      OwnsRun(s, k) && s.world.runs[k].phase.AwaitsInvalidation? && NeedsRetry(s.world.runs[k].phase.stats)
    case RunFailed(k) => OwnsRun(s, k)
    case _ => false
  }

  /** The timer an arming event adds, and its moment. */
  function ArmedAt(s: State, e: Event): (timer: Timer)
    requires Actor(s, e).Some?
    ensures timer.owner < |s.hooks|
  {
    var i := Actor(s, e).value;
    Timer(i, s.world.now + s.hooks[i].backoffMs)
  }

  /** An armed timer is due after the wait of the moment, the record names that very moment, and its instance is idle. */
  lemma ArmedTimerWaits(s: State, e: Event)
    requires Inv(s) && Arms(s, e)
    ensures Actor(s, e).Some?
    ensures var i, r := Actor(s, e).value, Step(s, e);
            && r.world.timers == s.world.timers[s.world.nextId := Timer(i, s.world.now + Wait(s.hooks[i].firings))]
            && r.world.record.status == Backoff
            && r.world.record.nextRetryAt == Some(s.world.now + Wait(s.hooks[i].firings))
            && !r.hooks[i].running && r.world.nextId == s.world.nextId + 1
            && r.hooks[i].mounted == s.hooks[i].mounted && |r.hooks| == |s.hooks|
            && ArmedAt(s, e) == r.world.timers[s.world.nextId]
  {
    assert Sound(At(s, Actor(s, e).value));
  }

  /** No other event adds a timer or turns the record to backoff. */
  lemma OnlyArmingArms(s: State, e: Event)
    requires Inv(s) && !Arms(s, e)
    ensures forall t :: t in Step(s, e).world.timers ==> t in s.world.timers && Step(s, e).world.timers[t] == s.world.timers[t]
    ensures var record := Step(s, e).world.record; record.status == Backoff ==> record == s.world.record
    ensures Step(s, e).world.now >= s.world.now
  {
  }

  /** Timer `t` of instance `a`, due at `due`, was armed with the record; `mounted` says whether `a` was mounted then and `gone`
      whether an unmount came since. */
  ghost predicate Followed(s: State, t: nat, a: nat, due: int, mounted: bool, gone: bool) {
    && a < |s.hooks| && t < s.world.nextId
    && s.world.record.nextRetryAt == Some(due)
    && (t in s.world.timers ==> s.world.timers[t] == Timer(a, due))
    && s.hooks[a].mounted == (mounted && !gone)
    && (mounted && gone ==> t !in s.world.timers)
    && (!(mounted && gone) ==>
          || (t in s.world.timers && !s.hooks[a].running)
          || s.world.now >= due
          || (mounted && s.hooks[a].running && forall k :: k in RunsOf(s.world, a) ==> s.world.runs[k].phase.AwaitsStats?))
  }

  lemma FollowedStep(s: State, e: Event, t: nat, a: nat, due: int, mounted: bool, gone: bool)
    requires Inv(s) && Followed(s, t, a, due, mounted, gone) && s.world.record.status == Backoff
    requires !Arms(s, e) && Step(s, e).world.record.status == Backoff
    ensures Followed(Step(s, e), t, a, due, mounted, gone || e == Unmounted)
  {
    var r := Step(s, e);
    OnlyArmingArms(s, e);
    assert Sound(At(s, a));
    if Actor(s, e) != Some(a) {
      OthersStay(s, e, a);
      assert t in s.world.timers ==> t in TimersOf(s.world, a);
    } else {
      ActorFollowed(s, e, t, a, due, mounted, gone);
    }
  }

  lemma ActorFollowed(s: State, e: Event, t: nat, a: nat, due: int, mounted: bool, gone: bool)
    requires Inv(s) && Followed(s, t, a, due, mounted, gone) && s.world.record.status == Backoff
    requires !Arms(s, e) && Step(s, e).world.record.status == Backoff && Actor(s, e) == Some(a)
    ensures Followed(Step(s, e), t, a, due, mounted, gone || e == Unmounted)
  {
    var r := Step(s, e);
    assert Sound(At(s, a));
    assert t in s.world.timers ==> t in TimersOf(s.world, a);
    match e
    case Triggered(trigger) =>
      forall k | k in RunsOf(r.world, a) && k != s.world.nextId ensures k in RunsOf(s.world, a) {}
    case StatsArrived(k, _, _) => assert k in RunsOf(s.world, a) && r == s;
    case WorkCompleted(k, _) => assert k in RunsOf(s.world, a) && r == s;
    case QueriesInvalidated(k) => assert k in RunsOf(s.world, a);
    case RunFailed(k) =>
    case TimerFired(u) => assert u in TimersOf(s.world, a);
    case Unmounted => assert RunsOf(r.world, a) == RunsOf(s.world, a);
    case ContextChanged(_, _, _) =>
      assert r.world == s.world;
  }

  lemma BeforeIsBackoff(s: State, e: Event)
    requires Inv(s) && !Arms(s, e) && Step(s, e).world.record.status == Backoff
    ensures s.world.record.status == Backoff
  {
    OnlyArmingArms(s, e);
  }

  predicate UnmountedBetween(events: seq<Event>, i: nat, n: nat)
    requires n <= |events|
  {
    exists m :: i < m < n && events[m] == Unmounted
  }

  lemma JustArmed(s: State, e: Event)
    requires Inv(s) && Arms(s, e)
    ensures Actor(s, e).Some?
    ensures var timer := ArmedAt(s, e);
            Followed(Step(s, e), s.world.nextId, timer.owner, timer.due, s.hooks[timer.owner].mounted, false)
  {
    ArmedTimerWaits(s, e);
  }

  /** From the event `i` that armed the latest retry to any later moment at which the record is still in backoff. */
  lemma {:induction false} BackoffFollowed(events: seq<Event>, i: nat, n: nat)
    requires i < n <= |events| && Arms(Run(events[..i]), events[i])
    requires forall m :: i < m < n ==> !Arms(Run(events[..m]), events[m])
    requires Run(events[..n]).world.record.status == Backoff
    ensures var before := Run(events[..i]);
            && Actor(before, events[i]).Some?
            && var timer := ArmedAt(before, events[i]);
            Followed(Run(events[..n]), before.world.nextId, timer.owner, timer.due, before.hooks[timer.owner].mounted,
                     UnmountedBetween(events, i, n))
    decreases n
  {
    hide Run, Arms, Step, Followed, Inv, ArmedAt, Actor;
    var before, s, e := Run(events[..i]), Run(events[..n - 1]), events[n - 1];
    assert events[..n] == events[..n - 1] + [e];
    RunStep(events[..n - 1], e);
    RunKeepsInv(events[..n - 1]);
    if n == i + 1 {
      RunKeepsInv(events[..i]);
      JustArmed(before, e);
    } else {
      BeforeIsBackoff(s, e);
      BackoffFollowed(events, i, n - 1);
      var timer := ArmedAt(before, events[i]);
      FollowedStep(s, e, before.world.nextId, timer.owner, timer.due, before.hooks[timer.owner].mounted,
                   UnmountedBetween(events, i, n - 1));
      assert UnmountedBetween(events, i, n) <==> UnmountedBetween(events, i, n - 1) || e == Unmounted;
    }
  }

  lemma {:induction false} LatestArming(events: seq<Event>) returns (i: nat)
    requires Run(events).world.record.status == Backoff
    ensures i < |events| && Arms(Run(events[..i]), events[i])
    ensures forall m :: i < m < |events| ==> !Arms(Run(events[..m]), events[m])
  {
    hide Step, Arms;
    var init, e := events[..|events| - 1], events[|events| - 1];
    assert events[..|init|] == init;
    if Arms(Run(init), e) {
      i := |events| - 1;
    } else {
      RunKeepsInv(init);
      BeforeIsBackoff(Run(init), e);
      i := LatestArming(init);
      hide Run;
      assert forall m :: 0 <= m < |init| ==> init[..m] == events[..m];
    }
  }

  /** An engine in backoff whose mounted instance is idle, before its retry moment: the timer armed for that very moment is
      still live if and only if the instance that armed it was already unmounted then, or no unmount came since. */
  lemma {:induction false} BackoffHasItsTimer(events: seq<Event>) returns (i: nat)
    requires var s := Run(events);
             && s.world.record.status == Backoff
             && (s.world.record.nextRetryAt.Some? ==> s.world.now < s.world.record.nextRetryAt.value)
             && (IsMounted(s) ==> !s.hooks[|s.hooks| - 1].running)
    ensures i < |events| && Arms(Run(events[..i]), events[i])
    ensures var before, s := Run(events[..i]), Run(events);
            && Actor(before, events[i]).Some?
            && var timer := ArmedAt(before, events[i]);
            && s.world.record.nextRetryAt == Some(timer.due)
            && ((before.world.nextId in s.world.timers && s.world.timers[before.world.nextId] == timer) <==>
                !(before.hooks[timer.owner].mounted && UnmountedBetween(events, i, |events|)))
  {
    hide Run, Step, Arms, Actor, ArmedAt;
    i := LatestArming(events);
    assert events[..|events|] == events;
    BackoffFollowed(events, i, |events|);
    RunKeepsInv(events);
  }

  /** Before the retry moment, the mounted instance's timer is the one the record speaks of, unless an unmounted instance has
      that one. */
  ghost predicate TimersMatch(s: State) {
    s.world.record.status == Backoff && s.world.record.nextRetryAt.Some? && s.world.now < s.world.record.nextRetryAt.value ==>
      || (forall t :: OwnsTimer(s, t) && s.hooks[s.world.timers[t].owner].mounted ==>
            s.world.timers[t].due == s.world.record.nextRetryAt.value)
      || (exists t :: OwnsTimer(s, t) && !s.hooks[s.world.timers[t].owner].mounted
                      && s.world.timers[t].due == s.world.record.nextRetryAt.value)
  }

  lemma ArmingMatches(s: State, e: Event)
    requires Inv(s) && Arms(s, e)
    ensures TimersMatch(Step(s, e))
  {
    StepKeepsInv(s, e);
    var r, i := Step(s, e), Actor(s, e).value;
    ArmedTimerWaits(s, e);
    assert OwnsTimer(r, s.world.nextId);
    if r.hooks[i].mounted {
      assert Sound(At(r, i)) && s.world.nextId in TimersOf(r.world, i);
      forall t | OwnsTimer(r, t) && r.hooks[r.world.timers[t].owner].mounted
        ensures r.world.timers[t].due == r.world.record.nextRetryAt.value
      {
        assert t in TimersOf(r.world, i);
      }
    }
  }

  lemma OtherEventsMatch(s: State, e: Event)
    requires Inv(s) && TimersMatch(s) && !Arms(s, e)
    ensures TimersMatch(Step(s, e))
  {
    OnlyArmingArms(s, e);
    StepKeepsInv(s, e);
    var r := Step(s, e);
    if t :| OwnsTimer(s, t) && !s.hooks[s.world.timers[t].owner].mounted
            && r.world.record.nextRetryAt == Some(s.world.timers[t].due) && r.world.now < s.world.timers[t].due
    {
      UnmountedTimerStays(s, e, t);
    } else {
      forall u | OwnsTimer(r, u) && r.hooks[r.world.timers[u].owner].mounted
        ensures OwnsTimer(s, u) && s.hooks[s.world.timers[u].owner].mounted
      {
        MountedWas(s, e, r.world.timers[u].owner);
      }
    }
  }

  lemma MountedWas(s: State, e: Event, i: nat)
    requires Inv(s) && i < |s.hooks| && Step(s, e).hooks[i].mounted
    ensures s.hooks[i].mounted
  {
    if Actor(s, e) != Some(i) { OthersStay(s, e, i); }
  }

  lemma UnmountedTimerStays(s: State, e: Event, t: nat)
    requires Inv(s) && OwnsTimer(s, t) && !s.hooks[s.world.timers[t].owner].mounted
    requires !Arms(s, e) && Step(s, e).world.now < s.world.timers[t].due
    ensures OwnsTimer(Step(s, e), t) && !Step(s, e).hooks[s.world.timers[t].owner].mounted
    ensures Step(s, e).world.timers[t] == s.world.timers[t]
  {
    var j := s.world.timers[t].owner;
    assert Sound(At(s, j)) && t in TimersOf(s.world, j);
    OnlyArmingArms(s, e);
    if Actor(s, e) != Some(j) {
      OthersStay(s, e, j);
      assert t in TimersOf(Step(s, e).world, j);
    } else {
      ActorHasCause(s, e, j);
    }
  }

  lemma {:induction false} TimersAlwaysMatch(events: seq<Event>)
    ensures TimersMatch(Run(events))
  {
    if events != [] {
      var init, e := events[..|events| - 1], events[|events| - 1];
      TimersAlwaysMatch(init);
      RunKeepsInv(init);
      if Arms(Run(init), e) { ArmingMatches(Run(init), e); } else { OtherEventsMatch(Run(init), e); }
    }
  }

  lemma RunStartsBy(s: State, e: Event)
    requires Inv(s) && s.world.record.status == Backoff
    requires s.world.record.nextRetryAt.Some? && s.world.now < s.world.record.nextRetryAt.value
    requires exists k :: k in Step(s, e).world.runs && k !in s.world.runs
    ensures e == Triggered(Manual) || (e.TimerFired? && OwnsTimer(s, e.t) && s.world.timers[e.t].due <= s.world.now)
  {
  }

  /** Before the retry moment only a manual trigger starts a run, unless an unmounted instance has a timer live. */
  lemma {:induction false} OnlyManualStartsEarly(events: seq<Event>, e: Event)
    requires var w := Run(events).world;
             w.record.status == Backoff && w.record.nextRetryAt.Some? && w.now < w.record.nextRetryAt.value
    requires exists k :: k in Step(Run(events), e).world.runs && k !in Run(events).world.runs
    ensures e == Triggered(Manual) || LeftTimer(Run(events))
  {
    RunKeepsInv(events);
    TimersAlwaysMatch(events);
    RunStartsBy(Run(events), e);
    assert e.TimerFired? ==> OwnsTimer(Run(events), e.t);
  }

  const UNMOUNT_IN_BACKOFF := [Mounts(true, true), Triggered(Launch), RunFailed(0), Unmounted]

  /** Unmounting in backoff leaves a record that promises a retry no timer will make. */
  lemma UnmountLosesTheRetry()
    ensures var w := Run(UNMOUNT_IN_BACKOFF).world;
            && w.record.status == Backoff && w.record.nextRetryAt == Some(1000) && w.now == 0
            && w.runs == map[] && w.timers == map[]
  {
    var e1, e2, e3 := UNMOUNT_IN_BACKOFF[..1], UNMOUNT_IN_BACKOFF[..2], UNMOUNT_IN_BACKOFF[..3];
    assert e1 == [] + [Mounts(true, true)];
    RunStep([], Mounts(true, true));
    assert e2 == e1 + [Triggered(Launch)];
    RunStep(e1, Triggered(Launch));
    assert e3 == e2 + [RunFailed(0)];
    RunStep(e2, RunFailed(0));
    assert UNMOUNT_IN_BACKOFF == e3 + [Unmounted];
    RunStep(e3, Unmounted);
  }
}
