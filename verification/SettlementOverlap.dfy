/** Overlaps between settlement instances: when runs or timers of an unmounted one meet those of the mounted one. */
module SettlementOverlap {
  import opened Common
  import opened Settlement
  import opened SettlementSafety

  // ----- Overlaps between instances -----------------------------------------------------------------------------------------

  predicate Overlaps(s: State) {
    exists a, b :: a in s.world.runs && b in s.world.runs && a != b
  }

  predicate TwoTimers(s: State) {
    exists t, u :: t in s.world.timers && u in s.world.timers && t != u
  }

  /** An unmounted instance has a run in flight. */
  predicate LeftRun(s: State) {
    exists k :: k in s.world.runs && OwnsRun(s, k) && !s.hooks[s.world.runs[k].owner].mounted
  }

  predicate LeftTimer(s: State) {
    exists t :: t in s.world.timers && OwnsTimer(s, t) && !s.hooks[s.world.timers[t].owner].mounted
  }

  /** An unmounted instance has a timer live, and its last context lets it start a run. */
  predicate LeftRetry(s: State) {
    exists t :: t in s.world.timers && OwnsTimer(s, t) &&
      var hook := s.hooks[s.world.timers[t].owner]; !hook.mounted && hook.enabled && hook.identified
  }

  predicate NoUnmount(events: seq<Event>) {
    forall e :: e in events ==> e != Unmounted
  }

  function From(s: State, events: seq<Event>): State {
    if events == [] then s else Step(From(s, events[..|events| - 1]), events[|events| - 1])
  }

  /** An unmounted instance without a run that cannot start one stays so; nothing is added to its timers. */
  lemma QuietStays(s: State, e: Event, j: nat)
    requires Inv(s) && j < |s.hooks| && !s.hooks[j].mounted && RunsOf(s.world, j) == {}
    requires TimersOf(s.world, j) == {} || !s.hooks[j].enabled || !s.hooks[j].identified
    ensures var r := Step(s, e);
            && j < |r.hooks| && r.hooks[j].mounted == false
            && r.hooks[j].enabled == s.hooks[j].enabled && r.hooks[j].identified == s.hooks[j].identified
            && RunsOf(r.world, j) == {} && TimersOf(r.world, j) <= TimersOf(s.world, j)
  {
    if Actor(s, e) != Some(j) {
      OthersStay(s, e, j);
    } else {
      ActorHasCause(s, e, j);
      assert forall k :: k in RunsOf(Step(s, e).world, j) ==> k in RunsOf(s.world, j);
    }
  }

  /** No unmounted instance has a run; `timers` says whether its timers are ruled out too, or only those that start a run. */
  ghost predicate Alone(s: State, timers: bool) {
    forall j :: 0 <= j < |s.hooks| && !s.hooks[j].mounted ==>
      && RunsOf(s.world, j) == {}
      && (TimersOf(s.world, j) == {} || (!timers && (!s.hooks[j].enabled || !s.hooks[j].identified)))
  }

  lemma AloneMeans(s: State)
    requires Inv(s)
    ensures Alone(s, true) <==> !LeftRun(s) && !LeftTimer(s)
    ensures Alone(s, false) <==> !LeftRun(s) && !LeftRetry(s)
  {
    forall j, k | 0 <= j < |s.hooks| && k in RunsOf(s.world, j) ensures OwnsRun(s, k) {}
    forall j, t | 0 <= j < |s.hooks| && t in TimersOf(s.world, j) ensures OwnsTimer(s, t) {}
    forall k | k in s.world.runs ensures k in RunsOf(s.world, s.world.runs[k].owner) {}
    forall t | t in s.world.timers ensures t in TimersOf(s.world, s.world.timers[t].owner) {}
  }

  /** The one event that leaves something behind. */
  predicate LeavesRun(s: State, e: Event) {
    e == Unmounted && IsMounted(s) && s.hooks[|s.hooks| - 1].running
  }

  lemma AloneStep(s: State, e: Event, timers: bool)
    requires Inv(s) && Alone(s, timers) && !LeavesRun(s, e)
    ensures Alone(Step(s, e), timers)
  {
    var r := Step(s, e);
    forall j | 0 <= j < |r.hooks| && !r.hooks[j].mounted
      ensures RunsOf(r.world, j) == {}
      ensures TimersOf(r.world, j) == {} || (!timers && (!r.hooks[j].enabled || !r.hooks[j].identified))
    {
      if j < |s.hooks| {
        if s.hooks[j].mounted {
          UnmountedLast(s, e, j);
        } else {
          QuietStays(s, e, j);
        }
      }
    }
  }

  lemma UnmountedLast(s: State, e: Event, j: nat)
    requires Inv(s) && j < |s.hooks| && s.hooks[j].mounted && !Step(s, e).hooks[j].mounted
    requires !LeavesRun(s, e)
    ensures RunsOf(Step(s, e).world, j) == {} && TimersOf(Step(s, e).world, j) == {}
  {
    if Actor(s, e) != Some(j) {
      OthersStay(s, e, j);
    } else {
      var engine := At(s, j);
      assert e == Unmounted && Sound(engine);
      UnmountKeeps(engine, |s.hooks|);
      assert RunsOf(Unmount(engine).world, j) == RunsOf(s.world, j);
    }
  }

  lemma AloneDoesNotOverlap(s: State)
    requires Inv(s)
    ensures Alone(s, false) ==> !Overlaps(s)
    ensures Alone(s, true) ==> !TwoTimers(s)
  {
    InvMeans(s);
    AloneMeans(s);
  }

  lemma {:induction false} AloneOnward(s: State, events: seq<Event>, timers: bool)
    requires Inv(s) && Alone(s, timers) && NoUnmount(events)
    ensures Inv(From(s, events)) && Alone(From(s, events), timers)
  {
    if events != [] {
      var init, e := events[..|events| - 1], events[|events| - 1];
      assert e in events && forall x :: x in init ==> x in events;
      AloneOnward(s, init, timers);
      StepKeepsInv(From(s, init), e);
      AloneStep(From(s, init), e, timers);
    }
  }

  lemma Onward(s: State, events: seq<Event>, e: Event)
    ensures From(s, events + [e]) == Step(From(s, events), e)
  {
    assert (events + [e])[..|events|] == events;
  }

  /** A mounted instance that runs can be had in two events, which leave alone what the others have. */
  lemma StartsRun(s: State) returns (events: seq<Event>)
    requires Inv(s)
    ensures NoUnmount(events)
    ensures var r := From(s, events);
            Inv(r) && IsMounted(r) && r.hooks[|r.hooks| - 1].running && UnmountedKept(s, r)
  {
    var first := if IsMounted(s) then ContextChanged(true, true, false) else Mounts(true, true);
    OpensGate(s);
    var s1 := Step(s, first);
    ManualRuns(s1);
    var s2 := Step(s1, Triggered(Manual));
    events := [first, Triggered(Manual)];
    hide Step, Inv;
    assert From(s, []) == s;
    Onward(s, [], first);
    Onward(s, [first], Triggered(Manual));
    assert [] + [first] == [first] && [first] + [Triggered(Manual)] == events;
  }

  /** What unmounted instances have pending is kept. */
  ghost predicate UnmountedKept(s: State, r: State) {
    && |r.hooks| >= |s.hooks|
    && forall j :: 0 <= j < |s.hooks| && !s.hooks[j].mounted ==>
         && r.hooks[j] == s.hooks[j]
         && RunsOf(r.world, j) == RunsOf(s.world, j) && TimersOf(r.world, j) == TimersOf(s.world, j)
  }

  lemma OpensGate(s: State)
    requires Inv(s)
    ensures var r := Step(s, if IsMounted(s) then ContextChanged(true, true, false) else Mounts(true, true));
            Inv(r) && IsMounted(r) && Current(r).hook.enabled && Current(r).hook.identified && UnmountedKept(s, r)
  {
    var e := if IsMounted(s) then ContextChanged(true, true, false) else Mounts(true, true);
    StepKeepsInv(s, e);
    forall j | 0 <= j < |s.hooks| && !s.hooks[j].mounted
      ensures Step(s, e).hooks[j] == s.hooks[j] && RunsOf(Step(s, e).world, j) == RunsOf(s.world, j)
      ensures TimersOf(Step(s, e).world, j) == TimersOf(s.world, j)
    {
      OthersStay(s, e, j);
    }
  }

  lemma ManualRuns(s: State)
    requires Inv(s) && IsMounted(s) && Current(s).hook.enabled && Current(s).hook.identified
    ensures var r := Step(s, Triggered(Manual));
            Inv(r) && IsMounted(r) && r.hooks[|r.hooks| - 1].running && UnmountedKept(s, r)
  {
    var e := Triggered(Manual);
    StepKeepsInv(s, e);
    forall j | 0 <= j < |s.hooks| && !s.hooks[j].mounted
      ensures Step(s, e).hooks[j] == s.hooks[j] && RunsOf(Step(s, e).world, j) == RunsOf(s.world, j)
      ensures TimersOf(Step(s, e).world, j) == TimersOf(s.world, j)
    {
      OthersStay(s, e, j);
    }
  }

  lemma {:induction false} Joined(s: State, a: seq<Event>, b: seq<Event>)
    requires NoUnmount(a) && NoUnmount(b)
    ensures NoUnmount(a + b) && From(s, a + b) == From(From(s, a), b)
  {
    hide Step;
    assert forall e :: e in a + b ==> e in a || e in b;
    if b == [] {
      assert a + b == a;
    } else {
      var init := b[..|b| - 1];
      assert forall e :: e in init ==> e in b;
      Joined(s, a, init);
      assert (a + b)[..|a + b| - 1] == a + init;
    }
  }

  lemma LeftRunOverlaps(s: State) returns (events: seq<Event>)
    requires Inv(s) && LeftRun(s)
    ensures NoUnmount(events) && Overlaps(From(s, events))
  {
    events := StartsRun(s);
    var r := From(s, events);
    var k :| k in s.world.runs && OwnsRun(s, k) && !s.hooks[s.world.runs[k].owner].mounted;
    var j, last := s.world.runs[k].owner, |r.hooks| - 1;
    assert k in RunsOf(s.world, j) && k in RunsOf(r.world, j);
    assert Sound(At(r, last));
    var b :| b in RunsOf(r.world, last);
    assert !r.hooks[j].mounted && k != b;
  }

  lemma RunningIsLeft(s: State, j: nat)
    requires Inv(s) && j < |s.hooks| && s.hooks[j].running && !s.hooks[j].mounted
    ensures LeftRun(s)
  {
    assert Sound(At(s, j));
    var k :| k in RunsOf(s.world, j);
    assert OwnsRun(s, k);
  }

  lemma LeftRetryRuns(s: State) returns (events: seq<Event>)
    requires Inv(s) && LeftRetry(s)
    ensures NoUnmount(events) && Inv(From(s, events)) && LeftRun(From(s, events))
  {
    var t :| t in s.world.timers && OwnsTimer(s, t) &&
      (var hook := s.hooks[s.world.timers[t].owner]; !hook.mounted && hook.enabled && hook.identified);
    var j, due := s.world.timers[t].owner, s.world.timers[t].due;
    var wait := TimePasses(if due > s.world.now then due - s.world.now else 0);
    var s1 := Step(s, wait);
    StepKeepsInv(s, wait);
    assert t in TimersOf(s.world, j) && Sound(At(s, j));
    assert Sound(At(s1, j)) && t in TimersOf(s1.world, j);
    FiringRestarts(s1, t);
    StepKeepsInv(s1, TimerFired(t));
    RunningIsLeft(Step(s1, TimerFired(t)), j);
    hide Step;
    events := [wait, TimerFired(t)];
    assert From(s, []) == s;
    Onward(s, [], wait);
    Onward(s, [wait], TimerFired(t));
    assert [] + [wait] == [wait] && [wait] + [TimerFired(t)] == events;
  }

  lemma FailureArms(s: State, k: nat, i: nat, t: nat, j: nat)
    requires Inv(s) && k in RunsOf(s.world, i) && i < |s.hooks| && t in TimersOf(s.world, j) && j < |s.hooks| && j != i
    ensures TwoTimers(Step(s, RunFailed(k)))
  {
    assert OwnsRun(s, k) && Actor(s, RunFailed(k)) == Some(i);
    OthersStay(s, RunFailed(k), j);
    var r := Step(s, RunFailed(k));
    assert t in TimersOf(r.world, j);
    assert s.world.nextId in r.world.timers && r.world.timers[s.world.nextId].owner == i;
  }

  lemma RunningDoubles(s: State, t: nat, j: nat) returns (e: Event)
    requires Inv(s) && IsMounted(s) && s.hooks[|s.hooks| - 1].running && j < |s.hooks| - 1 && t in TimersOf(s.world, j)
    ensures e != Unmounted && TwoTimers(Step(s, e))
  {
    assert Sound(At(s, |s.hooks| - 1));
    var b :| b in RunsOf(s.world, |s.hooks| - 1);
    e := RunFailed(b);
    FailureArms(s, b, |s.hooks| - 1, t, j);
  }

  lemma LeftTimerDoubles(s: State) returns (events: seq<Event>)
    requires Inv(s) && LeftTimer(s)
    ensures NoUnmount(events) && TwoTimers(From(s, events))
  {
    hide Step, Inv, TwoTimers, Sound;
    var t :| t in s.world.timers && OwnsTimer(s, t) && !s.hooks[s.world.timers[t].owner].mounted;
    var j := s.world.timers[t].owner;
    assert t in TimersOf(s.world, j);
    var start := StartsRun(s);
    var r := From(s, start);
    assert t in TimersOf(r.world, j) && !r.hooks[j].mounted;
    var e := RunningDoubles(r, t, j);
    events := start + [e];
    Onward(s, start, e);
    assert NoUnmount(events);
  }

  lemma LeftRunLeavesTimer(s: State) returns (events: seq<Event>)
    requires Inv(s) && LeftRun(s)
    ensures NoUnmount(events) && Inv(From(s, events)) && LeftTimer(From(s, events))
  {
    var k :| k in s.world.runs && OwnsRun(s, k) && !s.hooks[s.world.runs[k].owner].mounted;
    events := [RunFailed(k)];
    StepKeepsInv(s, RunFailed(k));
    assert From(s, []) == s;
    Onward(s, [], RunFailed(k));
    assert [] + [RunFailed(k)] == events;
    assert OwnsTimer(From(s, events), s.world.nextId);
  }

  /** Without another unmount, two runs can come to be in flight together if and only if an unmounted instance still has a run
      in flight, or a live timer whose context lets it start one. */
  lemma {:induction false} RunsOverlapExactlyWhen(events: seq<Event>)
    ensures var s := Run(events);
            (exists future :: NoUnmount(future) && Overlaps(From(s, future))) <==> LeftRun(s) || LeftRetry(s)
  {
    var s := Run(events);
    RunKeepsInv(events);
    AloneMeans(s);
    if Alone(s, false) {
      forall future | NoUnmount(future) ensures !Overlaps(From(s, future)) {
        AloneOnward(s, future, false);
        AloneDoesNotOverlap(From(s, future));
      }
    } else if LeftRun(s) {
      var future := LeftRunOverlaps(s);
      assert NoUnmount(future) && Overlaps(From(s, future));
    } else {
      var first := LeftRetryRuns(s);
      var second := LeftRunOverlaps(From(s, first));
      Joined(s, first, second);
      assert NoUnmount(first + second) && Overlaps(From(s, first + second));
    }
  }

  /** Without another unmount, two timers can come to be live together if and only if an unmounted instance still has a run in
      flight or a live timer. */
  lemma {:induction false} TimersDoubleExactlyWhen(events: seq<Event>)
    ensures var s := Run(events);
            (exists future :: NoUnmount(future) && TwoTimers(From(s, future))) <==> LeftRun(s) || LeftTimer(s)
  {
    var s := Run(events);
    RunKeepsInv(events);
    AloneMeans(s);
    if Alone(s, true) {
      forall future | NoUnmount(future) ensures !TwoTimers(From(s, future)) {
        AloneOnward(s, future, true);
        AloneDoesNotOverlap(From(s, future));
      }
    } else if LeftTimer(s) {
      var future := LeftTimerDoubles(s);
      assert NoUnmount(future) && TwoTimers(From(s, future));
    } else {
      var first := LeftRunLeavesTimer(s);
      var second := LeftTimerDoubles(From(s, first));
      Joined(s, first, second);
      assert NoUnmount(first + second) && TwoTimers(From(s, first + second));
    }
  }

  /** The history unmounts the hook while a run is in flight. */
  predicate UnmountsInRun(events: seq<Event>) {
    exists i :: 0 <= i < |events| && LeavesRun(Run(events[..i]), events[i])
  }

  /** Everything pending of an unmounted instance, and so every overlap, goes back to an unmount during a run: in any other
      history the whole engine has one run and one timer at most. */
  lemma {:induction false} OverlapNeedsUnmountInRun(events: seq<Event>)
    ensures !UnmountsInRun(events) ==>
              var s := Run(events); !LeftRun(s) && !LeftTimer(s) && !Overlaps(s) && !TwoTimers(s)
  {
    if !UnmountsInRun(events) {
      AloneWithout(events);
      RunKeepsInv(events);
      AloneMeans(Run(events));
      AloneDoesNotOverlap(Run(events));
    }
  }

  lemma {:induction false} AloneWithout(events: seq<Event>)
    requires !UnmountsInRun(events)
    ensures Alone(Run(events), true)
  {
    if events != [] {
      var init, e := events[..|events| - 1], events[|events| - 1];
      assert events[..|init|] == init && !LeavesRun(Run(init), e);
      assert forall i :: 0 <= i < |init| ==> init[..i] == events[..i];
      AloneWithout(init);
      RunKeepsInv(init);
      AloneStep(Run(init), e, true);
    }
  }

  /** And every such unmount opens the way: right after it, two runs and two timers can come to be. */
  lemma {:induction false} UnmountInRunLeavesIt(events: seq<Event>)
    requires LeavesRun(Run(events), Unmounted)
    ensures LeftRun(Run(events + [Unmounted]))
  {
    var s := Run(events);
    assert (events + [Unmounted])[..|events|] == events;
    RunKeepsInv(events);
    var last := |s.hooks| - 1;
    assert Sound(At(s, last));
    var k :| k in RunsOf(s.world, last);
    assert OwnsRun(Step(s, Unmounted), k);
  }

  /** Locking during a run and unlocking: two runs in flight, and two live timers when both fail. */
  const LOCKED_IN_RUN := [Mounts(true, true), Triggered(Launch), Unmounted, Mounts(true, true), Triggered(Launch)]

  lemma RemountOverlaps()
    ensures var s := Run(LOCKED_IN_RUN);
            && s.world.runs == map[0 := Flight(0, AwaitsStats(Launch)), 1 := Flight(1, AwaitsStats(Launch))]
            && s.world.timers == map[] && s.world.nextId == 2 && |s.hooks| == 2
            && Overlaps(s)
  {
    var e1, e2, e3, e4 := LOCKED_IN_RUN[..1], LOCKED_IN_RUN[..2], LOCKED_IN_RUN[..3], LOCKED_IN_RUN[..4];
    assert e1 == [] + [Mounts(true, true)] && e2 == e1 + [Triggered(Launch)] && e3 == e2 + [Unmounted];
    assert e4 == e3 + [Mounts(true, true)] && LOCKED_IN_RUN == e4 + [Triggered(Launch)];
    assert Run([]) == START;
    hide Run, Step;
    RunStep([], Mounts(true, true));
    RunStep(e1, Triggered(Launch));
    RunStep(e2, Unmounted);
    RunStep(e3, Mounts(true, true));
    RunStep(e4, Triggered(Launch));
    LockedSteps();
    RemountSteps(Run(e3));
  }

  lemma LockedSteps()
    ensures var s := Step(Step(Step(START, Mounts(true, true)), Triggered(Launch)), Unmounted);
            && s.world == START.world.(runs := map[0 := Flight(0, AwaitsStats(Launch))], nextId := 1)
            && |s.hooks| == 1 && !s.hooks[0].mounted
  {
    assert Step(START, Mounts(true, true)).hooks == [Hook(true, true, true, false, None, INITIAL_BACKOFF_MS, 0)];
  }

  lemma RemountSteps(s: State)
    requires s.world == START.world.(runs := map[0 := Flight(0, AwaitsStats(Launch))], nextId := 1)
    requires |s.hooks| == 1 && !s.hooks[0].mounted
    ensures var r := Step(Step(s, Mounts(true, true)), Triggered(Launch));
            && r.world.runs == map[0 := Flight(0, AwaitsStats(Launch)), 1 := Flight(1, AwaitsStats(Launch))]
            && r.world.timers == map[] && r.world.nextId == 2 && |r.hooks| == 2
            && Overlaps(r)
  {
    var r := Step(Step(s, Mounts(true, true)), Triggered(Launch));
    assert 0 in r.world.runs && 1 in r.world.runs;
  }

  lemma RemountDoublesTimers()
    ensures var s := Run(LOCKED_IN_RUN + [RunFailed(0), RunFailed(1)]); s.world.timers.Keys == {2, 3} && TwoTimers(s)
  {
    RemountOverlaps();
    RunStep(LOCKED_IN_RUN, RunFailed(0));
    RunStep(LOCKED_IN_RUN + [RunFailed(0)], RunFailed(1));
    assert LOCKED_IN_RUN + [RunFailed(0)] + [RunFailed(1)] == LOCKED_IN_RUN + [RunFailed(0), RunFailed(1)];
    hide Run;
    TwoFailures(Run(LOCKED_IN_RUN));
  }

  lemma TwoFailures(s: State)
    requires s.world.runs == map[0 := Flight(0, AwaitsStats(Launch)), 1 := Flight(1, AwaitsStats(Launch))]
    requires s.world.timers == map[] && s.world.nextId == 2 && |s.hooks| == 2
    ensures var r := Step(Step(s, RunFailed(0)), RunFailed(1)); r.world.timers.Keys == {2, 3} && TwoTimers(r)
  {
    var s1 := Step(s, RunFailed(0));
    assert s1.world.timers.Keys == {2} && s1.world.nextId == 3 && 1 in s1.world.runs && s1.world.runs[1].owner == 1;
    var r := Step(s1, RunFailed(1));
    assert 2 in r.world.timers && 3 in r.world.timers;
  }
}
