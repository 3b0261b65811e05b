/** What the pending flag of the stream says, and when a live effect waits for nothing: every run of the reconnect protocol of
    hooks/useOffpayWalletActivityStream.ts. */
module ActivityStreamProgress {
  import opened Common
  import opened ActivityStream

  // ----- The pending flag -------------------------------------------------------------------------------------------

  /** Open `k` belongs to the current generation and epoch. */
  predicate Current(s: State, k: nat) {
    k < |s.opens| && s.opens[k].generation == s.generation && s.opens[k].epoch == s.epoch
  }

  predicate LatestAwaited(s: State) {
    s.opens != [] && |s.opens| - 1 in s.inFlight && Current(s, |s.opens| - 1)
  }

  /** The event resolves or rejects an open that is not the latest but of its generation. */
  predicate SettlesOlder(s: State, e: Event) {
    (e.Resolves? || e.Rejects?) &&
    e.k in s.inFlight && e.k < |s.opens| - 1 && s.opens[e.k].generation == s.opens[|s.opens| - 1].generation
  }

  /** Since the latest open started, an older open of its generation resolved or rejected. */
  predicate Overtaken(events: seq<Event>) {
    events != [] &&
    var init, e := events[..|events| - 1], events[|events| - 1];
    |Run(init).opens| == |Run(events).opens| && (Overtaken(init) || SettlesOlder(Run(init), e))
  }

  /** No open is of a later generation or epoch than the effect. */
  ghost predicate Past(s: State) {
    && (forall k :: 0 <= k < |s.opens| ==> s.opens[k].generation <= s.generation)
    && (forall k :: 0 <= k < |s.opens| && s.opens[k].generation == s.generation ==> s.opens[k].epoch <= s.epoch)
  }

  ghost predicate Tracks(s: State, overtaken: bool) {
    Past(s) && (s.openPending <==> LatestAwaited(s) && !overtaken)
  }

  // ----- Waiting ----------------------------------------------------------------------------------------------------

  predicate Live(s: State) {
    !s.cancelled && !s.paused
  }

  predicate Awaits(s: State, k: nat) {
    k in s.inFlight && !Stale(s, k)
  }

  /** A connection is attached, polling is on, a reconnect timer is armed or an open is awaited. */
  ghost predicate Busy(s: State) {
    s.connection.Some? || s.polling || Armed(s) || exists k :: Awaits(s, k)
  }

  /** A pending reconnect has its timer or has fallen back to polling, and a paused effect has nothing. */
  ghost predicate Waits(s: State) {
    && (Live(s) && s.reconnectPending ==> s.polling || Armed(s))
    && (s.paused && !s.cancelled ==>
          && s.connection.None? && s.retryTimer.None? && !s.polling && !s.reconnectPending
          && forall k :: 0 <= k < |s.opens| ==> !Current(s, k))
  }

  // ----- What closing, failing and opening do -----------------------------------------------------------------------

  lemma ScheduleAlarms(s: State, error: StreamError, closing: Closing, leaving: set<nat>)
    requires Safe(s, leaving) && Waits(s)
    ensures var r := ScheduleReconnect(s, error, closing);
            && OnlyDetaches(s, r) && Waits(r)
            && (if Live(s) then r.polling || Armed(r) else r == s)
  {
    hide CloseConnection, Safe;
    ScheduleReconnectSafe(s, error, closing, leaving);
    if !Live(s) || s.reconnectPending {
    } else if RateLimitDelay(error).Some? {
      CloseConnectionSafe(s, closing, leaving);
    } else {
      InertClose(s.(reconnectPending := true, attempts := s.attempts + 1), closing);
    }
  }

  lemma AbortWaits(s: State, k: nat, reentry: Reentry)
    requires Safe(s, {}) && Waits(s) && s.connection.None? && s.controller == Some(k)
    ensures var r := Abort(s, k, reentry);
            OnlyDetaches(s, r) && Waits(r)
  {
    hide ScheduleReconnect;
    AbortSafe(s, k, reentry, {});
    var s1 := s.(aborted := s.aborted + {k});
    assert forall j :: Current(s1, j) == Current(s, j);
    if k !in s.aborted && reentry.CallsOnClose? && !Stale(s1, k) {
      ScheduleAlarms(s1, Plain, reentry.nested, {});
    }
  }

  lemma CloseProducedWaits(s: State, k: nat, reentry: Reentry)
    requires Safe(s, {k}) && Waits(s) && s.connection != Some(k) && k < |s.opens| && k !in s.inFlight && k !in s.closed
    ensures var r := CloseProduced(s, k, reentry);
            && OnlyDetaches(s, r) && Waits(r)
            && (if reentry.CallsOnClose? && !Stale(s, k) then r.polling || Armed(r) else r == s.(closed := s.closed + {k}))
  {
    hide ScheduleReconnect;
    CloseProducedSafe(s, k, reentry, {k});
    var s1 := s.(closed := s.closed + {k});
    assert Safe(s1, {k});
    assert forall j :: Current(s1, j) == Current(s, j);
    if reentry.CallsOnClose? && !Stale(s1, k) {
      ScheduleAlarms(s1, Plain, reentry.nested, {k});
    }
  }

  /** An open that is not refused becomes the latest, awaited one. */
  lemma OpenStreamAwaits(s: State, reentry: Reentry)
    requires Safe(s, {}) && Waits(s)
    ensures var r := OpenStream(s, reentry);
            && Waits(r)
            && (if Live(s) && !s.openPending && s.connection.None? then
                  && r.opens == s.opens + [Open(s.generation, s.epoch)] && r.inFlight == s.inFlight + {|s.opens|}
                  && r.generation == s.generation && r.epoch == s.epoch && Live(r) && r.openPending
                else r == s)
  {
    hide Abort;
    if Live(s) && !s.openPending && s.connection.None? {
      var s1 := s.(openPending := true);
      if s1.controller.Some? { AbortWaits(s1, s1.controller.value, reentry); }
    }
  }

  lemma PauseDetaches(s: State, closing: Closing)
    ensures var r := PauseStream(s, closing);
            && r.paused && r.cancelled == s.cancelled && r.epoch == s.epoch + 1 && r.generation == s.generation
            && r.connection.None? && r.retryTimer.None? && !r.polling && !r.reconnectPending && !r.openPending
            && r.opens == s.opens && r.inFlight == s.inFlight && r.controller.None? && r.status == Idle
  {
    InertClose(s.(paused := true, epoch := s.epoch + 1, reconnectPending := false, openPending := false,
                  retryTimer := None, polling := false), closing);
  }

  lemma CleanupDetaches(s: State, closing: Closing)
    ensures var r := Cleanup(s, closing);
            && r.cancelled && r.epoch == s.epoch && r.generation == s.generation && r.openPending == s.openPending
            && r.opens == s.opens && r.inFlight == s.inFlight
  {
    InertClose(s.(cancelled := true, retryTimer := None, polling := false), closing);
  }

  /** A mount of an active effect opens; an inactive one starts paused. */
  lemma MountAwaits(s: State, active: bool, closing: Closing)
    requires Safe(s, {}) && Past(s) && s.cancelled
    ensures var r := Mount(s, active, closing);
            && Waits(r) && r.generation == s.generation + 1 && r.epoch == 0 && !r.cancelled && r.paused == !active
            && r.openPending == active && r.connection.None? && r.retryTimer.None? && !r.polling
            && r.attempts == 0 && !r.reconnectPending && r.status == (if active then Connecting else Idle)
            && r.opens == (if active then s.opens + [Open(r.generation, 0)] else s.opens)
            && r.inFlight == (if active then s.inFlight + {|s.opens|} else s.inFlight)
  {
    var s0 := s.(retryTimer := None, polling := false);
    InertClose(s0, closing);
    CloseConnectionSafe(s0, closing, {});
    var s1 := Declared(CloseConnection(s0, closing), active);
    assert Waits(s1);
    OpenStreamAwaits(s1, Quiet);
  }

  // ----- Steps ------------------------------------------------------------------------------------------------------

  /** A live effect that waits for nothing: no stream event will come, and no timer of the protocol fires. */
  ghost predicate Dormant(s: State) {
    Live(s) && !Busy(s)
  }

  /** Nothing but open `k` is left to wait for. */
  ghost predicate OnlyAwaits(s: State, k: nat) {
    s.connection.None? && !s.polling && !Armed(s) && forall j :: Awaits(s, j) ==> j == k
  }

  /** What sends a live effect to sleep: a resume from pause, until its foreground timer fires; an aborted open that resolves
      when nothing else is left, its reconnect timer having fired, and whose closing calls no handler; a late `onOpen` that
      stops the polling when nothing else is left. */
  ghost predicate Lulls(s: State, e: Event) {
    match e
    case Resumes => s.paused && !s.cancelled
    case Resolves(k, _, reentry) => Awaits(s, k) && k in s.aborted && reentry.Quiet? && OnlyAwaits(s, k)
    case Opens(k) => !Stale(s, k) && s.connection.None? && !Armed(s) && forall j :: !Awaits(s, j)
    case _ => false
  }

  /** What ends the sleep: the foreground timer, a failure an open of the current epoch still reports, the end of the effect. */
  predicate Rouses(s: State, e: Event) {
    match e
    case ForegroundTimer(_) => true
    case Errors(k, _, _) => !Stale(s, k)
    case Closes(k, _) => !Stale(s, k)
    case Unsupported(k) => !Stale(s, k)
    case Pauses(_) => true
    case CleansUp(_) => true
    case _ => false
  }

  ghost predicate Flow(s: State, overtaken: bool) {
    Safe(s, {}) && Tracks(s, overtaken) && Waits(s)
  }

  /** What one event may do. */
  ghost predicate Flows(s: State, overtaken: bool, e: Event, r: State) {
    && Tracks(r, |r.opens| == |s.opens| && (overtaken || SettlesOlder(s, e)))
    && Waits(r)
    && (Dormant(r) <==> Lulls(s, e) || (Dormant(s) && !Rouses(s, e)))
  }

  /** The `finally` block of open `k` leaves the flag to younger generations. */
  lemma SettleTracks(s: State, overtaken: bool, e: Event, r: State)
    requires Tracks(s, overtaken) && (e.Resolves? || e.Rejects?) && e.k in s.inFlight && e.k < |s.opens|
    requires r.opens == s.opens && r.inFlight == s.inFlight - {e.k} && r.generation == s.generation && r.epoch == s.epoch
    requires r.openPending == (s.openPending && s.opens[e.k].generation != s.generation)
    ensures Tracks(r, overtaken || SettlesOlder(s, e))
  {
    assert Current(r, |s.opens| - 1) == Current(s, |s.opens| - 1);
    assert LatestAwaited(r) <==> LatestAwaited(s) && e.k != |s.opens| - 1;
  }

  /** Settling a stale open changes nothing anyone waits for. */
  lemma StaleSettles(s: State, k: nat, r: State)
    requires Waits(s) && k in s.inFlight && Stale(s, k)
    requires r.opens == s.opens && r.inFlight == s.inFlight - {k} && r.generation == s.generation && r.epoch == s.epoch
    requires r.cancelled == s.cancelled && r.paused == s.paused && r.connection == s.connection && r.polling == s.polling
    requires r.retryTimer == s.retryTimer && r.reconnectPending == s.reconnectPending
    ensures Waits(r) && (Dormant(r) <==> Dormant(s))
  {
    assert forall j :: Awaits(r, j) <==> Awaits(s, j);
    assert forall j :: Current(r, j) == Current(s, j);
  }

  function Unawaited(s: State, k: nat, supported: bool): State {
    s.(inFlight := s.inFlight - {k}, supported := if supported then s.supported + {k} else s.supported)
  }

  lemma StaleResolvedFlows(s: State, overtaken: bool, k: nat, supported: bool, reentry: Reentry)
    requires Flow(s, overtaken) && k in s.inFlight && Stale(s, k)
    ensures Flows(s, overtaken, Resolves(k, supported, reentry), Resolved(s, k, supported, reentry))
  {
    hide CloseProduced;
    var s1 := Unawaited(s, k, supported);
    assert forall j :: Current(s1, j) == Current(s, j);
    CloseProducedWaits(s1, k, reentry);
    var r := Resolved(s, k, supported, reentry);
    SettleTracks(s, overtaken, Resolves(k, supported, reentry), r);
    StaleSettles(s, k, r);
  }

  /** Closing what an aborted open produced may set off its handler, and then a reconnect. */
  lemma AbortedResolvedFlows(s: State, overtaken: bool, k: nat, supported: bool, reentry: Reentry)
    requires Flow(s, overtaken) && Awaits(s, k) && k in s.aborted
    ensures Flows(s, overtaken, Resolves(k, supported, reentry), Resolved(s, k, supported, reentry))
  {
    hide CloseProduced;
    var s1 := Unawaited(s, k, supported);
    assert forall j :: Current(s1, j) == Current(s, j);
    CloseProducedWaits(s1, k, reentry);
    var r := Resolved(s, k, supported, reentry);
    SettleTracks(s, overtaken, Resolves(k, supported, reentry), r);
    hide Tracks, SettlesOlder;
    assert forall j :: Current(r, j) == Current(s, j);
    assert forall j :: Awaits(r, j) <==> Awaits(s, j) && j != k;
  }

  lemma LiveResolvedFlows(s: State, overtaken: bool, k: nat, supported: bool, reentry: Reentry)
    requires Flow(s, overtaken) && Awaits(s, k) && k !in s.aborted
    ensures Flows(s, overtaken, Resolves(k, supported, reentry), Resolved(s, k, supported, reentry))
  {
    var r := Resolved(s, k, supported, reentry);
    SettleTracks(s, overtaken, Resolves(k, supported, reentry), r);
    hide Tracks, SettlesOlder;
    assert forall j :: Current(r, j) == Current(s, j);
    assert r.connection.Some? || r.polling;
  }

  lemma StaleRejectedFlows(s: State, overtaken: bool, k: nat, error: StreamError, closing: Closing)
    requires Flow(s, overtaken) && k in s.inFlight && Stale(s, k)
    ensures Flows(s, overtaken, Rejects(k, error, closing), Rejected(s, k, error, closing))
  {
    var r := Rejected(s, k, error, closing);
    SettleTracks(s, overtaken, Rejects(k, error, closing), r);
    StaleSettles(s, k, r);
  }

  lemma LiveRejectedFlows(s: State, overtaken: bool, k: nat, error: StreamError, closing: Closing)
    requires Flow(s, overtaken) && Awaits(s, k)
    ensures Flows(s, overtaken, Rejects(k, error, closing), Rejected(s, k, error, closing))
  {
    hide ScheduleReconnect;
    var s1 := Unawaited(s, k, false);
    assert Safe(s1, {});
    assert forall j :: Current(s1, j) == Current(s, j);
    ScheduleAlarms(s1, error, closing, {});
    var r := Rejected(s, k, error, closing);
    SettleTracks(s, overtaken, Rejects(k, error, closing), r);
    hide Tracks, SettlesOlder;
    assert forall j :: Current(r, j) == Current(s, j);
  }

  lemma FailedFlows(s: State, overtaken: bool, e: Event)
    requires Flow(s, overtaken) && (e.Errors? || e.Closes?)
    ensures Flows(s, overtaken, e, Step(s, e))
  {
    hide ScheduleReconnect;
    var error := if e.Errors? then e.error else Plain;
    if !Stale(s, e.k) { ScheduleAlarms(s, error, e.closing, {}); }
    var r := Step(s, e);
    assert forall j :: Current(r, j) == Current(s, j);
  }

  lemma OpenedFlows(s: State, overtaken: bool, e: Event)
    requires Flow(s, overtaken) && (e.Opens? || e.Unsupported? || e.Resumes?)
    ensures Flows(s, overtaken, e, Step(s, e))
  {
    var r := Step(s, e);
    assert forall j :: Current(r, j) == Current(s, j);
    assert !e.Resumes? ==> forall j :: Awaits(r, j) <==> Awaits(s, j);
    assert forall j :: Awaits(s, j) ==> Current(s, j);
    assert forall j :: Awaits(r, j) ==> Current(r, j);
  }

  lemma PauseFlows(s: State, overtaken: bool, closing: Closing)
    requires Flow(s, overtaken)
    ensures Flows(s, overtaken, Pauses(closing), Step(s, Pauses(closing)))
  {
    hide PauseStream;
    PauseDetaches(s, closing);
  }

  lemma CleanupFlows(s: State, overtaken: bool, closing: Closing)
    requires Flow(s, overtaken)
    ensures Flows(s, overtaken, CleansUp(closing), Step(s, CleansUp(closing)))
  {
    hide Cleanup;
    CleanupDetaches(s, closing);
  }

  lemma ForegroundFlows(s: State, overtaken: bool, reentry: Reentry)
    requires Flow(s, overtaken)
    ensures Flows(s, overtaken, ForegroundTimer(reentry), ReconnectIfDormant(s, reentry))
  {
    hide OpenStream;
    var s1 := s.(attempts := 0, armed := [], reconnectPending := false);
    assert Safe(s1, {});
    assert forall j :: Current(s1, j) == Current(s, j);
    OpenStreamAwaits(s1, reentry);
    var r := ReconnectIfDormant(s, reentry);
    assert Live(s) && s.openPending ==> Awaits(s, |s.opens| - 1);
    assert Live(s) && r.opens != s.opens ==> Awaits(r, |s.opens|);
  }

  lemma RetryFlows(s: State, overtaken: bool, reentry: Reentry)
    requires Flow(s, overtaken)
    ensures Flows(s, overtaken, RetryTimer(reentry), RetryTimerFires(s, reentry))
  {
    hide OpenStream;
    var r := RetryTimerFires(s, reentry);
    if Armed(s) {
      var s1 := s.(retryTimer := None, reconnectPending := false);
      assert Safe(s1, {});
      OpenStreamAwaits(s1, reentry);
      assert Live(s) && s.openPending ==> Awaits(r, |s.opens| - 1);
      assert Live(s) && r.opens != s.opens ==> Awaits(r, |s.opens|);
    } else {
      assert forall j :: Awaits(r, j) <==> Awaits(s, j);
    }
  }

  lemma MountFlows(s: State, overtaken: bool, active: bool, closing: Closing)
    requires Flow(s, overtaken)
    ensures Flows(s, overtaken, Mounts(active, closing), Mount(s, active, closing))
  {
    if s.cancelled {
      hide Mount;
      MountAwaits(s, active, closing);
      var r := Mount(s, active, closing);
      assert active ==> Awaits(r, |s.opens|);
    }
  }

  /** An open that is not awaited does not settle again. */
  lemma IdleFlows(s: State, overtaken: bool, e: Event)
    requires Flow(s, overtaken) && (e.Resolves? || e.Rejects?) && e.k !in s.inFlight
    ensures Flows(s, overtaken, e, s)
  {
  }

  lemma StepFlows(s: State, overtaken: bool, e: Event)
    requires Flow(s, overtaken)
    ensures Flows(s, overtaken, e, Step(s, e))
  {
    hide Flow, Flows;
    match e
    case Resolves(k, supported, reentry) =>
      if k !in s.inFlight {
        IdleFlows(s, overtaken, e);
      } else if Stale(s, k) {
        StaleResolvedFlows(s, overtaken, k, supported, reentry);
      } else if k in s.aborted {
        AbortedResolvedFlows(s, overtaken, k, supported, reentry);
      } else {
        LiveResolvedFlows(s, overtaken, k, supported, reentry);
      }
    case Rejects(k, error, closing) =>
      if k !in s.inFlight {
        IdleFlows(s, overtaken, e);
      } else if Stale(s, k) {
        StaleRejectedFlows(s, overtaken, k, error, closing);
      } else {
        LiveRejectedFlows(s, overtaken, k, error, closing);
      }
    case Opens(_) => OpenedFlows(s, overtaken, e);
    case Errors(_, _, _) => FailedFlows(s, overtaken, e);
    case Closes(_, _) => FailedFlows(s, overtaken, e);
    case Unsupported(_) => OpenedFlows(s, overtaken, e);
    case Pauses(closing) => PauseFlows(s, overtaken, closing);
    case Resumes => OpenedFlows(s, overtaken, e);
    case ForegroundTimer(reentry) => ForegroundFlows(s, overtaken, reentry);
    case RetryTimer(reentry) => RetryFlows(s, overtaken, reentry);
    case CleansUp(closing) => CleanupFlows(s, overtaken, closing);
    case Mounts(active, closing) => MountFlows(s, overtaken, active, closing);
  }

  lemma {:induction false} RunFlow(events: seq<Event>)
    ensures Flow(Run(events), Overtaken(events))
  {
    RunSafe(events);
    if events != [] {
      var init, e := events[..|events| - 1], events[|events| - 1];
      RunFlow(init);
      StepFlows(Run(init), Overtaken(init), e);
    }
  }

  // ----- Over whole runs --------------------------------------------------------------------------------------------

  /** On every run, while the latest open is awaited and not stale, the pending flag is false exactly when an older open of its
      generation resolved or rejected since it started. */
  lemma PendingFlagExactlyWhen(events: seq<Event>)
    requires var s := Run(events);
             s.opens != [] && Awaits(s, |s.opens| - 1)
    ensures !Run(events).openPending <==> Overtaken(events)
  {
    RunFlow(events);
  }

  /** The `i`-th event put the effect to sleep and none since has roused it. */
  ghost predicate AsleepSince(events: seq<Event>, i: nat) {
    && i < |events| && Lulls(Run(events[..i]), events[i])
    && forall j :: i < j < |events| ==> !Rouses(Run(events[..j]), events[j])
  }

  lemma AsleepStep(events: seq<Event>, e: Event)
    ensures (exists i: nat :: AsleepSince(events + [e], i))
            <==> Lulls(Run(events), e) || ((exists i: nat :: AsleepSince(events, i)) && !Rouses(Run(events), e))
  {
    var all := events + [e];
    assert forall j :: 0 <= j < |events| ==> all[..j] == events[..j] && all[j] == events[j];
    assert all[..|events|] == events && all[|events|] == e;
    if i: nat :| AsleepSince(all, i) {
      if i < |events| {
        assert !Rouses(Run(all[..|events|]), all[|events|]);
        assert AsleepSince(events, i);
      }
    }
    if Lulls(Run(events), e) {
      assert AsleepSince(all, |events|);
    } else if !Rouses(Run(events), e) {
      if i: nat :| AsleepSince(events, i) { assert AsleepSince(all, i); }
    }
  }

  /** Progress: on every run a live effect has a connection, a poll, an armed reconnect timer or an awaited open, except exactly
      from an event that puts it to sleep to the next one that rouses it. */
  lemma {:induction false} DormantExactlyWhen(events: seq<Event>)
    ensures Dormant(Run(events)) <==> exists i :: AsleepSince(events, i)
  {
    if events != [] {
      var init, e := events[..|events| - 1], events[|events| - 1];
      assert events == init + [e];
      DormantExactlyWhen(init);
      RunFlow(init);
      StepFlows(Run(init), Overtaken(init), e);
      AsleepStep(init, e);
    }
  }

  /** The reconnect timer finds the aborted open still pending and does nothing. */
  lemma TimerFindsAbortedOpen() returns (events: seq<Event>)
    ensures Resumes !in events
    ensures var s := Run(events);
            && Awaits(s, 0) && s.inFlight == {0} && s.aborted == {0} && s.openPending
            && s.retryTimer.None? && !s.polling && s.connection.None? && !s.reconnectPending
  {
    var quiet := Closing(Quiet, Quiet);
    var e1 := [Mounts(true, quiet)];
    RunStep([], e1[0]);
    assert [] + e1 == e1;
    var e2 := e1 + [Errors(0, Plain, quiet)];
    RunStep(e1, Errors(0, Plain, quiet));
    events := e2 + [RetryTimer(Quiet)];
    RunStep(e2, RetryTimer(Quiet));
  }

  /** A live effect asleep without a pause: the stream failed while it was being opened, its reconnect timer found the aborted
      open still pending, and then that open resolves. */
  lemma AbortedOpenPutsToSleep()
    ensures exists events :: Dormant(Run(events)) && Resumes !in events
  {
    var before := TimerFindsAbortedOpen();
    RunStep(before, Resolves(0, true, Quiet));
    assert Dormant(Run(before + [Resolves(0, true, Quiet)])) by { hide Run; }
  }

  /** The same when a rate limit starts the polling and a late `onOpen` of the aborted open stops it. */
  lemma LateOpenPutsToSleep()
    ensures exists events :: Dormant(Run(events)) && Run(events).status == Connected
  {
    var quiet := Closing(Quiet, Quiet);
    var e1 := [Mounts(true, quiet)];
    RunStep([], e1[0]);
    assert [] + e1 == e1;
    var e2 := e1 + [Errors(0, RateLimited(1000), quiet)];
    RunStep(e1, Errors(0, RateLimited(1000), quiet));
    var e3 := e2 + [Resolves(0, true, Quiet)];
    RunStep(e2, Resolves(0, true, Quiet));
    var s := Run(e3);
    assert s.inFlight == {} && s.polling && s.connection.None? && !Armed(s) && !Stale(s, 0);
    var e4 := e3 + [Opens(0)];
    RunStep(e3, Opens(0));
    assert Dormant(Run(e4)) && Run(e4).status == Connected;
  }
}
