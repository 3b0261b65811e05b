/** What the pending timer of the stream waits, and what failing, falling back and opening leave behind: every run of the
    reconnect protocol of hooks/useOffpayWalletActivityStream.ts. */
module ActivityStreamEffects {
  import opened Common
  import opened ActivityStream

  // ----- The pending delay ------------------------------------------------------------------------------------------

  /** The pending reconnect timer waits for the failure counted last; one left over from before a reset waits at most 8 s. */
  ghost predicate Timed(s: State) {
    Armed(s) ==>
      if s.attempts > 0 then s.retryTimer.value.delay == 1000 * Power2(s.attempts - 1)
      else 1000 <= s.retryTimer.value.delay <= 8000
  }

  /** From `s` to `r`, a delay added to the list is that of the timer, or nothing is armed. */
  ghost predicate ArmsListed(s: State, r: State) {
    r.armed != [] && r.armed != s.armed && Armed(r) ==> r.retryTimer.value.delay == r.armed[|r.armed| - 1]
  }

  ghost predicate KeepsTime(s: State, r: State) {
    Timed(r) && ArmsListed(s, r)
  }

  lemma DelayIsBounded(attempts: nat)
    requires 1 <= attempts <= 4
    ensures 1000 <= 1000 * Power2(attempts - 1) <= 8000
  {
    assert Power2(0) == 1 && Power2(1) == 2 && Power2(2) == 4 && Power2(3) == 8;
  }

  lemma ScheduleTimed(s: State, error: StreamError, closing: Closing)
    requires Budget(s) && Timed(s) && (s.attempts < MAX_RECONNECT_FAILURES || s.reconnectPending || s.cancelled || s.paused)
    ensures KeepsTime(s, ScheduleReconnect(s, error, closing))
  {
    if s.cancelled || s.paused || s.reconnectPending {
    } else if RateLimitDelay(error).Some? {
      CloseConnectionBudget(s, closing);
    } else {
      var s0 := s.(reconnectPending := true, attempts := s.attempts + 1);
      InertClose(s0, closing);
      ScheduleReconnectBudget(s, error, closing);
      if s0.attempts < MAX_RECONNECT_FAILURES { DelayIsUncapped(s0.attempts); }
    }
  }

  lemma OnCloseTimed(s: State, k: nat, closing: Closing)
    requires Budget(s) && Timed(s)
    ensures KeepsTime(s, OnClose(s, k, closing))
  {
    if !Stale(s, k) { ScheduleTimed(s, Plain, closing); }
  }

  lemma AbortTimed(s: State, k: nat, reentry: Reentry)
    requires Budget(s) && Timed(s)
    ensures KeepsTime(s, Abort(s, k, reentry))
  {
    if k !in s.aborted && reentry.CallsOnClose? { OnCloseTimed(s.(aborted := s.aborted + {k}), k, reentry.nested); }
  }

  lemma CloseProducedTimed(s: State, k: nat, reentry: Reentry)
    requires Budget(s) && Timed(s)
    ensures KeepsTime(s, CloseProduced(s, k, reentry))
  {
    if k !in s.closed && reentry.CallsOnClose? { OnCloseTimed(s.(closed := s.closed + {k}), k, reentry.nested); }
  }

  lemma OpenStreamTimed(s: State, reentry: Reentry)
    requires Budget(s) && Timed(s)
    ensures KeepsTime(s, OpenStream(s, reentry))
  {
    if s.cancelled || s.paused || s.openPending || s.connection.Some? {
    } else {
      var s1 := s.(openPending := true);
      if s1.controller.Some? { AbortTimed(s1, s1.controller.value, reentry); }
    }
  }

  lemma ResolvedTimed(s: State, k: nat, supported: bool, reentry: Reentry)
    requires Budget(s) && Timed(s)
    ensures KeepsTime(s, Resolved(s, k, supported, reentry))
  {
    var s1 := s.(inFlight := s.inFlight - {k}, supported := if supported then s.supported + {k} else s.supported);
    assert Budget(s1);
    CloseProducedTimed(s1, k, reentry);
  }

  lemma RejectedTimed(s: State, k: nat, error: StreamError, closing: Closing)
    requires Budget(s) && Timed(s)
    ensures KeepsTime(s, Rejected(s, k, error, closing))
  {
    var s1 := s.(inFlight := s.inFlight - {k});
    assert Budget(s1);
    if !Stale(s1, k) { ScheduleTimed(s1, error, closing); }
  }

  /** Pausing, cleaning up and mounting clear the timer, and no handler can arm one while they do. */
  lemma EndsTimed(s: State, e: Event)
    requires Budget(s) && Timed(s) && (e.Pauses? || e.CleansUp? || e.Mounts?)
    ensures KeepsTime(s, Step(s, e))
  {
    match e
    case Pauses(closing) =>
      InertClose(s.(paused := true, epoch := s.epoch + 1, reconnectPending := false, openPending := false,
                    retryTimer := None, polling := false), closing);
    case CleansUp(closing) => InertClose(s.(cancelled := true, retryTimer := None, polling := false), closing);
    case Mounts(active, closing) =>
      if s.cancelled {
        InertClose(s.(retryTimer := None, polling := false), closing);
        assert !Armed(Mount(s, active, closing));
      }
    case _ =>
  }

  lemma TimersTimed(s: State, e: Event)
    requires Budget(s) && Timed(s) && (e.ForegroundTimer? || e.RetryTimer?)
    ensures KeepsTime(s, Step(s, e))
  {
    hide OpenStream;
    if e.ForegroundTimer? {
      if !(s.cancelled || s.paused || s.connection.Some? || s.openPending) {
        var s1 := s.(attempts := 0, armed := [], reconnectPending := false);
        if Armed(s) && s.attempts > 0 { DelayIsBounded(s.attempts); }
        OpenStreamTimed(s1, e.reentry);
      }
    } else if Armed(s) {
      var s1 := s.(retryTimer := None, reconnectPending := false);
      OpenStreamTimed(s1, e.reentry);
    }
  }

  lemma StepTimed(s: State, e: Event)
    requires Budget(s) && Timed(s)
    ensures KeepsTime(s, Step(s, e))
  {
    match e
    case Resolves(k, supported, reentry) => ResolvedTimed(s, k, supported, reentry);
    case Rejects(k, error, closing) => RejectedTimed(s, k, error, closing);
    case Opens(_) => if Armed(s) && s.attempts > 0 { DelayIsBounded(s.attempts); }
    case Errors(k, error, closing) => if !Stale(s, k) { ScheduleTimed(s, error, closing); }
    case Closes(k, closing) => OnCloseTimed(s, k, closing);
    case Unsupported(_) =>
    case Resumes =>
    case ForegroundTimer(_) => TimersTimed(s, e);
    case RetryTimer(_) => TimersTimed(s, e);
    case _ => EndsTimed(s, e);
  }

  lemma {:induction false} RunTimed(events: seq<Event>)
    ensures Timed(Run(events))
  {
    if events != [] {
      var init, e := events[..|events| - 1], events[|events| - 1];
      RunTimed(init);
      RunBudget(init);
      StepTimed(Run(init), e);
    }
  }

  /** On every run a pending reconnect timer waits `1000 * 2^(a-1)` ms for the count `a` of failures since the last reset,
      which is the delay armed last; after a reset a leftover one waits at most 8 s. */
  lemma PendingDelay(events: seq<Event>)
    requires Armed(Run(events))
    ensures var s := Run(events);
            var delay := s.retryTimer.value.delay;
            && 1000 <= delay <= 8000
            && (s.attempts > 0 ==>
                  && s.attempts <= 4 && delay == 1000 * Power2(s.attempts - 1)
                  && |s.armed| == s.attempts && delay == s.armed[|s.armed| - 1])
  {
    RunTimed(events);
    RunBudget(events);
    if Run(events).attempts > 0 { DelayIsBounded(Run(events).attempts); }
  }

  /** On every run an event that adds a delay to the list leaves exactly that delay in the timer, or nothing armed. */
  lemma AddedDelayIsPending(events: seq<Event>, e: Event)
    requires |Step(Run(events), e).armed| > |Run(events).armed|
    ensures var r := Step(Run(events), e);
            Armed(r) ==> r.retryTimer.value.delay == r.armed[|r.armed| - 1]
  {
    RunTimed(events);
    RunBudget(events);
    StepTimed(Run(events), e);
  }

  // ----- What a failure leaves --------------------------------------------------------------------------------------

  /** A stream failure of open `e.k` that is acted on: its handler is not stale and no reconnect is pending. */
  predicate Fails(s: State, e: Event) {
    match e
    case Rejects(k, _, _) => k in s.inFlight && !Stale(s, k) && !s.reconnectPending
    case Errors(k, _, _) => !Stale(s, k) && !s.reconnectPending
    case Closes(k, _) => !Stale(s, k) && !s.reconnectPending
    case _ => false
  }

  predicate IsRateLimited(e: Event) {
    (e.Rejects? || e.Errors?) && e.error.RateLimited?
  }

  /** What the `a`-th failure leaves. */
  ghost predicate Failed(s: State, r: State) {
    && r.attempts == s.attempts + 1 <= 5 && r.reconnectPending
    && r.connection.None? && r.controller.None? && r.opens == s.opens
    && (if s.attempts < 4 then
          && r.status == Reconnecting && r.polling == s.polling
          && r.retryTimer == Some(Reconnect(1000 * Power2(s.attempts)))
        else r.status == Fallback && r.polling && !Armed(r))
  }

  lemma ScheduleFails(s: State, closing: Closing)
    requires Budget(s) && !s.cancelled && !s.paused && !s.reconnectPending && s.attempts < MAX_RECONNECT_FAILURES
    ensures Failed(s, ScheduleReconnect(s, Plain, closing))
  {
    InertClose(s.(reconnectPending := true, attempts := s.attempts + 1), closing);
    ScheduleReconnectBudget(s, Plain, closing);
    if s.attempts < 4 { DelayIsUncapped(s.attempts + 1); }
  }

  /** On every run the failure after `a` others since the last reset detaches everything, and for `a < 4` arms a timer of
      `1000 * 2^a` ms; the fifth arms none and polls. */
  lemma FailureArms(events: seq<Event>, e: Event)
    requires Fails(Run(events), e) && !IsRateLimited(e)
    ensures Failed(Run(events), Step(Run(events), e))
  {
    var s := Run(events);
    RunBudget(events);
    hide Run;
    assert !Stale(s, e.k);
    assert s.attempts < MAX_RECONNECT_FAILURES;
    var s1 := if e.Rejects? then s.(inFlight := s.inFlight - {e.k}) else s;
    assert Budget(s1);
    ScheduleFails(s1, e.closing);
    hide Budget, ScheduleReconnect;
  }

  /** A rate-limited failure polls and refreshes after the delay asked for, held between 1 s and 60 s, instead of
      reconnecting. */
  lemma RateLimitRefreshes(events: seq<Event>, e: Event)
    requires Fails(Run(events), e) && IsRateLimited(e)
    ensures var s, r := Run(events), Step(Run(events), e);
            var asked := e.error.retryAfterMs;
            && r.connection.None? && r.controller.None? && r.opens == s.opens
            && r.status == Fallback && r.polling && r.retryTimer.Some? && r.retryTimer.value.Refresh?
            && 1000 <= r.retryTimer.value.delay <= 60_000
            && (1000 <= asked <= 60_000 ==> r.retryTimer.value.delay == asked)
            && (asked < 1000 ==> r.retryTimer.value.delay == 1000) && (asked > 60_000 ==> r.retryTimer.value.delay == 60_000)
  {
    var s := Run(events);
    RunSafe(events);
    hide Run;
    var s1 := if e.Rejects? then s.(inFlight := s.inFlight - {e.k}) else s;
    assert Safe(s1, {});
    CloseConnectionSafe(s1, e.closing, {});
    hide Safe, CloseConnection;
  }

  // ----- What opening leaves ----------------------------------------------------------------------------------------

  /** An accepted `onOpen` clears the failure count and the pending reconnect, and stops the polling. */
  lemma AcceptedOpenResets(s: State, k: nat)
    requires !Stale(s, k)
    ensures var r := Step(s, Opens(k));
            && r.attempts == 0 && !r.reconnectPending && r.armed == [] && !r.polling && r.status == Connected
            && r.retryTimer == s.retryTimer && r.connection == s.connection && r.opens == s.opens && r.inFlight == s.inFlight
  {
  }

  /** After an accepted `onOpen` the next failure waits one second, however many there were before. */
  lemma FailureAfterOpenWaitsASecond(events: seq<Event>, k: nat, e: Event)
    requires !Stale(Run(events), k)
    requires Fails(Step(Run(events), Opens(k)), e) && !IsRateLimited(e)
    ensures Run(events + [Opens(k), e]).retryTimer == Some(Reconnect(1000))
  {
    var accepted := events + [Opens(k)];
    RunStep(events, Opens(k));
    RunStep(accepted, e);
    assert accepted + [e] == events + [Opens(k), e];
    FailureArms(accepted, e);
  }

  lemma OpenStreamShows(s: State, reentry: Reentry)
    requires Safe(s, {}) && OpenStream(s, reentry).opens != s.opens
    ensures Shows(s, OpenStream(s, reentry))
  {
    var s1 := s.(openPending := true);
    assert Safe(s1, {});
    if s1.controller.Some? { AbortSafe(s1, s1.controller.value, reentry, {}); }
    hide Safe, Abort;
  }

  /** A new open is the awaited one of the current epoch, shown as connecting, or as reconnecting while failures are counted. */
  ghost predicate Shows(s: State, r: State) {
    && r.opens == s.opens + [Open(r.generation, r.epoch)]
    && r.openPending && r.controller == Some(|s.opens|) && |s.opens| in r.inFlight
    && r.status == (if r.attempts > 0 then Reconnecting else Connecting)
  }

  lemma MountShows(s: State, active: bool, closing: Closing)
    requires Safe(s, {}) && Mount(s, active, closing).opens != s.opens
    ensures Shows(s, Mount(s, active, closing))
  {
    var s0 := s.(retryTimer := None, polling := false);
    CloseConnectionSafe(s0, closing, {});
    var s1 := CloseConnection(s0, closing);
    assert Safe(Declared(s1, active), {});
    OpenStreamShows(Declared(s1, active), Quiet);
    hide Safe, CloseConnection, OpenStream;
  }

  lemma ClosingOpensNothing(s: State, e: Event)
    requires Safe(s, {}) && (e.Resolves? || e.Rejects? || e.Errors? || e.Closes? || e.Pauses? || e.CleansUp?)
    ensures Step(s, e).opens == s.opens
  {
    hide CloseProduced, ScheduleReconnect, CloseConnection;
    match e
    case Resolves(k, supported, reentry) =>
      if k in s.inFlight {
        var s1 := s.(inFlight := s.inFlight - {k}, supported := if supported then s.supported + {k} else s.supported);
        CloseProducedSafe(s1, k, reentry, {k});
      }
    case Rejects(k, error, closing) =>
      var s1 := s.(inFlight := s.inFlight - {k});
      if k in s.inFlight { ScheduleReconnectSafe(s1, error, closing, {}); }
    case Errors(k, error, closing) => ScheduleReconnectSafe(s, error, closing, {});
    case Closes(k, closing) => ScheduleReconnectSafe(s, Plain, closing, {});
    case Pauses(closing) =>
      CloseConnectionSafe(s.(paused := true, epoch := s.epoch + 1, reconnectPending := false, openPending := false,
                             retryTimer := None, polling := false), closing, {});
    case CleansUp(closing) =>
      CloseConnectionSafe(s.(cancelled := true, retryTimer := None, polling := false), closing, {});
    case _ =>
  }

  /** On every run, an event that starts an open starts one. */
  lemma OpeningShows(events: seq<Event>, e: Event)
    requires Step(Run(events), e).opens != Run(events).opens
    ensures Shows(Run(events), Step(Run(events), e))
  {
    var s := Run(events);
    RunSafe(events);
    hide Run, Shows, OpenStream, Safe;
    match e
    case ForegroundTimer(reentry) =>
      var s1 := s.(attempts := 0, armed := [], reconnectPending := false);
      SafeIgnoresCounts(s, s1);
      OpenStreamShows(s1, reentry);
      ShowsFrom(s, s1, OpenStream(s1, reentry));
    case RetryTimer(reentry) =>
      var s1 := s.(retryTimer := None, reconnectPending := false);
      SafeIgnoresCounts(s, s1);
      OpenStreamShows(s1, reentry);
      ShowsFrom(s, s1, OpenStream(s1, reentry));
    case Mounts(active, closing) => MountShows(s, active, closing);
    case Opens(_) =>
    case Unsupported(_) =>
    case Resumes =>
    case _ => ClosingOpensNothing(s, e);
  }

  lemma SafeIgnoresCounts(s: State, s1: State)
    requires Safe(s, {})
    requires s1 == s.(attempts := s1.attempts, armed := s1.armed, reconnectPending := false, retryTimer := s1.retryTimer)
    ensures Safe(s1, {})
  {
  }

  lemma ShowsFrom(s: State, s1: State, r: State)
    requires s1.opens == s.opens && Shows(s1, r)
    ensures Shows(s, r)
  {
  }

  // ----- What a resolution leaves -----------------------------------------------------------------------------------

  /** An open that resolves live is attached if the stream is supported, and otherwise the client polls. */
  lemma ResolutionDecides(s: State, k: nat, supported: bool, reentry: Reentry)
    requires k in s.inFlight && !Stale(s, k) && k !in s.aborted
    ensures var r := Step(s, Resolves(k, supported, reentry));
            && r.inFlight == s.inFlight - {k} && !r.openPending && r.closed == s.closed && r.opens == s.opens
            && r.attempts == s.attempts && r.reconnectPending == s.reconnectPending && r.retryTimer == s.retryTimer
            && (if supported then
                  r.connection == Some(k) && r.controller == s.controller && r.status == s.status && r.polling == s.polling
                else
                  && r.connection == s.connection && r.status == Fallback && r.polling
                  && r.controller == if s.controller == Some(k) then None else s.controller)
  {
  }

  /** The client also polls when a live open finds the stream unsupported, and a data refresh that fired is no longer pending. */
  lemma UnsupportedPolls(s: State, k: nat, reentry: Reentry)
    ensures !Stale(s, k) ==> Step(s, Unsupported(k)) == s.(status := Fallback, polling := true)
    ensures s.retryTimer.Some? && s.retryTimer.value.Refresh? ==> Step(s, RetryTimer(reentry)) == s.(retryTimer := None)
  {
  }

  /** The controller ref names `except`, an awaited open or the attached connection. */
  ghost predicate Tied(s: State, except: Option<nat>) {
    s.controller.Some? ==> s.controller == except || s.controller.value in s.inFlight || s.connection == s.controller
  }

  /** A failure that is acted on leaves neither controller nor connection. */
  lemma ScheduleTies(s: State, error: StreamError, closing: Closing, leaving: set<nat>, except: Option<nat>)
    requires Safe(s, leaving) && Tied(s, except)
    ensures Tied(ScheduleReconnect(s, error, closing), except)
  {
    hide CloseConnection;
    if s.cancelled || s.paused || s.reconnectPending {
    } else if RateLimitDelay(error).Some? {
      CloseConnectionSafe(s, closing, leaving);
    } else {
      CloseConnectionSafe(s.(reconnectPending := true, attempts := s.attempts + 1), closing, leaving);
    }
  }

  lemma SettlingTies(s: State, e: Event)
    requires Safe(s, {}) && Tied(s, None) && (e.Resolves? || e.Rejects?)
    ensures Tied(Step(s, e), None)
  {
    hide ScheduleReconnect;
    if e.k in s.inFlight {
      if e.Resolves? {
        var s1 := s.(inFlight := s.inFlight - {e.k}, supported := if e.supported then s.supported + {e.k} else s.supported);
        if Stale(s1, e.k) || e.k in s1.aborted {
          ClosingTies(s1, e.k, e.reentry);
          hide CloseProduced;
        }
      } else {
        var s1 := s.(inFlight := s.inFlight - {e.k});
        assert Safe(s1, {});
        ScheduleTies(s1, e.error, e.closing, {}, Some(e.k));
      }
    }
  }

  lemma ClosingTies(s: State, k: nat, reentry: Reentry)
    requires Safe(s, {k}) && Tied(s, Some(k)) && s.connection != Some(k) && k < |s.opens| && k !in s.inFlight
    ensures Tied(CloseProduced(s, k, reentry), Some(k)) && CloseProduced(s, k, reentry).connection != Some(k)
  {
    hide ScheduleReconnect;
    var s1 := s.(closed := s.closed + {k});
    assert Safe(s1, {k});
    CloseProducedSafe(s, k, reentry, {k});
    if k !in s.closed && reentry.CallsOnClose? && !Stale(s1, k) {
      ScheduleTies(s1, Plain, reentry.nested, {k}, Some(k));
    }
  }

  lemma OpenStreamTies(s: State, reentry: Reentry)
    requires Tied(s, None)
    ensures Tied(OpenStream(s, reentry), None)
  {
    hide Abort;
  }

  lemma EndsTie(s: State, e: Event)
    requires Safe(s, {}) && Tied(s, None) && (e.Pauses? || e.CleansUp? || e.Mounts?)
    ensures Tied(Step(s, e), None)
  {
    hide CloseConnection;
    match e
    case Pauses(closing) =>
      CloseConnectionSafe(s.(paused := true, epoch := s.epoch + 1, reconnectPending := false, openPending := false,
                             retryTimer := None, polling := false), closing, {});
    case CleansUp(closing) =>
      CloseConnectionSafe(s.(cancelled := true, retryTimer := None, polling := false), closing, {});
    case Mounts(active, closing) =>
      var s0 := s.(retryTimer := None, polling := false);
      CloseConnectionSafe(s0, closing, {});
      OpenStreamTies(Declared(CloseConnection(s0, closing), active), Quiet);
      hide OpenStream;
    case _ =>
  }

  lemma StepTies(s: State, e: Event)
    requires Safe(s, {}) && Tied(s, None)
    ensures Tied(Step(s, e), None)
  {
    hide OpenStream, ScheduleReconnect, Safe;
    match e
    case Resolves(_, _, _) => SettlingTies(s, e);
    case Rejects(_, _, _) => SettlingTies(s, e);
    case Opens(_) =>
    case Errors(k, error, closing) => ScheduleTies(s, error, closing, {}, None);
    case Closes(k, closing) => ScheduleTies(s, Plain, closing, {}, None);
    case Unsupported(_) =>
    case Resumes =>
    case ForegroundTimer(reentry) =>
      OpenStreamTies(s.(attempts := 0, armed := [], reconnectPending := false), reentry);
    case RetryTimer(reentry) => OpenStreamTies(s.(retryTimer := None, reconnectPending := false), reentry);
    case _ => EndsTie(s, e);
  }

  /** On every run the controller ref names an awaited open or the attached connection: no settled open is ever aborted later. */
  lemma {:induction false} ControllerIsInUse(events: seq<Event>)
    ensures Tied(Run(events), None)
  {
    if events != [] {
      var init, e := events[..|events| - 1], events[|events| - 1];
      ControllerIsInUse(init);
      RunSafe(init);
      StepTies(Run(init), e);
    }
  }
}
