/** The reconnect protocol of hooks/useOffpayWalletActivityStream.ts as atomic steps between awaits. Every open of a
    stream gets a number; it also names the open's abort controller and the connection the open may produce. */
module ActivityStream {
  import opened Common

  const MAX_RECONNECT_FAILURES: nat := 5
  const MAX_RECONNECT_DELAY_MS := 30_000
  const MAX_RATE_LIMIT_FALLBACK_DELAY_MS := 60_000

  datatype Status = Idle | Connecting | Connected | Reconnecting | Fallback

  /** The pending timer of `retryTimerRef`: every arming site clears the previous one first. */
  datatype RetryTimer = Reconnect(delay: int) | Refresh(delay: int)

  datatype Open = Open(generation: nat, epoch: nat)

  /** What a rejected open or an error event carries. */
  datatype StreamError = Plain | RateLimited(retryAfterMs: int)

  /** Aborting a request or closing a connection may call the stream's `onClose` handler before it returns. The
      environment decides, also for the closing that handler may start in turn. */
  datatype Reentry = Quiet | CallsOnClose(nested: Closing)
  datatype Closing = Closing(onAbort: Reentry, onClose: Reentry)

  datatype State = State(
    // Refs, shared by all effect generations.
    connection: Option<nat>,
    controller: Option<nat>,
    retryTimer: Option<RetryTimer>,
    polling: bool,
    status: Status,
    // Closure variables of the current effect generation.
    generation: nat,
    cancelled: bool,
    paused: bool,
    epoch: nat,
    reconnectPending: bool,
    openPending: bool,
    attempts: nat,
    // The environment: every open started, those still awaited, aborted controllers, connections produced and closed.
    opens: seq<Open>,
    inFlight: set<nat>,
    aborted: set<nat>,
    supported: set<nat>,
    closed: set<nat>,
    // History: delays of the reconnect timers armed since `attempts` was last reset.
    armed: seq<int>)

  /** A reconnect timer is pending. */
  predicate Armed(s: State) {
    s.retryTimer.Some? && s.retryTimer.value.Reconnect?
  }

  function ReconnectDelay(attempt: nat): int {
    var delay := 1000 * Power2(if attempt >= 1 then attempt - 1 else 0);
    if delay < MAX_RECONNECT_DELAY_MS then delay else MAX_RECONNECT_DELAY_MS
  }

  function RateLimitDelay(error: StreamError): Option<int> {
    match error
    case Plain => None
    case RateLimited(ms) =>
      var atLeast := if ms > 1000 then ms else 1000;
      Some(if atLeast < MAX_RATE_LIMIT_FALLBACK_DELAY_MS then atLeast else MAX_RATE_LIMIT_FALLBACK_DELAY_MS)
  }

  /** `isStaleOpen` of open `k`: an earlier generation was cancelled by its cleanup. */
  predicate Stale(s: State, k: nat) {
    k >= |s.opens| || s.opens[k].generation != s.generation || s.cancelled || s.paused || s.opens[k].epoch != s.epoch
  }

  function StopWithFallback(s: State, refreshDelay: int): State {
    if s.cancelled || s.paused then s
    else s.(status := Fallback, polling := true,
            retryTimer := if refreshDelay > 0 then Some(Refresh(refreshDelay)) else s.retryTimer)
  }

  // ----- Closing, aborting and failing, which may call each other ---------------------------------------------------

  /** `controller.abort()`: only the first abort dispatches. */
  function Abort(s: State, k: nat, reentry: Reentry): State
    decreases reentry, 0
  {
    if k in s.aborted then s
    else
      var s1 := s.(aborted := s.aborted + {k});
      if reentry.CallsOnClose? then OnClose(s1, k, reentry.nested) else s1
  }

  /** `connection.close()`: only the first close notifies. */
  function CloseProduced(s: State, k: nat, reentry: Reentry): State
    decreases reentry, 0
  {
    if k in s.closed then s
    else
      var s1 := s.(closed := s.closed + {k});
      if reentry.CallsOnClose? then OnClose(s1, k, reentry.nested) else s1
  }

  function AbortRequest(s: State, reentry: Reentry): State
    decreases reentry, 1
  {
    if s.controller.None? then s else Abort(s, s.controller.value, reentry).(controller := None)
  }

  function CloseConnection(s: State, closing: Closing): State
    decreases closing, 0
  {
    var s1 := AbortRequest(s.(connection := None), closing.onAbort);
    if s.connection.Some? then CloseProduced(s1, s.connection.value, closing.onClose) else s1
  }

  function ScheduleReconnect(s: State, error: StreamError, closing: Closing): State
    decreases closing, 1
  {
    if s.cancelled || s.paused || s.reconnectPending then s
    else if RateLimitDelay(error).Some? then StopWithFallback(CloseConnection(s, closing), RateLimitDelay(error).value)
    else
      var s1 := CloseConnection(s.(reconnectPending := true, attempts := s.attempts + 1), closing);
      if s1.attempts >= MAX_RECONNECT_FAILURES then StopWithFallback(s1, 0)
      else
        var delay := ReconnectDelay(s1.attempts);
        s1.(status := Reconnecting, retryTimer := Some(Reconnect(delay)), armed := s1.armed + [delay])
  }

  function OnClose(s: State, k: nat, closing: Closing): State
    decreases closing, 2
  {
    if Stale(s, k) then s else ScheduleReconnect(s, Plain, closing)
  }

  // ----- Opening ----------------------------------------------------------------------------------------------------

  /** `openStream` up to its await. */
  function OpenStream(s: State, reentry: Reentry): State {
    if s.cancelled || s.paused || s.openPending || s.connection.Some? then s
    else
      var s1 := s.(openPending := true);
      var s2 := if s1.controller.Some? then Abort(s1, s1.controller.value, reentry) else s1;
      s2.(controller := Some(|s2.opens|),
          opens := s2.opens + [Open(s.generation, s.epoch)],
          inFlight := s2.inFlight + {|s2.opens|},
          status := if s2.attempts > 0 then Reconnecting else Connecting)
  }

  /** The `finally` block; the pending flag belongs to the generation that opened. */
  function Settle(s: State, k: nat, attached: bool): State {
    s.(controller := if !attached && s.controller == Some(k) then None else s.controller,
       openPending := s.openPending && (k >= |s.opens| || s.opens[k].generation != s.generation))
  }

  function Resolved(s: State, k: nat, supported: bool, reentry: Reentry): State {
    var s1 := s.(inFlight := s.inFlight - {k}, supported := if supported then s.supported + {k} else s.supported);
    if Stale(s1, k) || k in s1.aborted then Settle(CloseProduced(s1, k, reentry), k, false)
    else if !supported then Settle(StopWithFallback(s1, 0), k, false)
    else Settle(s1.(connection := Some(k)), k, true)
  }

  function Rejected(s: State, k: nat, error: StreamError, closing: Closing): State {
    var s1 := s.(inFlight := s.inFlight - {k});
    Settle(if Stale(s1, k) then s1 else ScheduleReconnect(s1, error, closing), k, false)
  }

  function OnOpen(s: State, k: nat): State {
    if Stale(s, k) then s
    else s.(reconnectPending := false, attempts := 0, armed := [], status := Connected, polling := false)
  }

  // ----- App state, timers and the effect's life --------------------------------------------------------------------

  function PauseStream(s: State, closing: Closing): State {
    CloseConnection(
      s.(paused := true, epoch := s.epoch + 1, reconnectPending := false, openPending := false,
         retryTimer := None, polling := false), closing).(status := Idle)
  }

  function ReconnectIfDormant(s: State, reentry: Reentry): State {
    if s.cancelled || s.paused || s.connection.Some? || s.openPending then s
    else OpenStream(s.(attempts := 0, armed := [], reconnectPending := false), reentry)
  }

  function RetryTimerFires(s: State, reentry: Reentry): State {
    match s.retryTimer
    case None => s
    case Some(Refresh(_)) => s.(retryTimer := None)
    case Some(Reconnect(_)) => OpenStream(s.(retryTimer := None, reconnectPending := false), reentry)
  }

  function Cleanup(s: State, closing: Closing): State {
    CloseConnection(s.(cancelled := true, retryTimer := None, polling := false), closing)
  }

  /** The closure variables of a new effect generation. */
  function Declared(s: State, active: bool): State {
    s.(generation := s.generation + 1, cancelled := false, paused := !active, epoch := 0,
       reconnectPending := false, openPending := false, attempts := 0, armed := [],
       status := if active then s.status else Idle)
  }

  /** The effect body: React runs it only after the cleanup of the previous one. */
  function Mount(s: State, active: bool, closing: Closing): State {
    if !s.cancelled then s
    else
      var s1 := CloseConnection(s.(retryTimer := None, polling := false), closing);
      var s2 := Declared(s1, active);
      if active then OpenStream(s2, Quiet) else s2
  }

  // ----- Runs -------------------------------------------------------------------------------------------------------

  datatype Event =
    | Resolves(k: nat, supported: bool, reentry: Reentry)
    | Rejects(k: nat, error: StreamError, closing: Closing)
    | Opens(k: nat)
    | Errors(k: nat, error: StreamError, closing: Closing)
    | Closes(k: nat, closing: Closing)
    | Unsupported(k: nat)
    | Pauses(closing: Closing)
    | Resumes
    | ForegroundTimer(reentry: Reentry)
    | RetryTimer(reentry: Reentry)
    | CleansUp(closing: Closing)
    | Mounts(active: bool, closing: Closing)

  function Step(s: State, e: Event): State {
    match e
    case Resolves(k, supported, reentry) => if k in s.inFlight then Resolved(s, k, supported, reentry) else s
    case Rejects(k, error, closing) => if k in s.inFlight then Rejected(s, k, error, closing) else s
    case Opens(k) => OnOpen(s, k)
    case Errors(k, error, closing) => if Stale(s, k) then s else ScheduleReconnect(s, error, closing)
    case Closes(k, closing) => OnClose(s, k, closing)
    case Unsupported(k) => if Stale(s, k) then s else StopWithFallback(s, 0)
    case Pauses(closing) => if s.cancelled then s else PauseStream(s, closing)
    case Resumes => if s.cancelled then s else s.(paused := false)
    case ForegroundTimer(reentry) => ReconnectIfDormant(s, reentry)
    case RetryTimer(reentry) => RetryTimerFires(s, reentry)
    case CleansUp(closing) => if s.cancelled then s else Cleanup(s, closing)
    case Mounts(active, closing) => Mount(s, active, closing)
  }

  /** Before the first mount no effect is live. */
  const START := State(None, None, None, false, Idle, 0, true, true, 0, false, false, 0, [], {}, {}, {}, {}, [])

  function Run(events: seq<Event>): State {
    if events == [] then START else Step(Run(events[..|events| - 1]), events[|events| - 1])
  }

  // ----- Connection safety ------------------------------------------------------------------------------------------

  /** `leaving` holds connections that no ref holds (any more) and that are about to be closed. */
  ghost predicate Safe(s: State, leaving: set<nat>) {
    && (forall k :: k in s.inFlight ==> k < |s.opens| && k !in s.supported)
    && (forall k :: k in s.supported ==> k < |s.opens|)
    && (forall k :: k in s.closed ==> k < |s.opens| && k !in s.inFlight)
    && (s.controller.Some? ==> s.controller.value < |s.opens|)
    && (forall k :: k in s.inFlight && k !in s.aborted ==> s.controller == Some(k))
    && (s.connection.Some? ==>
          && s.controller == s.connection
          && s.connection.value in s.supported && s.connection.value !in s.closed && s.connection.value !in s.inFlight)
    && (forall k :: k in s.supported && k !in s.closed ==> s.connection == Some(k) || k in leaving)
  }

  /** Closing and failing detach, close and abort, and touch nothing else of what opens rely on. */
  ghost predicate OnlyDetaches(s: State, r: State) {
    && r.opens == s.opens && r.inFlight == s.inFlight && r.supported == s.supported
    && r.aborted >= s.aborted && r.closed >= s.closed
    && (r.connection == s.connection || r.connection.None?)
    && (r.controller == s.controller || r.controller.None?)
    && r.generation == s.generation && r.cancelled == s.cancelled && r.paused == s.paused && r.epoch == s.epoch
    && r.openPending == s.openPending
  }

  lemma {:induction false} AbortSafe(s: State, k: nat, reentry: Reentry, leaving: set<nat>)
    requires Safe(s, leaving) && s.connection.None? && s.controller == Some(k)
    ensures var r := Abort(s, k, reentry);
            Safe(r, leaving) && OnlyDetaches(s, r) && k in r.aborted
    decreases reentry, 0
  {
    if k !in s.aborted && reentry.CallsOnClose? {
      OnCloseSafe(s.(aborted := s.aborted + {k}), k, reentry.nested, leaving);
    }
  }

  lemma {:induction false} CloseProducedSafe(s: State, k: nat, reentry: Reentry, leaving: set<nat>)
    requires Safe(s, leaving) && s.connection != Some(k) && k < |s.opens| && k !in s.inFlight
    ensures var r := CloseProduced(s, k, reentry);
            Safe(r, leaving - {k}) && OnlyDetaches(s, r) && k in r.closed
    decreases reentry, 0
  {
    if k !in s.closed && reentry.CallsOnClose? {
      OnCloseSafe(s.(closed := s.closed + {k}), k, reentry.nested, leaving - {k});
    }
  }

  lemma {:induction false} CloseConnectionSafe(s: State, closing: Closing, leaving: set<nat>)
    requires Safe(s, leaving)
    ensures var r := CloseConnection(s, closing);
            Safe(r, leaving) && OnlyDetaches(s, r) && r.connection.None? && r.controller.None?
    decreases closing, 0
  {
    var s0 := s.(connection := None);
    var leaving' := if s.connection.Some? then leaving + {s.connection.value} else leaving;
    if s.controller.Some? {
      AbortSafe(s0, s.controller.value, closing.onAbort, leaving');
    }
    var s1 := AbortRequest(s0, closing.onAbort);
    assert Safe(s1, leaving');
    if s.connection.Some? {
      CloseProducedSafe(s1, s.connection.value, closing.onClose, leaving');
    }
  }

  lemma {:induction false} ScheduleReconnectSafe(s: State, error: StreamError, closing: Closing, leaving: set<nat>)
    requires Safe(s, leaving)
    ensures var r := ScheduleReconnect(s, error, closing);
            Safe(r, leaving) && OnlyDetaches(s, r)
    decreases closing, 1
  {
    if s.cancelled || s.paused || s.reconnectPending {
    } else if RateLimitDelay(error).Some? {
      CloseConnectionSafe(s, closing, leaving);
    } else {
      CloseConnectionSafe(s.(reconnectPending := true, attempts := s.attempts + 1), closing, leaving);
    }
  }

  lemma {:induction false} OnCloseSafe(s: State, k: nat, closing: Closing, leaving: set<nat>)
    requires Safe(s, leaving)
    ensures Safe(OnClose(s, k, closing), leaving) && OnlyDetaches(s, OnClose(s, k, closing))
    decreases closing, 2
  {
    if !Stale(s, k) { ScheduleReconnectSafe(s, Plain, closing, leaving); }
  }

  lemma OpenStreamSafe(s: State, reentry: Reentry)
    requires Safe(s, {})
    ensures Safe(OpenStream(s, reentry), {})
  {
    if s.cancelled || s.paused || s.openPending || s.connection.Some? {
    } else {
      var s1 := s.(openPending := true);
      if s1.controller.Some? { AbortSafe(s1, s1.controller.value, reentry, {}); }
    }
  }

  lemma SettleSafe(s: State, k: nat)
    requires Safe(s, {}) && s.connection != Some(k) && k !in s.inFlight
    ensures Safe(Settle(s, k, false), {})
  {
  }

  lemma ResolvedSafe(s: State, k: nat, supported: bool, reentry: Reentry)
    requires Safe(s, {}) && k in s.inFlight
    ensures Safe(Resolved(s, k, supported, reentry), {})
  {
    var s1 := s.(inFlight := s.inFlight - {k}, supported := if supported then s.supported + {k} else s.supported);
    if Stale(s1, k) || k in s1.aborted {
      assert s.connection != Some(k);
      CloseProducedSafe(s1, k, reentry, {k});
      var s2 := CloseProduced(s1, k, reentry);
      SettleSafe(s2, k);
    } else if supported {
    } else {
      SettleSafe(StopWithFallback(s1, 0), k);
    }
  }

  lemma RejectedSafe(s: State, k: nat, error: StreamError, closing: Closing)
    requires Safe(s, {}) && k in s.inFlight
    ensures Safe(Rejected(s, k, error, closing), {})
  {
    var s1 := s.(inFlight := s.inFlight - {k});
    assert Safe(s1, {}) && s1.connection != Some(k);
    if !Stale(s1, k) { ScheduleReconnectSafe(s1, error, closing, {}); }
  }

  lemma PauseSafe(s: State, closing: Closing)
    requires Safe(s, {})
    ensures Safe(PauseStream(s, closing), {})
  {
    CloseConnectionSafe(s.(paused := true, epoch := s.epoch + 1, reconnectPending := false, openPending := false,
                           retryTimer := None, polling := false), closing, {});
  }

  lemma MountSafe(s: State, active: bool, closing: Closing)
    requires Safe(s, {})
    ensures Safe(Mount(s, active, closing), {})
  {
    var s0 := s.(retryTimer := None, polling := false);
    CloseConnectionSafe(s0, closing, {});
    var s1 := CloseConnection(s0, closing);
    OpenStreamSafe(Declared(s1, active), Quiet);
  }

  lemma StepSafe(s: State, e: Event)
    requires Safe(s, {})
    ensures Safe(Step(s, e), {})
  {
    hide Resolved, Rejected, ScheduleReconnect, OnClose, PauseStream, CloseConnection, Mount;
    hide ReconnectIfDormant, RetryTimerFires;
    match e
    case Resolves(k, supported, reentry) => if k in s.inFlight { ResolvedSafe(s, k, supported, reentry); }
    case Rejects(k, error, closing) => if k in s.inFlight { RejectedSafe(s, k, error, closing); }
    case Opens(k) =>
    case Errors(k, error, closing) => ScheduleReconnectSafe(s, error, closing, {});
    case Closes(k, closing) => OnCloseSafe(s, k, closing, {});
    case Unsupported(k) =>
    case Pauses(closing) => PauseSafe(s, closing);
    case Resumes =>
    case ForegroundTimer(reentry) => DormantSafe(s, reentry);
    case RetryTimer(reentry) => RetrySafe(s, reentry);
    case CleansUp(closing) =>
      CloseConnectionSafe(s.(cancelled := true, retryTimer := None, polling := false), closing, {});
    case Mounts(active, closing) => MountSafe(s, active, closing);
  }

  lemma DormantSafe(s: State, reentry: Reentry)
    requires Safe(s, {})
    ensures Safe(ReconnectIfDormant(s, reentry), {})
  {
    OpenStreamSafe(s.(attempts := 0, armed := [], reconnectPending := false), reentry);
  }

  lemma RetrySafe(s: State, reentry: Reentry)
    requires Safe(s, {})
    ensures Safe(RetryTimerFires(s, reentry), {})
  {
    hide OpenStream;
    match s.retryTimer
    case None =>
    case Some(Refresh(_)) =>
    case Some(Reconnect(_)) =>
      var s1 := s.(retryTimer := None, reconnectPending := false);
      assert Safe(s1, {});
      hide Safe;
      OpenStreamSafe(s1, reentry);
  }

  lemma {:induction false} RunSafe(events: seq<Event>)
    ensures Safe(Run(events), {})
  {
    if events != [] {
      RunSafe(events[..|events| - 1]);
      StepSafe(Run(events[..|events| - 1]), events[|events| - 1]);
    }
  }

  /** On every run: at most one awaited open is un-aborted, none is while a connection is attached, and every supported
      connection ever produced is the attached one or has been closed. */
  lemma ConnectionSafety(events: seq<Event>)
    ensures var s := Run(events);
            && (forall j, k :: j in s.inFlight && k in s.inFlight && j !in s.aborted && k !in s.aborted ==> j == k)
            && (s.connection.Some? ==> forall k :: k in s.inFlight ==> k in s.aborted)
            && (forall k :: k in s.supported ==> (s.connection == Some(k) <==> k !in s.closed))
  {
    RunSafe(events);
  }

  lemma RunStep(events: seq<Event>, e: Event)
    ensures Run(events + [e]) == Step(Run(events), e)
  {
    assert (events + [e])[..|events|] == events;
  }

  /** The pending flag alone would not do: here a stale `finally` clears it while open 1 is awaited and un-aborted. */
  lemma PendingFlagIsNotEnough()
    ensures exists events :: var s := Run(events);
              !s.openPending && !s.cancelled && !s.paused && 1 in s.inFlight && 1 !in s.aborted
  {
    var quiet := Closing(Quiet, Quiet);
    var e0 := [Mounts(true, quiet)];
    RunStep([], e0[0]);
    assert [] + e0 == e0;
    var e1 := e0 + [Pauses(quiet)];
    RunStep(e0, Pauses(quiet));
    var e2 := e1 + [Resumes];
    RunStep(e1, Resumes);
    var e3 := e2 + [ForegroundTimer(Quiet)];
    RunStep(e2, ForegroundTimer(Quiet));
    var e4 := e3 + [Rejects(0, Plain, quiet)];
    RunStep(e3, Rejects(0, Plain, quiet));
    var s := Run(e4);
    assert !s.openPending && !s.cancelled && !s.paused && 1 in s.inFlight && 1 !in s.aborted;
  }

  // ----- Reconnect budget -------------------------------------------------------------------------------------------

  /** The reconnect timers armed for failures 1, 2, 3, 4 wait 1, 2, 4 and 8 seconds. */
  ghost predicate Budget(s: State) {
    && s.attempts <= MAX_RECONNECT_FAILURES
    && |s.armed| == (if s.attempts < 4 then s.attempts else 4)
    && (forall i :: 0 <= i < |s.armed| ==> s.armed[i] == 1000 * Power2(i))
    && (Armed(s) ==>
          s.attempts < MAX_RECONNECT_FAILURES && (s.attempts > 0 ==> s.reconnectPending))
    && (s.attempts == MAX_RECONNECT_FAILURES ==> Blocked(s))
    && (forall k :: 0 <= k < |s.opens| ==> s.opens[k].generation <= s.generation)
    && (forall k :: 0 <= k < |s.opens| && s.opens[k].generation == s.generation ==> s.opens[k].epoch <= s.epoch)
  }

  /** No handler of any open can schedule a reconnect. */
  ghost predicate Blocked(s: State) {
    s.reconnectPending || forall k :: 0 <= k < |s.opens| ==> s.opens[k].generation != s.generation || s.opens[k].epoch != s.epoch
  }

  /** Blocked, or no effect is live. */
  ghost predicate Inert(s: State) {
    s.cancelled || s.paused || Blocked(s)
  }

  /** What closing and failing do to the attempt counter. */
  ghost predicate CountsOnce(s: State, r: State) {
    && r.opens == s.opens && r.generation == s.generation && r.epoch == s.epoch
    && r.cancelled == s.cancelled && r.paused == s.paused
    && (|| (r.attempts == s.attempts && r.reconnectPending == s.reconnectPending && r.armed == s.armed)
        || (r.attempts == s.attempts + 1 && r.reconnectPending && !s.reconnectPending))
    && (s.polling ==> r.polling)
    && (r.attempts == MAX_RECONNECT_FAILURES && s.attempts < MAX_RECONNECT_FAILURES ==> r.polling)
  }

  lemma InertOnClose(s: State, k: nat, closing: Closing)
    requires Inert(s)
    ensures OnClose(s, k, closing) == s
  {
  }

  lemma InertAbort(s: State, k: nat, reentry: Reentry)
    requires Inert(s)
    ensures Abort(s, k, reentry) == s.(aborted := Abort(s, k, reentry).aborted)
  {
    if k !in s.aborted && reentry.CallsOnClose? {
      InertOnClose(s.(aborted := s.aborted + {k}), k, reentry.nested);
    }
  }

  lemma InertCloseProduced(s: State, k: nat, reentry: Reentry)
    requires Inert(s)
    ensures CloseProduced(s, k, reentry) == s.(closed := CloseProduced(s, k, reentry).closed)
  {
    if k !in s.closed && reentry.CallsOnClose? {
      InertOnClose(s.(closed := s.closed + {k}), k, reentry.nested);
    }
  }

  /** Where no handler can act, closing only detaches. */
  lemma InertClose(s: State, closing: Closing)
    requires Inert(s)
    ensures var r := CloseConnection(s, closing);
            r == s.(connection := None, controller := None, aborted := r.aborted, closed := r.closed)
  {
    var s0 := s.(connection := None);
    if s.controller.Some? { InertAbort(s0, s.controller.value, closing.onAbort); }
    var s1 := AbortRequest(s0, closing.onAbort);
    assert s1 == s0.(controller := None, aborted := s1.aborted);
    if s.connection.Some? { InertCloseProduced(s1, s.connection.value, closing.onClose); }
  }

  lemma {:induction false} AbortBudget(s: State, k: nat, reentry: Reentry)
    requires Budget(s)
    ensures Budget(Abort(s, k, reentry)) && CountsOnce(s, Abort(s, k, reentry))
    decreases reentry, 0
  {
    if k !in s.aborted && reentry.CallsOnClose? {
      OnCloseBudget(s.(aborted := s.aborted + {k}), k, reentry.nested);
    }
  }

  lemma {:induction false} CloseProducedBudget(s: State, k: nat, reentry: Reentry)
    requires Budget(s)
    ensures Budget(CloseProduced(s, k, reentry)) && CountsOnce(s, CloseProduced(s, k, reentry))
    decreases reentry, 0
  {
    if k !in s.closed && reentry.CallsOnClose? {
      OnCloseBudget(s.(closed := s.closed + {k}), k, reentry.nested);
    }
  }

  lemma {:induction false} AbortRequestBudget(s: State, reentry: Reentry)
    requires Budget(s)
    ensures Budget(AbortRequest(s, reentry)) && CountsOnce(s, AbortRequest(s, reentry))
    decreases reentry, 1
  {
    if s.controller.Some? { AbortBudget(s, s.controller.value, reentry); }
  }

  lemma {:induction false} CloseConnectionBudget(s: State, closing: Closing)
    requires Budget(s)
    ensures Budget(CloseConnection(s, closing)) && CountsOnce(s, CloseConnection(s, closing))
    decreases closing, 0
  {
    var s0 := s.(connection := None);
    AbortRequestBudget(s0, closing.onAbort);
    var s1 := AbortRequest(s0, closing.onAbort);
    if s.connection.Some? {
      CloseProducedBudget(s1, s.connection.value, closing.onClose);
    }
  }

  lemma DelayIsUncapped(attempt: nat)
    requires 1 <= attempt <= 4
    ensures ReconnectDelay(attempt) == 1000 * Power2(attempt - 1) < MAX_RECONNECT_DELAY_MS
  {
    assert Power2(0) == 1 && Power2(1) == 2 && Power2(2) == 4 && Power2(3) == 8;
  }

  lemma {:induction false} ScheduleReconnectBudget(s: State, error: StreamError, closing: Closing)
    requires Budget(s) && (s.attempts < MAX_RECONNECT_FAILURES || s.reconnectPending || s.cancelled || s.paused)
    ensures Budget(ScheduleReconnect(s, error, closing)) && CountsOnce(s, ScheduleReconnect(s, error, closing))
    decreases closing, 1
  {
    if s.cancelled || s.paused || s.reconnectPending {
    } else if RateLimitDelay(error).Some? {
      CloseConnectionBudget(s, closing);
    } else {
      var s0 := s.(reconnectPending := true, attempts := s.attempts + 1);
      InertClose(s0, closing);
      if s0.attempts < MAX_RECONNECT_FAILURES { DelayIsUncapped(s0.attempts); }
    }
  }

  lemma {:induction false} OnCloseBudget(s: State, k: nat, closing: Closing)
    requires Budget(s)
    ensures Budget(OnClose(s, k, closing)) && CountsOnce(s, OnClose(s, k, closing))
    decreases closing, 2
  {
    if !Stale(s, k) { ScheduleReconnectBudget(s, Plain, closing); }
  }

  lemma OpenStreamBudget(s: State, reentry: Reentry)
    requires Budget(s) && s.attempts < MAX_RECONNECT_FAILURES
    requires Armed(s) ==> s.attempts == 0
    ensures var r := OpenStream(s, reentry);
            Budget(r) && r.attempts <= s.attempts + 1 && (r.attempts == MAX_RECONNECT_FAILURES ==> r.polling)
  {
    var s1 := s.(openPending := true);
    if s1.controller.Some? { AbortBudget(s1, s1.controller.value, reentry); }
  }

  lemma LateBudget(s: State, k: nat, reentry: Reentry)
    requires Budget(s)
    ensures var r := Settle(CloseProduced(s, k, reentry), k, false);
            Budget(r) && CountsOnce(s, r)
  {
    CloseProducedBudget(s, k, reentry);
  }

  lemma ResolvedBudget(s: State, k: nat, supported: bool, reentry: Reentry)
    requires Budget(s)
    ensures Budget(Resolved(s, k, supported, reentry)) && CountsOnce(s, Resolved(s, k, supported, reentry))
  {
    var s1 := s.(inFlight := s.inFlight - {k}, supported := if supported then s.supported + {k} else s.supported);
    assert Budget(s1);
    if Stale(s1, k) || k in s1.aborted {
      LateBudget(s1, k, reentry);
    } else if !supported {
    } else {
    }
  }

  lemma RejectedBudget(s: State, k: nat, error: StreamError, closing: Closing)
    requires Budget(s)
    ensures Budget(Rejected(s, k, error, closing)) && CountsOnce(s, Rejected(s, k, error, closing))
  {
    var s1 := s.(inFlight := s.inFlight - {k});
    if !Stale(s1, k) { ScheduleReconnectBudget(s1, error, closing); }
  }

  lemma PauseBudget(s: State, closing: Closing)
    requires Budget(s)
    ensures Budget(PauseStream(s, closing)) && PauseStream(s, closing).attempts == s.attempts
  {
    var s0 := s.(paused := true, epoch := s.epoch + 1, reconnectPending := false, openPending := false,
                 retryTimer := None, polling := false);
    assert Blocked(s0);
    InertClose(s0, closing);
  }

  lemma MountBudget(s: State, active: bool, closing: Closing)
    requires Budget(s)
    ensures Budget(Mount(s, active, closing))
    ensures s.cancelled ==> Mount(s, active, closing).attempts <= 1
  {
    if s.cancelled {
      var s0 := s.(retryTimer := None, polling := false);
      CloseConnectionBudget(s0, closing);
      var s1 := CloseConnection(s0, closing);
      var s2 := Declared(s1, active);
      assert Budget(s2);
      OpenStreamBudget(s2, Quiet);
    }
  }

  lemma TimersBudget(s: State, e: Event)
    requires Budget(s) && (e.ForegroundTimer? || e.RetryTimer?)
    ensures Budget(Step(s, e)) && (s.attempts < MAX_RECONNECT_FAILURES == Step(s, e).attempts ==> Step(s, e).polling)
  {
    hide OpenStream;
    if e.ForegroundTimer? {
      OpenStreamBudget(s.(attempts := 0, armed := [], reconnectPending := false), e.reentry);
    } else if Armed(s) {
      OpenStreamBudget(s.(retryTimer := None, reconnectPending := false), e.reentry);
    }
  }

  lemma StepBudget(s: State, e: Event)
    requires Budget(s)
    ensures Budget(Step(s, e))
  {
    hide Resolved, Rejected, ScheduleReconnect, OnClose, PauseStream, CloseConnection, Mount, OpenStream;
    match e
    case Resolves(k, supported, reentry) => ResolvedBudget(s, k, supported, reentry);
    case Rejects(k, error, closing) => RejectedBudget(s, k, error, closing);
    case Opens(k) =>
    case Errors(k, error, closing) => if !Stale(s, k) { ScheduleReconnectBudget(s, error, closing); }
    case Closes(k, closing) => OnCloseBudget(s, k, closing);
    case Unsupported(k) =>
    case Pauses(closing) => PauseBudget(s, closing);
    case Resumes =>
    case ForegroundTimer(_) => TimersBudget(s, e);
    case RetryTimer(_) => TimersBudget(s, e);
    case CleansUp(closing) =>
      CloseConnectionBudget(s.(cancelled := true, retryTimer := None, polling := false), closing);
    case Mounts(active, closing) => MountBudget(s, active, closing);
  }

  lemma {:induction false} RunBudget(events: seq<Event>)
    ensures Budget(Run(events))
  {
    if events != [] {
      RunBudget(events[..|events| - 1]);
      StepBudget(Run(events[..|events| - 1]), events[|events| - 1]);
    }
  }

  /** Between resets of the attempt counter a run arms at most four reconnect timers; the `a`-th waits `1000 * 2^(a-1)` ms,
      so the 30 s cap never binds. A pending reconnect timer belongs to a failure before the fifth. */
  lemma ReconnectBudget(events: seq<Event>)
    ensures var s := Run(events);
            && |s.armed| <= 4 && s.attempts <= MAX_RECONNECT_FAILURES
            && (forall i :: 0 <= i < |s.armed| ==> s.armed[i] == 1000 * Power2(i) < MAX_RECONNECT_DELAY_MS)
            && (s.attempts == MAX_RECONNECT_FAILURES ==> !Armed(s))
  {
    RunBudget(events);
    var s := Run(events);
    forall i | 0 <= i < |s.armed| ensures s.armed[i] == 1000 * Power2(i) < MAX_RECONNECT_DELAY_MS {
      DelayIsUncapped(i + 1);
    }
  }

  /** What resets the attempt counter: an accepted `onOpen`, a foreground check that opens, a new mount. */
  predicate Resets(s: State, e: Event) {
    match e
    case Opens(k) => !Stale(s, k)
    case ForegroundTimer(_) => !(s.cancelled || s.paused || s.connection.Some? || s.openPending)
    case Mounts(_, _) => s.cancelled
    case _ => false
  }

  /** The step that counts the fifth failure starts fallback polling. */
  lemma FifthFailureFallsBackStep(s: State, e: Event)
    requires Budget(s) && s.attempts < MAX_RECONNECT_FAILURES == Step(s, e).attempts
    ensures Step(s, e).polling
  {
    match e
    case Resolves(k, supported, reentry) => ResolvedBudget(s, k, supported, reentry);
    case Rejects(k, error, closing) => RejectedBudget(s, k, error, closing);
    case Opens(k) =>
    case Errors(k, error, closing) => if !Stale(s, k) { ScheduleReconnectBudget(s, error, closing); }
    case Closes(k, closing) => OnCloseBudget(s, k, closing);
    case Unsupported(k) =>
    case Pauses(closing) => PauseBudget(s, closing);
    case Resumes =>
    case ForegroundTimer(_) => TimersBudget(s, e);
    case RetryTimer(_) => TimersBudget(s, e);
    case CleansUp(closing) =>
      CloseConnectionBudget(s.(cancelled := true, retryTimer := None, polling := false), closing);
    case Mounts(active, closing) => MountBudget(s, active, closing);
  }

  /** Nothing was opened, no timer armed, and the failure count is as it was. */
  ghost predicate NoReconnect(s: State, r: State) {
    && r.attempts == s.attempts && r.opens == s.opens && r.armed == s.armed
    && !Armed(r)
  }

  lemma ResolvedBlocked(s: State, k: nat, supported: bool, reentry: Reentry)
    requires Blocked(s) && !Armed(s)
    ensures NoReconnect(s, Resolved(s, k, supported, reentry))
  {
    var s1 := s.(inFlight := s.inFlight - {k}, supported := if supported then s.supported + {k} else s.supported);
    InertCloseProduced(s1, k, reentry);
  }

  /** After the fifth failure no step but a reset opens anything or arms a timer. */
  lemma FifthFailureBlocksStep(s: State, e: Event)
    requires Budget(s) && s.attempts == MAX_RECONNECT_FAILURES && !Resets(s, e)
    ensures NoReconnect(s, Step(s, e))
  {
    match e
    case Resolves(k, supported, reentry) => ResolvedBlocked(s, k, supported, reentry);
    case Rejects(k, error, closing) =>
    case Opens(k) =>
    case Errors(k, error, closing) => assert Step(s, e) == s;
    case Closes(k, closing) => InertOnClose(s, k, closing);
    case Unsupported(k) =>
    case Pauses(closing) => PauseKeepsCount(s, closing);
    case Resumes =>
    case ForegroundTimer(_) =>
    case RetryTimer(_) =>
    case CleansUp(closing) => InertClose(s.(cancelled := true, retryTimer := None, polling := false), closing);
    case Mounts(_, _) =>
  }

  lemma PauseKeepsCount(s: State, closing: Closing)
    requires Budget(s)
    ensures var r := PauseStream(s, closing);
            NoReconnect(s, r)
  {
    var s0 := s.(paused := true, epoch := s.epoch + 1, reconnectPending := false, openPending := false,
                 retryTimer := None, polling := false);
    assert Blocked(s0);
    InertClose(s0, closing);
  }

  /** None of the events from the `i`-th to before the `n`-th resets the counter. */
  predicate NoReset(events: seq<Event>, i: nat, n: nat)
    requires n <= |events|
  {
    n <= i || (NoReset(events, i, n - 1) && !Resets(Run(events[..n - 1]), events[n - 1]))
  }

  /** On every run of events, from the fifth failure to the next reset nothing is opened, no reconnect timer is armed or pending,
      and the count stays. */
  lemma {:induction false} FifthFailureBlocks(events: seq<Event>, i: nat, n: nat)
    requires i <= n <= |events| && Run(events[..i]).attempts == MAX_RECONNECT_FAILURES && NoReset(events, i, n)
    ensures NoReconnect(Run(events[..i]), Run(events[..n]))
    decreases n
  {
    RunBudget(events[..i]);
    if i < n {
      var s := Run(events[..n - 1]);
      FifthFailureBlocks(events, i, n - 1);
      RunBudget(events[..n - 1]);
      assert events[..n] == events[..n - 1] + [events[n - 1]];
      RunStep(events[..n - 1], events[n - 1]);
      hide Step, Run, Budget, Resets;
      FifthFailureBlocksStep(s, events[n - 1]);
    }
  }

  /** On every run the event that counts the fifth failure leaves fallback polling on. */
  lemma {:induction false} FifthFailureFallsBack(events: seq<Event>, e: Event)
    requires Run(events).attempts < MAX_RECONNECT_FAILURES == Step(Run(events), e).attempts
    ensures Step(Run(events), e).polling
  {
    RunBudget(events);
    FifthFailureFallsBackStep(Run(events), e);
  }
}
