/** The effect of hooks/useOffpayWalletActivityStream.ts in its own shape: closures over mutable refs and variables.
    Each method is proved against the step function of the same name. */
module ActivityStreamHook {
  import opened Common
  import opened ActivityStream

  class WalletActivityStream {
    var connection: Option<nat>
    var controller: Option<nat>
    var retryTimer: Option<ActivityStream.RetryTimer>
    var polling: bool
    var status: Status
    var generation: nat
    var cancelled: bool
    var paused: bool
    var epoch: nat
    var reconnectPending: bool
    var openPending: bool
    var attempts: nat
    var opens: seq<Open>
    var inFlight: set<nat>
    var aborted: set<nat>
    var supported: set<nat>
    var closed: set<nat>
    var armed: seq<int>

    function Snapshot(): State
      reads this
    {
      State(connection, controller, retryTimer, polling, status, generation, cancelled, paused, epoch,
            reconnectPending, openPending, attempts, opens, inFlight, aborted, supported, closed, armed)
    }

    constructor ()
      ensures Snapshot() == START
    {
      connection, controller, retryTimer, polling, status := None, None, None, false, Idle;
      generation, cancelled, paused, epoch := 0, true, true, 0;
      reconnectPending, openPending, attempts := false, false, 0;
      opens, inFlight, aborted, supported, closed, armed := [], {}, {}, {}, {}, [];
    }

    method StopWithFallback(refreshDelay: int)
      modifies this
      ensures Snapshot() == ActivityStream.StopWithFallback(old(Snapshot()), refreshDelay)
    {
      if cancelled || paused { return; }
      status := Fallback;
      if !polling { polling := true; }
      if refreshDelay > 0 {
        retryTimer := None;
        retryTimer := Some(Refresh(refreshDelay));
      }
    }

    method Abort(k: nat, reentry: Reentry)
      modifies this
      ensures Snapshot() == ActivityStream.Abort(old(Snapshot()), k, reentry)
      decreases reentry, 0
    {
      if k in aborted { return; }
      aborted := aborted + {k};
      if reentry.CallsOnClose? { OnClose(k, reentry.nested); }
    }

    method CloseProduced(k: nat, reentry: Reentry)
      modifies this
      ensures Snapshot() == ActivityStream.CloseProduced(old(Snapshot()), k, reentry)
      decreases reentry, 0
    {
      if k in closed { return; }
      closed := closed + {k};
      if reentry.CallsOnClose? { OnClose(k, reentry.nested); }
    }

    method AbortStreamRequest(reentry: Reentry)
      modifies this
      ensures Snapshot() == ActivityStream.AbortRequest(old(Snapshot()), reentry)
      decreases reentry, 1
    {
      if controller.Some? {
        Abort(controller.value, reentry);
        controller := None;
      }
    }

    method CloseConnection(closing: Closing)
      modifies this
      ensures Snapshot() == ActivityStream.CloseConnection(old(Snapshot()), closing)
      decreases closing, 0
    {
      var c := connection;
      connection := None;
      AbortStreamRequest(closing.onAbort);
      if c.Some? { CloseProduced(c.value, closing.onClose); }
    }

    method ScheduleReconnect(error: StreamError, closing: Closing)
      modifies this
      ensures Snapshot() == ActivityStream.ScheduleReconnect(old(Snapshot()), error, closing)
      decreases closing, 1
    {
      if cancelled || paused || reconnectPending { return; }
      var rateLimitDelay := RateLimitDelay(error);
      if rateLimitDelay.Some? {
        CloseConnection(closing);
        StopWithFallback(rateLimitDelay.value);
        return;
      }
      CountFailure();
      CloseConnection(closing);
      if attempts >= MAX_RECONNECT_FAILURES {
        StopWithFallback(0);
        return;
      }
      ArmReconnect();
    }

    method CountFailure()
      modifies this
      ensures Snapshot() == old(Snapshot()).(reconnectPending := true, attempts := old(attempts) + 1)
    {
      reconnectPending := true;
      attempts := attempts + 1;
    }

    method ArmReconnect()
      modifies this
      ensures var delay := ReconnectDelay(old(attempts));
              Snapshot() == old(Snapshot()).(status := Reconnecting, retryTimer := Some(Reconnect(delay)),
                                             armed := old(armed) + [delay])
    {
      status := Reconnecting;
      retryTimer := None;
      retryTimer := Some(Reconnect(ReconnectDelay(attempts)));
      armed := armed + [ReconnectDelay(attempts)];
    }

    method OnClose(k: nat, closing: Closing)
      modifies this
      ensures Snapshot() == ActivityStream.OnClose(old(Snapshot()), k, closing)
      decreases closing, 2
    {
      if !Stale(Snapshot(), k) { ScheduleReconnect(Plain, closing); }
    }

    method OpenStream(reentry: Reentry)
      modifies this
      ensures Snapshot() == ActivityStream.OpenStream(old(Snapshot()), reentry)
    {
      if cancelled || paused { return; }
      if openPending || connection.Some? { return; }
      openPending := true;
      var openEpoch, openGeneration := epoch, generation;
      if controller.Some? { Abort(controller.value, reentry); }
      StartRequest(openGeneration, openEpoch);
    }

    /** A new abort controller and the request that carries its signal. */
    method StartRequest(openGeneration: nat, openEpoch: nat)
      modifies this
      ensures var s := old(Snapshot());
              Snapshot() == s.(controller := Some(|s.opens|), opens := s.opens + [Open(openGeneration, openEpoch)],
                               inFlight := s.inFlight + {|s.opens|},
                               status := if s.attempts > 0 then Reconnecting else Connecting)
    {
      controller, status := Some(|opens|), if attempts > 0 then Reconnecting else Connecting;
      inFlight, opens := inFlight + {|opens|}, opens + [Open(openGeneration, openEpoch)];
    }

    method Settle(k: nat, attached: bool)
      modifies this
      ensures Snapshot() == ActivityStream.Settle(old(Snapshot()), k, attached)
    {
      if !attached && controller == Some(k) { controller := None; }
      if k < |opens| && opens[k].generation == generation { openPending := false; }
    }

    method Resolved(k: nat, isSupported: bool, reentry: Reentry)
      modifies this
      ensures Snapshot() == ActivityStream.Resolved(old(Snapshot()), k, isSupported, reentry)
    {
      inFlight := inFlight - {k};
      if isSupported { supported := supported + {k}; }
      if Stale(Snapshot(), k) || k in aborted {
        CloseProduced(k, reentry);
        Settle(k, false);
        return;
      }
      if !isSupported {
        StopWithFallback(0);
        Settle(k, false);
        return;
      }
      connection := Some(k);
      Settle(k, true);
    }

    method Rejected(k: nat, error: StreamError, closing: Closing)
      modifies this
      ensures Snapshot() == ActivityStream.Rejected(old(Snapshot()), k, error, closing)
    {
      inFlight := inFlight - {k};
      if !Stale(Snapshot(), k) { ScheduleReconnect(error, closing); }
      Settle(k, false);
    }

    method OnOpen(k: nat)
      modifies this
      ensures Snapshot() == ActivityStream.OnOpen(old(Snapshot()), k)
    {
      if Stale(Snapshot(), k) { return; }
      reconnectPending := false;
      attempts := 0;
      armed := [];
      status := Connected;
      if polling { polling := false; }
    }

    method SetStatus(next: Status)
      modifies this`status
      ensures Snapshot() == old(Snapshot()).(status := next)
    {
      status := next;
    }

    method MarkPaused()
      modifies this
      ensures Snapshot() == old(Snapshot()).(paused := true, epoch := old(epoch) + 1, reconnectPending := false,
                                             openPending := false, retryTimer := None, polling := false)
    {
      paused, epoch := true, epoch + 1;
      reconnectPending, openPending := false, false;
      retryTimer, polling := None, false;
    }

    method PauseStream(closing: Closing)
      modifies this
      ensures Snapshot() == ActivityStream.PauseStream(old(Snapshot()), closing)
    {
      MarkPaused();
      CloseConnection(closing);
      SetStatus(Idle);
    }

    method ReconnectIfDormant(reentry: Reentry)
      modifies this
      ensures Snapshot() == ActivityStream.ReconnectIfDormant(old(Snapshot()), reentry)
    {
      if cancelled || paused { return; }
      if connection.Some? { return; }
      if openPending { return; }
      ResetAttempts();
      OpenStream(reentry);
    }

    method RetryTimerFires(reentry: Reentry)
      modifies this
      ensures Snapshot() == ActivityStream.RetryTimerFires(old(Snapshot()), reentry)
    {
      match retryTimer
      case None =>
      case Some(Refresh(_)) => retryTimer := None;
      case Some(Reconnect(_)) =>
        retryTimer := None;
        reconnectPending := false;
        OpenStream(reentry);
    }

    method Cleanup(closing: Closing)
      modifies this
      ensures Snapshot() == ActivityStream.Cleanup(old(Snapshot()), closing)
    {
      cancelled, retryTimer, polling := true, None, false;
      CloseConnection(closing);
    }

    /** The closure variables of a new effect generation. */
    method Declare(active: bool)
      modifies this
      ensures Snapshot() == ActivityStream.Declared(old(Snapshot()), active)
    {
      ResetAttempts();
      cancelled, epoch, openPending := false, 0, false;
      generation, paused := generation + 1, !active;
      if paused { SetStatus(Idle); }
    }

    method ResetAttempts()
      modifies this
      ensures Snapshot() == old(Snapshot()).(attempts := 0, armed := [], reconnectPending := false)
    {
      attempts := 0;
      armed := [];
      reconnectPending := false;
    }

    method Mount(active: bool, closing: Closing)
      modifies this
      ensures Snapshot() == ActivityStream.Mount(old(Snapshot()), active, closing)
    {
      if !cancelled { return; }
      retryTimer, polling := None, false;
      CloseConnection(closing);
      Declare(active);
      if !paused { OpenStream(Quiet); }
    }
  }
}
