/** The app-lock write queue of hooks/useAppLockState.ts: a promise chain whose links check a mutation id on their turn. The
    stored flag has other writers, which go past the queue: the passcode screens on unlocking and setup, the wallet store on
    launch and the wallet reset. */
module AppLock {
  import opened Common

  /** How a request resolved: superseded before its turn, written (and still the latest when the write returned?), or failed. */
  datatype Result = Superseded | Written(latest: bool) | Rejected

  datatype Phase = Queued | Writing | Done(result: Result)

  /** `landed`: the write of the request has reached the store. */
  datatype Request = Request(mutationId: nat, locked: bool, phase: Phase, landed: bool)

  /** A storage write that goes past the queue; the wallet reset deletes the flag. */
  datatype DirectWrite = DirectWrite(flag: Option<bool>, landed: bool)

  /** `requests[i]` is chained behind `requests[i - 1]`. `starts` lists the requests whose storage write began, in order. */
  datatype State = State(
    mutationId: nat,
    loadRequestId: nat,
    requests: seq<Request>,
    starts: seq<nat>,
    direct: seq<DirectWrite>,
    stored: Option<bool>)

  const START := State(0, 0, [], [], [], None)

  function WithPhase(s: State, i: nat, phase: Phase): State
    requires i < |s.requests|
  {
    s.(requests := s.requests[i := s.requests[i].(phase := phase)])
  }

  function Requested(s: State, locked: bool): State {
    s.(mutationId := s.mutationId + 1, loadRequestId := s.loadRequestId + 1,
       requests := s.requests + [Request(s.mutationId + 1, locked, Queued, false)])
  }

  /** The predecessor has settled, whichever way. */
  predicate HasTurn(s: State, i: nat) {
    i < |s.requests| && s.requests[i].phase.Queued? && (i == 0 || s.requests[i - 1].phase.Done?)
  }

  function TurnTaken(s: State, i: nat): State {
    if !HasTurn(s, i) then s
    else if s.requests[i].mutationId != s.mutationId then WithPhase(s, i, Done(Superseded))
    else WithPhase(s, i, Writing).(starts := s.starts + [i])
  }

  predicate CanLand(s: State, i: nat) {
    i < |s.requests| && s.requests[i].phase.Writing? && !s.requests[i].landed
  }

  /** The write of request `i` reaches the store; its promise settles later. */
  function Landed(s: State, i: nat): State {
    if !CanLand(s, i) then s
    else s.(requests := s.requests[i := s.requests[i].(landed := true)], stored := Some(s.requests[i].locked))
  }

  /** The storage write returns. One that succeeds has landed; a rejected one may or may not have. */
  predicate CanComplete(s: State, i: nat, ok: bool) {
    i < |s.requests| && s.requests[i].phase.Writing? && (ok ==> s.requests[i].landed)
  }

  function Completed(s: State, i: nat, ok: bool): State {
    if !CanComplete(s, i, ok) then s
    else WithPhase(s, i, Done(if ok then Written(s.requests[i].mutationId == s.mutationId) else Rejected))
  }

  predicate CanLandDirectly(s: State, n: nat) {
    n < |s.direct| && !s.direct[n].landed
  }

  function DirectLanded(s: State, n: nat): State {
    if !CanLandDirectly(s, n) then s
    else s.(direct := s.direct[n := s.direct[n].(landed := true)], stored := s.direct[n].flag)
  }

  datatype Event =
    | Write(locked: bool)
    | Turn(i: nat)
    | Lands(i: nat)
    | Completes(i: nat, ok: bool)
    | DirectBegins(flag: Option<bool>)
    | DirectLands(n: nat)

  function Step(s: State, e: Event): State {
    match e
    case Write(locked) => Requested(s, locked)
    case Turn(i) => TurnTaken(s, i)
    case Lands(i) => Landed(s, i)
    case Completes(i, ok) => Completed(s, i, ok)
    case DirectBegins(flag) => s.(direct := s.direct + [DirectWrite(flag, false)])
    case DirectLands(n) => DirectLanded(s, n)
  }

  function Run(events: seq<Event>): State {
    if events == [] then START else Step(Run(events[..|events| - 1]), events[|events| - 1])
  }

  // ----- The queue --------------------------------------------------------------------------------------------------

  ghost predicate Inv(s: State) {
    && s.mutationId == |s.requests| && s.loadRequestId == |s.requests|
    && (forall i :: 0 <= i < |s.requests| ==> s.requests[i].mutationId == i + 1)
    && (forall i, j :: 0 <= i < j < |s.requests| && !s.requests[j].phase.Queued? ==> s.requests[i].phase.Done?)
    && (forall i :: 0 <= i < |s.requests| && s.requests[i].phase == Done(Superseded) ==> i < |s.requests| - 1)
    && (forall i :: 0 <= i < |s.requests| && s.requests[i].landed ==> !s.requests[i].phase.Queued?)
    && (forall i :: 0 <= i < |s.requests| && s.requests[i].phase.Done? && s.requests[i].phase.result.Written? ==>
          s.requests[i].landed)
    && (forall n :: 0 <= n < |s.starts| ==> s.starts[n] < |s.requests| && !s.requests[s.starts[n]].phase.Queued?)
    && (forall m, n :: 0 <= m < n < |s.starts| ==> s.starts[m] < s.starts[n])
  }

  lemma WriteKeepsInv(s: State, locked: bool)
    requires Inv(s)
    ensures Inv(Requested(s, locked))
  {
    var r := Requested(s, locked);
    assert forall i :: 0 <= i < |s.requests| ==> r.requests[i] == s.requests[i];
  }

  lemma SupersededKeepsInv(s: State, i: nat)
    requires Inv(s) && HasTurn(s, i) && s.requests[i].mutationId != s.mutationId
    ensures Inv(WithPhase(s, i, Done(Superseded)))
  {
    var r := WithPhase(s, i, Done(Superseded));
    assert forall j :: 0 <= j < |s.requests| && j != i ==> r.requests[j] == s.requests[j];
  }

  lemma WritingKeepsInv(s: State, i: nat)
    requires Inv(s) && HasTurn(s, i) && s.requests[i].mutationId == s.mutationId
    ensures Inv(WithPhase(s, i, Writing).(starts := s.starts + [i]))
  {
    var r := WithPhase(s, i, Writing).(starts := s.starts + [i]);
    assert i == |s.requests| - 1;
    assert forall j :: 0 <= j < i ==> r.requests[j] == s.requests[j];
    assert forall n :: 0 <= n < |s.starts| ==> s.starts[n] != i;
  }

  lemma TurnKeepsInv(s: State, i: nat)
    requires Inv(s)
    ensures Inv(TurnTaken(s, i))
  {
    if HasTurn(s, i) {
      if s.requests[i].mutationId != s.mutationId {
        SupersededKeepsInv(s, i);
      } else {
        WritingKeepsInv(s, i);
      }
    }
  }

  lemma LandingKeepsInv(s: State, i: nat)
    requires Inv(s)
    ensures Inv(Landed(s, i))
  {
    assert forall j :: 0 <= j < |s.requests| && j != i ==> Landed(s, i).requests[j] == s.requests[j];
  }

  lemma CompletingKeepsInv(s: State, i: nat, ok: bool)
    requires Inv(s)
    ensures Inv(Completed(s, i, ok))
  {
    assert forall j :: 0 <= j < |s.requests| && j != i ==> Completed(s, i, ok).requests[j] == s.requests[j];
  }

  lemma StepKeepsInv(s: State, e: Event)
    requires Inv(s)
    ensures Inv(Step(s, e))
  {
    hide Requested, TurnTaken, Landed, Completed;
    match e
    case Write(locked) => WriteKeepsInv(s, locked);
    case Turn(i) => TurnKeepsInv(s, i);
    case Lands(i) => LandingKeepsInv(s, i);
    case Completes(i, ok) => CompletingKeepsInv(s, i, ok);
    case DirectBegins(_) =>
    case DirectLands(_) =>
  }

  lemma {:induction false} RunKeepsInv(events: seq<Event>)
    ensures Inv(Run(events))
  {
    if events != [] {
      RunKeepsInv(events[..|events| - 1]);
      StepKeepsInv(Run(events[..|events| - 1]), events[|events| - 1]);
    }
  }

  /** On every run at most one queued write is in flight, and queued writes start in request order. */
  lemma WritesAreSerial(events: seq<Event>)
    ensures var s := Run(events);
            && (forall i, j :: 0 <= i < j < |s.requests| && s.requests[i].phase.Writing? ==> !s.requests[j].phase.Writing?)
            && (forall m, n :: 0 <= m < n < |s.starts| ==> s.starts[m] < s.starts[n])
  {
    RunKeepsInv(events);
  }

  lemma TurnOfSettled(s: State, i: nat)
    requires Inv(s) && i < |s.requests| && s.requests[i].phase.Queued?
    ensures HasTurn(s, i) <==> forall j :: 0 <= j < i ==> s.requests[j].phase.Done?
    ensures Step(s, Turn(i)) ==
              if !HasTurn(s, i) then s
              else s.(requests := s.requests[i := s.requests[i].(
                                    phase := if i == |s.requests| - 1 then Writing else Done(Superseded))],
                      starts := if i == |s.requests| - 1 then s.starts + [i] else s.starts)
  {
  }

  /** A request superseded before its turn never writes: a write starts only for the latest request. */
  lemma OnlyLatestStarts(events: seq<Event>, e: Event)
    ensures var s, r := Run(events), Step(Run(events), e);
            r.starts != s.starts ==> r.starts == s.starts + [|s.requests| - 1] && r.requests[|s.requests| - 1].phase.Writing?
  {
    RunKeepsInv(events);
    hide Run;
    if e.Turn? && e.i < |Run(events).requests| && Run(events).requests[e.i].phase.Queued? { TurnOfSettled(Run(events), e.i); }
    hide HasTurn, Inv;
  }

  /** A request is chained last, with the next id, and writes nothing yet. */
  lemma RequestIsChained(s: State, locked: bool)
    requires Inv(s)
    ensures var r := Step(s, Write(locked));
            && r.requests == s.requests + [Request(|s.requests| + 1, locked, Queued, false)]
            && r.mutationId == |s.requests| + 1 && r.loadRequestId == s.loadRequestId + 1
            && r.stored == s.stored && r.direct == s.direct && r.starts == s.starts
  {
  }

  /** A queued request acts once every earlier one has settled, whether written, superseded or rejected: the last one starts its
      write, an earlier one is superseded. Before that its turn changes nothing. */
  lemma TurnComesAfterSettling(events: seq<Event>, i: nat)
    requires i < |Run(events).requests| && Run(events).requests[i].phase.Queued?
    ensures var s, r := Run(events), Step(Run(events), Turn(i));
            if forall j :: 0 <= j < i ==> s.requests[j].phase.Done? then
              && r.requests == s.requests[i := s.requests[i].(
                   phase := if i == |s.requests| - 1 then Writing else Done(Superseded))]
              && r.starts == (if i == |s.requests| - 1 then s.starts + [i] else s.starts)
              && r.stored == s.stored && r.mutationId == s.mutationId
            else r == s
  {
    RunKeepsInv(events);
    TurnOfSettled(Run(events), i);
    hide *;
  }

  /** A write in flight may be rejected at any moment, and succeed once it has landed; either settles the request for the
      next. */
  lemma CompletionSettles(s: State, i: nat, ok: bool)
    requires i < |s.requests| && s.requests[i].phase.Writing? && (ok ==> s.requests[i].landed)
    ensures var r := Step(s, Completes(i, ok));
            && |r.requests| == |s.requests| && r.requests[i].phase.Done?
            && (r.requests[i].phase.result.Rejected? <==> !ok) && !r.requests[i].phase.result.Superseded?
            && r.stored == s.stored && r.direct == s.direct
            && forall j :: 0 <= j < |s.requests| && j != i ==> r.requests[j] == s.requests[j]
  {
  }

  // ----- Who wrote the stored flag ----------------------------------------------------------------------------------

  /** The `k`-th event brings the write of request `i` to the store. */
  predicate LandsAt(events: seq<Event>, k: nat, i: nat) {
    k < |events| && events[k] == Lands(i) && CanLand(Run(events[..k]), i)
  }

  /** The `k`-th event brings a direct write to the store. */
  predicate DirectAt(events: seq<Event>, k: nat) {
    k < |events| && events[k].DirectLands? && CanLandDirectly(Run(events[..k]), events[k].n)
  }

  function FlagAt(events: seq<Event>, k: nat): Option<bool>
    requires DirectAt(events, k)
  {
    Run(events[..k]).direct[events[k].n].flag
  }

  /** The `k`-th event is the last direct write to reach the store. */
  ghost predicate LastDirectAt(events: seq<Event>, k: nat) {
    DirectAt(events, k) && forall m :: k < m < |events| ==> !DirectAt(events, m)
  }

  /** After the `k`-th event no direct write reached the store, or the last one that did wrote `locked` too. */
  ghost predicate NotOverwritten(events: seq<Event>, k: nat, locked: bool) {
    || (forall m :: k < m < |events| ==> !DirectAt(events, m))
    || (exists m :: k < m && LastDirectAt(events, m) && FlagAt(events, m) == Some(locked))
  }

  lemma RunPrefix(events: seq<Event>, k: nat)
    requires k < |events|
    ensures Run(events[..k + 1]) == Step(Run(events[..k]), events[k])
  {
    assert events[..k + 1][..k] == events[..k];
  }

  /** What the store holds stays until something reaches the store again. */
  lemma {:induction false} StoredStays(events: seq<Event>, k: nat, n: nat)
    requires k <= n <= |events|
    requires forall m :: k <= m < n ==> !DirectAt(events, m) && !(events[m].Lands? && LandsAt(events, m, events[m].i))
    ensures Run(events[..n]).stored == Run(events[..k]).stored
    decreases n
  {
    if k < n {
      StoredStays(events, k, n - 1);
      RunPrefix(events, n - 1);
    }
  }

  lemma LandedStaysStep(s: State, e: Event, i: nat)
    requires i < |s.requests|
    ensures var r := Step(s, e);
            && i < |r.requests| && r.requests[i].locked == s.requests[i].locked
            && (s.requests[i].landed ==> r.requests[i].landed)
  {
  }

  /** Requests are never forgotten, nor that they landed, nor what they were to write. */
  lemma {:induction false} LandedStays(events: seq<Event>, k: nat, i: nat, n: nat)
    requires LandsAt(events, k, i) && k < n <= |events|
    ensures var s := Run(events[..n]);
            i < |s.requests| && s.requests[i].landed && s.requests[i].locked == Run(events[..k]).requests[i].locked
    decreases n
  {
    RunPrefix(events, n - 1);
    if k < n - 1 {
      hide Run, Step;
      LandedStays(events, k, i, n - 1);
      LandedStaysStep(Run(events[..n - 1]), events[n - 1], i);
    }
  }

  /** Queued writes reach the store in request order, each at most once. */
  lemma LandingsInOrder(events: seq<Event>, k: nat, i: nat, m: nat, j: nat)
    requires LandsAt(events, k, i) && LandsAt(events, m, j) && k < m
    ensures i < j
  {
    LandedStays(events, k, i, m);
    RunKeepsInv(events[..m]);
  }

  lemma {:induction false} LandedHasItsEvent(events: seq<Event>, i: nat) returns (k: nat)
    requires i < |Run(events).requests| && Run(events).requests[i].landed
    ensures LandsAt(events, k, i)
  {
    var init := events[..|events| - 1];
    if i < |Run(init).requests| && Run(init).requests[i].landed {
      k := LandedHasItsEvent(init, i);
      assert init[..k] == events[..k];
    } else {
      k := |events| - 1;
    }
  }

  lemma {:induction false} LastDirect(events: seq<Event>, k: nat, n: nat) returns (m: nat)
    requires k <= n <= |events| && DirectAt(events, k)
    requires forall j :: n <= j < |events| ==> !DirectAt(events, j)
    ensures k <= m && LastDirectAt(events, m)
    decreases n
  {
    if n == k + 1 || DirectAt(events, n - 1) {
      m := n - 1;
    } else {
      m := LastDirect(events, k, n - 1);
    }
  }

  /** The last queued write to reach the store is that of request `i`. */
  ghost predicate LastLanded(s: State, i: nat) {
    i < |s.requests| && s.requests[i].landed && forall j :: i < j < |s.requests| ==> !s.requests[j].landed
  }

  /** After the last queued write to land only direct writes land. */
  lemma OnlyDirectAfter(events: seq<Event>, k: nat, i: nat, m: nat)
    requires LastLanded(Run(events), i) && LandsAt(events, k, i) && k < m < |events|
    ensures !(events[m].Lands? && LandsAt(events, m, events[m].i))
  {
    hide Run, CanLand;
    if events[m].Lands? && LandsAt(events, m, events[m].i) {
      LandingsInOrder(events, k, i, m, events[m].i);
      assert events[..|events|] == events;
      LandedStays(events, m, events[m].i, |events|);
      assert false;
    }
  }

  lemma DirectIsStored(events: seq<Event>, k: nat)
    requires DirectAt(events, k)
    ensures Run(events[..k + 1]).stored == FlagAt(events, k)
  {
    RunPrefix(events, k);
  }

  /** Where direct writes landed after the `k`-th event, the last of them wrote what is stored. */
  lemma StoredByDirect(events: seq<Event>, k: nat, i: nat, first: nat) returns (m: nat)
    requires LastLanded(Run(events), i) && LandsAt(events, k, i)
    requires k < first && DirectAt(events, first)
    ensures k < m && LastDirectAt(events, m) && Run(events).stored == FlagAt(events, m)
  {
    hide Run, Step, LandsAt, LastLanded;
    m := LastDirect(events, first, |events|);
    DirectIsStored(events, m);
    forall j | m < j < |events| ensures !(events[j].Lands? && LandsAt(events, j, events[j].i)) {
      OnlyDirectAfter(events, k, i, j);
    }
    assert events[..|events|] == events;
    StoredStays(events, m + 1, |events|);
  }

  lemma StoredByQueue(events: seq<Event>, k: nat, i: nat)
    requires LastLanded(Run(events), i) && LandsAt(events, k, i)
    requires forall m :: k < m < |events| ==> !DirectAt(events, m)
    ensures Run(events).stored == Some(Run(events).requests[i].locked)
  {
    RunPrefix(events, k);
    forall j | k < j < |events| ensures !(events[j].Lands? && LandsAt(events, j, events[j].i)) {
      OnlyDirectAfter(events, k, i, j);
    }
    assert events[..|events|] == events;
    hide Run, DirectAt;
    LandedStays(events, k, i, |events|);
    StoredStays(events, k + 1, |events|);
  }

  /** On every run, the stored flag is that of the last queued write to land if and only if no direct write landed after it, or
      the last one that did wrote the same flag. */
  lemma StoredExactlyWhen(events: seq<Event>, k: nat, i: nat)
    requires LastLanded(Run(events), i) && LandsAt(events, k, i)
    ensures var s := Run(events);
            s.stored == Some(s.requests[i].locked) <==> NotOverwritten(events, k, s.requests[i].locked)
  {
    hide Run, LandsAt, CanLandDirectly;
    if first :| k < first < |events| && DirectAt(events, first) {
      var m := StoredByDirect(events, k, i, first);
      assert forall n :: LastDirectAt(events, n) ==> n == m;
    } else {
      StoredByQueue(events, k, i);
    }
  }

  /** A request resolves `true` exactly when its write succeeded and no later request was made. Its flag is then stored exactly
      when no direct write has overwritten it since it landed. */
  lemma TrueMeansStored(events: seq<Event>, i: nat, ok: bool)
    requires CanComplete(Run(events), i, ok)
    ensures var r := Completed(Run(events), i, ok);
            && (r.requests[i].phase == Done(Written(true)) <==> ok && i == |r.requests| - 1)
            && (ok ==> exists k :: LandsAt(events, k, i) && (r.stored == Some(r.requests[i].locked) <==>
                                                             NotOverwritten(events, k, r.requests[i].locked)))
  {
    RunKeepsInv(events);
    if ok {
      var k := LandedHasItsEvent(events, i);
      StoredExactlyWhen(events, k, i);
    }
  }

  /** Last writer wins: once every request has settled, the last one was not superseded, and if its write succeeded, its flag is
      the stored one exactly when no direct write has overwritten it since it landed. */
  lemma LastWriterWins(events: seq<Event>)
    requires Run(events).requests != []
    requires forall i :: 0 <= i < |Run(events).requests| ==> Run(events).requests[i].phase.Done?
    ensures var s := Run(events);
            var i := |s.requests| - 1;
            && !s.requests[i].phase.result.Superseded?
            && (s.requests[i].phase.result.Written? ==>
                  exists k :: LandsAt(events, k, i) && (s.stored == Some(s.requests[i].locked) <==>
                                                        NotOverwritten(events, k, s.requests[i].locked)))
  {
    RunKeepsInv(events);
    var i := |Run(events).requests| - 1;
    if Run(events).requests[i].phase.result.Written? {
      var k := LandedHasItsEvent(events, i);
      StoredExactlyWhen(events, k, i);
    }
  }

  lemma RunStep(events: seq<Event>, e: Event)
    ensures Run(events + [e]) == Step(Run(events), e)
  {
    assert (events + [e])[..|events|] == events;
  }

  /** The queue has drained, its one request was written and resolved `true`, and the user unlocks: the store no longer holds
      the flag of the request. */
  lemma UnlockOverwritesTheLock()
    ensures exists events :: var s := Run(events);
              && s.requests == [Request(1, true, Done(Written(true)), true)]
              && s.direct == [DirectWrite(Some(false), true)] && s.stored == Some(false)
  {
    var e1 := [Write(true)];
    RunStep([], e1[0]);
    assert [] + e1 == e1;
    var e2 := e1 + [Turn(0)];
    RunStep(e1, Turn(0));
    var e3 := e2 + [Lands(0)];
    RunStep(e2, Lands(0));
    var e4 := e3 + [Completes(0, true)];
    RunStep(e3, Completes(0, true));
    var e5 := e4 + [DirectBegins(Some(false))];
    RunStep(e4, DirectBegins(Some(false)));
    RunStep(e5, DirectLands(0));
    assert Run(e5 + [DirectLands(0)]).stored == Some(false);
  }

  /** The queue does not order direct writes. Here an unlock and a queued lock are in flight together, and the lock lands
      last. */
  lemma LockOverwritesTheUnlock()
    ensures exists events, later :: var s, r := Run(events), Run(events + later);
              && s.requests == [Request(1, true, Writing, false)] && s.direct == [DirectWrite(Some(false), false)]
              && r.direct == [DirectWrite(Some(false), true)] && r.stored == Some(true)
  {
    var e1 := [Write(true)];
    RunStep([], e1[0]);
    assert [] + e1 == e1;
    var e2 := e1 + [Turn(0)];
    RunStep(e1, Turn(0));
    var e3 := e2 + [DirectBegins(Some(false))];
    RunStep(e2, DirectBegins(Some(false)));
    var e4 := e3 + [DirectLands(0)];
    RunStep(e3, DirectLands(0));
    RunStep(e4, Lands(0));
    assert e4 + [Lands(0)] == e3 + [DirectLands(0), Lands(0)];
    assert Run(e3).direct == [DirectWrite(Some(false), false)];
    assert Run(e3 + [DirectLands(0), Lands(0)]).stored == Some(true);
  }

  /** The hook in its own shape, over the secure store it shares with the direct writers. */
  class LockWriter {
    var lockMutationId: nat
    var loadRequestId: nat
    var queue: seq<Request>
    var starts: seq<nat>
    var direct: seq<DirectWrite>
    var stored: Option<bool>

    function View(): State
      reads this
    {
      State(lockMutationId, loadRequestId, queue, starts, direct, stored)
    }

    constructor ()
      ensures View() == START
    {
      lockMutationId, loadRequestId, queue, starts, direct, stored := 0, 0, [], [], [], None;
    }

    method WriteWalletLocked(locked: bool) returns (ticket: nat)
      modifies this
      ensures View() == Requested(old(View()), locked)
      ensures ticket == |old(queue)|
    {
      var mutationId := lockMutationId + 1;
      lockMutationId := mutationId;
      loadRequestId := loadRequestId + 1;
      ticket := |queue|;
      queue := queue + [Request(mutationId, locked, Queued, false)];
    }

    /** The `then` callback up to its await. */
    method TakeTurn(i: nat)
      modifies this
      ensures View() == TurnTaken(old(View()), i)
    {
      if !HasTurn(View(), i) { return; }
      if queue[i].mutationId != lockMutationId {
        queue := queue[i := queue[i].(phase := Done(Superseded))];
        return;
      }
      queue := queue[i := queue[i].(phase := Writing)];
      starts := starts + [i];
    }

    method Land(i: nat)
      modifies this
      ensures View() == Landed(old(View()), i)
    {
      if !CanLand(View(), i) { return; }
      stored := Some(queue[i].locked);
      queue := queue[i := queue[i].(landed := true)];
    }

    method Complete(i: nat, ok: bool)
      modifies this
      ensures View() == Completed(old(View()), i, ok)
    {
      if !CanComplete(View(), i, ok) { return; }
      var result := if ok then Written(queue[i].mutationId == lockMutationId) else Rejected;
      queue := queue[i := queue[i].(phase := Done(result))];
    }

    /** A storage write of another caller begins (`None` deletes the flag). */
    method BeginDirectly(flag: Option<bool>) returns (ticket: nat)
      modifies this
      ensures View() == Step(old(View()), DirectBegins(flag))
      ensures ticket == |old(direct)|
    {
      ticket := |direct|;
      direct := direct + [DirectWrite(flag, false)];
    }

    method LandDirectly(n: nat)
      modifies this
      ensures View() == DirectLanded(old(View()), n)
    {
      if !CanLandDirectly(View(), n) { return; }
      stored := direct[n].flag;
      direct := direct[n := direct[n].(landed := true)];
    }
  }
}
