/** Network-switch suspension of store/offpayNetworkTransitionStore.ts. Scheduled release tasks may fire at any moment, also
    after they were cancelled and more than once. */
module NetworkTransition {
  import opened Common

  /** What a scheduled release closes over. */
  datatype Task = Task(token: nat, epoch: nat)

  datatype State = State(
    suspended: bool,
    switching: bool,
    version: nat,
    token: nat,
    task: Option<nat>,
    tasks: seq<Task>,
    cancelled: set<nat>)

  const START := State(false, false, 0, 0, None, [], {})

  function CancelTask(s: State): State {
    if s.task.Some? then s.(cancelled := s.cancelled + {s.task.value}) else s
  }

  /** What suspending and beginning a switch share. */
  function ScheduleRelease(s: State): State {
    var s1 := CancelTask(s);
    s1.(token := s.token + 1, suspended := true, version := s.version + 1,
        task := Some(|s.tasks|), tasks := s.tasks + [Task(s.token + 1, s.version + 1)])
  }

  function SuspendNetworkAccess(s: State): State {
    ScheduleRelease(s)
  }

  function BeginNetworkSwitch(s: State): State {
    ScheduleRelease(s).(switching := true)
  }

  function ClearNetworkAccessSuspension(s: State): State {
    CancelTask(s).(task := None, token := s.token + 1, suspended := false, switching := false, version := s.version + 1)
  }

  function FinishNetworkSwitch(s: State, epoch: nat): State {
    if s.version == epoch && s.switching then s.(switching := false) else s
  }

  function Release(s: State, k: nat): State {
    if k >= |s.tasks| || s.token != s.tasks[k].token then s
    else
      var s1 := s.(task := None);
      if s1.version == s.tasks[k].epoch then s1.(suspended := false) else s1
  }

  datatype Event = Suspend | Clear | Begin | Finish(epoch: nat) | Fire(k: nat)

  function Step(s: State, e: Event): State {
    match e
    case Suspend => SuspendNetworkAccess(s)
    case Clear => ClearNetworkAccessSuspension(s)
    case Begin => BeginNetworkSwitch(s)
    case Finish(epoch) => FinishNetworkSwitch(s, epoch)
    case Fire(k) => Release(s, k)
  }

  /** The state after the first `n` events. */
  function After(events: seq<Event>, n: nat): State
    requires n <= |events|
  {
    if n == 0 then START else Step(After(events, n - 1), events[n - 1])
  }

  ghost predicate Inv(s: State) {
    && s.token == s.version
    && (s.suspended <==> s.task.Some?)
    && (forall k :: 0 <= k < |s.tasks| ==> s.tasks[k].token == s.tasks[k].epoch <= s.token)
    && (forall k :: 0 <= k < |s.tasks| && k in s.cancelled ==> s.tasks[k].token < s.token)
    && (forall j, k :: 0 <= j < k < |s.tasks| ==> s.tasks[j].token < s.tasks[k].token)
    && (forall k :: k in s.cancelled ==> k < |s.tasks|)
    && (s.task.Some? ==> s.task.value == |s.tasks| - 1 && s.tasks[s.task.value].token == s.token)
  }

  lemma ScheduleKeepsInv(s: State)
    requires Inv(s)
    ensures Inv(ScheduleRelease(s))
  {
  }

  lemma StepKeepsInv(s: State, e: Event)
    requires Inv(s)
    ensures Inv(Step(s, e))
  {
    match e
    case Suspend => ScheduleKeepsInv(s);
    case Clear =>
    case Begin => ScheduleKeepsInv(s);
    case Finish(epoch) =>
    case Fire(k) =>
  }

  lemma {:induction false} ReachableInv(events: seq<Event>, n: nat)
    requires n <= |events|
    ensures Inv(After(events, n))
  {
    if n > 0 {
      ReachableInv(events, n - 1);
      StepKeepsInv(After(events, n - 1), events[n - 1]);
    }
  }

  /** On every run the suspension token equals the transition version, and access is suspended exactly while a release is
      pending, which is then the latest one scheduled and not cancelled. */
  lemma SuspensionHasItsRelease(events: seq<Event>, n: nat)
    requires n <= |events|
    ensures var s := After(events, n);
            && s.token == s.version
            && (s.suspended <==> s.task.Some?)
            && (s.suspended ==> s.task == Some(|s.tasks| - 1) && |s.tasks| - 1 !in s.cancelled)
  {
    ReachableInv(events, n);
  }

  /** Firing releases exactly when the fired task is the pending one; any other firing, stale or repeated, changes nothing. */
  lemma OnlyPendingTaskReleases(events: seq<Event>, n: nat, k: nat)
    requires n <= |events|
    ensures var s := After(events, n);
            Release(s, k) == if s.task == Some(k) then s.(task := None, suspended := false) else s
  {
    ReachableInv(events, n);
    var s := After(events, n);
    if k < |s.tasks| && s.token == s.tasks[k].token && s.task != Some(k) {
      if k < |s.tasks| - 1 { assert s.tasks[k].token < s.tasks[|s.tasks| - 1].token; }
      assert s.task.None?;
    }
  }

  predicate Supersedes(e: Event) {
    e == Begin || e == Suspend || e == Clear
  }

  /** From the begin at `i` to `j` nothing supersedes the switch. */
  predicate Undisturbed(events: seq<Event>, i: nat, j: nat)
    requires j <= |events|
  {
    forall m :: i < m < j ==> !Supersedes(events[m])
  }

  predicate FinishedBefore(events: seq<Event>, i: nat, j: nat, epoch: nat)
    requires j <= |events|
  {
    exists m :: i < m < j && events[m] == Finish(epoch)
  }

  lemma FollowedOnward(events: seq<Event>, i: nat, j: nat, epoch: nat)
    requires i < j < |events|
    ensures Undisturbed(events, i, j + 1) <==> Undisturbed(events, i, j) && !Supersedes(events[j])
    ensures FinishedBefore(events, i, j + 1, epoch) <==> FinishedBefore(events, i, j, epoch) || events[j] == Finish(epoch)
  {
  }

  lemma {:induction false} SwitchFollowed(events: seq<Event>, i: nat, j: nat)
    requires i < j <= |events| && events[i] == Begin
    ensures var epoch, s := After(events, i).version + 1, After(events, j);
            && s.version >= epoch
            && (s.version == epoch <==> Undisturbed(events, i, j))
            && (Undisturbed(events, i, j) ==> (s.switching <==> !FinishedBefore(events, i, j, epoch)))
    decreases j
  {
    var epoch := After(events, i).version + 1;
    if j > i + 1 {
      SwitchFollowed(events, i, j - 1);
      FollowedOnward(events, i, j - 1, epoch);
      hide Undisturbed, FinishedBefore;
    }
  }

  /** Latest switch wins: finishing with the epoch a begin returned clears the flag exactly when no begin, suspend or clear
      followed that begin and the switch was not finished already. */
  lemma FinishClearsExactly(events: seq<Event>, i: nat, j: nat)
    requires i < j < |events| && events[i] == Begin && events[j] == Finish(After(events, i).version + 1)
    ensures var epoch, s := After(events, i).version + 1, After(events, j);
            (s.switching && !After(events, j + 1).switching) <==>
              Undisturbed(events, i, j) && !FinishedBefore(events, i, j, epoch)
  {
    SwitchFollowed(events, i, j);
  }

  // ----- Any epoch ----------------------------------------------------------------------------------------------------------

  /** The version before event `n`, counted from the events alone. */
  function Version(events: seq<Event>, n: nat): nat
    requires n <= |events|
  {
    if n == 0 then 0 else Version(events, n - 1) + (if Supersedes(events[n - 1]) then 1 else 0)
  }

  /** Some begin was neither cleared nor finished before event `n`; a finish counts when it names the version of its moment. */
  predicate BeginLive(events: seq<Event>, n: nat)
    requires n <= |events|
  {
    n > 0 &&
    var e := events[n - 1];
    e == Begin || (BeginLive(events, n - 1) && e != Clear && e != Finish(Version(events, n - 1)))
  }

  /** On every run the version counts the superseding events, and a switch is flagged if and only if a begin is live. */
  lemma {:induction false} SwitchingIsALiveBegin(events: seq<Event>, n: nat)
    requires n <= |events|
    ensures After(events, n).version == Version(events, n)
    ensures After(events, n).switching <==> BeginLive(events, n)
  {
    if n > 0 {
      SwitchingIsALiveBegin(events, n - 1);
    }
  }

  /** The begin at `i` returned `epoch`. */
  predicate Returned(events: seq<Event>, i: nat, epoch: nat)
    requires i < |events|
  {
    events[i] == Begin && Version(events, i) + 1 == epoch
  }

  /** The event at `i` is the last superseding one before `n`, and moved the version to `epoch`. */
  predicate LastMovedTo(events: seq<Event>, i: nat, n: nat, epoch: nat)
    requires i < n <= |events|
  {
    Supersedes(events[i]) && Version(events, i) + 1 == epoch && Undisturbed(events, i, n)
  }

  lemma {:induction false} VersionHasItsMove(events: seq<Event>, n: nat) returns (i: nat)
    requires n <= |events| && Version(events, n) > 0
    ensures i < n && LastMovedTo(events, i, n, Version(events, n))
  {
    if Supersedes(events[n - 1]) {
      i := n - 1;
    } else {
      i := VersionHasItsMove(events, n - 1);
    }
  }

  lemma {:induction false} MoveGivesVersion(events: seq<Event>, i: nat, n: nat)
    requires i < n <= |events| && Supersedes(events[i]) && Undisturbed(events, i, n)
    ensures Version(events, n) == Version(events, i) + 1
  {
    if n > i + 1 { MoveGivesVersion(events, i, n - 1); }
  }

  lemma {:induction false} LiveBeginMovedVersion(events: seq<Event>, n: nat)
    requires n <= |events| && BeginLive(events, n)
    ensures Version(events, n) > 0
  {
    if events[n - 1] != Begin { LiveBeginMovedVersion(events, n - 1); }
  }

  /** After a clear that nothing supersedes no begin is live. */
  lemma {:induction false} ClearEndsBegins(events: seq<Event>, i: nat, n: nat)
    requires i < n <= |events| && events[i] == Clear && Undisturbed(events, i, n)
    ensures !BeginLive(events, n)
  {
    if n > i + 1 { ClearEndsBegins(events, i, n - 1); }
  }

  /** An epoch that no begin returned clears the flag if and only if a begin is live and the last superseding event is a suspend
      that moved the version to that epoch. */
  lemma ForeignEpochClearsExactlyWhen(events: seq<Event>, n: nat, epoch: nat)
    requires n < |events| && events[n] == Finish(epoch)
    requires forall i :: 0 <= i < n ==> !Returned(events, i, epoch)
    ensures (After(events, n).switching && !After(events, n + 1).switching) <==>
              BeginLive(events, n) && exists i :: 0 <= i < n && events[i] == Suspend && LastMovedTo(events, i, n, epoch)
  {
    SwitchingIsALiveBegin(events, n);
    if BeginLive(events, n) && Version(events, n) == epoch {
      LiveBeginMovedVersion(events, n);
      var i := VersionHasItsMove(events, n);
      assert !Returned(events, i, epoch);
      if events[i] == Clear { ClearEndsBegins(events, i, n); }
      assert events[i] == Suspend;
    }
    if i :| 0 <= i < n && events[i] == Suspend && LastMovedTo(events, i, n, epoch) {
      MoveGivesVersion(events, i, n);
    }
  }

  /** The shortest such history. */
  lemma ForeignEpochClears()
    ensures After([Begin, Suspend, Finish(2)], 2).switching && !After([Begin, Suspend, Finish(2)], 3).switching
  {
    assert After([Begin, Suspend, Finish(2)], 1) == BeginNetworkSwitch(START);
  }

  /** The matching finish misses a switch that was suspended before it came: with callers that finish only with epochs begins
      returned, the flag then stays set until the next begin or clear. */
  lemma {:induction false} SuspendedSwitchStays(events: seq<Event>, i: nat, m: nat, n: nat)
    requires i < m < n <= |events| && events[i] == Begin && events[m] == Suspend
    requires forall k :: i < k < n ==> events[k] != Begin && events[k] != Clear
    requires forall k :: i < k < n && events[k].Finish? ==> exists b :: 0 <= b < k && Returned(events, b, events[k].epoch)
    requires forall k :: i < k < m ==> events[k] != Finish(Version(events, i) + 1)
    ensures After(events, n).switching
  {
    SwitchingIsALiveBegin(events, n);
    forall k | i < k < n ensures events[k] != Finish(Version(events, k)) {
      if events[k].Finish? {
        var b :| 0 <= b < k && Returned(events, b, events[k].epoch);
        VersionGrows(events, b, i);
        VersionGrows(events, i + 1, k);
        if k > m {
          VersionGrows(events, i + 1, m);
          VersionGrows(events, m + 1, k);
        }
      }
    }
    BeginStaysLive(events, i, n);
  }

  lemma {:induction false} BeginStaysLive(events: seq<Event>, i: nat, n: nat)
    requires i < n <= |events| && events[i] == Begin
    requires forall k :: i < k < n ==> events[k] != Clear && events[k] != Finish(Version(events, k))
    ensures BeginLive(events, n)
  {
    if n > i + 1 { BeginStaysLive(events, i, n - 1); }
  }

  lemma {:induction false} VersionGrows(events: seq<Event>, m: nat, n: nat)
    requires m <= n <= |events|
    ensures Version(events, m) <= Version(events, n)
  {
    if m < n { VersionGrows(events, m, n - 1); }
  }

  // ----- Suspension over histories ----------------------------------------------------------------------------------------

  predicate Suspends(e: Event) {
    e == Suspend || e == Begin
  }

  /** How many releases were scheduled before event `n`: one by every suspend and begin. */
  function Scheduled(events: seq<Event>, n: nat): nat
    requires n <= |events|
  {
    if n == 0 then 0 else Scheduled(events, n - 1) + (if Suspends(events[n - 1]) then 1 else 0)
  }

  /** The event at `i` suspended access, and up to `n` no other did, none cleared it, and the release it scheduled did not
      fire. */
  ghost predicate SuspendedSince(events: seq<Event>, i: nat, n: nat)
    requires n <= |events|
  {
    i < n && Suspends(events[i])
    && forall m :: i < m < n ==> !Supersedes(events[m]) && events[m] != Fire(Scheduled(events, i))
  }

  lemma SuspendedSinceStep(events: seq<Event>, i: nat, n: nat)
    requires i < n < |events|
    ensures SuspendedSince(events, i, n + 1)
            <==> SuspendedSince(events, i, n) && !Supersedes(events[n]) && events[n] != Fire(Scheduled(events, i))
  {
  }

  lemma {:induction false} LastScheduled(events: seq<Event>, i: nat, n: nat)
    requires n <= |events| && SuspendedSince(events, i, n)
    ensures Scheduled(events, n) == Scheduled(events, i) + 1
  {
    if n > i + 1 { LastScheduled(events, i, n - 1); }
  }

  /** An event that does not suspend lets a suspension go on unless it clears or releases it. */
  lemma SuspensionGoesOn(events: seq<Event>, n: nat, next: nat)
    requires next == n + 1 <= |events| && !Suspends(events[n])
    ensures (exists i: nat :: SuspendedSince(events, i, next)) <==>
              && (exists i: nat :: SuspendedSince(events, i, n))
              && events[n] != Clear && !(events[n].Fire? && events[n].k + 1 == Scheduled(events, n))
  {
    if i: nat :| SuspendedSince(events, i, next) {
      assert i < n;
      SuspendedSinceStep(events, i, n);
      LastScheduled(events, i, n);
    }
    if i: nat :| SuspendedSince(events, i, n) {
      LastScheduled(events, i, n);
      SuspendedSinceStep(events, i, n);
    }
  }

  /** On every run access is suspended exactly when the latest suspend or begin was followed by no clear and its release has not
      fired. */
  lemma {:induction false} SuspendedExactlySince(events: seq<Event>, n: nat)
    requires n <= |events|
    ensures |After(events, n).tasks| == Scheduled(events, n)
    ensures After(events, n).suspended <==> exists i: nat :: SuspendedSince(events, i, n)
  {
    if n > 0 {
      var s, e := After(events, n - 1), events[n - 1];
      SuspendedExactlySince(events, n - 1);
      SuspensionHasItsRelease(events, n - 1);
      if e.Fire? { OnlyPendingTaskReleases(events, n - 1, e.k); }
      if Suspends(e) {
        assert SuspendedSince(events, n - 1, n);
      } else {
        SuspensionGoesOn(events, n - 1, n);
      }
    }
  }

  /** Right after every suspend and every begin access is suspended, with a new release pending, and a begin also switches. */
  lemma SuspendingSuspends(events: seq<Event>, n: nat)
    requires n < |events| && Suspends(events[n])
    ensures var s, r := After(events, n), After(events, n + 1);
            && r.suspended && r.version == s.version + 1 && r.task == Some(|s.tasks|) && |s.tasks| !in r.cancelled
            && r.tasks == s.tasks + [Task(r.token, r.version)]
            && r.switching == (events[n] == Begin || s.switching)
            && !Release(r, |s.tasks|).suspended
  {
    ReachableInv(events, n);
    ReachableInv(events, n + 1);
    OnlyPendingTaskReleases(events, n + 1, |After(events, n).tasks|);
  }

  /** The store in its own shape. */
  class TransitionStore {
    var networkAccessSuspended: bool
    var isNetworkSwitching: bool
    var transitionVersion: nat
    var suspensionToken: nat
    var suspensionTask: Option<nat>
    var scheduled: seq<Task>
    var cancelledTasks: set<nat>

    function View(): State
      reads this
    {
      State(networkAccessSuspended, isNetworkSwitching, transitionVersion, suspensionToken, suspensionTask, scheduled,
            cancelledTasks)
    }

    constructor ()
      ensures View() == START
    {
      networkAccessSuspended, isNetworkSwitching, transitionVersion := false, false, 0;
      suspensionToken, suspensionTask, scheduled, cancelledTasks := 0, None, [], {};
    }

    method Suspend()
      modifies this
      ensures View() == SuspendNetworkAccess(old(View()))
      ensures networkAccessSuspended && suspensionTask == Some(|old(scheduled)|)
      ensures scheduled == old(scheduled) + [Task(suspensionToken, transitionVersion)]
    {
      if suspensionTask.Some? { cancelledTasks := cancelledTasks + {suspensionTask.value}; }
      var token := suspensionToken + 1;
      suspensionToken := token;
      var nextEpoch := transitionVersion + 1;
      networkAccessSuspended, transitionVersion := true, nextEpoch;
      suspensionTask, scheduled := Some(|scheduled|), scheduled + [Task(token, nextEpoch)];
    }

    method Clear()
      modifies this
      ensures View() == ClearNetworkAccessSuspension(old(View()))
    {
      if suspensionTask.Some? { cancelledTasks := cancelledTasks + {suspensionTask.value}; }
      suspensionTask := None;
      suspensionToken := suspensionToken + 1;
      networkAccessSuspended, isNetworkSwitching, transitionVersion := false, false, transitionVersion + 1;
    }

    method Begin() returns (epoch: nat)
      modifies this
      ensures View() == BeginNetworkSwitch(old(View()))
      ensures epoch == transitionVersion == old(transitionVersion) + 1
      ensures networkAccessSuspended && isNetworkSwitching && suspensionTask == Some(|old(scheduled)|)
      ensures scheduled == old(scheduled) + [Task(suspensionToken, transitionVersion)]
    {
      if suspensionTask.Some? { cancelledTasks := cancelledTasks + {suspensionTask.value}; }
      var token := suspensionToken + 1;
      suspensionToken := token;
      epoch := transitionVersion + 1;
      networkAccessSuspended, isNetworkSwitching, transitionVersion := true, true, epoch;
      suspensionTask, scheduled := Some(|scheduled|), scheduled + [Task(token, epoch)];
    }

    method Finish(epoch: nat)
      modifies this
      ensures View() == FinishNetworkSwitch(old(View()), epoch)
    {
      if transitionVersion == epoch && isNetworkSwitching { isNetworkSwitching := false; }
    }

    /** The body of a scheduled release. */
    method Fire(k: nat)
      modifies this
      ensures View() == Release(old(View()), k)
    {
      if k >= |scheduled| || suspensionToken != scheduled[k].token { return; }
      suspensionTask := None;
      if transitionVersion == scheduled[k].epoch { networkAccessSuspended := false; }
    }
  }
}
