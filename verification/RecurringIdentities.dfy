/** The recurring-operation idempotency keys of store/advancedSwapStore.ts. The record is modelled as its entries in property
    order; each entry is stored under its own fingerprint. */
module RecurringIdentities {
  import opened Common
  import opened Ordering

  const MAX_RECURRING_OPERATION_IDENTITIES: nat := 20
  const RECURRING_OPERATION_IDENTITY_TTL_MS: int := 24 * 60 * 60_000

  datatype Identity = Identity(fingerprint: string, idempotencyKey: string, expiresAt: int)

  type State = seq<Identity>

  function LastingLonger(): (Identity, Identity) -> bool {
    (l: Identity, r: Identity) => l.expiresAt > r.expiresAt
  }

  function Unexpired(s: State, now: int): State {
    if s == [] then []
    else Unexpired(s[..|s| - 1], now) + (if s[|s| - 1].expiresAt > now then [s[|s| - 1]] else [])
  }

  function Live(s: State, now: int): State {
    Take(Sort(Unexpired(s, now), LastingLonger()), MAX_RECURRING_OPERATION_IDENTITIES)
  }

  function Find(s: State, fingerprint: string): Option<Identity> {
    if s == [] then None
    else if s[0].fingerprint == fingerprint then Some(s[0])
    else Find(s[1..], fingerprint)
  }

  function Created(fingerprint: string, key: string, now: int): Identity {
    Identity(fingerprint, key, now + RECURRING_OPERATION_IDENTITY_TTL_MS)
  }

  /** The identity returned and the state left; `key` is what `createKey()` would yield. */
  function GetOrCreate(s: State, fingerprint: string, key: string, now: int): (Identity, State) {
    var live := Live(s, now);
    var existing := Find(live, fingerprint);
    if existing.Some? then (existing.value, if |live| != |s| then live else s)
    else
      var created := Created(fingerprint, key, now);
      (created, Live(live + [created], now))
  }

  function WithoutKey(s: State, key: string): State {
    if s == [] then []
    else WithoutKey(s[..|s| - 1], key) + (if s[|s| - 1].idempotencyKey != key then [s[|s| - 1]] else [])
  }

  /** `Reset`: a wallet reset empties the record. */
  datatype Event = Call(fingerprint: string, key: string, now: int) | ClearKey(key: string) | Reset

  function Next(s: State, e: Event): State {
    match e
    case Call(fingerprint, key, now) => GetOrCreate(s, fingerprint, key, now).1
    case ClearKey(key) => WithoutKey(s, key)
    case Reset => []
  }

  function Run(s: State, events: seq<Event>): State
    decreases events
  {
    if events == [] then s else Run(Next(s, events[0]), events[1..])
  }

  predicate Creates(s: State, e: Event) {
    e.Call? && Find(Live(s, e.now), e.fingerprint).None?
  }

  /** How many identities a run creates. */
  function Creations(s: State, events: seq<Event>): nat
    decreases events
  {
    if events == [] then 0 else (if Creates(s, events[0]) then 1 else 0) + Creations(Next(s, events[0]), events[1..])
  }

  /** The event removes the key without an expiry. */
  predicate Forgets(e: Event, key: string) {
    e == ClearKey(key) || e == Reset
  }

  // ----- Facts about the live part ----------------------------------------------------------------------------------

  /** One entry per fingerprint. */
  ghost predicate IsRecord(s: State) {
    NoRepeats(s) && forall a, b :: a in s && b in s && a.fingerprint == b.fingerprint ==> a == b
  }

  lemma {:induction false} UnexpiredFacts(s: State, now: int)
    requires NoRepeats(s)
    ensures NoRepeats(Unexpired(s, now)) && |Unexpired(s, now)| <= |s|
    ensures forall e :: e in Unexpired(s, now) <==> e in s && e.expiresAt > now
  {
    if s != [] {
      var init, last := s[..|s| - 1], s[|s| - 1];
      assert s == init + [last];
      UnexpiredFacts(init, now);
    }
  }

  lemma {:induction false} WithoutKeyFacts(s: State, key: string)
    requires NoRepeats(s)
    ensures NoRepeats(WithoutKey(s, key)) && |WithoutKey(s, key)| <= |s|
    ensures forall e :: e in WithoutKey(s, key) <==> e in s && e.idempotencyKey != key
  {
    if s != [] {
      var init, last := s[..|s| - 1], s[|s| - 1];
      assert s == init + [last];
      WithoutKeyFacts(init, key);
    }
  }

  lemma {:induction false} FindFacts(s: State, fingerprint: string)
    ensures var f := Find(s, fingerprint);
            if f.Some? then f.value in s && f.value.fingerprint == fingerprint
            else forall e :: e in s ==> e.fingerprint != fingerprint
  {
    if s != [] {
      FindFacts(s[1..], fingerprint);
      assert s == [s[0]] + s[1..];
    }
  }

  /** The live part is a record of unexpired entries, at most 20 of them. */
  lemma LiveFacts(s: State, now: int)
    requires IsRecord(s)
    ensures IsRecord(Live(s, now)) && |Live(s, now)| <= MAX_RECURRING_OPERATION_IDENTITIES && |Live(s, now)| <= |s|
    ensures forall e :: e in Live(s, now) ==> e in s && e.expiresAt > now
  {
    var u := Unexpired(s, now);
    UnexpiredFacts(s, now);
    SortIsSortedPermutation(u, LastingLonger());
    TakeKeepsFirst(u, MAX_RECURRING_OPERATION_IDENTITIES, LastingLonger());
    PermutationHasNoRepeats(u, Sort(u, LastingLonger()));
  }

  /** The entries that would be kept before `identity`. */
  function Rivals(s: State, identity: Identity): set<Identity> {
    set e | e in s && e != identity && e.expiresAt >= identity.expiresAt
  }

  lemma {:induction false} PrefixSize(t: State, p: nat)
    requires NoRepeats(t) && p <= |t|
    ensures |SetOf(t[..p])| == p
  {
    if p > 0 {
      PrefixSize(t, p - 1);
      assert t[..p] == t[..p - 1] + [t[p - 1]];
      SetOfNext(t[..p - 1], t[p - 1]);
    }
  }

  lemma SetOfNext(s: State, x: Identity)
    requires x !in s
    ensures |SetOf(s + [x])| == |SetOf(s)| + 1
  {
    assert SetOf(s + [x]) == SetOf(s) + {x};
  }

  lemma AheadAreRivals(s: State, t: State, p: nat, identity: Identity)
    requires p < |t| && t[p] == identity && NoRepeats(t) && Sorted(t, LastingLonger())
    requires forall e :: e in t ==> e in s
    ensures p <= |Rivals(s, identity)|
  {
    forall e | e in SetOf(t[..p]) ensures e in Rivals(s, identity) {
      var i :| 0 <= i < p && t[i] == e;
      assert !LastingLonger()(t[p], t[i]);
    }
    PrefixSize(t, p);
    SubsetSize(SetOf(t[..p]), Rivals(s, identity));
  }

  /** An unexpired entry with fewer than 20 rivals stays. */
  lemma LiveKeeps(s: State, now: int, identity: Identity)
    requires IsRecord(s) && identity in s && identity.expiresAt > now
    requires |Rivals(s, identity)| < MAX_RECURRING_OPERATION_IDENTITIES
    ensures identity in Live(s, now)
  {
    hide Sort, Sorted, Unexpired, NoRepeats, Rivals;
    var u := Unexpired(s, now);
    UnexpiredFacts(s, now);
    SortIsSortedPermutation(u, LastingLonger());
    var t := Sort(u, LastingLonger());
    PermutationHasNoRepeats(u, t);
    assert multiset(t) == multiset(u);
    assert forall e :: e in t <==> e in multiset(t);
    assert forall e :: e in u <==> e in multiset(u);
    assert identity in t;
    var p :| 0 <= p < |t| && t[p] == identity;
    AheadAreRivals(s, t, p, identity);
    assert Take(t, MAX_RECURRING_OPERATION_IDENTITIES)[p] == identity;
  }

  // ----- The store stays small and live -----------------------------------------------------------------------------

  ghost predicate Valid(s: State) {
    IsRecord(s) && |s| <= MAX_RECURRING_OPERATION_IDENTITIES
  }

  lemma CreateFacts(s: State, fingerprint: string, key: string, now: int)
    requires IsRecord(s) && Find(Live(s, now), fingerprint).None?
    ensures var live, created := Live(s, now), Created(fingerprint, key, now);
            IsRecord(live + [created]) && forall e :: e in live + [created] <==> e in live || e == created
  {
    LiveFacts(s, now);
    FindFacts(Live(s, now), fingerprint);
  }

  /** The record never exceeds 20 entries, and a creation leaves only unexpired ones. */
  lemma NextKeepsValid(s: State, e: Event)
    requires Valid(s)
    ensures Valid(Next(s, e))
    ensures Creates(s, e) ==> forall i :: i in Next(s, e) ==> i.expiresAt > e.now
  {
    match e
    case Call(fingerprint, key, now) =>
      LiveFacts(s, now);
      if Creates(s, e) {
        CreateFacts(s, fingerprint, key, now);
        LiveFacts(Live(s, now) + [Created(fingerprint, key, now)], now);
      }
    case ClearKey(key) => WithoutKeyFacts(s, key);
    case Reset =>
  }

  lemma {:induction false} RunKeepsValid(s: State, events: seq<Event>)
    requires Valid(s)
    ensures Valid(Run(s, events))
    decreases events
  {
    if events != [] {
      NextKeepsValid(s, events[0]);
      RunKeepsValid(Next(s, events[0]), events[1..]);
    }
  }

  // ----- When a created key is stored -------------------------------------------------------------------------------------

  lemma {:induction false} CountIsSize(s: State, p: Identity -> bool)
    requires NoRepeats(s)
    ensures Count(s, p) == |set e | e in s && p(e)|
  {
    if s == [] {
      assert (set e | e in s && p(e)) == {};
    } else {
      var init, last := s[..|s| - 1], s[|s| - 1];
      CountIsSize(init, p);
      assert forall e :: e in s <==> e in init || e == last;
      assert (set e | e in s && p(e)) == (set e | e in init && p(e)) + (if p(last) then {last} else {});
    }
  }

  /** A created identity is stored if and only if fewer than 20 live entries last at least as long; otherwise its key is
      returned and forgotten. */
  lemma CreationIsStoredExactlyWhen(s: State, fingerprint: string, key: string, now: int)
    requires IsRecord(s) && Find(Live(s, now), fingerprint).None?
    ensures var created := Created(fingerprint, key, now);
            && GetOrCreate(s, fingerprint, key, now).0 == created
            && (created in GetOrCreate(s, fingerprint, key, now).1 <==>
                |Rivals(Live(s, now), created)| < MAX_RECURRING_OPERATION_IDENTITIES)
  {
    var live, created := Live(s, now), Created(fingerprint, key, now);
    var grown := live + [created];
    LiveFacts(s, now);
    CreateFacts(s, fingerprint, key, now);
    FindFacts(live, fingerprint);
    assert forall i :: 0 <= i < |grown| ==> grown[i] in grown;
    AllUnexpired(grown, now);
    TakeByRank(grown, MAX_RECURRING_OPERATION_IDENTITIES, |live|, LastingLonger());
    LastIsRanked(live, created);
  }

  lemma LastIsRanked(live: State, created: Identity)
    requires NoRepeats(live) && created !in live
    ensures Rank(live + [created], |live|, LastingLonger()) == |Rivals(live, created)|
  {
    var grown, p := live + [created], (e: Identity) => e != created && e.expiresAt >= created.expiresAt;
    CountIsSize(live, p);
    assert grown[..|grown| - 1] == live;
    RankOfLast(grown, LastingLonger(), p);
    assert Rivals(live, created) == set e | e in live && p(e);
  }

  /** With a clock ahead of every earlier creation there are no rivals at all. */
  lemma AdvancingClockHasNoRivals(s: State, fingerprint: string, key: string, now: int)
    requires IsRecord(s) && forall e :: e in s ==> e.expiresAt < now + RECURRING_OPERATION_IDENTITY_TTL_MS
    ensures Rivals(Live(s, now), Created(fingerprint, key, now)) == {}
  {
    LiveFacts(s, now);
  }

  // ----- A key is stable for its lifetime ---------------------------------------------------------------------------------

  /** `identity` is stored, and at most `others` entries could displace it. */
  ghost predicate Retained(s: State, identity: Identity, others: nat) {
    Valid(s) && identity in s && |Rivals(s, identity)| <= others
  }

  lemma FewerRivals(s: State, t: State, identity: Identity)
    requires forall e :: e in t ==> e in s
    ensures |Rivals(t, identity)| <= |Rivals(s, identity)|
  {
    SubsetSize(Rivals(t, identity), Rivals(s, identity));
  }

  lemma CreationIsRetained(s: State, fingerprint: string, key: string, now: int)
    requires Valid(s) && Find(Live(s, now), fingerprint).None?
    requires |Rivals(Live(s, now), Created(fingerprint, key, now))| < MAX_RECURRING_OPERATION_IDENTITIES
    ensures var created := Created(fingerprint, key, now);
            Retained(GetOrCreate(s, fingerprint, key, now).1, created, |Rivals(Live(s, now), created)|)
  {
    var live, created := Live(s, now), Created(fingerprint, key, now);
    NextKeepsValid(s, Call(fingerprint, key, now));
    CreationIsStoredExactlyWhen(s, fingerprint, key, now);
    LiveFacts(s, now);
    CreateFacts(s, fingerprint, key, now);
    LiveFacts(live + [created], now);
    assert Rivals(live + [created], created) == Rivals(live, created);
    FewerRivals(live + [created], GetOrCreate(s, fingerprint, key, now).1, created);
  }

  /** A call that finds its fingerprint. */
  lemma ReuseRetains(s: State, identity: Identity, others: nat, now: int)
    requires Retained(s, identity, others) && others < MAX_RECURRING_OPERATION_IDENTITIES && now < identity.expiresAt
    ensures Retained(Live(s, now), identity, others)
    ensures Find(Live(s, now), identity.fingerprint) == Some(identity)
  {
    LiveFacts(s, now);
    LiveKeeps(s, now, identity);
    FewerRivals(s, Live(s, now), identity);
    FindFacts(Live(s, now), identity.fingerprint);
  }

  lemma CreateRetains(s: State, identity: Identity, others: nat, e: Event)
    requires Retained(s, identity, others) && others + 1 < MAX_RECURRING_OPERATION_IDENTITIES
    requires Creates(s, e) && e.now < identity.expiresAt
    ensures Retained(Next(s, e), identity, others + 1)
  {
    var live, created := Live(s, e.now), Created(e.fingerprint, e.key, e.now);
    var grown := live + [created];
    NextKeepsValid(s, e);
    ReuseRetains(s, identity, others, e.now);
    LiveFacts(s, e.now);
    CreateFacts(s, e.fingerprint, e.key, e.now);
    assert Rivals(grown, identity) <= Rivals(live, identity) + {created};
    SubsetSize(Rivals(grown, identity), Rivals(live, identity) + {created});
    LiveKeeps(grown, e.now, identity);
    LiveFacts(grown, e.now);
    FewerRivals(grown, Next(s, e), identity);
  }

  /** One step that is before the expiry and does not remove the key. */
  lemma NextRetains(s: State, identity: Identity, others: nat, e: Event)
    requires Retained(s, identity, others)
    requires others + (if Creates(s, e) then 1 else 0) < MAX_RECURRING_OPERATION_IDENTITIES
    requires e.Call? ==> e.now < identity.expiresAt
    requires !Forgets(e, identity.idempotencyKey)
    ensures Retained(Next(s, e), identity, others + (if Creates(s, e) then 1 else 0))
  {
    if Creates(s, e) {
      CreateRetains(s, identity, others, e);
    } else if e.Call? {
      ReuseRetains(s, identity, others, e.now);
    } else {
      WithoutKeyFacts(s, e.key);
      FewerRivals(s, Next(s, e), identity);
    }
  }

  /** A stored idempotency key is stable under any clock: while it is unexpired and neither cleared nor reset, and its rivals
      and the identities created since are fewer than 20 together, every call with its fingerprint returns it. */
  lemma {:induction false} KeyIsStable(s: State, identity: Identity, others: nat, events: seq<Event>, key: string, now: int)
    requires Retained(s, identity, others)
    requires others + Creations(s, events) < MAX_RECURRING_OPERATION_IDENTITIES
    requires forall e :: e in events ==> !Forgets(e, identity.idempotencyKey) && (e.Call? ==> e.now < identity.expiresAt)
    requires now < identity.expiresAt
    ensures GetOrCreate(Run(s, events), identity.fingerprint, key, now).0 == identity
    decreases events
  {
    if events == [] {
      ReuseRetains(s, identity, others, now);
    } else {
      var e := events[0];
      assert e in events && forall x :: x in events[1..] ==> x in events;
      hide GetOrCreate, Next, Retained, Creates;
      NextRetains(s, identity, others, e);
      KeyIsStable(Next(s, e), identity, others + (if Creates(s, e) then 1 else 0), events[1..], key, now);
    }
  }

  /** From a creation at `t0` to any later call before `t0` plus the lifetime, under any clock: the key is returned while its
      rivals at the creation and the identities created since are fewer than 20 together. */
  lemma CreatedKeyIsReturned(
      s: State, fingerprint: string, key: string, t0: int, events: seq<Event>, otherKey: string, now: int)
    requires Valid(s) && Creates(s, Call(fingerprint, key, t0))
    requires |Rivals(Live(s, t0), Created(fingerprint, key, t0))| + Creations(Next(s, Call(fingerprint, key, t0)), events)
             < MAX_RECURRING_OPERATION_IDENTITIES
    requires forall e :: e in events ==> !Forgets(e, key) && (e.Call? ==> e.now < t0 + RECURRING_OPERATION_IDENTITY_TTL_MS)
    requires now < t0 + RECURRING_OPERATION_IDENTITY_TTL_MS
    ensures GetOrCreate(Run(s, [Call(fingerprint, key, t0)] + events), fingerprint, otherKey, now).0.idempotencyKey == key
  {
    var created := Created(fingerprint, key, t0);
    CreationIsRetained(s, fingerprint, key, t0);
    var first := [Call(fingerprint, key, t0)];
    assert (first + events)[1..] == events;
    KeyIsStable(Next(s, first[0]), created, |Rivals(Live(s, t0), created)|, events, otherKey, now);
  }

  lemma {:induction false} AllTied(s: State, expiry: int)
    requires forall e :: e in s ==> e.expiresAt == expiry
    ensures Sort(s, LastingLonger()) == s
  {
    assert forall i :: 0 <= i < |s| ==> s[i] in s;
    SortOfSorted(s, LastingLonger());
  }

  lemma {:induction false} AllUnexpired(s: State, now: int)
    requires forall i :: 0 <= i < |s| ==> s[i].expiresAt > now
    ensures Unexpired(s, now) == s
  {
    if s != [] {
      var init, last := s[..|s| - 1], s[|s| - 1];
      AllUnexpired(init, now);
      assert Unexpired(s, now) == init + [last];
    }
  }

  /** A call returns a stored key of its fingerprint only unexpired, and otherwise the new key with a day to live. */
  lemma ReturnsUnexpiredOrNew(s: State, fingerprint: string, key: string, now: int)
    requires IsRecord(s)
    ensures var identity := GetOrCreate(s, fingerprint, key, now).0;
            && identity.fingerprint == fingerprint
            && (if Creates(s, Call(fingerprint, key, now)) then
                  identity.idempotencyKey == key && identity.expiresAt == now + 86_400_000
                else identity in s && now < identity.expiresAt)
            && ((forall e :: e in s && e.fingerprint == fingerprint ==> e.expiresAt <= now) ==>
                  Creates(s, Call(fingerprint, key, now)))
  {
    LiveFacts(s, now);
    FindFacts(Live(s, now), fingerprint);
  }

  lemma {:induction false} UnexpiredAll(s: State, now: int)
    ensures |Unexpired(s, now)| <= |s|
    ensures |Unexpired(s, now)| == |s| ==> forall e :: e in s ==> e.expiresAt > now
  {
    if s != [] {
      UnexpiredAll(s[..|s| - 1], now);
      assert s == s[..|s| - 1] + [s[|s| - 1]];
    }
  }

  /** Whether it reuses or creates, a call leaves only unexpired entries. */
  lemma CallLeavesUnexpired(s: State, fingerprint: string, key: string, now: int)
    requires IsRecord(s)
    ensures forall e :: e in GetOrCreate(s, fingerprint, key, now).1 ==> e.expiresAt > now
  {
    var live := Live(s, now);
    LiveFacts(s, now);
    if Creates(s, Call(fingerprint, key, now)) {
      CreateFacts(s, fingerprint, key, now);
      LiveFacts(live + [Created(fingerprint, key, now)], now);
    } else if |live| == |s| {
      UnexpiredFacts(s, now);
      SortIsSortedPermutation(Unexpired(s, now), LastingLonger());
      UnexpiredAll(s, now);
    }
  }

  /** The clock must advance: a full record created in one instant keeps its 20 keys, and the key of a new operation in that
      instant is returned without being stored. */
  lemma TieDropsTheNewKey(s: State, fingerprint: string, key: string, now: int)
    requires |s| == MAX_RECURRING_OPERATION_IDENTITIES && Find(s, fingerprint).None?
    requires forall e :: e in s ==> e.expiresAt == now + RECURRING_OPERATION_IDENTITY_TTL_MS
    ensures GetOrCreate(s, fingerprint, key, now) == (Created(fingerprint, key, now), s)
  {
    assert forall i :: 0 <= i < |s| ==> s[i] in s;
    AllUnexpired(s, now);
    AllTied(s, now + RECURRING_OPERATION_IDENTITY_TTL_MS);
    var grown := s + [Created(fingerprint, key, now)];
    AllUnexpired(grown, now);
    AllTied(grown, now + RECURRING_OPERATION_IDENTITY_TTL_MS);
    hide Unexpired, Sort, Find;
    assert grown[..|s|] == s;
  }

  /** The store in its own shape. */
  class SwapStore {
    var recurringOperationIdentities: State

    constructor ()
      ensures recurringOperationIdentities == []
    {
      recurringOperationIdentities := [];
    }

    method GetOrCreatePersistedRecurringOperationIdentity(fingerprint: string, key: string, now: int)
      returns (identity: Identity)
      modifies this
      ensures identity == GetOrCreate(old(recurringOperationIdentities), fingerprint, key, now).0
      ensures recurringOperationIdentities == GetOrCreate(old(recurringOperationIdentities), fingerprint, key, now).1
    {
      var live := Live(recurringOperationIdentities, now);
      var existing := Find(live, fingerprint);
      if existing.Some? {
        if |live| != |recurringOperationIdentities| { recurringOperationIdentities := live; }
        return existing.value;
      }
      identity := Identity(fingerprint, key, now + RECURRING_OPERATION_IDENTITY_TTL_MS);
      recurringOperationIdentities := Live(live + [identity], now);
    }

    method ClearPersistedRecurringOperationIdentity(key: string)
      modifies this
      ensures recurringOperationIdentities == WithoutKey(old(recurringOperationIdentities), key)
    {
      var next := WithoutKey(recurringOperationIdentities, key);
      WithoutKeySameSize(recurringOperationIdentities, key);
      if |next| == |recurringOperationIdentities| { return; }
      recurringOperationIdentities := next;
    }

    /** What a wallet reset does to the store. */
    method ResetRecurringOperationIdentities()
      modifies this
      ensures recurringOperationIdentities == Next(old(recurringOperationIdentities), Reset)
      ensures forall fingerprint, key, now :: Creates(recurringOperationIdentities, Call(fingerprint, key, now))
    {
      recurringOperationIdentities := [];
    }
  }

  lemma {:induction false} WithoutKeySameSize(s: State, key: string)
    ensures |WithoutKey(s, key)| <= |s|
    ensures |WithoutKey(s, key)| == |s| ==> WithoutKey(s, key) == s
  {
    if s != [] {
      var init, last := s[..|s| - 1], s[|s| - 1];
      WithoutKeySameSize(init, key);
      if last.idempotencyKey != key {
        assert WithoutKey(s, key) == WithoutKey(init, key) + [last];
        assert s == init + [last];
      }
    }
  }
}
