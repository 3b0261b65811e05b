/** The network preference of store/preferencesStore.ts: the persisted store copy, its timestamped mirror in the secure store, and
    the recovery run at launch. Timestamps are integers. `selectable` is the catalogue of constants/networks.ts, so the results
    hold for every catalogue that keeps the default network selectable. */
module Preferences {
  import opened Common

  const NETWORK_IDS: set<string> := {"mainnet-beta", "devnet"}
  const DEFAULT_NETWORK := "devnet"
  /** The catalogue of today: the main network is listed and not selectable. */
  const SHIPPED: set<string> := {DEFAULT_NETWORK}

  datatype Copy = Copy(network: string, updatedAt: int)

  /** What the secure store holds under the mirror key. `Garbage` is text that does not parse to an object. */
  datatype RawMirror = Missing | Garbage | Fields(versionIsOne: bool, network: string, updatedAt: int)

  /** The catalogues the client may ship. */
  predicate Catalogue(selectable: set<string>) {
    selectable <= NETWORK_IDS && DEFAULT_NETWORK in selectable
  }

  function Resolve(selectable: set<string>, network: string): string {
    if network in NETWORK_IDS && network in selectable then network else DEFAULT_NETWORK
  }

  function NormalizeTimestamp(value: int): int {
    if value > 0 then value else 0
  }

  function NextTimestamp(previous: int, now: int): int {
    if now > previous + 1 then now else previous + 1
  }

  function Parse(selectable: set<string>, raw: RawMirror): Option<Copy> {
    match raw
    case Missing | Garbage => None
    case Fields(versionIsOne, network, updatedAt) =>
      var timestamp := NormalizeTimestamp(updatedAt);
      var resolved := Resolve(selectable, network);
      if !versionIsOne || timestamp == 0 || resolved != network then None else Some(Copy(resolved, timestamp))
  }

  function Printed(c: Copy): RawMirror {
    Fields(true, c.network, c.updatedAt)
  }

  /** The two copies that survive on the device. */
  datatype Disk = Disk(store: Copy, mirror: RawMirror)

  /** The decision taken once the mirror has been read: the copy put into the store and the copy queued for the mirror. */
  function Decide(selectable: set<string>, store: Copy, mirror: Option<Copy>, now: int): (Option<Copy>, Option<Copy>) {
    var network := Resolve(selectable, store.network);
    var needsNormalization := store.network != network;
    var timestamp := NormalizeTimestamp(store.updatedAt);
    if mirror.None? then
      var kept := Copy(network, if timestamp > 0 then timestamp else NextTimestamp(timestamp, now));
      (Some(kept), Some(kept))
    else
      var m := mirror.value;
      if m.updatedAt > timestamp || (m.updatedAt == timestamp && m.network != network) then (Some(m), None)
      else if needsNormalization || timestamp > m.updatedAt || network != m.network then
        var kept := Copy(network, if timestamp > 0 then timestamp else NextTimestamp(m.updatedAt, now));
        (Some(kept), Some(kept))
      else (None, None)
  }

  /** A whole hydration. The mirror read and the mirror write may each fail; a failed write leaves the old mirror. */
  function Hydrate(selectable: set<string>, d: Disk, readOk: bool, writeOk: bool, now: int): Disk {
    var mirror := if readOk then Parse(selectable, d.mirror) else None;
    var decision := Decide(selectable, d.store, mirror, now);
    Disk(decision.0.GetOr(d.store),
         if decision.1.Some? && writeOk then Printed(decision.1.value) else d.mirror)
  }

  // ----- What hydration is for --------------------------------------------------------------------------------------

  predicate ValidCopy(selectable: set<string>, c: Copy) {
    c.network in selectable && c.updatedAt > 0
  }

  /** The store copy made presentable; a copy that was never stamped is stamped now. */
  function Presentable(selectable: set<string>, c: Copy, now: int): Copy {
    Copy(Resolve(selectable, c.network), if c.updatedAt > 0 then c.updatedAt else NextTimestamp(0, now))
  }

  /** The reference: the mirror if it is valid and at least as new as the store copy, otherwise the store copy. */
  function NewerCopy(selectable: set<string>, d: Disk, now: int): Copy {
    var mirror := Parse(selectable, d.mirror);
    if mirror.Some? && mirror.value.updatedAt >= d.store.updatedAt then mirror.value
    else Presentable(selectable, d.store, now)
  }

  lemma ParsedIsValid(selectable: set<string>, raw: RawMirror)
    requires Catalogue(selectable) && Parse(selectable, raw).Some?
    ensures ValidCopy(selectable, Parse(selectable, raw).value)
    ensures raw == Printed(Parse(selectable, raw).value)
  {
  }

  /** A valid copy survives the trip through the secure store, and nothing else does. */
  lemma MirrorRoundTrip(selectable: set<string>, c: Copy)
    requires Catalogue(selectable)
    ensures Parse(selectable, Printed(c)) == Some(c) <==> ValidCopy(selectable, c)
  {
    if ValidCopy(selectable, c) { assert c.network in NETWORK_IDS; }
  }

  /** With the mirror readable, the store ends with the newer valid copy, and with the mirror writable both copies do. */
  lemma HydrationKeepsTheNewer(selectable: set<string>, d: Disk, writeOk: bool, now: int)
    requires Catalogue(selectable)
    ensures var r := Hydrate(selectable, d, true, writeOk, now);
            var newer := NewerCopy(selectable, d, now);
            && ValidCopy(selectable, newer) && r.store == newer
            && (writeOk ==> Parse(selectable, r.mirror) == Some(newer))
  {
    if Parse(selectable, d.mirror).Some? { ParsedIsValid(selectable, d.mirror); }
    MirrorRoundTrip(selectable, NewerCopy(selectable, d, now));
  }

  /** A hydrated pair is a fixed point, whatever the clock and whether or not the second mirror write works. */
  lemma HydrationIsStable(selectable: set<string>, d: Disk, now: int, writeOk: bool, later: int)
    requires Catalogue(selectable)
    ensures var r := Hydrate(selectable, d, true, true, now);
            Hydrate(selectable, r, true, writeOk, later) == r
  {
    HydrationKeepsTheNewer(selectable, d, true, now);
  }

  /** A lost mirror write is repaired by the next hydration. */
  lemma LostMirrorWriteIsRepaired(selectable: set<string>, d: Disk, now: int, later: int)
    requires Catalogue(selectable)
    ensures var r := Hydrate(selectable, Hydrate(selectable, d, true, false, now), true, true, later);
            r.store == NewerCopy(selectable, d, now) && Parse(selectable, r.mirror) == Some(r.store)
  {
    HydrationKeepsTheNewer(selectable, d, false, now);
    HydrationKeepsTheNewer(selectable, Hydrate(selectable, d, true, false, now), true, later);
  }

  /** A failed read is taken for an absent mirror. The result is still the newer copy exactly when the mirror held nothing that
      beats the store copy; otherwise the older store copy also overwrites the newer mirror. */
  lemma FailedReadIsHarmlessExactlyWhen(selectable: set<string>, d: Disk, writeOk: bool, now: int)
    requires Catalogue(selectable)
    ensures var r := Hydrate(selectable, d, false, writeOk, now);
            var mirror := Parse(selectable, d.mirror);
            && (r.store == NewerCopy(selectable, d, now) <==>
                mirror.None? || mirror.value.updatedAt < d.store.updatedAt
                || mirror.value == Presentable(selectable, d.store, now))
            && (writeOk ==> Parse(selectable, r.mirror) == Some(r.store))
  {
    MirrorRoundTrip(selectable, Presentable(selectable, d.store, now));
  }

  /** A failed read changes the network hydration ends on if and only if the mirror holds a valid copy at least as new as the
      store's and naming another network. */
  lemma FailedReadLosesTheNetworkExactlyWhen(selectable: set<string>, d: Disk, writeOk: bool, now: int)
    requires Catalogue(selectable)
    ensures var mirror := Parse(selectable, d.mirror);
            Hydrate(selectable, d, false, writeOk, now).store.network != Hydrate(selectable, d, true, writeOk, now).store.network
            <==> mirror.Some? && mirror.value.updatedAt >= d.store.updatedAt
                 && mirror.value.network != Resolve(selectable, d.store.network)
  {
    HydrationKeepsTheNewer(selectable, d, writeOk, now);
  }

  /** A choice lost for good: whenever two networks are selectable, one failed read leaves both copies with the older one. */
  lemma FailedReadLosesAChoice(selectable: set<string>, older: string, newer: string, t: int, now: int)
    requires Catalogue(selectable) && older in selectable && newer in selectable && older != newer && t > 0
    ensures var d := Disk(Copy(older, t), Printed(Copy(newer, t + 1)));
            && NewerCopy(selectable, d, now).network == newer
            && Hydrate(selectable, d, false, true, now) == Disk(Copy(older, t), Printed(Copy(older, t)))
  {
    MirrorRoundTrip(selectable, Copy(newer, t + 1));
    assert older in NETWORK_IDS;
  }

  /** On the catalogue of today no network can be lost: every hydration ends on the default, whatever is on the device and
      whatever fails, and so does every choice. */
  lemma ShippedCatalogueHasOneNetwork(d: Disk, readOk: bool, writeOk: bool, now: int, network: string)
    ensures Catalogue(SHIPPED)
    ensures Hydrate(SHIPPED, d, readOk, writeOk, now).store.network == DEFAULT_NETWORK
    ensures Resolve(SHIPPED, network) == DEFAULT_NETWORK
  {
    assert DEFAULT_NETWORK in NETWORK_IDS;
  }

  /** The read is awaited, and the decision is taken on the copy seen before it, stamped or not. A newer choice made meanwhile
      stays in the store exactly when the read returned that choice, or the old copies agreed, or nothing was read and the old
      copy, made presentable, is the choice. */
  lemma ChoiceDuringTheRead(selectable: set<string>, seen: Copy, mirror: Option<Copy>, choice: Copy, now: int)
    requires Catalogue(selectable) && choice.updatedAt > seen.updatedAt
    requires mirror.Some? ==> ValidCopy(selectable, mirror.value)
    ensures Decide(selectable, seen, mirror, now).0.GetOr(choice) == choice
            <==> || mirror == Some(choice) || mirror == Some(seen)
                 || (mirror.None? && choice == Presentable(selectable, seen, now))
  {
    if mirror.Some? { assert mirror.value.network in NETWORK_IDS; }
  }

  // ----- Choosing, killing, recovering ------------------------------------------------------------------------------

  /** The stamp of a choice is the clock, or one past the previous stamp where the clock is not ahead of it. */
  lemma StampIsAhead(previous: int, now: int)
    ensures var stamp := NextTimestamp(previous, now);
            stamp > previous && stamp >= now && (stamp == now || (stamp == previous + 1 && now <= previous))
  {
  }

  /** Choosing a selectable network stores it and queues it for the mirror with a later stamp; choosing the current one does
      nothing, and one that cannot be selected counts as the default. */
  lemma ChoiceIsStored(selectable: set<string>, w: World, network: string, now: int)
    requires Catalogue(selectable) && w.past != []
    ensures var r, before := Next(selectable, w, SetNetwork(network, now)), w.past[|w.past| - 1];
            var chosen := if network in selectable then network else DEFAULT_NETWORK;
            if before.network == chosen then r == w
            else
              && |r.past| == |w.past| + 1 && w.past <= r.past && r.mirror == w.mirror
              && r.past[|w.past|].network == chosen
              && r.past[|w.past|].updatedAt > before.updatedAt && r.past[|w.past|].updatedAt >= now
              && r.queued == w.queued + [r.past[|w.past|]]
  {
    StampIsAhead(w.past[|w.past| - 1].updatedAt, now);
  }

  /** A running client: every store copy since launch, oldest first and the current one last, the mirror writes still queued,
      and what the mirror holds. */
  datatype World = World(past: seq<Copy>, queued: seq<Copy>, mirror: RawMirror)

  datatype Event = SetNetwork(network: string, now: int) | MirrorWriteSettles(ok: bool)

  function Next(selectable: set<string>, w: World, e: Event): World
    requires w.past != []
  {
    match e
    case SetNetwork(network, now) =>
      var resolved := Resolve(selectable, network);
      var current := w.past[|w.past| - 1];
      if current.network == resolved then w
      else
        var chosen := Copy(resolved, NextTimestamp(current.updatedAt, now));
        w.(past := w.past + [chosen], queued := w.queued + [chosen])
    case MirrorWriteSettles(ok) =>
      if w.queued == [] then w
      else w.(mirror := if ok then Printed(w.queued[0]) else w.mirror, queued := w.queued[1..])
  }

  function Run(selectable: set<string>, w: World, events: seq<Event>): (r: World)
    requires w.past != []
    ensures r.past != []
    decreases events
  {
    if events == [] then w else Run(selectable, Next(selectable, w, events[0]), events[1..])
  }

  /** The world right after a launch that left `d` on the device. */
  function Launched(d: Disk): World {
    World([d.store], [], d.mirror)
  }

  ghost predicate Ascending(s: seq<Copy>) {
    forall i, j :: 0 <= i < j < |s| ==> s[i].updatedAt < s[j].updatedAt
  }

  ghost predicate AllValid(selectable: set<string>, s: seq<Copy>) {
    forall c :: c in s ==> ValidCopy(selectable, c)
  }

  /** The mirror still holds what it held at launch, or a past copy older than every queued one. */
  ghost predicate MirrorFollows(raw: RawMirror, w: World) {
    || w.mirror == raw
    || exists c :: c in w.past && w.mirror == Printed(c) && forall d :: d in w.queued ==> c.updatedAt < d.updatedAt
  }

  /** The queue holds past copies in order, ending with the current one. */
  ghost predicate Inv(selectable: set<string>, raw: RawMirror, w: World) {
    && w.past != [] && Ascending(w.past) && AllValid(selectable, w.past)
    && (forall c :: c in w.queued ==> c in w.past)
    && Ascending(w.queued)
    && (w.queued != [] ==> w.queued[|w.queued| - 1] == w.past[|w.past| - 1])
    && MirrorFollows(raw, w)
  }

  lemma LastIsLatest(s: seq<Copy>, c: Copy)
    requires Ascending(s) && c in s
    ensures c.updatedAt <= s[|s| - 1].updatedAt
  {
  }

  /** The timestamp of what the mirror holds; nothing readable counts as 0. */
  function MirrorTime(selectable: set<string>, raw: RawMirror): int {
    var mirror := Parse(selectable, raw);
    if mirror.Some? then mirror.value.updatedAt else 0
  }

  lemma ChoiceKeepsInv(selectable: set<string>, raw: RawMirror, w: World, e: Event)
    requires Catalogue(selectable) && Inv(selectable, raw, w) && e.SetNetwork?
    ensures Inv(selectable, raw, Next(selectable, w, e)) && Next(selectable, w, e).mirror == w.mirror
    ensures w.past <= Next(selectable, w, e).past
  {
    var r := Next(selectable, w, e);
    if r != w {
      var chosen := r.past[|w.past|];
      assert w.past[|w.past| - 1] in w.past && ValidCopy(selectable, chosen);
      hide Resolve, NextTimestamp;
      forall c | c in w.past ensures c.updatedAt < chosen.updatedAt {
        LastIsLatest(w.past, c);
      }
      assert forall c :: c in r.past ==> c in w.past || c == chosen;
      assert forall c :: c in r.queued ==> c in w.queued || c == chosen;
    }
  }

  lemma SettlingKeepsInv(selectable: set<string>, raw: RawMirror, w: World, ok: bool)
    requires Inv(selectable, raw, w)
    ensures Inv(selectable, raw, Next(selectable, w, MirrorWriteSettles(ok)))
  {
    if w.queued != [] {
      var r := Next(selectable, w, MirrorWriteSettles(ok));
      assert r.queued == w.queued[1..] && forall c :: c in r.queued ==> c in w.queued;
      if ok {
        forall d | d in r.queued ensures w.queued[0].updatedAt < d.updatedAt {
          var k :| 0 <= k < |r.queued| && r.queued[k] == d;
          assert w.queued[k + 1] == d;
        }
        assert w.queued[0] in w.past && r.mirror == Printed(w.queued[0]);
      }
    }
  }

  /** Along every run, under any clock and any failures of the mirror, the store's timestamps strictly increase, and the mirror
      holds what it held at launch or one of the copies since. */
  lemma {:induction false} RunKeepsInv(selectable: set<string>, raw: RawMirror, w: World, events: seq<Event>)
    requires Catalogue(selectable) && Inv(selectable, raw, w)
    ensures Inv(selectable, raw, Run(selectable, w, events))
    ensures w.past <= Run(selectable, w, events).past
    decreases events
  {
    if events != [] {
      if events[0].SetNetwork? {
        ChoiceKeepsInv(selectable, raw, w, events[0]);
      } else {
        SettlingKeepsInv(selectable, raw, w, events[0].ok);
      }
      RunKeepsInv(selectable, raw, Next(selectable, w, events[0]), events[1..]);
    }
  }

  /** The mirror found at launch does not beat the store copy the launch settled on. */
  predicate NotAhead(selectable: set<string>, d: Disk) {
    var mirror := Parse(selectable, d.mirror);
    mirror.None? || mirror.value.updatedAt < d.store.updatedAt || mirror.value == d.store
  }

  /** Every hydration that could read the mirror leaves it not ahead, whether or not its own write worked; and so does one that
      could not read it, if its write worked. */
  lemma HydrationLeavesMirrorBehind(selectable: set<string>, d: Disk, readOk: bool, writeOk: bool, now: int)
    requires Catalogue(selectable) && (readOk || writeOk)
    ensures var r := Hydrate(selectable, d, readOk, writeOk, now);
            ValidCopy(selectable, r.store) && NotAhead(selectable, r)
  {
    HydrationKeepsTheNewer(selectable, d, writeOk, now);
    MirrorRoundTrip(selectable, Presentable(selectable, d.store, now));
  }

  /** However mirror writes fail, the mirror never goes back. */
  lemma MirrorNeverGoesBack(selectable: set<string>, launched: Disk, events: seq<Event>, e: Event)
    requires Catalogue(selectable) && ValidCopy(selectable, launched.store) && NotAhead(selectable, launched)
    ensures var w := Run(selectable, Launched(launched), events);
            MirrorTime(selectable, w.mirror) <= MirrorTime(selectable, Next(selectable, w, e).mirror)
  {
    RunKeepsInv(selectable, launched.mirror, Launched(launched), events);
    var w := Run(selectable, Launched(launched), events);
    if e.MirrorWriteSettles? && w.queued != [] {
      var c := w.queued[0];
      assert c in w.queued && c in w.past && w.past[0] == launched.store;
      MirrorRoundTrip(selectable, c);
      if w.mirror != launched.mirror {
        var d :| d in w.past && w.mirror == Printed(d) && forall q :: q in w.queued ==> d.updatedAt < q.updatedAt;
        MirrorRoundTrip(selectable, d);
      } else {
        var k :| 0 <= k < |w.past| && w.past[k] == c;
        assert k > 0 ==> w.past[0].updatedAt < w.past[k].updatedAt;
      }
    }
  }

  /** The mirror holds another valid copy that is at least as new as `c`. */
  predicate Beats(selectable: set<string>, raw: RawMirror, c: Copy) {
    var mirror := Parse(selectable, raw);
    mirror.Some? && mirror.value.updatedAt >= c.updatedAt && mirror.value != c
  }

  /** A kill leaves the store copy `i` of the run, and what the mirror held at launch or its copy `j`. Hydration recovers the
      later of the two copies, or the mirror of the launch if that still beats the store. */
  lemma KillRecoversTheLater(
      selectable: set<string>, launched: Disk, events: seq<Event>, i: nat, writeOk: bool, now: int)
    returns (j: Option<nat>)
    requires Catalogue(selectable) && ValidCopy(selectable, launched.store)
    requires i < |Run(selectable, Launched(launched), events).past|
    ensures var w := Run(selectable, Launched(launched), events);
            var recovered := Hydrate(selectable, Disk(w.past[i], w.mirror), true, writeOk, now).store;
            if j.Some? then
              && j.value < |w.past| && w.mirror == Printed(w.past[j.value])
              && recovered == w.past[if i < j.value then j.value else i]
            else
              && w.mirror == launched.mirror
              && recovered == if Beats(selectable, launched.mirror, w.past[i]) then Parse(selectable, launched.mirror).value
                              else w.past[i]
  {
    RunKeepsInv(selectable, launched.mirror, Launched(launched), events);
    var w := Run(selectable, Launched(launched), events);
    assert ValidCopy(selectable, w.past[i]) && w.past[i].network in NETWORK_IDS;
    HydrationKeepsTheNewer(selectable, Disk(w.past[i], w.mirror), writeOk, now);
    if w.mirror == launched.mirror {
      j := None;
    } else {
      var c :| c in w.past && w.mirror == Printed(c);
      var k :| 0 <= k < |w.past| && w.past[k] == c;
      MirrorRoundTrip(selectable, c);
      j := Some(k);
      if i < k { assert w.past[i].updatedAt < w.past[k].updatedAt; }
      if k < i { assert w.past[k].updatedAt < w.past[i].updatedAt; }
    }
  }

  /** When either of its two writes survived, the chosen network comes back if and only if the mirror is not the untouched one of
      the launch with a copy that beats it; the store may otherwise hold any older copy, or nothing but its initial value. */
  lemma KillRecoversTheChoice(
      selectable: set<string>, launched: Disk, events: seq<Event>, survived: Copy, writeOk: bool, now: int)
    requires Catalogue(selectable) && ValidCopy(selectable, launched.store)
    requires var w := Run(selectable, Launched(launched), events);
             var chosen := w.past[|w.past| - 1];
             && (survived in w.past || survived == Copy(DEFAULT_NETWORK, 0))
             && (survived == chosen || w.mirror == Printed(chosen))
    ensures var w := Run(selectable, Launched(launched), events);
            var chosen := w.past[|w.past| - 1];
            Hydrate(selectable, Disk(survived, w.mirror), true, writeOk, now).store == chosen
            <==> !(w.mirror == launched.mirror && Beats(selectable, launched.mirror, chosen))
  {
    RunKeepsInv(selectable, launched.mirror, Launched(launched), events);
    var w := Run(selectable, Launched(launched), events);
    var chosen := w.past[|w.past| - 1];
    MirrorRoundTrip(selectable, chosen);
    if survived == chosen {
      var j := KillRecoversTheLater(selectable, launched, events, |w.past| - 1, writeOk, now);
      if j.Some? {
        MirrorRoundTrip(selectable, w.past[j.value]);
        LastIsLatest(w.past, w.past[j.value]);
        assert j.value < |w.past| - 1 ==> w.past[j.value].updatedAt < chosen.updatedAt;
      }
    } else {
      HydrationKeepsTheNewer(selectable, Disk(survived, w.mirror), writeOk, now);
      if survived in w.past { LastIsLatest(w.past, survived); }
    }
  }

  /** A mirror that was not ahead at launch beats nothing chosen since, so after every launch that could read or write the mirror
      a kill loses no choice of which one write survived. */
  lemma NotAheadBeatsNothing(selectable: set<string>, launched: Disk, events: seq<Event>, i: nat)
    requires Catalogue(selectable) && ValidCopy(selectable, launched.store) && NotAhead(selectable, launched)
    requires i < |Run(selectable, Launched(launched), events).past|
    ensures !Beats(selectable, launched.mirror, Run(selectable, Launched(launched), events).past[i])
  {
    RunKeepsInv(selectable, launched.mirror, Launched(launched), events);
    var w := Run(selectable, Launched(launched), events);
    assert w.past[0] == launched.store;
    assert i > 0 ==> w.past[0].updatedAt < w.past[i].updatedAt;
  }

  /** The store in its own shape, with the mirror it writes through a chain of promises. */
  class PreferencesStore {
    const selectable: set<string>
    var network: string
    var networkUpdatedAt: int
    var mirror: RawMirror
    var networkMirrorWriteChain: seq<Copy>

    constructor (selectable: set<string>, d: Disk)
      ensures this.selectable == selectable && OnDisk() == d && networkMirrorWriteChain == []
    {
      this.selectable := selectable;
      network, networkUpdatedAt, mirror := d.store.network, d.store.updatedAt, d.mirror;
      networkMirrorWriteChain := [];
    }

    ghost function OnDisk(): Disk
      reads this
    {
      Disk(Copy(network, networkUpdatedAt), mirror)
    }

    /** The store represents `w`. */
    ghost predicate Represents(w: World)
      reads this
    {
      && w.past != [] && Copy(network, networkUpdatedAt) == w.past[|w.past| - 1]
      && networkMirrorWriteChain == w.queued && mirror == w.mirror
    }

    method SetNetwork(choice: string, now: int)
      modifies this`network, this`networkUpdatedAt, this`networkMirrorWriteChain
      ensures forall w: World :: old(Represents(w)) ==> Represents(Next(selectable, w, Event.SetNetwork(choice, now)))
      ensures network == Resolve(selectable, choice)
      ensures network == old(network) ==> unchanged(this)
      ensures network != old(network) ==>
                && networkUpdatedAt == NextTimestamp(old(networkUpdatedAt), now) > old(networkUpdatedAt)
                && networkMirrorWriteChain == old(networkMirrorWriteChain) + [Copy(network, networkUpdatedAt)]
    {
      var selectableNetwork := Resolve(selectable, choice);
      if network == selectableNetwork { return; }
      var updatedAt := NextTimestamp(networkUpdatedAt, now);
      network, networkUpdatedAt := selectableNetwork, updatedAt;
      networkMirrorWriteChain := networkMirrorWriteChain + [Copy(selectableNetwork, updatedAt)];
    }

    /** The write at the head of the chain settles. */
    method SettleMirrorWrite(ok: bool)
      modifies this`mirror, this`networkMirrorWriteChain
      ensures forall w: World :: old(Represents(w)) ==> Represents(Next(selectable, w, MirrorWriteSettles(ok)))
      ensures old(networkMirrorWriteChain) == [] ==> unchanged(this)
      ensures old(networkMirrorWriteChain) != [] ==>
                && networkMirrorWriteChain == old(networkMirrorWriteChain)[1..]
                && mirror == if ok then Printed(old(networkMirrorWriteChain)[0]) else old(mirror)
    {
      if networkMirrorWriteChain == [] { return; }
      if ok { mirror := Printed(networkMirrorWriteChain[0]); }
      networkMirrorWriteChain := networkMirrorWriteChain[1..];
    }

    /** Runs at launch, with no write pending. */
    method HydrateCriticalPreferencesFallback(readOk: bool, writeOk: bool, now: int)
      modifies this
      ensures OnDisk() == Hydrate(selectable, old(OnDisk()), readOk, writeOk, now)
    {
      var stateNetwork := Resolve(selectable, network);
      var stateNeedsNormalization := network != stateNetwork;
      var stateUpdatedAt := NormalizeTimestamp(networkUpdatedAt);
      var parsed := if readOk then Parse(selectable, mirror) else None;
      if parsed.None? {
        var updatedAt := if stateUpdatedAt > 0 then stateUpdatedAt else NextTimestamp(stateUpdatedAt, now);
        network, networkUpdatedAt := stateNetwork, updatedAt;
        if writeOk { mirror := Printed(Copy(stateNetwork, updatedAt)); }
        return;
      }
      var m := parsed.value;
      if m.updatedAt > stateUpdatedAt || (m.updatedAt == stateUpdatedAt && m.network != stateNetwork) {
        network, networkUpdatedAt := m.network, m.updatedAt;
        return;
      }
      if stateNeedsNormalization || stateUpdatedAt > m.updatedAt || stateNetwork != m.network {
        var updatedAt := if stateUpdatedAt > 0 then stateUpdatedAt else NextTimestamp(m.updatedAt, now);
        network, networkUpdatedAt := stateNetwork, updatedAt;
        if writeOk { mirror := Printed(Copy(stateNetwork, updatedAt)); }
      }
    }
  }
}
