/** The claimed-UTXO index lists of store/umbraPrivacyStore.ts: per wallet, the 256 largest indices ever marked. */
module ClaimedUtxos {
  import opened Common
  import opened Ordering
  import opened RawAmount

  const MAX_CLAIMED_UTXO_INDICES_PER_WALLET: nat := 256

  /** `number | string | bigint`; a number that is no finite value is `NotFinite`. */
  datatype RawIndex = Number(value: real) | NotFinite | Text(text: string) | BigInt(big: int)

  function NormalizeInsertionIndex(raw: RawIndex): Option<nat> {
    match raw
    case Number(v) =>
      if v.Floor as real == v && 0.0 <= v <= MAX_SAFE_INTEGER as real then Some(v.Floor) else None
    case NotFinite => None
    case BigInt(b) => if 0 <= b <= MAX_SAFE_INTEGER then Some(b) else None
    case Text(t) => if IsNumeral(t) && Value(t) <= MAX_SAFE_INTEGER then Some(Value(t)) else None
  }

  /** An index is taken as `n` exactly when it is written as the safe integer `n`, as a number, a big integer or decimal
      digits. */
  lemma IndexIsTheInteger(raw: RawIndex, n: nat)
    ensures NormalizeInsertionIndex(raw) == Some(n) <==>
              n <= 9_007_199_254_740_991 &&
              match raw
              case Number(v) => v == n as real
              case NotFinite => false
              case Text(t) => t != "" && (forall i :: 0 <= i < |t| ==> '0' <= t[i] <= '9') && AllDigits(t) && Value(t) == n
              case BigInt(b) => b == n
  {
  }

  /** The three notations of an index are one index. */
  lemma NotationsAgree(n: nat)
    ensures NormalizeInsertionIndex(Number(n as real)) == NormalizeInsertionIndex(BigInt(n))
         == NormalizeInsertionIndex(RawIndex.Text(ToText(n)))
  {
  }

  function ValidIndices(raws: seq<RawIndex>): seq<nat> {
    if raws == [] then []
    else
      var first := NormalizeInsertionIndex(raws[0]);
      (if first.Some? then [first.value] else []) + ValidIndices(raws[1..])
  }

  /** Marking takes exactly the indices that some raw value denotes. */
  lemma {:induction false} ValidIndicesExactly(raws: seq<RawIndex>, n: nat)
    ensures n in ValidIndices(raws) <==> exists i :: 0 <= i < |raws| && NormalizeInsertionIndex(raws[i]) == Some(n)
  {
    if raws != [] {
      ValidIndicesExactly(raws[1..], n);
      assert raws == [raws[0]] + raws[1..];
    }
  }

  function NetworkName(network: Network): string {
    match network case Mainnet => "mainnet" case Devnet => "devnet"
  }

  function Key(network: Network, walletAddress: string): string {
    NetworkName(network) + ":" + walletAddress
  }

  /** `Array.from(new Set(s))` */
  function Dedup(s: seq<nat>): seq<nat> {
    if s == [] then []
    else
      var init, last := Dedup(s[..|s| - 1]), s[|s| - 1];
      if last in init then init else init + [last]
  }

  function Descending(): (nat, nat) -> bool {
    (a: nat, b: nat) => a > b
  }

  function Merge(indices: seq<nat>, existing: seq<nat>, limit: nat): seq<nat> {
    Take(Sort(Dedup(indices + existing), Descending()), limit)
  }

  type State = map<string, seq<nat>>

  function ListOf(s: State, key: string): seq<nat> {
    if key in s then s[key] else []
  }

  function MarkUtxosClaimed(s: State, key: string, raws: seq<RawIndex>): State {
    var indices := ValidIndices(raws);
    if indices == [] then s
    else
      var merged := Merge(indices, ListOf(s, key), MAX_CLAIMED_UTXO_INDICES_PER_WALLET);
      if merged == ListOf(s, key) then s else s[key := merged]
  }

  function ClearClaimedUtxos(s: State, key: string): State {
    s - {key}
  }

  // ----- The unbounded reference ------------------------------------------------------------------------------------

  ghost predicate StrictlyDescending(s: seq<nat>) {
    forall i, j :: 0 <= i < j < |s| ==> s[i] > s[j]
  }

  /** `r` lists the `limit` largest elements of `all`, largest first. */
  ghost predicate ListsLargest(r: seq<nat>, all: set<nat>, limit: nat) {
    && StrictlyDescending(r)
    && (forall x :: x in r ==> x in all)
    && |r| == (if |all| <= limit then |all| else limit)
    && (forall x, y :: x in all && x !in r && y in r ==> x < y)
  }

  lemma {:induction false} DescendingSize(s: seq<nat>)
    requires StrictlyDescending(s)
    ensures |SetOf(s)| == |s|
  {
    if s != [] {
      var init := s[..|s| - 1];
      DescendingSize(init);
      assert SetOf(s) == SetOf(init) + {s[|s| - 1]};
    }
  }

  /** There is only one such list, so it depends on the set alone. */
  lemma {:induction false} LargestIsUnique(r: seq<nat>, r': seq<nat>, all: set<nat>, limit: nat)
    requires ListsLargest(r, all, limit) && ListsLargest(r', all, limit)
    ensures r == r'
  {
    DescendingSize(r);
    DescendingSize(r');
    assert SetOf(r) <= SetOf(r') || SetOf(r') <= SetOf(r);
    if SetOf(r) <= SetOf(r') { SubsetSize(SetOf(r), SetOf(r')); } else { SubsetSize(SetOf(r'), SetOf(r)); }
    SameDescending(r, r');
  }

  lemma {:induction false} SameDescending(r: seq<nat>, r': seq<nat>)
    requires StrictlyDescending(r) && StrictlyDescending(r') && SetOf(r) == SetOf(r')
    ensures r == r'
  {
    DescendingSize(r);
    DescendingSize(r');
    if r != [] {
      assert r[0] in SetOf(r') && r'[0] in SetOf(r);
      assert r[0] == r'[0];
      assert SetOf(r[1..]) == SetOf(r) - {r[0]} by {
        assert r == [r[0]] + r[1..];
      }
      assert SetOf(r'[1..]) == SetOf(r') - {r'[0]} by {
        assert r' == [r'[0]] + r'[1..];
      }
      SameDescending(r[1..], r'[1..]);
      assert r == [r[0]] + r[1..] && r' == [r'[0]] + r'[1..];
    }
  }

  lemma {:induction false} DedupFacts(s: seq<nat>)
    ensures SetOf(Dedup(s)) == SetOf(s)
    ensures NoRepeats(Dedup(s))
  {
    if s != [] {
      var init, last := s[..|s| - 1], s[|s| - 1];
      DedupFacts(init);
      assert s == init + [last];
      assert SetOf(s) == SetOf(init) + {last};
      assert last in Dedup(init) <==> last in SetOf(Dedup(init));
      assert SetOf(Dedup(init) + [last]) == SetOf(Dedup(init)) + {last};
    }
  }

  lemma SortedIsStrict(s: seq<nat>)
    requires NoRepeats(s)
    ensures StrictlyDescending(Sort(s, Descending())) && SetOf(Sort(s, Descending())) == SetOf(s)
  {
    SortIsSortedPermutation(s, Descending());
    var t := Sort(s, Descending());
    PermutationHasNoRepeats(s, t);
    forall i, j | 0 <= i < j < |t| ensures t[i] > t[j] {
      assert !Descending()(t[j], t[i]);
    }
  }

  lemma TakeLargest(s: seq<nat>, limit: nat)
    requires StrictlyDescending(s)
    ensures ListsLargest(Take(s, limit), SetOf(s), limit)
  {
    DescendingSize(s);
    var r := Take(s, limit);
    forall x, y | x in SetOf(s) && x !in r && y in r ensures x < y {
      var i :| 0 <= i < |s| && s[i] == x;
      var j :| 0 <= j < |r| && r[j] == y;
    }
  }

  lemma MergeLargestOfParts(indices: seq<nat>, existing: seq<nat>, limit: nat)
    ensures ListsLargest(Merge(indices, existing, limit), SetOf(indices) + SetOf(existing), limit)
  {
    DedupFacts(indices + existing);
    SortedIsStrict(Dedup(indices + existing));
    TakeLargest(Sort(Dedup(indices + existing), Descending()), limit);
    assert SetOf(indices + existing) == SetOf(indices) + SetOf(existing);
  }

  /** Forgetting what was truncated earlier never shows: merging into the largest of `all` gives the largest of `all` and the
      new indices. */
  lemma MergeKeepsLargest(indices: seq<nat>, existing: seq<nat>, all: set<nat>, limit: nat)
    requires ListsLargest(existing, all, limit)
    ensures ListsLargest(Merge(indices, existing, limit), all + SetOf(indices), limit)
  {
    var merged := Merge(indices, existing, limit);
    var parts := SetOf(indices) + SetOf(existing);
    MergeLargestOfParts(indices, existing, limit);
    DescendingSize(existing);
    DescendingSize(merged);
    if |all| <= limit {
      SubsetSize(SetOf(existing), all);
      assert parts == all + SetOf(indices);
    } else {
      SubsetSize(SetOf(existing), parts);
      SubsetSize(parts, all + SetOf(indices));
      forall x, y | x in all + SetOf(indices) && x !in merged && y in merged ensures x < y {
        if x !in parts { DroppedIsSmaller(merged, existing, parts, limit, x, y); }
      }
    }
  }

  /** An index below a full list stays below every list that extends it. */
  lemma DroppedIsSmaller(merged: seq<nat>, existing: seq<nat>, parts: set<nat>, limit: nat, x: nat, y: nat)
    requires ListsLargest(merged, parts, limit) && SetOf(existing) <= parts
    requires StrictlyDescending(existing) && |existing| == limit && y in merged
    requires forall e :: e in existing ==> x < e
    requires x !in merged
    ensures x < y
  {
    if y < x {
      forall e | e in existing ensures e in merged {
        assert e in SetOf(existing);
      }
      assert SetOf(existing) + {y} <= SetOf(merged);
      DescendingSize(existing);
      DescendingSize(merged);
      SubsetSize(SetOf(existing) + {y}, SetOf(merged));
    }
  }

  // ----- Runs -------------------------------------------------------------------------------------------------------

  datatype Event =
    | Mark(network: Network, wallet: string, indices: seq<RawIndex>)
    | Clear(network: Network, wallet: string)

  function Step(s: State, e: Event): State {
    match e
    case Mark(network, wallet, indices) => MarkUtxosClaimed(s, Key(network, wallet), indices)
    case Clear(network, wallet) => ClearClaimedUtxos(s, Key(network, wallet))
  }

  function Run(events: seq<Event>): State {
    if events == [] then map[] else Step(Run(events[..|events| - 1]), events[|events| - 1])
  }

  /** Every valid index marked for a wallet since its last clear, without bound. */
  ghost function EverMarked(events: seq<Event>, network: Network, wallet: string): set<nat> {
    if events == [] then {}
    else
      var before := EverMarked(events[..|events| - 1], network, wallet);
      match events[|events| - 1]
      case Mark(n, w, indices) => if n == network && w == wallet then before + SetOf(ValidIndices(indices)) else before
      case Clear(n, w) => if n == network && w == wallet then {} else before
  }

  /** Wallets never share a list. */
  lemma KeysAreDistinct(n: Network, w: string, n': Network, w': string)
    ensures Key(n, w) == Key(n', w') <==> n == n' && w == w'
  {
    if n == n' {
      var p := |NetworkName(n)| + 1;
      assert Key(n, w)[p..] == w && Key(n, w')[p..] == w';
    } else {
      assert Key(n, w)[0] == NetworkName(n)[0] && Key(n', w')[0] == NetworkName(n')[0];
    }
  }

  /** After any sequence of marks and clears, every wallet's list is exactly the 256 largest valid indices marked for it since
      its last clear, strictly descending, whatever the order, grouping or repetition of the calls. */
  lemma {:induction false} ListIsTheLargest(events: seq<Event>, network: Network, wallet: string)
    ensures ListsLargest(ListOf(Run(events), Key(network, wallet)), EverMarked(events, network, wallet),
                         MAX_CLAIMED_UTXO_INDICES_PER_WALLET)
  {
    if events != [] {
      var init, e := events[..|events| - 1], events[|events| - 1];
      ListIsTheLargest(init, network, wallet);
      KeysAreDistinct(e.network, e.wallet, network, wallet);
      if e.Mark? && e.network == network && e.wallet == wallet {
        var existing := ListOf(Run(init), Key(network, wallet));
        MergeKeepsLargest(ValidIndices(e.indices), existing, EverMarked(init, network, wallet),
                          MAX_CLAIMED_UTXO_INDICES_PER_WALLET);
        assert ValidIndices(e.indices) == [] ==> SetOf(ValidIndices(e.indices)) == {};
      }
    }
  }

  /** Two histories that marked the same indices show the same list. */
  lemma OrderDoesNotMatter(events: seq<Event>, events': seq<Event>, network: Network, wallet: string)
    requires EverMarked(events, network, wallet) == EverMarked(events', network, wallet)
    ensures ListOf(Run(events), Key(network, wallet)) == ListOf(Run(events'), Key(network, wallet))
  {
    ListIsTheLargest(events, network, wallet);
    ListIsTheLargest(events', network, wallet);
    LargestIsUnique(ListOf(Run(events), Key(network, wallet)), ListOf(Run(events'), Key(network, wallet)),
                    EverMarked(events, network, wallet), MAX_CLAIMED_UTXO_INDICES_PER_WALLET);
  }

  /** The store in its own shape. */
  class PrivacyStore {
    var claimedUtxoInsertionIndices: State

    constructor ()
      ensures claimedUtxoInsertionIndices == map[]
    {
      claimedUtxoInsertionIndices := map[];
    }

    method MarkUtxosClaimed(network: Network, walletAddress: string, insertionIndices: seq<RawIndex>)
      modifies this
      ensures claimedUtxoInsertionIndices
              == Step(old(claimedUtxoInsertionIndices), Mark(network, walletAddress, insertionIndices))
    {
      var indices := ValidIndices(insertionIndices);
      if indices == [] { return; }
      var key := Key(network, walletAddress);
      var existing := ListOf(claimedUtxoInsertionIndices, key);
      var merged := Merge(indices, existing, MAX_CLAIMED_UTXO_INDICES_PER_WALLET);
      if |merged| == |existing| && forall i :: 0 <= i < |merged| ==> existing[i] == merged[i] { return; }
      claimedUtxoInsertionIndices := claimedUtxoInsertionIndices[key := merged];
    }

    method ClearClaimedUtxos(network: Network, walletAddress: string)
      modifies this
      ensures claimedUtxoInsertionIndices == Step(old(claimedUtxoInsertionIndices), Clear(network, walletAddress))
    {
      var key := Key(network, walletAddress);
      if key !in claimedUtxoInsertionIndices { return; }
      claimedUtxoInsertionIndices := claimedUtxoInsertionIndices - {key};
    }
  }
}
