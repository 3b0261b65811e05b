/** The choice of the holdings a value chart is built from: `selectHoldingsValueChangeInputs` of
    hooks/useOffpayHoldingsValueChange.ts. Upper-casing and the table of dollar-pegged symbols are parameters. */
module HoldingsInputs {
  import opened Common
  import opened Ordering

  const MAX_HISTORY_PRICED_HOLDINGS: nat := 6

  /** `None` stands for anything that is not a finite number. */
  datatype Holding = Holding(
    mint: string, symbol: string, priceMint: string, priceSymbol: string, balanceValue: Option<real>, usdPrice: Option<real>)

  datatype Input = Input(
    mint: string, priceMint: string, symbol: string, priceSymbol: string,
    balance: real, stableUsdPrice: Option<real>, currentUsdPrice: Option<real>)

  /** What the selection looks up outside the holdings. */
  datatype Market = Market(upper: string -> string, isUsdStable: string -> bool, unitUsdPrices: map<string, real>)

  /** The key a holding is merged under, if it takes part at all. */
  function MintOf(h: Holding): Option<string> {
    if IsPositive(h.balanceValue) && Trim(h.priceMint) != "" then Some(Trim(h.priceMint)) else None
  }

  function SymbolOf(m: Market, h: Holding): string {
    var symbol := m.upper(Trim(h.priceSymbol));
    if symbol != "" then symbol else m.upper(Trim(h.symbol))
  }

  function StablePriceOf(m: Market, h: Holding): Option<real> {
    if m.isUsdStable(SymbolOf(m, h)) then Some(1.0) else None
  }

  /** The price a holding brings along, if it is positive. */
  function PriceOf(m: Market, h: Holding): Option<real> {
    var mint := Trim(h.priceMint);
    var price :=
      if StablePriceOf(m, h).Some? then StablePriceOf(m, h)
      else if mint in m.unitUsdPrices && m.unitUsdPrices[mint] > 0.0 then Some(m.unitUsdPrices[mint])
      else h.usdPrice;
    if IsPositive(price) then price else None
  }

  function Opened(m: Market, h: Holding): Input
    requires MintOf(h).Some?
  {
    var symbol := m.upper(Trim(h.symbol));
    Input(h.mint, MintOf(h).value, if symbol != "" then symbol else SymbolOf(m, h), SymbolOf(m, h),
          h.balanceValue.value, StablePriceOf(m, h), PriceOf(m, h))
  }

  function Grown(m: Market, input: Input, h: Holding): Input
    requires MintOf(h).Some?
  {
    input.(balance := input.balance + h.balanceValue.value,
           currentUsdPrice := if IsPositive(input.currentUsdPrice) then input.currentUsdPrice
                              else PriceOf(m, h).Or(input.currentUsdPrice))
  }

  function IndexOf(entries: seq<Input>, mint: string): (i: nat)
    ensures i <= |entries|
    ensures i < |entries| ==> entries[i].priceMint == mint
    ensures forall k :: 0 <= k < i ==> entries[k].priceMint != mint
  {
    if entries == [] then 0
    else if entries[0].priceMint == mint then 0
    else 1 + IndexOf(entries[1..], mint)
  }

  /** The map of merged holdings, as its entries in insertion order. */
  function Merged(m: Market, holdings: seq<Holding>): seq<Input> {
    if holdings == [] then []
    else Absorbed(m, Merged(m, holdings[..|holdings| - 1]), holdings[|holdings| - 1])
  }

  function Absorbed(m: Market, entries: seq<Input>, h: Holding): seq<Input> {
    if MintOf(h).None? then entries
    else
      var i := IndexOf(entries, MintOf(h).value);
      if i < |entries| then entries[i := Grown(m, entries[i], h)] else entries + [Opened(m, h)]
  }

  function Estimate(input: Input): real {
    input.balance * input.stableUsdPrice.Or(input.currentUsdPrice).GetOr(0.0)
  }

  /** `compareByEstimatedUsdValue(left, right) < 0` */
  function WorthMore(): (Input, Input) -> bool {
    (l: Input, r: Input) => Estimate(l) > Estimate(r)
  }

  function OfKind(inputs: seq<Input>, stable: bool): seq<Input> {
    if inputs == [] then []
    else OfKind(inputs[..|inputs| - 1], stable)
         + (if inputs[|inputs| - 1].stableUsdPrice.Some? == stable then [inputs[|inputs| - 1]] else [])
  }

  /** `selectHoldingsValueChangeInputs` */
  method SelectHoldingsValueChangeInputs(m: Market, holdings: seq<Holding>, limit: Option<nat>)
    returns (inputs: seq<Input>, historyInputs: seq<Input>)
    ensures var all := Sort(Merged(m, holdings), WorthMore());
            && historyInputs == Take(OfKind(all, false), limit.GetOr(MAX_HISTORY_PRICED_HOLDINGS))
            && inputs == OfKind(all, true) + historyInputs
  {
    hide Sort, OfKind, SymbolOf, StablePriceOf, PriceOf, Trim;
    var byPriceMint: seq<Input> := [];
    var k := 0;
    while k < |holdings|
      invariant 0 <= k <= |holdings|
      invariant byPriceMint == Merged(m, holdings[..k])
    {
      assert holdings[..k + 1][..k] == holdings[..k];
      var holding := holdings[k];
      k := k + 1;
      if !IsPositive(holding.balanceValue) { continue; }
      var priceMint := Trim(holding.priceMint);
      if priceMint == "" { continue; }
      var existing := IndexOf(byPriceMint, priceMint);
      if existing < |byPriceMint| {
        var entry := byPriceMint[existing];
        entry := entry.(balance := entry.balance + holding.balanceValue.value);
        if !IsPositive(entry.currentUsdPrice) && PriceOf(m, holding).Some? {
          entry := entry.(currentUsdPrice := PriceOf(m, holding));
        }
        byPriceMint := byPriceMint[existing := entry];
        continue;
      }
      byPriceMint := byPriceMint + [Opened(m, holding)];
    }
    assert holdings[..|holdings|] == holdings;
    var allInputs := Sort(byPriceMint, WorthMore());
    historyInputs := Take(OfKind(allInputs, false), limit.GetOr(MAX_HISTORY_PRICED_HOLDINGS));
    inputs := OfKind(allInputs, true) + historyInputs;
  }

  // ----- Merging conserves what is held -----------------------------------------------------------------------------

  /** The positive balances held under `mint`. */
  function Held(holdings: seq<Holding>, mint: string): real {
    if holdings == [] then 0.0
    else
      var h := holdings[|holdings| - 1];
      Held(holdings[..|holdings| - 1], mint) + (if MintOf(h) == Some(mint) then h.balanceValue.value else 0.0)
  }

  /** The first positive price brought along under `mint`. */
  function FirstPrice(m: Market, holdings: seq<Holding>, mint: string): Option<real> {
    if holdings == [] then None
    else
      var h := holdings[|holdings| - 1];
      FirstPrice(m, holdings[..|holdings| - 1], mint).Or(if MintOf(h) == Some(mint) then PriceOf(m, h) else None)
  }

  ghost predicate DistinctMints(entries: seq<Input>) {
    forall i, j :: 0 <= i < j < |entries| ==> entries[i].priceMint != entries[j].priceMint
  }

  /** `entries` account for `holdings`: one entry per held mint, with everything held under it and the first known price. */
  ghost predicate Accounts(m: Market, holdings: seq<Holding>, entries: seq<Input>) {
    && DistinctMints(entries)
    && (forall e :: e in entries ==>
          && e.balance == Held(holdings, e.priceMint) && e.balance > 0.0
          && e.currentUsdPrice == FirstPrice(m, holdings, e.priceMint))
    && (forall mint: string :: IndexOf(entries, mint) == |entries| ==>
          Held(holdings, mint) == 0.0 && FirstPrice(m, holdings, mint) == None)
  }

  /** No balance is lost, invented or moved between mints, whatever the order in which holdings of a mint appear. */
  lemma {:induction false} MergeConserves(m: Market, holdings: seq<Holding>)
    ensures Accounts(m, holdings, Merged(m, holdings))
  {
    if holdings != [] {
      var init, h := holdings[..|holdings| - 1], holdings[|holdings| - 1];
      MergeConserves(m, init);
      AbsorbAccounts(m, init, Merged(m, init), h);
      assert init + [h] == holdings;
    }
  }

  lemma HeldStep(m: Market, holdings: seq<Holding>, h: Holding, mint: string)
    ensures Held(holdings + [h], mint)
            == Held(holdings, mint) + (if MintOf(h) == Some(mint) then h.balanceValue.value else 0.0)
    ensures FirstPrice(m, holdings + [h], mint)
            == FirstPrice(m, holdings, mint).Or(if MintOf(h) == Some(mint) then PriceOf(m, h) else None)
  {
    assert (holdings + [h])[..|holdings|] == holdings;
  }

  lemma AbsorbAccounts(m: Market, holdings: seq<Holding>, entries: seq<Input>, h: Holding)
    requires Accounts(m, holdings, entries)
    ensures Accounts(m, holdings + [h], Absorbed(m, entries, h))
  {
    hide Held, FirstPrice, PriceOf, SymbolOf, StablePriceOf;
    var next := Absorbed(m, entries, h);
    FirstPriceIsPositive(m, holdings);
    forall e | e in next
      ensures e.balance == Held(holdings + [h], e.priceMint) && e.balance > 0.0
      ensures e.currentUsdPrice == FirstPrice(m, holdings + [h], e.priceMint)
    {
      HeldStep(m, holdings, h, e.priceMint);
    }
    forall mint: string | IndexOf(next, mint) == |next|
      ensures Held(holdings + [h], mint) == 0.0 && FirstPrice(m, holdings + [h], mint) == None
    {
      HeldStep(m, holdings, h, mint);
      AbsorbedAbsent(m, entries, h, mint);
    }
  }

  lemma {:induction false} FirstPriceIsPositive(m: Market, holdings: seq<Holding>)
    ensures forall mint: string :: FirstPrice(m, holdings, mint).Some? ==> FirstPrice(m, holdings, mint).value > 0.0
  {
    if holdings != [] {
      FirstPriceIsPositive(m, holdings[..|holdings| - 1]);
    }
  }

  lemma AbsorbedAbsent(m: Market, entries: seq<Input>, h: Holding, mint: string)
    requires IndexOf(Absorbed(m, entries, h), mint) == |Absorbed(m, entries, h)|
    ensures IndexOf(entries, mint) == |entries| && MintOf(h) != Some(mint)
  {
    var next := Absorbed(m, entries, h);
    assert forall k :: 0 <= k < |entries| ==> next[k].priceMint == entries[k].priceMint;
    if MintOf(h).Some? {
      var i := IndexOf(entries, MintOf(h).value);
      assert next[i].priceMint == MintOf(h).value;
    }
  }

  // ----- What an entry is made of -----------------------------------------------------------------------------------

  /** The symbol decided on and the price brought along: the peg of a dollar symbol, else a positive cached unit price, else the
      holding's own positive price, else none. */
  lemma PriceInOrder(m: Market, h: Holding)
    ensures var mint := Trim(h.priceMint);
            var symbol := if m.upper(Trim(h.priceSymbol)) != "" then m.upper(Trim(h.priceSymbol)) else m.upper(Trim(h.symbol));
            && SymbolOf(m, h) == symbol
            && StablePriceOf(m, h) == (if m.isUsdStable(symbol) then Some(1.0) else None)
            && PriceOf(m, h) == if m.isUsdStable(symbol) then Some(1.0)
                                else if mint in m.unitUsdPrices && m.unitUsdPrices[mint] > 0.0 then Some(m.unitUsdPrices[mint])
                                else if h.usdPrice.Some? && h.usdPrice.value > 0.0 then h.usdPrice
                                else None
  {
  }

  /** `i` is the first holding that takes part under `mint`. */
  ghost predicate IsFirstHeld(holdings: seq<Holding>, mint: string, i: nat) {
    && i < |holdings| && MintOf(holdings[i]) == Some(mint)
    && forall j :: 0 <= j < i ==> MintOf(holdings[j]) != Some(mint)
  }

  /** The entry is named and pegged as its first holding says. */
  ghost predicate NamedBy(m: Market, e: Input, h: Holding) {
    && e.mint == h.mint && e.priceMint == Trim(h.priceMint) && e.priceSymbol == SymbolOf(m, h)
    && e.symbol == (if m.upper(Trim(h.symbol)) != "" then m.upper(Trim(h.symbol)) else SymbolOf(m, h))
    && e.stableUsdPrice == if m.isUsdStable(SymbolOf(m, h)) then Some(1.0) else None
  }

  /** Holdings that come later under a mint change its balance and price, never its names or its peg. */
  lemma {:induction false} FirstHoldingNames(m: Market, holdings: seq<Holding>)
    ensures forall e :: e in Merged(m, holdings) ==>
              exists i: nat :: IsFirstHeld(holdings, e.priceMint, i) && NamedBy(m, e, holdings[i])
  {
    if holdings != [] {
      var init, h := holdings[..|holdings| - 1], holdings[|holdings| - 1];
      FirstHoldingNames(m, init);
      MergeConserves(m, init);
      hide PriceOf, SymbolOf, Held, FirstPrice;
      var entries := Merged(m, init);
      forall e | e in Absorbed(m, entries, h)
        ensures exists i: nat :: IsFirstHeld(holdings, e.priceMint, i) && NamedBy(m, e, holdings[i])
      {
        AbsorbedIsNamed(m, holdings, entries, h, e);
      }
    }
  }

  /** The first holding of an entry stays its first when a holding is added and balance and price change. */
  lemma StillNamed(m: Market, holdings: seq<Holding>, was: Input, e: Input, i: nat)
    requires holdings != [] && IsFirstHeld(holdings[..|holdings| - 1], was.priceMint, i) && NamedBy(m, was, holdings[i])
    requires e == was.(balance := e.balance, currentUsdPrice := e.currentUsdPrice)
    ensures IsFirstHeld(holdings, e.priceMint, i) && NamedBy(m, e, holdings[i])
  {
    hide SymbolOf, Trim, MintOf;
    assert forall j :: 0 <= j <= i ==> holdings[..|holdings| - 1][j] == holdings[j];
  }

  lemma AbsorbedFrom(m: Market, entries: seq<Input>, h: Holding, e: Input) returns (was: Input)
    requires e in Absorbed(m, entries, h)
    ensures (was in entries && e == was.(balance := e.balance, currentUsdPrice := e.currentUsdPrice))
         || (MintOf(h).Some? && IndexOf(entries, MintOf(h).value) == |entries| && e == Opened(m, h))
  {
    hide SymbolOf, Trim, PriceOf, StablePriceOf, MintOf;
    was := e;
    if e !in entries && MintOf(h).Some? && IndexOf(entries, MintOf(h).value) < |entries| {
      was := entries[IndexOf(entries, MintOf(h).value)];
    }
  }

  lemma AbsorbedIsNamed(m: Market, holdings: seq<Holding>, entries: seq<Input>, h: Holding, e: Input)
    requires holdings != [] && h == holdings[|holdings| - 1] && entries == Merged(m, holdings[..|holdings| - 1])
    requires e in Absorbed(m, entries, h)
    requires forall e :: e in entries ==>
               exists i: nat :: IsFirstHeld(holdings[..|holdings| - 1], e.priceMint, i) && NamedBy(m, e, holdings[i])
    ensures exists i: nat :: IsFirstHeld(holdings, e.priceMint, i) && NamedBy(m, e, holdings[i])
  {
    var was := AbsorbedFrom(m, entries, h, e);
    hide PriceOf, SymbolOf, Trim, Merged, Absorbed, NamedBy, IsFirstHeld, MintOf, Opened;
    var init := holdings[..|holdings| - 1];
    if was in entries && e == was.(balance := e.balance, currentUsdPrice := e.currentUsdPrice) {
      var i: nat :| IsFirstHeld(init, was.priceMint, i) && NamedBy(m, was, holdings[i]);
      StillNamed(m, holdings, was, e, i);
    } else {
      NoneHeldBefore(m, init, MintOf(h).value);
      OpenedIsNamed(m, holdings, h);
    }
  }

  lemma OpenedIsNamed(m: Market, holdings: seq<Holding>, h: Holding)
    requires holdings != [] && h == holdings[|holdings| - 1] && MintOf(h).Some?
    requires forall j :: 0 <= j < |holdings| - 1 ==> MintOf(holdings[j]) != MintOf(h)
    ensures var e := Opened(m, h);
            IsFirstHeld(holdings, e.priceMint, |holdings| - 1) && NamedBy(m, e, holdings[|holdings| - 1])
  {
  }

  /** A mint without an entry has not been held. */
  lemma {:induction false} NoneHeldBefore(m: Market, holdings: seq<Holding>, mint: string)
    requires IndexOf(Merged(m, holdings), mint) == |Merged(m, holdings)|
    ensures forall j :: 0 <= j < |holdings| ==> MintOf(holdings[j]) != Some(mint)
  {
    hide PriceOf, SymbolOf, Opened, Grown, Trim;
    if holdings != [] {
      var init, h := holdings[..|holdings| - 1], holdings[|holdings| - 1];
      AbsorbedAbsent(m, Merged(m, init), h, mint);
      NoneHeldBefore(m, init, mint);
    }
  }

  /** The estimate the entries are sorted by: the balance at the peg, else at the known price, else nothing. */
  lemma EstimateIsBalanceAtPrice(input: Input)
    ensures Estimate(input) == input.balance * (if input.stableUsdPrice.Some? then input.stableUsdPrice.value
                                                else if input.currentUsdPrice.Some? then input.currentUsdPrice.value else 0.0)
  {
  }

  // ----- The selection keeps the largest ----------------------------------------------------------------------------

  lemma {:induction false} OfKindFacts(inputs: seq<Input>, stable: bool)
    requires Sorted(inputs, WorthMore()) && NoRepeats(inputs)
    ensures var r := OfKind(inputs, stable);
            && Sorted(r, WorthMore()) && NoRepeats(r)
            && forall e :: e in r <==> e in inputs && e.stableUsdPrice.Some? == stable
  {
    hide Estimate;
    if inputs != [] {
      var init, last := inputs[..|inputs| - 1], inputs[|inputs| - 1];
      OfKindFacts(init, stable);
      assert inputs == init + [last];
      forall e | e in init ensures !WorthMore()(last, e) && e != last {
        var k :| 0 <= k < |init| && init[k] == e;
        assert inputs[k] == e && inputs[|inputs| - 1] == last;
      }
    }
  }

  /** The kept history inputs are the most valuable ones: sorted, at most the limit, each a merged holding that is not pegged,
      and every one left out is worth no more than every one kept and is left out only when the limit is reached. */
  lemma {:induction false} SelectionKeepsTheLargest(m: Market, holdings: seq<Holding>, limit: nat)
    ensures var merged := Merged(m, holdings);
            var all := Sort(merged, WorthMore());
            var kept := Take(OfKind(all, false), limit);
            && |kept| <= limit && NoRepeats(kept) && Sorted(kept, WorthMore())
            && (forall e :: e in kept ==> e in merged && e.stableUsdPrice.None?)
            && (forall e :: e in OfKind(all, true) <==> e in merged && e.stableUsdPrice.Some?)
            && (forall e :: e in merged && e.stableUsdPrice.None? && e !in kept ==>
                  |kept| == limit && forall k :: k in kept ==> Estimate(e) <= Estimate(k))
  {
    hide Estimate, Merged, OfKind, Sort;
    var merged := Merged(m, holdings);
    var all := Sort(merged, WorthMore());
    MergeConserves(m, holdings);
    SortIsSortedPermutation(merged, WorthMore());
    PermutationHasNoRepeats(merged, all);
    OfKindFacts(all, false);
    OfKindFacts(all, true);
  }
}
