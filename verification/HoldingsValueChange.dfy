/** The portfolio value chart of hooks/useOffpayHoldingsValueChange.ts, over the reals. */
module HoldingsValueChange {
  import opened ChartSampling
  import opened Common
  import opened HoldingsInputs
  import Prices = TokenPriceHistory

  const MAX_HOLDINGS_VALUE_CHANGE_SAMPLES: nat := 160
  /** `Number.EPSILON * 10` */
  const ROUNDING_NOISE: real := 10.0 / 4503599627370496.0

  datatype Sample = Sample(timestamp: real, value: real, usdValue: real)

  datatype History = History(samples: seq<Prices.Sample>, liveUsdPrice: Option<real>)

  datatype Change = Change(absolute: real, usdAbsolute: real, percent: real, tone: Prices.Tone)

  /** A sample of a dollar value alone, converted at the rate. */
  function SampleOf(timestamp: real, usdValue: real, rate: real): Sample {
    Sample(timestamp, usdValue * rate, usdValue)
  }

  function Abs(x: real): real {
    if x < 0.0 then -x else x
  }

  // ----- The closest price ------------------------------------------------------------------------------------------

  /** `i` is the first of the samples nearest to `timestamp`. */
  ghost predicate IsFirstNearest(samples: seq<Prices.Sample>, timestamp: real, i: int) {
    && 0 <= i < |samples|
    && (forall j :: 0 <= j < |samples| ==> Abs(samples[i].timestamp - timestamp) <= Abs(samples[j].timestamp - timestamp))
    && (forall j :: 0 <= j < i ==> Abs(samples[i].timestamp - timestamp) < Abs(samples[j].timestamp - timestamp))
  }

  function Nearest(samples: seq<Prices.Sample>, timestamp: real): (i: int)
    requires samples != []
    ensures IsFirstNearest(samples, timestamp, i)
  {
    if |samples| == 1 then 0
    else
      var last := |samples| - 1;
      var i := Nearest(samples[..last], timestamp);
      if Abs(samples[last].timestamp - timestamp) >= Abs(samples[i].timestamp - timestamp) then i else last
  }

  function SamplesOf(histories: map<string, History>, mint: string): seq<Prices.Sample> {
    if mint in histories then histories[mint].samples else []
  }

  method FindClosestHistorySample(samples: seq<Prices.Sample>, timestamp: real) returns (closest: Option<Prices.Sample>)
    ensures closest.None? <==> samples == []
    ensures closest.Some? ==> closest.value == samples[Nearest(samples, timestamp)]
  {
    if samples == [] { return None; }
    var found := samples[0];
    var closestDistance := Abs(found.timestamp - timestamp);
    ghost var at := 0;
    var index := 1;
    while index < |samples|
      invariant 1 <= index <= |samples| && 0 <= at < index
      invariant found == samples[at] && closestDistance == Abs(samples[at].timestamp - timestamp)
      invariant IsFirstNearest(samples[..index], timestamp, at)
    {
      var sample := samples[index];
      var distance := Abs(sample.timestamp - timestamp);
      if distance < closestDistance {
        found, closestDistance, at := sample, distance, index;
      }
      index := index + 1;
    }
    assert samples[..|samples|] == samples;
    assert at == Nearest(samples, timestamp);
    closest := Some(found);
  }

  // ----- What is priced ---------------------------------------------------------------------------------------------

  predicate Eligible(input: Input, histories: map<string, History>) {
    input.stableUsdPrice.Some? || |SamplesOf(histories, input.priceMint)| >= 2
  }

  function EligibleInputs(inputs: seq<Input>, histories: map<string, History>): seq<Input> {
    if inputs == [] then []
    else EligibleInputs(inputs[..|inputs| - 1], histories)
         + (if Eligible(inputs[|inputs| - 1], histories) then [inputs[|inputs| - 1]] else [])
  }

  function StableTotal(inputs: seq<Input>): real {
    if inputs == [] then 0.0
    else StableTotal(inputs[..|inputs| - 1]) + inputs[|inputs| - 1].balance * inputs[|inputs| - 1].stableUsdPrice.GetOr(0.0)
  }

  /** The first of the longest histories of the inputs that are not pegged. */
  function Anchor(inputs: seq<Input>, histories: map<string, History>): seq<Prices.Sample> {
    if inputs == [] then []
    else
      var longest, input := Anchor(inputs[..|inputs| - 1], histories), inputs[|inputs| - 1];
      var samples := SamplesOf(histories, input.priceMint);
      if input.stableUsdPrice.None? && |samples| >= 2 && |samples| > |longest| then samples else longest
  }

  function LiveUsdPrice(histories: map<string, History>, mint: string): Option<real> {
    if mint in histories && IsPositive(histories[mint].liveUsdPrice) then histories[mint].liveUsdPrice else None
  }

  /** `currentUsdPriceForInput` on the live prices of the eligible histories. */
  function CurrentUsdPrice(input: Input, histories: map<string, History>): Option<real> {
    input.stableUsdPrice.Or(LiveUsdPrice(histories, input.priceMint)).Or(input.currentUsdPrice)
  }

  function Worth(balance: real, price: real): real {
    balance * price
  }

  /** Whether anything is priced now, and the dollar total of what is. */
  function CurrentTotal(inputs: seq<Input>, histories: map<string, History>): (bool, real) {
    if inputs == [] then (false, 0.0)
    else
      var t, input := CurrentTotal(inputs[..|inputs| - 1], histories), inputs[|inputs| - 1];
      var price := CurrentUsdPrice(input, histories);
      if IsPositive(price) then (true, t.1 + Worth(input.balance, price.value)) else t
  }

  function CurrentSample(inputs: seq<Input>, histories: map<string, History>, rate: real, timestamp: real): Option<Sample> {
    var t := CurrentTotal(inputs, histories);
    if !t.0 || t.1 <= 0.0 then None else Some(SampleOf(timestamp, t.1, rate))
  }

  /** What an input counts for now: its peg, else the live price of its history, else the price it brought along, and nothing
      where that is not positive. */
  function WorthNow(input: Input, histories: map<string, History>): real {
    var price :=
      if input.stableUsdPrice.Some? then input.stableUsdPrice.value
      else if input.priceMint in histories && IsPositive(histories[input.priceMint].liveUsdPrice)
      then histories[input.priceMint].liveUsdPrice.value
      else if input.currentUsdPrice.Some? then input.currentUsdPrice.value
      else 0.0;
    if price > 0.0 then input.balance * price else 0.0
  }

  /** What all inputs together are worth now. */
  function HeldNow(inputs: seq<Input>, histories: map<string, History>): real {
    if inputs == [] then 0.0
    else HeldNow(inputs[..|inputs| - 1], histories) + WorthNow(inputs[|inputs| - 1], histories)
  }

  lemma {:induction false} CurrentTotalIsHeldNow(inputs: seq<Input>, histories: map<string, History>)
    ensures CurrentTotal(inputs, histories).1 == HeldNow(inputs, histories)
    ensures !CurrentTotal(inputs, histories).0 ==> HeldNow(inputs, histories) == 0.0
  {
    if inputs != [] {
      CurrentTotalIsHeldNow(inputs[..|inputs| - 1], histories);
    }
  }

  /** The current sample exists exactly when the inputs are worth something now, and shows what they are worth together. */
  lemma CurrentSampleIsHeldNow(inputs: seq<Input>, histories: map<string, History>, rate: real, timestamp: real)
    ensures CurrentSample(inputs, histories, rate, timestamp)
            == var worth := HeldNow(inputs, histories);
               if worth > 0.0 then Some(Sample(timestamp, worth * rate, worth)) else None
  {
    CurrentTotalIsHeldNow(inputs, histories);
    var t := CurrentTotal(inputs, histories);
    assert t.1 == HeldNow(inputs, histories);
    hide CurrentTotal, HeldNow;
  }

  /** `buildCurrentHoldingsValueSample` */
  method BuildCurrentSample(inputs: seq<Input>, live: map<string, real>, histories: map<string, History>, rate: real,
                            timestamp: real) returns (sample: Option<Sample>)
    requires forall input :: input in inputs ==>
               LiveUsdPrice(histories, input.priceMint)
               == if input.priceMint in live then Some(live[input.priceMint]) else None
    ensures sample == CurrentSample(inputs, histories, rate, timestamp)
    ensures var worth := HeldNow(inputs, histories);
            sample == if worth > 0.0 then Some(Sample(timestamp, worth * rate, worth)) else None
  {
    CurrentSampleIsHeldNow(inputs, histories, rate, timestamp);
    var usdValue, priced := 0.0, false;
    var k := 0;
    while k < |inputs|
      invariant 0 <= k <= |inputs|
      invariant CurrentTotal(inputs[..k], histories) == (priced, usdValue)
    {
      hide Worth;
      assert inputs[..k + 1][..k] == inputs[..k];
      var input := inputs[k];
      k := k + 1;
      var livePrice := if input.priceMint in live then Some(live[input.priceMint]) else None;
      var usdPrice := input.stableUsdPrice.Or(livePrice).Or(input.currentUsdPrice);
      if !IsPositive(usdPrice) { continue; }
      priced := true;
      usdValue := usdValue + Worth(input.balance, usdPrice.value);
    }
    assert inputs[..|inputs|] == inputs;
    assert CurrentTotal(inputs, histories) == (priced, usdValue);
    if !priced || usdValue <= 0.0 { return None; }
    return Some(SampleOf(timestamp, usdValue, rate));
  }

  // ----- The valuation at one anchor --------------------------------------------------------------------------------

  datatype Total = Total(priced: bool, value: real, usdValue: real)

  /** The running totals of one anchor, from the pegged value on. */
  function AnchorTotal(inputs: seq<Input>, histories: map<string, History>, rate: real, stable: real, timestamp: real): Total {
    if inputs == [] then Total(stable > 0.0, stable * rate, stable)
    else
      var t, input := AnchorTotal(inputs[..|inputs| - 1], histories, rate, stable, timestamp), inputs[|inputs| - 1];
      var samples := SamplesOf(histories, input.priceMint);
      if input.stableUsdPrice.Some? || samples == [] then t
      else
        var s := samples[Nearest(samples, timestamp)];
        Total(true, t.value + Worth(input.balance, s.price), t.usdValue + Worth(input.balance, s.usdPrice))
  }

  function AnchorSamples(
      anchors: seq<Prices.Sample>, inputs: seq<Input>, histories: map<string, History>, rate: real): seq<Sample>
  {
    if anchors == [] then []
    else
      var anchor := anchors[|anchors| - 1];
      var t := AnchorTotal(inputs, histories, rate, StableTotal(inputs), anchor.timestamp);
      AnchorSamples(anchors[..|anchors| - 1], inputs, histories, rate)
      + (if t.priced && t.value > 0.0 && t.usdValue > 0.0 then [Sample(anchor.timestamp, t.value, t.usdValue)] else [])
  }

  function WithCurrent(samples: seq<Sample>, current: Option<Sample>): seq<Sample> {
    if current.Some? && (samples == [] || current.value.timestamp > samples[|samples| - 1].timestamp)
    then samples + [current.value] else samples
  }

  /** The chart before downsampling, for eligible inputs. */
  function Chart(
      inputs: seq<Input>, histories: map<string, History>, rate: real, timestamp: real, durationMs: real): seq<Sample>
  {
    var current, stable := CurrentSample(inputs, histories, rate, timestamp), StableTotal(inputs);
    if Anchor(inputs, histories) == [] then
      if current.None? || stable <= 0.0 then []
      else [SampleOf(timestamp - durationMs, stable, rate), current.value]
    else WithCurrent(AnchorSamples(Anchor(inputs, histories), inputs, histories, rate), current)
  }

  method ValueAtAnchor(inputs: seq<Input>, histories: map<string, History>, rate: real, stableUsdValue: real, timestamp: real)
    returns (total: Total)
    ensures total == AnchorTotal(inputs, histories, rate, stableUsdValue, timestamp)
  {
    var value, usdValue, priced := stableUsdValue * rate, stableUsdValue, stableUsdValue > 0.0;
    var k := 0;
    while k < |inputs|
      invariant 0 <= k <= |inputs|
      invariant AnchorTotal(inputs[..k], histories, rate, stableUsdValue, timestamp) == Total(priced, value, usdValue)
    {
      hide Worth;
      assert inputs[..k + 1][..k] == inputs[..k];
      var input := inputs[k];
      k := k + 1;
      if input.stableUsdPrice.Some? { continue; }
      var sample := FindClosestHistorySample(SamplesOf(histories, input.priceMint), timestamp);
      if sample.None? { continue; }
      priced := true;
      value := value + Worth(input.balance, sample.value.price);
      usdValue := usdValue + Worth(input.balance, sample.value.usdPrice);
    }
    assert inputs[..|inputs|] == inputs;
    return Total(priced, value, usdValue);
  }

  method CollectLivePrices(inputs: seq<Input>, histories: map<string, History>) returns (live: map<string, real>)
    ensures forall input :: input in inputs ==>
              LiveUsdPrice(histories, input.priceMint)
              == if input.priceMint in live then Some(live[input.priceMint]) else None
  {
    live := map[];
    var k := 0;
    while k < |inputs|
      invariant 0 <= k <= |inputs|
      invariant forall mint :: mint in live ==> LiveUsdPrice(histories, mint) == Some(live[mint])
      invariant forall i :: 0 <= i < k && LiveUsdPrice(histories, inputs[i].priceMint).Some? ==> inputs[i].priceMint in live
    {
      var price := LiveUsdPrice(histories, inputs[k].priceMint);
      if price.Some? { live := live[inputs[k].priceMint := price.value]; }
      k := k + 1;
    }
  }

  method SampleAnchors(
      anchors: seq<Prices.Sample>, inputs: seq<Input>, histories: map<string, History>, rate: real, stableUsdValue: real)
    returns (samples: seq<Sample>)
    requires stableUsdValue == StableTotal(inputs)
    ensures samples == AnchorSamples(anchors, inputs, histories, rate)
  {
    samples := [];
    var k := 0;
    while k < |anchors|
      invariant 0 <= k <= |anchors|
      invariant samples == AnchorSamples(anchors[..k], inputs, histories, rate)
    {
      assert anchors[..k + 1][..k] == anchors[..k];
      var t := ValueAtAnchor(inputs, histories, rate, stableUsdValue, anchors[k].timestamp);
      if t.priced && t.value > 0.0 && t.usdValue > 0.0 {
        samples := samples + [Sample(anchors[k].timestamp, t.value, t.usdValue)];
      }
      k := k + 1;
    }
    assert anchors[..|anchors|] == anchors;
  }

  /** Where the inputs are worth something now and every anchor is older, the last sample shows what they are worth. */
  ghost predicate EndsWithHeldNow(
      inputs: seq<Input>, histories: map<string, History>, rate: real, timestamp: real, result: seq<Sample>)
  {
    var worth := HeldNow(inputs, histories);
    worth > 0.0 && (if Anchor(inputs, histories) == [] then StableTotal(inputs) > 0.0
                    else forall a :: a in Anchor(inputs, histories) ==> a.timestamp < timestamp)
    ==> result != [] && result[|result| - 1] == Sample(timestamp, worth * rate, worth)
  }

  /** `buildHoldingsValueChangeSamples` */
  method BuildSamples(
      inputs: seq<Input>, histories: map<string, History>, rate: real, timestamp: real, durationMs: real)
    returns (result: seq<Sample>)
    ensures var chart := Chart(EligibleInputs(inputs, histories), histories, rate, timestamp, durationMs);
            && result == Downsampled(chart, MAX_HOLDINGS_VALUE_CHANGE_SAMPLES)
            && CalculateChange(result) == CalculateChange(chart)
    ensures EndsWithHeldNow(EligibleInputs(inputs, histories), histories, rate, timestamp, result)
  {
    LastSampleIsHeldNow(EligibleInputs(inputs, histories), histories, rate, timestamp, durationMs);
    var eligible := EligibleInputs(inputs, histories);
    var anchors := Anchor(eligible, histories);
    var stableUsdValue := StableTotal(eligible);
    var live := CollectLivePrices(eligible, histories);
    var currentSample := BuildCurrentSample(eligible, live, histories, rate, timestamp);
    ghost var chart := Chart(eligible, histories, rate, timestamp, durationMs);
    ChangeSurvivesSampling(chart);
    hide CurrentSample, StableTotal, EligibleInputs, CalculateChange, AnchorTotal, Anchor, HeldNow, EndsWithHeldNow;
    if anchors == [] {
      if currentSample.None? || stableUsdValue <= 0.0 { return []; }
      result := [SampleOf(timestamp - durationMs, stableUsdValue, rate), currentSample.value];
      assert result == chart;
      return;
    }
    var samples := SampleAnchors(anchors, eligible, histories, rate, stableUsdValue);
    if currentSample.Some? && (samples == [] || currentSample.value.timestamp > samples[|samples| - 1].timestamp) {
      samples := samples + [currentSample.value];
    }
    result := Downsample(samples, MAX_HOLDINGS_VALUE_CHANGE_SAMPLES);
  }

  // ----- The reported change ----------------------------------------------------------------------------------------

  /** On reals, where the negative zero does not exist. */
  function NormalizeSignedZero(value: real): real {
    if Abs(value) < ROUNDING_NOISE then 0.0 else value
  }

  function CalculateChange(samples: seq<Sample>): Option<Change> {
    if |samples| < 2 || samples[0].value <= 0.0 then None
    else
      var first, last := samples[0], samples[|samples| - 1];
      var absolute := NormalizeSignedZero(last.value - first.value);
      var percent := NormalizeSignedZero(absolute / first.value * 100.0);
      Some(Change(absolute, NormalizeSignedZero(last.usdValue - first.usdValue), percent, Prices.ToneOf(percent)))
  }

  /** The change reported on the sampled chart is the change of the full chart. */
  lemma ChangeSurvivesSampling(samples: seq<Sample>)
    ensures CalculateChange(Downsampled(samples, MAX_HOLDINGS_VALUE_CHANGE_SAMPLES)) == CalculateChange(samples)
  {
    hide Downsampled;
    DownsampledKeeps(samples, MAX_HOLDINGS_VALUE_CHANGE_SAMPLES, (x, y) => true);
  }

  /** The tone is neutral exactly when the change, or its share of the first value, is rounding noise; otherwise it has the sign
      of the change. */
  lemma ToneHasTheSignOfTheChange(samples: seq<Sample>)
    requires |samples| >= 2 && samples[0].value > 0.0
    ensures var change := CalculateChange(samples).value;
            var first, difference := samples[0].value, samples[|samples| - 1].value - samples[0].value;
            && (change.tone == Prices.Neutral <==>
                Abs(difference) < ROUNDING_NOISE || Abs(difference) * 100.0 < ROUNDING_NOISE * first)
            && (change.tone == Prices.Positive ==> difference > 0.0)
            && (change.tone == Prices.Negative ==> difference < 0.0)
  {
    var first, difference := samples[0].value, samples[|samples| - 1].value - samples[0].value;
    var ratio := difference / first;
    assert ratio * first == difference;
    Prices.SignOfRatio(difference, first);
    NoiseOfRatio(ratio, first, difference);
  }

  lemma NoiseOfRatio(ratio: real, first: real, difference: real)
    requires first > 0.0 && ratio * first == difference
    ensures Abs(ratio * 100.0) < ROUNDING_NOISE <==> Abs(difference) * 100.0 < ROUNDING_NOISE * first
  {
    var x := Abs(ratio * 100.0);
    assert x * first == Abs(difference) * 100.0;
    if x < ROUNDING_NOISE { ScaleStrict(x, ROUNDING_NOISE, first); } else { ScaleOrder(ROUNDING_NOISE, x, first); }
  }

  // ----- Every sample is sound --------------------------------------------------------------------------------------

  /** Every history was converted to the display currency at `rate`. */
  ghost predicate ConvertedAt(histories: map<string, History>, rate: real) {
    forall mint: string, i: int :: mint in histories && 0 <= i < |histories[mint].samples| ==>
      histories[mint].samples[i].price == histories[mint].samples[i].usdPrice * rate
  }

  ghost predicate Sound(s: Sample, rate: real) {
    s.value > 0.0 && s.usdValue > 0.0 && s.value == s.usdValue * rate
  }

  lemma AddAtRate(a: real, b: real, price: real, rate: real)
    ensures a * rate + b * (price * rate) == (a + b * price) * rate
  {
  }

  /** Both running totals stay one valuation, in two currencies. */
  lemma {:induction false} TotalsAgree(
      inputs: seq<Input>, histories: map<string, History>, rate: real, stable: real, timestamp: real)
    requires ConvertedAt(histories, rate)
    ensures var t := AnchorTotal(inputs, histories, rate, stable, timestamp); t.value == t.usdValue * rate
  {
    if inputs != [] {
      var init, input := inputs[..|inputs| - 1], inputs[|inputs| - 1];
      TotalsAgree(init, histories, rate, stable, timestamp);
      var samples := SamplesOf(histories, input.priceMint);
      if input.stableUsdPrice.None? && samples != [] {
        var s := samples[Nearest(samples, timestamp)];
        AddAtRate(AnchorTotal(init, histories, rate, stable, timestamp).usdValue, input.balance, s.usdPrice, rate);
      }
    }
  }

  lemma {:induction false} AnchorSamplesAreSound(
      anchors: seq<Prices.Sample>, inputs: seq<Input>, histories: map<string, History>, rate: real)
    requires ConvertedAt(histories, rate)
    ensures forall s :: s in AnchorSamples(anchors, inputs, histories, rate) ==> Sound(s, rate)
  {
    if anchors != [] {
      AnchorSamplesAreSound(anchors[..|anchors| - 1], inputs, histories, rate);
      TotalsAgree(inputs, histories, rate, StableTotal(inputs), anchors[|anchors| - 1].timestamp);
    }
  }

  lemma CurrentSampleIsSound(inputs: seq<Input>, histories: map<string, History>, rate: real, timestamp: real)
    requires rate > 0.0 && CurrentSample(inputs, histories, rate, timestamp).Some?
    ensures Sound(CurrentSample(inputs, histories, rate, timestamp).value, rate)
  {
    ScaleStrict(0.0, CurrentTotal(inputs, histories).1, rate);
  }

  /** Every sample of the chart, before and after downsampling, has positive value in both currencies, one being the other at
      the rate. Negative balances cannot break this: such samples are not emitted. */
  lemma EverySampleIsSound(
      inputs: seq<Input>, histories: map<string, History>, rate: real, timestamp: real, durationMs: real)
    requires rate > 0.0 && ConvertedAt(histories, rate)
    ensures var chart := Chart(inputs, histories, rate, timestamp, durationMs);
            forall s :: s in chart || s in Downsampled(chart, MAX_HOLDINGS_VALUE_CHANGE_SAMPLES) ==> Sound(s, rate)
  {
    hide AnchorSamples, CurrentSample, Anchor, StableTotal, Downsampled, ConvertedAt, Sound;
    var chart := Chart(inputs, histories, rate, timestamp, durationMs);
    if CurrentSample(inputs, histories, rate, timestamp).Some? {
      CurrentSampleIsSound(inputs, histories, rate, timestamp);
    }
    if Anchor(inputs, histories) == [] {
      if StableTotal(inputs) > 0.0 { StableSampleIsSound(inputs, timestamp - durationMs, rate); }
    } else {
      AnchorSamplesAreSound(Anchor(inputs, histories), inputs, histories, rate);
    }
    DownsampledKeeps(chart, MAX_HOLDINGS_VALUE_CHANGE_SAMPLES, (x, y) => true);
  }

  lemma StableSampleIsSound(inputs: seq<Input>, timestamp: real, rate: real)
    requires rate > 0.0 && StableTotal(inputs) > 0.0
    ensures Sound(SampleOf(timestamp, StableTotal(inputs), rate), rate)
  {
    ScaleStrict(0.0, StableTotal(inputs), rate);
  }

  /** One pass over all eligible inputs, pricing a pegged one at its peg and any other at its nearest history sample. */
  function Valuation(inputs: seq<Input>, histories: map<string, History>, timestamp: real): real {
    if inputs == [] then 0.0
    else
      var input := inputs[|inputs| - 1];
      var samples := SamplesOf(histories, input.priceMint);
      Valuation(inputs[..|inputs| - 1], histories, timestamp)
      + input.balance * (if input.stableUsdPrice.Some? then input.stableUsdPrice.value
                         else if samples == [] then 0.0
                         else samples[Nearest(samples, timestamp)].usdPrice)
  }

  /** Totalling the pegged inputs once and adding the others per anchor is the one-pass valuation. */
  lemma {:induction false} SplitTotalIsTheValuation(
      inputs: seq<Input>, histories: map<string, History>, rate: real, stable: real, timestamp: real)
    ensures AnchorTotal(inputs, histories, rate, stable, timestamp).usdValue
            == stable - StableTotal(inputs) + Valuation(inputs, histories, timestamp)
  {
    if inputs != [] {
      SplitTotalIsTheValuation(inputs[..|inputs| - 1], histories, rate, stable, timestamp);
    }
  }

  // ----- The chart is chronological ---------------------------------------------------------------------------------

  ghost predicate Chronological(s: seq<Sample>) {
    forall i, j :: 0 <= i < j < |s| ==> s[i].timestamp <= s[j].timestamp
  }

  ghost predicate Ascending(s: seq<Prices.Sample>) {
    forall i, j :: 0 <= i < j < |s| ==> s[i].timestamp <= s[j].timestamp
  }

  lemma {:induction false} AnchorSamplesAreChronological(
      anchors: seq<Prices.Sample>, inputs: seq<Input>, histories: map<string, History>, rate: real)
    requires Ascending(anchors)
    ensures var r := AnchorSamples(anchors, inputs, histories, rate);
            Chronological(r) && forall s :: s in r ==> anchors != [] && s.timestamp <= anchors[|anchors| - 1].timestamp
  {
    if anchors != [] {
      AnchorSamplesAreChronological(anchors[..|anchors| - 1], inputs, histories, rate);
    }
  }

  /** On an ascending anchor history the chart never goes back in time, through both branches and downsampling. */
  lemma {:induction false} ChartIsChronological(
      inputs: seq<Input>, histories: map<string, History>, rate: real, timestamp: real, durationMs: real)
    requires Ascending(Anchor(inputs, histories)) && durationMs >= 0.0
    ensures var chart := Chart(inputs, histories, rate, timestamp, durationMs);
            Chronological(chart) && Chronological(Downsampled(chart, MAX_HOLDINGS_VALUE_CHANGE_SAMPLES))
  {
    hide AnchorSamples, CurrentSample, Anchor, StableTotal, Downsampled;
    var chart := Chart(inputs, histories, rate, timestamp, durationMs);
    assert CurrentSample(inputs, histories, rate, timestamp).Some? ==>
        CurrentSample(inputs, histories, rate, timestamp).value.timestamp == timestamp by {
      CurrentSampleIsNow(inputs, histories, rate, timestamp);
    }
    AnchorSamplesAreChronological(Anchor(inputs, histories), inputs, histories, rate);
    DownsampledKeeps(chart, MAX_HOLDINGS_VALUE_CHANGE_SAMPLES, (x: Sample, y: Sample) => x.timestamp <= y.timestamp);
  }

  lemma CurrentSampleIsNow(inputs: seq<Input>, histories: map<string, History>, rate: real, timestamp: real)
    ensures CurrentSample(inputs, histories, rate, timestamp).Some? ==>
              CurrentSample(inputs, histories, rate, timestamp).value.timestamp == timestamp
  {
  }

  /** The chart ends with the current valuation whenever there is one that is newer than every anchor. */
  lemma {:induction false} ChartEndsNow(
      inputs: seq<Input>, histories: map<string, History>, rate: real, timestamp: real, durationMs: real)
    requires CurrentSample(inputs, histories, rate, timestamp).Some? && Anchor(inputs, histories) != []
    requires forall a :: a in Anchor(inputs, histories) ==> a.timestamp < timestamp
    ensures var r := Downsampled(Chart(inputs, histories, rate, timestamp, durationMs), MAX_HOLDINGS_VALUE_CHANGE_SAMPLES);
            r != [] && r[|r| - 1] == CurrentSample(inputs, histories, rate, timestamp).value
  {
    hide CurrentSample, Anchor, StableTotal, Downsampled, AnchorSamples;
    var anchors := Anchor(inputs, histories);
    CurrentSampleIsNow(inputs, histories, rate, timestamp);
    AnchorSamplesComeFromAnchors(anchors, inputs, histories, rate);
    var chart := Chart(inputs, histories, rate, timestamp, durationMs);
    DownsampledKeeps(chart, MAX_HOLDINGS_VALUE_CHANGE_SAMPLES, (x, y) => true);
  }

  lemma {:induction false} AnchorSamplesComeFromAnchors(
      anchors: seq<Prices.Sample>, inputs: seq<Input>, histories: map<string, History>, rate: real)
    ensures forall s :: s in AnchorSamples(anchors, inputs, histories, rate) ==>
              exists a :: a in anchors && a.timestamp == s.timestamp
  {
    if anchors != [] {
      AnchorSamplesComeFromAnchors(anchors[..|anchors| - 1], inputs, histories, rate);
      assert anchors[|anchors| - 1] in anchors;
    }
  }

  /** In either branch a current valuation newer than every anchor is the last sample, and is what the inputs are worth now. */
  lemma LastSampleIsHeldNow(
      inputs: seq<Input>, histories: map<string, History>, rate: real, timestamp: real, durationMs: real)
    ensures EndsWithHeldNow(inputs, histories, rate, timestamp,
              Downsampled(Chart(inputs, histories, rate, timestamp, durationMs), MAX_HOLDINGS_VALUE_CHANGE_SAMPLES))
  {
    CurrentSampleIsHeldNow(inputs, histories, rate, timestamp);
    hide CurrentSample, Anchor, StableTotal, Downsampled, AnchorSamples, HeldNow;
    if HeldNow(inputs, histories) > 0.0 {
      if Anchor(inputs, histories) == [] {
        var chart := Chart(inputs, histories, rate, timestamp, durationMs);
        if StableTotal(inputs) > 0.0 { DownsampledKeeps(chart, MAX_HOLDINGS_VALUE_CHANGE_SAMPLES, (x, y) => true); }
      } else if forall a :: a in Anchor(inputs, histories) ==> a.timestamp < timestamp {
        ChartEndsNow(inputs, histories, rate, timestamp, durationMs);
      }
    }
  }

  // ----- Which histories and anchors appear -------------------------------------------------------------------------

  /** Exactly the pegged inputs and those with a history of two samples or more take part, as often as they are handed in. */
  lemma {:induction false} EligibleExactly(inputs: seq<Input>, histories: map<string, History>, input: Input)
    ensures multiset(EligibleInputs(inputs, histories))[input]
            == if input.stableUsdPrice.Some?
                  || (input.priceMint in histories && |histories[input.priceMint].samples| >= 2)
               then multiset(inputs)[input] else 0
  {
    if inputs != [] {
      var init, last := inputs[..|inputs| - 1], inputs[|inputs| - 1];
      EligibleExactly(init, histories, input);
      assert inputs == init + [last];
    }
  }

  /** The history an input that is not pegged could anchor the chart with. */
  predicate CanAnchor(input: Input, histories: map<string, History>) {
    input.stableUsdPrice.None? && input.priceMint in histories && |histories[input.priceMint].samples| >= 2
  }

  /** The anchors are the first of the longest histories, and missing exactly when there is none. */
  lemma {:induction false} AnchorIsFirstLongest(inputs: seq<Input>, histories: map<string, History>) returns (i: nat)
    ensures (forall j :: 0 <= j < |inputs| ==> !CanAnchor(inputs[j], histories)) ==> Anchor(inputs, histories) == []
    ensures (exists j :: 0 <= j < |inputs| && CanAnchor(inputs[j], histories)) ==>
              && i < |inputs| && CanAnchor(inputs[i], histories)
              && Anchor(inputs, histories) == histories[inputs[i].priceMint].samples
              && (forall j :: 0 <= j < |inputs| && CanAnchor(inputs[j], histories) ==>
                    |histories[inputs[j].priceMint].samples| <= |histories[inputs[i].priceMint].samples|)
              && (forall j :: 0 <= j < i && CanAnchor(inputs[j], histories) ==>
                    |histories[inputs[j].priceMint].samples| < |histories[inputs[i].priceMint].samples|)
  {
    i := 0;
    if inputs != [] {
      var init, last := inputs[..|inputs| - 1], inputs[|inputs| - 1];
      i := AnchorIsFirstLongest(init, histories);
      assert forall j :: 0 <= j < |init| ==> inputs[j] == init[j];
      if CanAnchor(last, histories)
         && (Anchor(init, histories) == [] || |histories[last.priceMint].samples| > |Anchor(init, histories)|) {
        i := |init|;
      }
    }
  }

  /** The anchors at which the inputs are worth something, each with their valuation there. */
  function ValuedAnchors(
      anchors: seq<Prices.Sample>, inputs: seq<Input>, histories: map<string, History>, rate: real): seq<Sample>
  {
    if anchors == [] then []
    else
      var t := anchors[|anchors| - 1].timestamp;
      var worth := Valuation(inputs, histories, t);
      ValuedAnchors(anchors[..|anchors| - 1], inputs, histories, rate)
      + (if worth > 0.0 then [SampleOf(t, worth, rate)] else [])
  }

  lemma {:induction false} PricedIsWorth(
      inputs: seq<Input>, histories: map<string, History>, rate: real, stable: real, timestamp: real)
    ensures var t := AnchorTotal(inputs, histories, rate, stable, timestamp); !t.priced ==> t.usdValue == stable <= 0.0
  {
    if inputs != [] {
      PricedIsWorth(inputs[..|inputs| - 1], histories, rate, stable, timestamp);
    }
  }

  /** With histories converted at one positive rate, the samples at the anchors are exactly the positive valuations there. */
  lemma {:induction false} AnchorSamplesAreValuations(
      anchors: seq<Prices.Sample>, inputs: seq<Input>, histories: map<string, History>, rate: real)
    requires rate > 0.0 && ConvertedAt(histories, rate)
    ensures AnchorSamples(anchors, inputs, histories, rate) == ValuedAnchors(anchors, inputs, histories, rate)
  {
    if anchors != [] {
      var t := anchors[|anchors| - 1].timestamp;
      AnchorSamplesAreValuations(anchors[..|anchors| - 1], inputs, histories, rate);
      SplitTotalIsTheValuation(inputs, histories, rate, StableTotal(inputs), t);
      TotalsAgree(inputs, histories, rate, StableTotal(inputs), t);
      PricedIsWorth(inputs, histories, rate, StableTotal(inputs), t);
      var total, worth := AnchorTotal(inputs, histories, rate, StableTotal(inputs), t), Valuation(inputs, histories, t);
      hide AnchorTotal, Valuation, ConvertedAt, StableTotal;
      assert total.usdValue == worth && total.value == worth * rate;
      if worth > 0.0 {
        ScaleStrict(0.0, worth, rate);
        assert total.priced && total.value > 0.0;
      }
      assert SampleOf(t, worth, rate) == Sample(t, total.value, total.usdValue);
    }
  }

  /** The reported change is that between the first and last sample, in both currencies and in percent, apart from rounding
      noise. */
  lemma ChangeMeasures(samples: seq<Sample>)
    ensures CalculateChange(samples).Some? <==> |samples| >= 2 && samples[0].value > 0.0
    ensures |samples| >= 2 && samples[0].value > 0.0 ==>
              var change, first, last := CalculateChange(samples).value, samples[0], samples[|samples| - 1];
              && (change.absolute == last.value - first.value
                  || (change.absolute == 0.0 && Abs(last.value - first.value) < ROUNDING_NOISE))
              && (change.usdAbsolute == last.usdValue - first.usdValue
                  || (change.usdAbsolute == 0.0 && Abs(last.usdValue - first.usdValue) < ROUNDING_NOISE))
              && (change.percent * first.value == change.absolute * 100.0
                  || (change.percent == 0.0 && Abs(change.absolute / first.value * 100.0) < ROUNDING_NOISE))
  {
  }

  /** Without a history the chart is a line from the pegged holdings at the start of the timeframe to what all are worth now. */
  lemma StableChartSpans(
      inputs: seq<Input>, histories: map<string, History>, rate: real, timestamp: real, durationMs: real)
    requires Anchor(inputs, histories) == []
    ensures var worth, pegged := HeldNow(inputs, histories), StableTotal(inputs);
            Chart(inputs, histories, rate, timestamp, durationMs)
            == if worth > 0.0 && pegged > 0.0
               then [SampleOf(timestamp - durationMs, pegged, rate), SampleOf(timestamp, worth, rate)] else []
  {
    CurrentSampleIsHeldNow(inputs, histories, rate, timestamp);
    var worth := HeldNow(inputs, histories);
    hide HeldNow, CurrentSample, Anchor, StableTotal;
    var current := CurrentSample(inputs, histories, rate, timestamp);
    assert current.Some? <==> worth > 0.0;
    if worth > 0.0 { assert current.value == SampleOf(timestamp, worth, rate); }
    hide SampleOf;
  }
}
