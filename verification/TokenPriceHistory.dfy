/** The token chart of hooks/useOffpayTokenPriceHistory.ts: conversion to the display currency, downsampling and the reported
    change, over the reals. */
module TokenPriceHistory {
  import opened ChartSampling
  import opened Common

  const MAX_TOKEN_PRICE_HISTORY_SAMPLES: nat := 180

  /** A point as the price service returns it; `None` stands for anything that is not a finite number. */
  datatype UsdPoint = UsdPoint(value: Option<real>, timestamp: Option<real>, marketCap: Option<real>, totalVolume: Option<real>)

  datatype Sample = Sample(
    price: real, usdPrice: real, timestamp: real, marketCapUsd: Option<real>, totalVolumeUsd: Option<real>)

  datatype Tone = Positive | Negative | Neutral

  datatype Change = Change(absolute: real, usdAbsolute: real, percent: real, tone: Tone)

  predicate Usable(p: UsdPoint) {
    IsPositive(p.value) && p.timestamp.Some?
  }

  function ConvertSamples(points: seq<UsdPoint>, rate: real): seq<Sample> {
    if points == [] then []
    else
      var p := points[|points| - 1];
      ConvertSamples(points[..|points| - 1], rate)
      + (if Usable(p)
         then [Sample(p.value.value * rate, p.value.value, p.timestamp.value, p.marketCap, p.totalVolume)]
         else [])
  }

  function ToneOf(percent: real): Tone {
    if percent > 0.0 then Positive else if percent < 0.0 then Negative else Neutral
  }

  function CalculateChange(samples: seq<Sample>): Option<Change> {
    if |samples| < 2 || samples[0].price <= 0.0 then None
    else
      var first, last := samples[0], samples[|samples| - 1];
      var absolute := last.price - first.price;
      var percent := absolute / first.price * 100.0;
      Some(Change(absolute, last.usdPrice - first.usdPrice, percent, ToneOf(percent)))
  }

  /** The samples and the change of a view. A rate that is unusable empties the chart. */
  method BuildView(points: seq<UsdPoint>, rate: Option<real>) returns (samples: seq<Sample>, change: Option<Change>)
    ensures var converted := if IsPositive(rate) then ConvertSamples(points, rate.value) else [];
            && samples == Downsampled(converted, MAX_TOKEN_PRICE_HISTORY_SAMPLES)
            && |samples| <= MAX_TOKEN_PRICE_HISTORY_SAMPLES
            && change == CalculateChange(converted)
  {
    var converted := if IsPositive(rate) then ConvertSamples(points, rate.value) else [];
    samples := Downsample(converted, MAX_TOKEN_PRICE_HISTORY_SAMPLES);
    change := CalculateChange(samples);
    ChangeSurvivesSampling(converted);
  }

  /** The change reported on the sampled list is the change of the full list. */
  lemma ChangeSurvivesSampling(samples: seq<Sample>)
    ensures CalculateChange(Downsampled(samples, MAX_TOKEN_PRICE_HISTORY_SAMPLES)) == CalculateChange(samples)
  {
    hide Downsampled;
    DownsampledKeeps(samples, MAX_TOKEN_PRICE_HISTORY_SAMPLES, (x, y) => true);
  }

  /** The usable points, in order. */
  function UsablePoints(points: seq<UsdPoint>): (r: seq<UsdPoint>)
    ensures forall i :: 0 <= i < |r| ==> Usable(r[i])
  {
    if points == [] then []
    else UsablePoints(points[..|points| - 1]) + (if Usable(points[|points| - 1]) then [points[|points| - 1]] else [])
  }

  /** Exactly the points with a positive value and a finite time are usable, as often as they come. */
  lemma {:induction false} UsableExactly(points: seq<UsdPoint>, p: UsdPoint)
    ensures multiset(UsablePoints(points))[p]
            == if p.value.Some? && p.value.value > 0.0 && p.timestamp.Some? then multiset(points)[p] else 0
  {
    if points != [] {
      UsableExactly(points[..|points| - 1], p);
      assert points == points[..|points| - 1] + [points[|points| - 1]];
    }
  }

  lemma {:induction false} ConvertedAt(points: seq<UsdPoint>, rate: real)
    ensures |ConvertSamples(points, rate)| == |UsablePoints(points)|
    ensures forall i :: 0 <= i < |UsablePoints(points)| ==>
              var s, p := ConvertSamples(points, rate)[i], UsablePoints(points)[i];
              && s.price == p.value.value * rate && s.usdPrice == p.value.value > 0.0 && s.timestamp == p.timestamp.value
              && s.marketCapUsd == p.marketCap && s.totalVolumeUsd == p.totalVolume
  {
    if points != [] {
      var init, p := points[..|points| - 1], points[|points| - 1];
      ConvertedAt(init, rate);
      if !Usable(p) {
        assert ConvertSamples(points, rate) == ConvertSamples(init, rate) && UsablePoints(points) == UsablePoints(init);
      }
    }
  }

  /** The percentage and its tone do not depend on the display currency: they are those of the first and last usable dollar
      prices, and the absolute change is the dollar change at the rate. */
  lemma ChangeIsTheDollarChange(points: seq<UsdPoint>, rate: real)
    requires rate > 0.0
    ensures var change, usable := CalculateChange(ConvertSamples(points, rate)), UsablePoints(points);
            && (change.Some? <==> |usable| >= 2)
            && (change.Some? ==>
                  var first, last := usable[0].value.value, usable[|usable| - 1].value.value;
                  && change.value.usdAbsolute == last - first
                  && change.value.absolute == (last - first) * rate
                  && change.value.percent == (last - first) / first * 100.0
                  && (change.value.tone == Positive <==> last > first)
                  && (change.value.tone == Negative <==> last < first))
  {
    ConvertedAt(points, rate);
    var usable, samples := UsablePoints(points), ConvertSamples(points, rate);
    hide UsablePoints, ConvertSamples, CalculateChange;
    if |usable| >= 2 {
      assert samples[0].usdPrice == usable[0].value.value;
      EndsDecide(samples, usable[0].value.value, usable[|usable| - 1].value.value, rate);
    } else {
      TooShort(samples);
    }
  }

  lemma TooShort(samples: seq<Sample>)
    requires |samples| < 2
    ensures CalculateChange(samples).None?
  {
  }

  lemma EndsDecide(samples: seq<Sample>, first: real, last: real, rate: real)
    requires |samples| >= 2 && first > 0.0 && rate > 0.0
    requires samples[0].usdPrice == first && samples[0].price == first * rate
    requires samples[|samples| - 1].usdPrice == last && samples[|samples| - 1].price == last * rate
    ensures CalculateChange(samples)
            == Some(Change((last - first) * rate, last - first, (last - first) / first * 100.0,
                           if last > first then Positive else if last < first then Negative else Neutral))
  {
    SignOfRatio(last - first, first);
  }

  lemma SignOfRatio(x: real, y: real)
    requires y > 0.0
    ensures x / y > 0.0 <==> x > 0.0
    ensures x / y < 0.0 <==> x < 0.0
  {
    assert x / y * y == x;
  }
}
