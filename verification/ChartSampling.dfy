/** The chart downsampling shared, line for line, by hooks/useOffpayHoldingsValueChange.ts and
    hooks/useOffpayTokenPriceHistory.ts. Its arithmetic is modelled over the reals; RoundingIsRobust says why binary floating
    point picks the same samples. */
module ChartSampling {

  /** `Math.round` */
  function Round(x: real): int {
    (x + 0.5).Floor
  }

  /** The position of sample `index` of `cap` on a list of `n`, before rounding. */
  function Share(index: nat, cap: nat, n: nat): real
    requires cap >= 2 && n >= 1
  {
    (index as real / (cap - 1) as real) * (n - 1) as real
  }

  function SourceIndex(index: nat, cap: nat, n: nat): int
    requires cap >= 2 && n >= 1
  {
    Round(Share(index, cap, n))
  }

  lemma ShareStep(index: nat, cap: nat, n: nat)
    requires cap >= 2 && n >= 1
    ensures Share(index + 1, cap, n) == Share(index, cap, n) + (n - 1) as real / (cap - 1) as real
  {
    var steps, span := (cap - 1) as real, (n - 1) as real;
    assert ((index + 1) as real) / steps == index as real / steps + 1.0 / steps;
    assert (1.0 / steps) * span == span / steps;
  }

  lemma ShareEnds(cap: nat, n: nat)
    requires cap >= 2 && n >= 1
    ensures SourceIndex(0, cap, n) == 0 && SourceIndex(cap - 1, cap, n) == n - 1
  {
    var steps := (cap - 1) as real;
    assert 0.0 / steps == 0.0 && steps / steps == 1.0;
    assert Share(0, cap, n) == 0.0 && Share(cap - 1, cap, n) == (n - 1) as real;
  }

  /** `Math.ceil((n - 1) / (cap - 1))` */
  function LargestGap(cap: nat, n: nat): nat
    requires cap >= 2 && n >= 1
  {
    (n - 1 + cap - 2) / (cap - 1)
  }

  lemma QuotientBounds(a: nat, b: nat)
    requires b > 0
    ensures a as real / b as real <= ((a + b - 1) / b) as real
    ensures a >= b ==> a as real / b as real >= 1.0
  {
    var q := (a + b - 1) / b;
    assert a <= q * b;
    assert a as real <= q as real * b as real;
  }

  /** Neighbouring samples come from strictly increasing positions that are never further apart than the largest gap. */
  lemma SourceIndexStep(index: nat, cap: nat, n: nat)
    requires cap >= 2 && n >= cap
    ensures SourceIndex(index, cap, n) < SourceIndex(index + 1, cap, n)
    ensures SourceIndex(index + 1, cap, n) <= SourceIndex(index, cap, n) + LargestGap(cap, n)
  {
    ShareStep(index, cap, n);
    QuotientBounds(n - 1, cap - 1);
    hide Share;
    var step := (n - 1) as real / (cap - 1) as real;
    var r, q := Share(index, cap, n) + 0.5, SourceIndex(index, cap, n);
    assert q as real <= r < q as real + 1.0;
    assert SourceIndex(index + 1, cap, n) as real <= r + step < SourceIndex(index + 1, cap, n) as real + 1.0;
  }

  lemma {:induction false} SourceIndexIncreases(i: nat, j: nat, cap: nat, n: nat)
    requires cap >= 2 && n >= cap && i < j
    ensures SourceIndex(i, cap, n) < SourceIndex(j, cap, n)
    decreases j
  {
    hide SourceIndex;
    SourceIndexStep(j - 1, cap, n);
    if i < j - 1 { SourceIndexIncreases(i, j - 1, cap, n); }
  }

  lemma SourceIndexInRange(index: nat, cap: nat, n: nat)
    requires cap >= 2 && n >= cap && index < cap
    ensures 0 <= SourceIndex(index, cap, n) < n
  {
    hide SourceIndex;
    ShareEnds(cap, n);
    if index > 0 { SourceIndexIncreases(0, index, cap, n); }
    if index < cap - 1 { SourceIndexIncreases(index, cap - 1, cap, n); }
  }

  /** With an even cap the exact share is never halfway between two positions, so every value computed within half a step of
      the share rounds to the same position. */
  lemma RoundingIsRobust(index: nat, cap: nat, n: nat, computed: real)
    requires cap >= 2 && cap % 2 == 0 && n >= 1
    requires var error := computed - Share(index, cap, n);
             -1.0 < error * (2 * (cap - 1)) as real < 1.0
    ensures Round(computed) == SourceIndex(index, cap, n)
  {
    var exact, q := Share(index, cap, n), SourceIndex(index, cap, n);
    ShareDoubled(index, cap, n);
    EvenProduct(index, n - 1);
    hide Share;
    SameSide(exact, computed, cap - 1, 2 * index * (n - 1), q);
    SameSide(exact, computed, cap - 1, 2 * index * (n - 1), q + 1);
  }

  lemma EvenProduct(x: int, y: int)
    ensures (2 * x * y) % 2 == 0
  {
    assert 2 * x * y == 2 * (x * y);
  }

  /** An odd number of steps puts every rounding boundary `b - 1/2` at least half a step away from an exact share. */
  lemma SameSide(exact: real, computed: real, steps: nat, share: int, b: int)
    requires steps % 2 == 1 && share % 2 == 0
    requires exact * (2 * steps) as real == share as real
    requires -1.0 < (computed - exact) * (2 * steps) as real < 1.0
    ensures exact >= b as real - 0.5 <==> computed >= b as real - 0.5
  {
    OddProduct(2 * b - 1, steps);
    BoundaryDoubled(b, steps);
    Distribute(computed, exact, (2 * steps) as real);
    ScaledSameSide(exact, computed, b as real - 0.5, (2 * steps) as real, share, (2 * b - 1) * steps);
  }

  lemma Distribute(x: real, y: real, k: real)
    ensures (x - y) * k == x * k - y * k
  {
  }

  lemma ScaledSameSide(exact: real, computed: real, boundary: real, k: real, share: int, odd: int)
    requires k > 0.0 && share % 2 == 0 && odd % 2 == 1
    requires exact * k == share as real && boundary * k == odd as real
    requires -1.0 < computed * k - share as real < 1.0
    ensures exact >= boundary <==> computed >= boundary
  {
    if exact >= boundary {
      ScaleOrder(boundary, exact, k);
      assert share >= odd + 1;
      assert share as real - 1.0 >= odd as real;
      Unscale(boundary, computed, k);
    } else {
      ScaleStrict(exact, boundary, k);
      assert share + 1 <= odd;
      assert share as real + 1.0 <= odd as real;
      Unscale(computed, boundary, k);
    }
  }

  lemma BoundaryDoubled(b: int, steps: nat)
    ensures (b as real - 0.5) * (2 * steps) as real == ((2 * b - 1) * steps) as real
  {
    assert (2 * steps) as real == 2.0 * steps as real;
    assert ((2 * b - 1) * steps) as real == (2 * b - 1) as real * steps as real;
  }

  lemma ShareDoubled(index: nat, cap: nat, n: nat)
    requires cap >= 2 && n >= 1
    ensures Share(index, cap, n) * (2 * (cap - 1)) as real == (2 * index * (n - 1)) as real
  {
    var steps, span := (cap - 1) as real, (n - 1) as real;
    var part := index as real / steps;
    assert part * steps == index as real;
    assert part * span * (2.0 * steps) == 2.0 * (part * steps) * span;
    assert (index * (n - 1)) as real == index as real * span;
  }

  lemma ScaleOrder(x: real, y: real, k: real)
    requires x <= y && k > 0.0
    ensures x * k <= y * k
  {
  }

  lemma ScaleStrict(x: real, y: real, k: real)
    requires x < y && k > 0.0
    ensures x * k < y * k
  {
  }

  lemma Unscale(x: real, y: real, k: real)
    requires x * k < y * k && k > 0.0
    ensures x < y
  {
    if y <= x { ScaleOrder(y, x, k); }
  }

  lemma OddProduct(a: int, b: int)
    requires a % 2 == 1 && b % 2 == 1
    ensures (a * b) % 2 == 1
  {
    var x, y := a / 2, b / 2;
    assert a * b == 2 * (2 * x * y + x + y) + 1;
  }

  // ----- The sampled list -------------------------------------------------------------------------------------------

  /** The source positions of a sampled list. */
  function Positions(cap: nat, n: nat): seq<int>
    requires cap >= 2 && n >= 1
  {
    seq(cap, i requires 0 <= i < cap => SourceIndex(i, cap, n))
  }

  /** `r` keeps the elements of `s` at `at`: in order, with both ends, and with no gap above `gap`. */
  ghost predicate IsSample<T>(r: seq<T>, s: seq<T>, at: seq<int>, gap: nat) {
    && |r| == |at| >= 2
    && (forall i :: 0 <= i < |at| ==> 0 <= at[i] < |s| && r[i] == s[at[i]])
    && (forall i, j :: 0 <= i < j < |at| ==> at[i] < at[j])
    && (forall i :: 0 <= i < |at| - 1 ==> at[i + 1] <= at[i] + gap)
    && at[0] == 0 && at[|at| - 1] == |s| - 1
  }

  /** A list within the cap is returned unchanged; a longer one is cut to exactly the cap, at strictly increasing positions
      that start with the first, end with the last and leave no gap above `ceil((n - 1) / (cap - 1))`. */
  method Downsample<T>(samples: seq<T>, cap: nat) returns (result: seq<T>)
    requires cap >= 2
    ensures |samples| <= cap ==> result == samples
    ensures |samples| > cap ==>
              |result| == cap && IsSample(result, samples, Positions(cap, |samples|), LargestGap(cap, |samples|))
    ensures result == Downsampled(samples, cap)
  {
    if |samples| <= cap { return samples; }
    PositionsAreSpread(cap, |samples|);
    ghost var at := Positions(cap, |samples|);
    result := [];
    var previousIndex := -1;
    var index := 0;
    while index < cap
      invariant 0 <= index <= cap && |result| == index
      invariant previousIndex == if index == 0 then -1 else at[index - 1]
      invariant forall i :: 0 <= i < index ==> result[i] == samples[at[i]]
    {
      hide LargestGap, Round, Share;
      var sourceIndex := SourceIndex(index, cap, |samples|);
      assert sourceIndex == at[index];
      if sourceIndex != previousIndex {
        previousIndex := sourceIndex;
        if 0 <= sourceIndex < |samples| { result := result + [samples[sourceIndex]]; }
      }
      index := index + 1;
    }
  }

  lemma PositionsAreSpread(cap: nat, n: nat)
    requires cap >= 2 && n > cap
    ensures var at := Positions(cap, n);
            && |at| == cap && at[0] == 0 && at[cap - 1] == n - 1
            && (forall i :: 0 <= i < cap ==> 0 <= at[i] < n)
            && (forall i, j :: 0 <= i < j < cap ==> at[i] < at[j])
            && (forall i :: 0 <= i < cap - 1 ==> at[i + 1] <= at[i] + LargestGap(cap, n))
  {
    hide SourceIndex, LargestGap;
    ShareEnds(cap, n);
    forall i | 0 <= i < cap ensures 0 <= SourceIndex(i, cap, n) < n { SourceIndexInRange(i, cap, n); }
    forall i, j | 0 <= i < j < cap ensures SourceIndex(i, cap, n) < SourceIndex(j, cap, n) {
      SourceIndexIncreases(i, j, cap, n);
    }
    forall i | 0 <= i < cap - 1
      ensures SourceIndex(i + 1, cap, n) <= SourceIndex(i, cap, n) + LargestGap(cap, n)
    {
      SourceIndexStep(i, cap, n);
    }
  }

  /** The value Downsample returns. */
  function Downsampled<T>(samples: seq<T>, cap: nat): seq<T>
    requires cap >= 2
  {
    if |samples| <= cap then samples
    else
      PositionsAreSpread(cap, |samples|);
      var at := Positions(cap, |samples|);
      seq(cap, i requires 0 <= i < cap => samples[at[i]])
  }

  /** Sampling keeps the length class, both ends, and every relation that holds between earlier and later elements. */
  lemma DownsampledKeeps<T(!new)>(samples: seq<T>, cap: nat, related: (T, T) -> bool)
    requires cap >= 2
    requires forall i, j :: 0 <= i < j < |samples| ==> related(samples[i], samples[j])
    ensures var r := Downsampled(samples, cap);
            && (|r| < 2 <==> |samples| < 2)
            && (samples != [] <==> r != [])
            && (samples != [] ==> r[0] == samples[0] && r[|r| - 1] == samples[|samples| - 1])
            && (forall x :: x in r ==> x in samples)
            && (forall i, j :: 0 <= i < j < |r| ==> related(r[i], r[j]))
  {
    if |samples| > cap { PositionsAreSpread(cap, |samples|); }
  }
}
