/** The tax engine: progressive brackets, the exemption/flat-rate/bracket
    dispatch, resolution of stored tax-option ids against the registry, and
    the annual/monthly helpers (src/services/taxCalculator.ts). Amounts and
    rates are exact reals; nothing is rounded. */
module TaxCalculator {
  import opened Wrappers
  import opened TaxConfig
  import opened BracketSort

  // ---------------------------------------------------------------------------
  // Progressive brackets
  // ---------------------------------------------------------------------------

  /** The part of `amount` that bracket `i` of the sorted list taxes, once the
      amount is known to exceed the bracket's threshold: up to the next
      bracket's threshold, or without bound for the last bracket. */
  function SliceInBracket(amount: real, sorted: seq<TaxBracket>, i: nat): real
    requires i < |sorted|
  {
    if i + 1 < |sorted| then
      if amount <= sorted[i + 1].threshold then amount - sorted[i].threshold
      else sorted[i + 1].threshold - sorted[i].threshold
    else amount - sorted[i].threshold
  }

  /** The tax the walk over `sorted` accrues from bracket `i` on; the walk
      stops at the first bracket whose threshold the amount does not exceed. */
  function Accrued(amount: real, sorted: seq<TaxBracket>, i: nat): real
    requires i <= |sorted|
    decreases |sorted| - i
  {
    if i == |sorted| || amount <= sorted[i].threshold then 0.0
    else SliceInBracket(amount, sorted, i) * (sorted[i].rate / 100.0) + Accrued(amount, sorted, i + 1)
  }

  /** The value `calculateProgressiveTax` returns. */
  function ProgressiveTax(amount: real, brackets: seq<TaxBracket>): real
  {
    if amount <= 0.0 then 0.0
    else if |brackets| == 0 then 0.0
    else Accrued(amount, SortByThreshold(brackets), 0)
  }

  /** `calculateProgressiveTax`: sorts a copy of the caller's brackets (the
      caller's array is not in the frame, so it is left as it was), then
      walks the copy accumulating `slice * rate / 100`. */
  method CalculateProgressiveTax(amount: real, brackets: array<TaxBracket>) returns (totalTax: real)
    ensures totalTax == ProgressiveTax(amount, brackets[..])
  {
    if amount <= 0.0 {
      return 0.0;
    }
    if brackets.Length == 0 {
      return 0.0;
    }
    var sorted := new TaxBracket[brackets.Length];
    forall k | 0 <= k < brackets.Length {
      sorted[k] := brackets[k];
    }
    assert sorted[..] == brackets[..];
    SortInPlace(sorted);
    totalTax := WalkSorted(amount, sorted);
  }

  /** The loop of `calculateProgressiveTax` over the already sorted copy:
      it stops at the first bracket whose threshold the amount does not
      exceed. */
  method WalkSorted(amount: real, sorted: array<TaxBracket>) returns (totalTax: real)
    ensures totalTax == Accrued(amount, sorted[..], 0)
  {
    ghost var s := sorted[..];
    totalTax := 0.0;
    var i := 0;
    while i < sorted.Length
      invariant 0 <= i <= sorted.Length
      invariant totalTax + Accrued(amount, s, i) == Accrued(amount, s, 0)
    {
      var current := sorted[i];
      if amount <= current.threshold {
        break;
      }
      var taxableInBracket: real;
      if i + 1 < sorted.Length {
        var next := sorted[i + 1];
        if amount <= next.threshold {
          taxableInBracket := amount - current.threshold;
        } else {
          taxableInBracket := next.threshold - current.threshold;
        }
      } else {
        taxableInBracket := amount - current.threshold;
      }
      assert current == s[i] && taxableInBracket == SliceInBracket(amount, s, i);
      AccruedStep(amount, s, i);
      totalTax := totalTax + taxableInBracket * (current.rate / 100.0);
      i := i + 1;
    }
  }

  /** One step of the walk: bracket `i`'s slice at its rate, then the rest. */
  lemma AccruedStep(amount: real, sorted: seq<TaxBracket>, i: nat)
    requires i < |sorted| && amount > sorted[i].threshold
    ensures Accrued(amount, sorted, i) ==
      SliceInBracket(amount, sorted, i) * (sorted[i].rate / 100.0) + Accrued(amount, sorted, i + 1)
  {
  }

  // ---------------------------------------------------------------------------
  // Reference definition: a sum of marginal rates over bracket slices
  // ---------------------------------------------------------------------------

  function Min(a: real, b: real): real
  {
    if a <= b then a else b
  }

  /** The tax bracket `i` of a sorted list contributes under the usual
      marginal-rate reading: its rate applied to the part of the amount between
      its threshold and the next one (the last bracket has no upper end), and
      nothing when the amount does not exceed its threshold. */
  function MarginalTax(amount: real, sorted: seq<TaxBracket>, i: nat): real
    requires i < |sorted|
  {
    var upper := if i + 1 < |sorted| then Min(amount, sorted[i + 1].threshold) else amount;
    if sorted[i].threshold < amount then (sorted[i].rate / 100.0) * (upper - sorted[i].threshold) else 0.0
  }

  /** The sum of the marginal contributions of brackets `i` onwards. */
  function MarginalSum(amount: real, sorted: seq<TaxBracket>, i: nat): real
    requires i <= |sorted|
    decreases |sorted| - i
  {
    if i == |sorted| then 0.0 else MarginalTax(amount, sorted, i) + MarginalSum(amount, sorted, i + 1)
  }

  lemma {:induction false} MarginalSumAboveAmount(amount: real, sorted: seq<TaxBracket>, i: nat)
    requires SortedByThreshold(sorted)
    requires i < |sorted| && amount <= sorted[i].threshold
    ensures MarginalSum(amount, sorted, i) == 0.0
    decreases |sorted| - i
  {
    if i + 1 < |sorted| {
      MarginalSumAboveAmount(amount, sorted, i + 1);
    }
  }

  /** On a sorted list, stopping the walk at the first bracket the amount
      does not reach loses nothing: the walk equals the marginal sum. */
  lemma {:induction false} AccruedIsMarginalSum(amount: real, sorted: seq<TaxBracket>, i: nat)
    requires SortedByThreshold(sorted)
    requires i <= |sorted|
    ensures Accrued(amount, sorted, i) == MarginalSum(amount, sorted, i)
    decreases |sorted| - i
  {
    if i < |sorted| {
      if amount <= sorted[i].threshold {
        MarginalSumAboveAmount(amount, sorted, i);
      } else {
        AccruedIsMarginalSum(amount, sorted, i + 1);
      }
    }
  }

  /** `calculateProgressiveTax` is 0 for a non-positive amount and for an
      empty list, and otherwise the marginal sum over the brackets sorted by
      threshold. */
  lemma ProgressiveTaxIsMarginalSum(amount: real, brackets: seq<TaxBracket>)
    ensures amount <= 0.0 || |brackets| == 0 ==> ProgressiveTax(amount, brackets) == 0.0
    ensures amount > 0.0 ==>
      ProgressiveTax(amount, brackets) == MarginalSum(amount, SortByThreshold(brackets), 0)
  {
    SortByThresholdSorted(brackets);
    AccruedIsMarginalSum(amount, SortByThreshold(brackets), 0);
  }

  // ---------------------------------------------------------------------------
  // Sign, monotonicity and order of the progressive tax
  // ---------------------------------------------------------------------------

  predicate NonNegativeRates(brackets: seq<TaxBracket>)
  {
    forall i :: 0 <= i < |brackets| ==> brackets[i].rate >= 0.0
  }

  lemma MulNonNegative(x: real, y: real)
    requires x >= 0.0 && y >= 0.0
    ensures x * y >= 0.0
  {
  }

  lemma {:induction false} AccruedNonNegative(amount: real, sorted: seq<TaxBracket>, i: nat)
    requires SortedByThreshold(sorted) && NonNegativeRates(sorted)
    requires i <= |sorted|
    ensures Accrued(amount, sorted, i) >= 0.0
    decreases |sorted| - i
  {
    if i < |sorted| && amount > sorted[i].threshold {
      AccruedNonNegative(amount, sorted, i + 1);
      MulNonNegative(SliceInBracket(amount, sorted, i), sorted[i].rate / 100.0);
    }
  }

  lemma SortKeepsRates(brackets: seq<TaxBracket>)
    requires NonNegativeRates(brackets)
    ensures NonNegativeRates(SortByThreshold(brackets))
  {
    SortByThresholdSorted(brackets);
    var sorted := SortByThreshold(brackets);
    forall i | 0 <= i < |sorted|
      ensures sorted[i].rate >= 0.0
    {
      assert sorted[i] in multiset(brackets);
    }
  }

  /** With no negative rate the progressive tax is never negative. */
  lemma ProgressiveTaxNonNegative(amount: real, brackets: seq<TaxBracket>)
    requires NonNegativeRates(brackets)
    ensures ProgressiveTax(amount, brackets) >= 0.0
  {
    SortByThresholdSorted(brackets);
    SortKeepsRates(brackets);
    AccruedNonNegative(amount, SortByThreshold(brackets), 0);
  }

  lemma MulMonotone(x: real, y1: real, y2: real)
    requires x >= 0.0 && y1 <= y2
    ensures x * y1 <= x * y2
  {
    assert x * y2 - x * y1 == x * (y2 - y1);
    MulNonNegative(x, y2 - y1);
  }

  lemma MarginalTaxMonotone(a1: real, a2: real, sorted: seq<TaxBracket>, i: nat)
    requires SortedByThreshold(sorted) && NonNegativeRates(sorted)
    requires i < |sorted| && a1 <= a2
    ensures MarginalTax(a1, sorted, i) <= MarginalTax(a2, sorted, i)
  {
    assert sorted[i].rate >= 0.0 && OrderedAt(sorted, i);
    MarginalTaxAsClamp(a1, sorted, i);
    MarginalTaxAsClamp(a2, sorted, i);
    ClampMonotone(a1, a2, sorted, i);
    ScaledOrder(MarginalTax(a1, sorted, i), MarginalTax(a2, sorted, i), sorted[i].rate / 100.0,
                Clamp(a1, sorted, i), Clamp(a2, sorted, i), sorted[i].threshold);
  }

  /** A non-negative rate applied above the same point keeps the order of
      two cut-off points. */
  lemma ScaledOrder(m1: real, m2: real, r: real, c1: real, c2: real, t: real)
    requires m1 == r * (c1 - t) && m2 == r * (c2 - t) && r >= 0.0 && c1 <= c2
    ensures m1 <= m2
  {
    MulMonotone(r, c1 - t, c2 - t);
  }

  lemma {:induction false} MarginalSumMonotone(a1: real, a2: real, sorted: seq<TaxBracket>, i: nat)
    requires SortedByThreshold(sorted) && NonNegativeRates(sorted)
    requires i <= |sorted| && a1 <= a2
    ensures MarginalSum(a1, sorted, i) <= MarginalSum(a2, sorted, i)
    decreases |sorted| - i
  {
    if i < |sorted| {
      MarginalTaxMonotone(a1, a2, sorted, i);
      MarginalSumMonotone(a1, a2, sorted, i + 1);
    }
  }

  /** With no negative rate, a larger amount never owes less tax. */
  lemma ProgressiveTaxMonotone(a1: real, a2: real, brackets: seq<TaxBracket>)
    requires NonNegativeRates(brackets) && a1 <= a2
    ensures ProgressiveTax(a1, brackets) <= ProgressiveTax(a2, brackets)
  {
    ProgressiveTaxNonNegative(a2, brackets);
    if a1 > 0.0 {
      ProgressiveTaxIsMarginalSum(a1, brackets);
      ProgressiveTaxIsMarginalSum(a2, brackets);
      SortByThresholdSorted(brackets);
      SortKeepsRates(brackets);
      MarginalSumMonotone(a1, a2, SortByThreshold(brackets), 0);
    }
  }

  function Max(a: real, b: real): real
  {
    if a <= b then b else a
  }

  /** Every rate lies between 0 and `top` percent. */
  predicate RatesWithin(brackets: seq<TaxBracket>, top: real)
  {
    forall i :: 0 <= i < |brackets| ==> 0.0 <= brackets[i].rate <= top
  }

  predicate ThresholdsNonNegative(brackets: seq<TaxBracket>)
  {
    forall i :: 0 <= i < |brackets| ==> brackets[i].threshold >= 0.0
  }

  lemma SortKeepsBounds(brackets: seq<TaxBracket>, top: real)
    ensures RatesWithin(brackets, top) ==> RatesWithin(SortByThreshold(brackets), top)
    ensures ThresholdsNonNegative(brackets) ==> ThresholdsNonNegative(SortByThreshold(brackets))
  {
    SortByThresholdSorted(brackets);
    var sorted := SortByThreshold(brackets);
    forall i | 0 <= i < |sorted|
      ensures exists j :: 0 <= j < |brackets| && brackets[j] == sorted[i]
    {
      assert sorted[i] in multiset(brackets);
    }
  }

  /** Bracket `i` does not lie above the bracket after it (if any). */
  predicate OrderedAt(sorted: seq<TaxBracket>, i: nat)
    requires i < |sorted|
  {
    i + 1 < |sorted| ==> sorted[i].threshold <= sorted[i + 1].threshold
  }

  /** Where bracket `i` of a sorted list cuts off `a`: `a` clamped between
      its threshold and the next one (no upper end for the last bracket). */
  function Clamp(a: real, sorted: seq<TaxBracket>, i: nat): real
    requires i < |sorted|
  {
    if i + 1 < |sorted| then Max(sorted[i].threshold, Min(a, sorted[i + 1].threshold))
    else Max(a, sorted[i].threshold)
  }

  lemma ClampMonotone(a1: real, a2: real, sorted: seq<TaxBracket>, i: nat)
    requires i < |sorted| && a1 <= a2
    ensures Clamp(a1, sorted, i) <= Clamp(a2, sorted, i)
  {
  }

  lemma MarginalTaxAsClamp(a: real, sorted: seq<TaxBracket>, i: nat)
    requires i < |sorted| && OrderedAt(sorted, i)
    ensures MarginalTax(a, sorted, i) == (sorted[i].rate / 100.0) * (Clamp(a, sorted, i) - sorted[i].threshold)
  {
  }

  lemma ScaleBelowTop(r: real, top: real, d: real)
    requires 0.0 <= r <= top && d >= 0.0
    ensures r * d <= top * d
  {
    MulNonNegative(top - r, d);
    assert top * d - r * d == (top - r) * d;
  }

  lemma ScaleDifference(r: real, x: real, y: real, t: real)
    ensures r * (x - t) - r * (y - t) == r * (x - y)
  {
  }

  /** Clamping to one bracket and then to everything above it splits the
      part of `a` above the bracket's threshold. */
  lemma ClampSplit(a: real, t: real, next: real)
    requires t <= next
    ensures Max(t, Min(a, next)) + Max(a, next) == Max(a, t) + next
  {
  }

  /** One rate between 0 and `k` applied between two cut-off points adds at
      most `k` times their distance. */
  lemma RateBetween(d: real, r: real, k: real, c1: real, c2: real, t: real)
    requires d == r * (c2 - t) - r * (c1 - t) && 0.0 <= r <= k && c1 <= c2
    ensures d <= k * (c2 - c1)
  {
    ScaleDifference(r, c2, c1, t);
    ScaleBelowTop(r, k, c2 - c1);
  }

  /** Between two amounts, one bracket adds at most the top rate `k` (as a
      fraction) times the part of the gap that falls inside the bracket. */
  lemma BracketLipschitz(a1: real, a2: real, sorted: seq<TaxBracket>, top: real, k: real, i: nat)
    requires i < |sorted| && OrderedAt(sorted, i) && 0.0 <= sorted[i].rate <= top && k == top / 100.0
    requires a1 <= a2
    ensures Clamp(a1, sorted, i) <= Clamp(a2, sorted, i)
    ensures MarginalTax(a2, sorted, i) - MarginalTax(a1, sorted, i) <=
      k * (Clamp(a2, sorted, i) - Clamp(a1, sorted, i))
  {
    MarginalTaxAsClamp(a1, sorted, i);
    MarginalTaxAsClamp(a2, sorted, i);
    RateBetween(MarginalTax(a2, sorted, i) - MarginalTax(a1, sorted, i), sorted[i].rate / 100.0, k,
                Clamp(a1, sorted, i), Clamp(a2, sorted, i), sorted[i].threshold);
  }

  /** A non-negative factor can be taken inside a maximum or a minimum. */
  lemma ScaleMaxMin(k: real, x: real, y: real)
    requires k >= 0.0
    ensures k * Max(x, y) == Max(k * x, k * y)
    ensures k * Min(x, y) == Min(k * x, k * y)
  {
    if x <= y {
      MulMonotone(k, x, y);
    } else {
      MulMonotone(k, y, x);
    }
  }

  /** The thresholds of a list of brackets, each multiplied by `k`. */
  function ScaledThresholds(sorted: seq<TaxBracket>, k: real): (ts: seq<real>)
    ensures |ts| == |sorted|
    ensures forall j :: 0 <= j < |sorted| ==> ts[j] == k * sorted[j].threshold
  {
    seq(|sorted|, j requires 0 <= j < |sorted| => k * sorted[j].threshold)
  }

  predicate Ascending(ts: seq<real>)
  {
    forall i, j :: 0 <= i < j < |ts| ==> ts[i] <= ts[j]
  }

  lemma ScaledThresholdsAscending(sorted: seq<TaxBracket>, k: real)
    requires SortedByThreshold(sorted) && k >= 0.0
    ensures Ascending(ScaledThresholds(sorted, k))
  {
    var ts := ScaledThresholds(sorted, k);
    forall i, j | 0 <= i < j < |ts|
      ensures ts[i] <= ts[j]
    {
      MulMonotone(k, sorted[i].threshold, sorted[j].threshold);
    }
  }

  /** `b` clamped between cut-off `i` of `ts` and the next one (no upper end
      after the last one): `Clamp` over plain cut-off points. */
  function ClampAt(b: real, ts: seq<real>, i: nat): real
    requires i < |ts|
  {
    if i + 1 < |ts| then Max(ts[i], Min(b, ts[i + 1])) else Max(b, ts[i])
  }

  lemma ScaledClamp(a: real, sorted: seq<TaxBracket>, k: real, i: nat)
    requires i < |sorted| && k >= 0.0
    ensures k * Clamp(a, sorted, i) == ClampAt(k * a, ScaledThresholds(sorted, k), i)
  {
    if i + 1 < |sorted| {
      ScaleMaxMin(k, a, sorted[i + 1].threshold);
      ScaleMaxMin(k, sorted[i].threshold, Min(a, sorted[i + 1].threshold));
    } else {
      ScaleMaxMin(k, a, sorted[i].threshold);
    }
  }

  lemma ScaleSub(k: real, x: real, y: real)
    ensures k * (x - y) == k * x - k * y
  {
  }

  /** Between two amounts, one bracket adds at most the top rate applied to
      the part of the gap inside the bracket. */
  lemma BracketScaled(a1: real, a2: real, sorted: seq<TaxBracket>, top: real, k: real, i: nat)
    requires i < |sorted| && OrderedAt(sorted, i) && 0.0 <= sorted[i].rate <= top && k == top / 100.0
    requires a1 <= a2
    ensures MarginalTax(a2, sorted, i) - MarginalTax(a1, sorted, i) <=
      ClampAt(k * a2, ScaledThresholds(sorted, k), i) - ClampAt(k * a1, ScaledThresholds(sorted, k), i)
  {
    BracketLipschitz(a1, a2, sorted, top, k, i);
    ScaleSub(k, Clamp(a2, sorted, i), Clamp(a1, sorted, i));
    ScaledClamp(a1, sorted, k, i);
    ScaledClamp(a2, sorted, k, i);
  }

  /** The parts of the gap between `b1` and `b2` between consecutive
      cut-off points of `ts`, from `i` onwards. */
  function GapSum(b1: real, b2: real, ts: seq<real>, i: nat): real
    requires i <= |ts|
    decreases |ts| - i
  {
    if i == |ts| then 0.0 else (ClampAt(b2, ts, i) - ClampAt(b1, ts, i)) + GapSum(b1, b2, ts, i + 1)
  }

  /** Bracket by bracket, the marginal sum grows by at most the top rate. */
  lemma {:induction false} MarginalSumBelowTopRate(a1: real, a2: real, sorted: seq<TaxBracket>, top: real, k: real, i: nat)
    requires SortedByThreshold(sorted) && RatesWithin(sorted, top) && k == top / 100.0
    requires i <= |sorted| && a1 <= a2
    ensures MarginalSum(a2, sorted, i) - MarginalSum(a1, sorted, i) <=
      GapSum(k * a1, k * a2, ScaledThresholds(sorted, k), i)
    decreases |sorted| - i
  {
    if i < |sorted| {
      assert 0.0 <= sorted[i].rate <= top;
      BracketScaled(a1, a2, sorted, top, k, i);
      MarginalSumBelowTopRate(a1, a2, sorted, top, k, i + 1);
    }
  }

  /** The parts of the gap between consecutive cut-off points from `i`
      onwards add up to the part above cut-off `i`. */
  lemma {:induction false} GapSumTelescopes(b1: real, b2: real, ts: seq<real>, i: nat)
    requires Ascending(ts) && i < |ts|
    ensures GapSum(b1, b2, ts, i) == Max(b2, ts[i]) - Max(b1, ts[i])
    decreases |ts| - i
  {
    if i + 1 < |ts| {
      GapSumTelescopes(b1, b2, ts, i + 1);
      ClampSplit(b1, ts[i], ts[i + 1]);
      ClampSplit(b2, ts[i], ts[i + 1]);
    }
  }

  /** Raising `x1` to `x2` raises its maximum with `t` by at most as much. */
  lemma MaxGap(x1: real, x2: real, t: real)
    requires x1 <= x2
    ensures Max(x2, t) - Max(x1, t) <= x2 - x1
  {
  }

  /** The parts of a gap between consecutive cut-off points add up to at
      most the whole gap. */
  lemma GapSumBelowGap(b1: real, b2: real, ts: seq<real>, i: nat)
    requires Ascending(ts) && i < |ts| && b1 <= b2
    ensures GapSum(b1, b2, ts, i) <= b2 - b1
  {
    GapSumTelescopes(b1, b2, ts, i);
    MaxGap(b1, b2, ts[i]);
  }

  /** The scaled parts of a gap inside the brackets add up to at most the
      scaled gap. */
  lemma ScaledGapBelowGap(a1: real, a2: real, sorted: seq<TaxBracket>, k: real)
    requires SortedByThreshold(sorted) && 0 < |sorted| && k >= 0.0 && a1 <= a2
    ensures GapSum(k * a1, k * a2, ScaledThresholds(sorted, k), 0) <= k * (a2 - a1)
  {
    ScaledThresholdsAscending(sorted, k);
    MulMonotone(k, a1, a2);
    GapSumBelowGap(k * a1, k * a2, ScaledThresholds(sorted, k), 0);
    ScaleSub(k, a2, a1);
  }

  /** Between two amounts, bracket `i` onwards add at most the top rate `k`
      (as a fraction) applied to the part of the gap above bracket `i`'s
      threshold. */
  lemma MarginalSumLipschitz(a1: real, a2: real, sorted: seq<TaxBracket>, top: real, k: real, i: nat)
    requires SortedByThreshold(sorted) && RatesWithin(sorted, top) && k == top / 100.0
    requires i < |sorted| && a1 <= a2
    ensures MarginalSum(a2, sorted, i) - MarginalSum(a1, sorted, i) <=
      Max(k * a2, k * sorted[i].threshold) - Max(k * a1, k * sorted[i].threshold)
  {
    assert 0.0 <= sorted[i].rate <= top;
    MarginalSumBelowTopRate(a1, a2, sorted, top, k, i);
    ScaledThresholdsAscending(sorted, k);
    GapSumTelescopes(k * a1, k * a2, ScaledThresholds(sorted, k), i);
  }

  /** On a sorted list, raising the amount raises the marginal sum by at
      most the top rate times the raise. */
  lemma SortedLipschitz(a1: real, a2: real, sorted: seq<TaxBracket>, top: real, k: real)
    requires SortedByThreshold(sorted) && RatesWithin(sorted, top) && k == top / 100.0
    requires 0 < |sorted| && a1 <= a2
    ensures MarginalSum(a2, sorted, 0) - MarginalSum(a1, sorted, 0) <= k * (a2 - a1)
  {
    assert 0.0 <= sorted[0].rate <= top;
    MarginalSumBelowTopRate(a1, a2, sorted, top, k, 0);
    ScaledGapBelowGap(a1, a2, sorted, k);
  }

  lemma SortedBounds(brackets: seq<TaxBracket>, top: real)
    requires RatesWithin(brackets, top) && |brackets| > 0
    ensures SortedByThreshold(SortByThreshold(brackets)) && |SortByThreshold(brackets)| == |brackets|
    ensures RatesWithin(SortByThreshold(brackets), top)
  {
    SortByThresholdSorted(brackets);
    SortKeepsBounds(brackets, top);
    var sorted := SortByThreshold(brackets);
    assert |sorted| == |multiset(sorted)| == |multiset(brackets)| == |brackets|;
  }

  /** With at least one bracket, the tax of an amount that is positive, or
      that lies below every threshold, is the marginal sum over the sorted
      brackets. */
  lemma ProgressiveTaxOnSorted(a: real, brackets: seq<TaxBracket>)
    requires |brackets| > 0 && (a > 0.0 || ThresholdsNonNegative(brackets))
    ensures ProgressiveTax(a, brackets) == MarginalSum(a, SortByThreshold(brackets), 0)
  {
    ProgressiveTaxIsMarginalSum(a, brackets);
    if a <= 0.0 {
      var sorted := SortByThreshold(brackets);
      SortByThresholdSorted(brackets);
      SortKeepsBounds(brackets, 0.0);
      assert |sorted| == |multiset(sorted)| == |multiset(brackets)| == |brackets|;
      assert sorted[0].threshold >= 0.0;
      MarginalSumAboveAmount(a, sorted, 0);
    }
  }

  lemma BracketsLipschitz(a1: real, a2: real, brackets: seq<TaxBracket>, top: real, k: real)
    requires RatesWithin(brackets, top) && k == top / 100.0 && a1 <= a2 && |brackets| > 0
    requires a1 > 0.0 || ThresholdsNonNegative(brackets)
    ensures ProgressiveTax(a2, brackets) - ProgressiveTax(a1, brackets) <= k * (a2 - a1)
  {
    SortedBounds(brackets, top);
    SortedLipschitz(a1, a2, SortByThreshold(brackets), top, k);
    ProgressiveTaxOnSorted(a1, brackets);
    ProgressiveTaxOnSorted(a2, brackets);
  }

  /** The progressive tax has no jumps: with every rate in [0, top] percent,
      raising the amount raises the tax by at most `top` percent of the
      raise, so the tax is continuous at every bracket boundary. Below 0 the
      tax is 0 whatever the brackets, so across 0 this needs the thresholds to
      be non-negative. */
  lemma ProgressiveTaxLipschitz(a1: real, a2: real, brackets: seq<TaxBracket>, top: real)
    requires RatesWithin(brackets, top) && top >= 0.0 && a1 <= a2
    requires a1 > 0.0 || ThresholdsNonNegative(brackets)
    ensures ProgressiveTax(a1, brackets) <= ProgressiveTax(a2, brackets)
    ensures ProgressiveTax(a2, brackets) - ProgressiveTax(a1, brackets) <= (top / 100.0) * (a2 - a1)
  {
    assert NonNegativeRates(brackets);
    ProgressiveTaxMonotone(a1, a2, brackets);
    if a2 > 0.0 && |brackets| > 0 {
      BracketsLipschitz(a1, a2, brackets, top, top / 100.0);
    } else {
      ProgressiveTaxIsMarginalSum(a1, brackets);
      ProgressiveTaxIsMarginalSum(a2, brackets);
      MulNonNegative(top / 100.0, a2 - a1);
    }
  }

  /** The order in which brackets are listed does not matter when no two
      share a threshold. */
  lemma ProgressiveTaxIgnoresOrder(amount: real, b1: seq<TaxBracket>, b2: seq<TaxBracket>)
    requires DistinctThresholds(b1) && multiset(b1) == multiset(b2)
    ensures ProgressiveTax(amount, b1) == ProgressiveTax(amount, b2)
  {
    SortIgnoresPermutation(b1, b2);
    assert |b1| == |multiset(b1)| == |multiset(b2)| == |b2|;
  }

  lemma {:induction false} AscendingChain(brackets: seq<TaxBracket>, i: nat, j: nat)
    requires StrictlyAscending(brackets) && i <= j < |brackets|
    ensures brackets[i].threshold <= brackets[j].threshold
    decreases j - i
  {
    if i < j {
      AscendingChain(brackets, i + 1, j);
    }
  }

  /** The registry's schedules are already in order, so for them the sort
      changes nothing and the tax is the marginal sum over the brackets as
      listed. */
  lemma RegistryBracketsNeedNoSort(option: TaxOption, amount: real)
    requires option in RegistryOptions() && option.brackets.Some?
    ensures SortByThreshold(option.brackets.value) == option.brackets.value
    ensures amount > 0.0 ==>
      ProgressiveTax(amount, option.brackets.value) == MarginalSum(amount, option.brackets.value, 0)
  {
    var b := option.brackets.value;
    RegistryBracketsAscending();
    forall i, j | 0 <= i < j < |b|
      ensures b[i].threshold <= b[j].threshold
    {
      AscendingChain(b, i, j);
    }
    SortByThresholdOfSorted(b);
    AccruedIsMarginalSum(amount, b, 0);
  }

  /** Of two brackets with the same threshold, the earlier one (after the
      stable sort) gets an empty slice: only the later one's rate applies. */
  lemma TiedBracketGetsNothing(amount: real, sorted: seq<TaxBracket>, i: nat)
    requires i + 1 < |sorted| && sorted[i].threshold == sorted[i + 1].threshold
    requires amount > sorted[i].threshold
    ensures SliceInBracket(amount, sorted, i) == 0.0
    ensures Accrued(amount, sorted, i) == Accrued(amount, sorted, i + 1)
  {
  }

  // ---------------------------------------------------------------------------
  // calculateTax
  // ---------------------------------------------------------------------------

  predicate OptionRatesNonNegative(option: TaxOption)
  {
    (option.rate.Some? ==> option.rate.value >= 0.0) &&
    (option.brackets.Some? ==> NonNegativeRates(option.brackets.value))
  }

  /** `calculateTax`: nothing on a non-positive amount or an amount within
      the exemption; otherwise the excess over the exemption is taxed at the
      flat rate if there is one, else by the brackets if there are any, else
      not at all. */
  function CalculateTax(amount: real, option: TaxOption): (r: real)
    ensures amount <= 0.0 ==> r == 0.0
    ensures option.exemptionThreshold.Some? && amount <= option.exemptionThreshold.value ==> r == 0.0
    ensures option.rate.None? && (option.brackets.None? || option.brackets.value == []) ==> r == 0.0
    ensures OptionRatesNonNegative(option) ==> r >= 0.0
  {
    if amount <= 0.0 then 0.0
    else if option.exemptionThreshold.Some? && amount <= option.exemptionThreshold.value then 0.0
    else
      var taxable := if option.exemptionThreshold.Some? then amount - option.exemptionThreshold.value else amount;
      if option.rate.Some? then
        var tax := taxable * (option.rate.value / 100.0);
        if option.rate.value >= 0.0 then MulNonNegative(taxable, option.rate.value / 100.0); tax else tax
      else if option.brackets.Some? && |option.brackets.value| > 0 then
        var tax := ProgressiveTax(taxable, option.brackets.value);
        if NonNegativeRates(option.brackets.value) then ProgressiveTaxNonNegative(taxable, option.brackets.value); tax else tax
      else 0.0
  }

  /** Above the exemption, only the excess is taxed: the result is that of
      the same option without exemption applied to `amount - E`. */
  lemma ExemptionTaxesOnlyExcess(amount: real, option: TaxOption)
    requires option.exemptionThreshold.Some? && amount > option.exemptionThreshold.value && amount > 0.0
    ensures CalculateTax(amount, option) ==
      CalculateTax(amount - option.exemptionThreshold.value, option.(exemptionThreshold := None))
  {
  }

  /** A flat rate wins over any brackets: `amount * rate / 100`. */
  lemma FlatRateIgnoresBrackets(amount: real, option: TaxOption)
    requires option.rate.Some? && option.exemptionThreshold.None? && amount > 0.0
    ensures CalculateTax(amount, option) == amount * (option.rate.value / 100.0)
    ensures CalculateTax(amount, option) == CalculateTax(amount, option.(brackets := None))
    ensures option.rate.value == 0.0 ==> CalculateTax(amount, option) == 0.0
  {
  }

  /** Without a rate, the brackets decide. */
  lemma BracketsWhenNoRate(amount: real, option: TaxOption)
    requires option.rate.None? && option.brackets.Some? && option.exemptionThreshold.None?
    ensures CalculateTax(amount, option) == ProgressiveTax(amount, option.brackets.value)
  {
  }

  /** A flat rate and a single bracket from zero at the same rate are the
      same tax. */
  lemma FlatRateIsOneBracket(amount: real, rate: real, option: TaxOption)
    requires option.exemptionThreshold.None? && option.rate == Some(rate)
    ensures CalculateTax(amount, option) ==
      CalculateTax(amount, option.(rate := None, brackets := Some([TaxBracket(0.0, rate)])))
  {
    var single := [TaxBracket(0.0, rate)];
    assert single[..0] == [];
    assert SortByThreshold(single) == single;
    if amount > 0.0 {
      AccruedStep(amount, single, 0);
      assert SliceInBracket(amount, single, 0) == amount;
    }
  }

  /** A non-negative exemption in front of a flat rate is the same tax as a
      0% band up to the exemption followed by the rate. */
  lemma ExemptionIsZeroRateBand(amount: real, exemption: real, rate: real, option: TaxOption)
    requires exemption >= 0.0
    requires option.exemptionThreshold == Some(exemption) && option.rate == Some(rate)
    ensures CalculateTax(amount, option) ==
      CalculateTax(amount, option.(exemptionThreshold := None, rate := None,
                                   brackets := Some([TaxBracket(0.0, 0.0), TaxBracket(exemption, rate)])))
  {
    var bands := [TaxBracket(0.0, 0.0), TaxBracket(exemption, rate)];
    assert SortedByThreshold(bands);
    SortByThresholdOfSorted(bands);
    if amount > 0.0 {
      AccruedStep(amount, bands, 0);
      if amount <= exemption {
        assert SliceInBracket(amount, bands, 0) * (0.0 / 100.0) == 0.0;
        assert Accrued(amount, bands, 1) == 0.0;
      } else {
        assert SliceInBracket(amount, bands, 0) * (0.0 / 100.0) == 0.0;
        AccruedStep(amount, bands, 1);
        assert SliceInBracket(amount, bands, 1) == amount - exemption;
        assert Accrued(amount, bands, 2) == 0.0;
      }
    }
  }

  // ---------------------------------------------------------------------------
  // Period conversion
  // ---------------------------------------------------------------------------

  /** `calculateMonthlyTax`: a twelfth of the annual tax on an annual amount. */
  function CalculateMonthlyTax(annualAmount: real, option: TaxOption): (r: real)
    ensures r * 12.0 == CalculateTax(annualAmount, option)
  {
    CalculateTax(annualAmount, option) / 12.0
  }

  /** `calculateMonthlyIncomeTax`: the income is annualised before the
      brackets and exemption apply, and the annual tax is spread back over
      twelve months. */
  function CalculateMonthlyIncomeTax(monthlyIncome: real, option: TaxOption): (r: real)
    ensures r * 12.0 == CalculateTax(monthlyIncome * 12.0, option)
    ensures r == CalculateMonthlyTax(monthlyIncome * 12.0, option)
  {
    var annualIncome := monthlyIncome * 12.0;
    CalculateTax(annualIncome, option) / 12.0
  }

  /** Under a flat rate without exemption, annualising changes nothing. */
  lemma FlatMonthlyIncomeTaxIsDirect(monthlyIncome: real, option: TaxOption)
    requires option.rate.Some? && option.exemptionThreshold.None?
    ensures CalculateMonthlyIncomeTax(monthlyIncome, option) == CalculateTax(monthlyIncome, option)
  {
    if monthlyIncome > 0.0 {
      var r := option.rate.value / 100.0;
      assert (monthlyIncome * 12.0) * r / 12.0 == monthlyIncome * r;
    }
  }

  // ---------------------------------------------------------------------------
  // resolveTaxOption
  // ---------------------------------------------------------------------------

  const NoTaxId := "none"
  const AfterTaxId := "after-tax"
  const DefaultId := "default"

  /** `resolveTaxOption`: absent for a falsy id, for the no-tax sentinels,
      for `default` without a country or without a default, for an unknown id
      and for an id of another kind; otherwise the option. Whatever it returns
      is a registry option of the requested kind (the `default` path relies on
      the registry keeping each option in the list of its kind): for `default`
      a default from the given country's list of that kind, for any other id
      the option carrying that id, taken from the given country when there is
      one. */
  function ResolveTaxOption(taxId: Option<string>, countryCode: Option<string>, taxType: TaxType): (r: Option<TaxOption>)
    ensures r.Some? ==> r.value.taxType == taxType && r.value in RegistryOptions()
    ensures r.Some? ==> Present(taxId) && taxId.value != NoTaxId && taxId.value != AfterTaxId
    ensures r.Some? && taxId.value == DefaultId ==>
      Present(countryCode) && r.value.isDefault && r.value in GetTaxOptions(countryCode.value, taxType)
    ensures r.Some? && taxId.value != DefaultId ==> r.value.id == taxId.value
    ensures r.Some? && taxId.value != DefaultId && Present(countryCode) ==>
      r.value in CountryOptions(countryCode.value)
  {
    if !Present(taxId) then None
    else if taxId.value == NoTaxId || taxId.value == AfterTaxId then None
    else if taxId.value == DefaultId then
      if !Present(countryCode) then None
      else GetDefaultTaxOption(countryCode.value, taxType)
    else
      match FindTaxOption(taxId.value, countryCode)
      case None => None
      case Some(option) => if option.taxType != taxType then None else Some(option)
  }

  /** No sentinel and no empty string is the id of a registry option. */
  lemma RegistryIdsAreNotSentinels()
    ensures forall k :: 0 <= k < |RegistryOptions()| ==>
      var id := RegistryOptions()[k].id;
      id != "" && id != NoTaxId && id != AfterTaxId && id != DefaultId
  {
    RegistryOptionsValue();
  }

  /** `default` resolves to the country's default of that kind: present for
      every registry country, absent without a country or for an unknown one. */
  lemma ResolveDefault(countryCode: Option<string>, taxType: TaxType)
    ensures ResolveTaxOption(Some(DefaultId), countryCode, taxType) ==
      if Present(countryCode) then GetDefaultTaxOption(countryCode.value, taxType) else None
    ensures ResolveTaxOption(Some(DefaultId), countryCode, taxType).Some? <==>
      Present(countryCode) && GetTaxConfig(countryCode.value).Some?
  {
    if Present(countryCode) {
      RegistryOneDefault(countryCode.value, taxType);
    }
  }

  lemma {:induction false} FindByIdUnique(options: seq<TaxOption>, k: nat)
    requires k < |options|
    requires forall i, j :: 0 <= i < j < |options| ==> options[i].id != options[j].id
    ensures FindById(options, options[k].id) == Some(options[k])
  {
    if k > 0 {
      FindByIdUnique(options[1..], k - 1);
    }
  }

  /** Without a country, every registry option is found again from its id,
      and only under its own kind. */
  lemma ResolveRegisteredId(k: nat, taxType: TaxType)
    requires k < |RegistryOptions()|
    ensures var o := RegistryOptions()[k];
      ResolveTaxOption(Some(o.id), None, taxType) == if o.taxType == taxType then Some(o) else None
  {
    var o := RegistryOptions()[k];
    RegistryIdsAreNotSentinels();
    RegistryIdsUnique();
    FindByIdUnique(RegistryOptions(), k);
    FindTaxOptionScope(o.id, None);
  }

  /** With a supported country, each of that country's options is found
      again from its id and that country, and only under its own kind. */
  lemma ResolveCountryId(countryCode: string, k: nat, taxType: TaxType)
    requires GetTaxConfig(countryCode).Some? && k < |CountryOptions(countryCode)|
    ensures var o := CountryOptions(countryCode)[k];
      ResolveTaxOption(Some(o.id), Some(countryCode), taxType) == if o.taxType == taxType then Some(o) else None
  {
    var options := CountryOptions(countryCode);
    var o := options[k];
    GetTaxConfigCases(countryCode);
    assert countryCode != "";
    CountryIdsUnique(countryCode);
    FindByIdUnique(options, k);
    CountryOptionsInRegistry(countryCode, taxType);
    RegistryIdsAreNotSentinels();
    assert o in RegistryOptions();
    FindTaxOptionScope(o.id, Some(countryCode));
  }

  /** An id that no registry option carries resolves to nothing, whatever
      the country. */
  lemma ResolveUnknownId(taxId: string, countryCode: Option<string>, taxType: TaxType)
    requires taxId != DefaultId
    requires forall o :: o in RegistryOptions() ==> o.id != taxId
    ensures ResolveTaxOption(Some(taxId), countryCode, taxType).None?
  {
  }

  /** Absent ids and the no-tax sentinels resolve to nothing, for any
      country and kind. */
  lemma ResolveSentinels(countryCode: Option<string>, taxType: TaxType)
    ensures ResolveTaxOption(None, countryCode, taxType).None?
    ensures ResolveTaxOption(Some(""), countryCode, taxType).None?
    ensures ResolveTaxOption(Some(NoTaxId), countryCode, taxType).None?
    ensures ResolveTaxOption(Some(AfterTaxId), countryCode, taxType).None?
  {
  }
}
