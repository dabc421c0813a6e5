/** Cost estimates of work packages (src/program/cost-estimator.ts) and samples from them (src/program/admission-controller.ts). */
module Estimates {
  import opened Wrappers
  import opened BudgetVectors

  datatype Interval = Interval(p50: nat, p90: nat, p95: nat, hardMax: nat)

  datatype Confidence = Uncalibrated | Low | Medium | High

  datatype Estimate = Estimate(
    p50: Vector, p90: Vector, p95: Vector, hardMax: Vector, duration: Interval,
    confidence: Confidence, sampleSize: nat, riskGroup: string, success: real)

  datatype Baseline = Baseline(p50: Vector, p90: Vector, confidence: Confidence, sampleCount: nat)

  datatype EstimateError = ExceedsEnvelope | InvalidProbability

  function Ceil(x: real): (n: int)
    ensures n as real - 1.0 < x <= n as real
  {
    -((-x).Floor)
  }

  // ----- The estimator -----

  /** A percentage of a value, rounded up: the least integer that is not below it. */
  ghost predicate IsPercent(v: nat, numerator: nat, n: nat) {
    v * numerator <= 100 * n < v * numerator + 100
  }

  /** The source's integer arithmetic. */
  function RoundedUp(v: nat, numerator: nat): nat {
    (v * numerator + 99) / 100
  }

  lemma RoundedUpIsPercent(v: nat, numerator: nat)
    ensures IsPercent(v, numerator, RoundedUp(v, numerator))
  {
  }

  ghost function Percent(v: nat, numerator: nat): (n: nat)
    ensures IsPercent(v, numerator, n)
  {
    RoundedUpIsPercent(v, numerator);
    var n: nat :| IsPercent(v, numerator, n);
    n
  }

  lemma PercentBounds(v: nat, numerator: nat)
    requires numerator <= 100
    ensures Percent(v, numerator) <= v
  {
  }

  /** scaleVector: every stored dimension is scaled, zeros included. */
  ghost function ScaleVector(v: Vector, numerator: nat): (r: Vector)
    requires numerator <= 100
    ensures forall d :: At(r, d) == Percent(At(v, d), numerator)
  {
    assert forall d <- v.Keys :: Percent(v[d], numerator) <= v[d] by {
      forall d | d in v ensures Percent(v[d], numerator) <= v[d] {
        PercentBounds(v[d], numerator);
      }
    }
    assert IsPercent(0, numerator, Percent(0, numerator));
    map d | d in v :: Percent(v[d], numerator)
  }

  /** maxVector: the larger of both in every dimension, without zeros. */
  function MaxVector(l: Vector, r: Vector): (m: Vector)
    ensures Canonical(m)
    ensures forall d :: At(m, d) == Max(At(l, d), At(r, d))
  {
    map d | d in l.Keys + r.Keys && Max(At(l, d), At(r, d)) > 0 :: Max(At(l, d), At(r, d))
  }

  /** Percentiles in order, in every dimension and in time. */
  ghost predicate Ordered(e: Estimate) {
    && (forall d :: At(e.p50, d) <= At(e.p90, d) <= At(e.p95, d) <= At(e.hardMax, d))
    && e.duration.p50 <= e.duration.p90 <= e.duration.p95 <= e.duration.hardMax
  }

  /** The three quantiles of a hint, with a hint below one second taken as one. */
  function DurationOf(hint: int): (i: Interval)
    ensures i.p50 <= i.p90 <= i.p95 <= i.hardMax && i.hardMax >= 1
  {
    var d := Max(1, hint);
    Interval(Ceil(d as real * 0.5), Ceil(d as real * 0.8), Ceil(d as real * 0.9), d)
  }

  ghost function Medians(envelope: Vector, baseline: Option<Baseline>): Vector {
    if baseline.Some? then MaxVector(baseline.value.p50, ScaleVector(envelope, 40)) else ScaleVector(envelope, 40)
  }

  ghost function Nineties(envelope: Vector, baseline: Option<Baseline>): Vector {
    if baseline.Some? then MaxVector(baseline.value.p90, Medians(envelope, baseline)) else ScaleVector(envelope, 80)
  }

  ghost function NinetyFives(envelope: Vector, baseline: Option<Baseline>): Vector {
    MaxVector(Nineties(envelope, baseline), ScaleVector(envelope, 90))
  }

  /** estimate, for a hint already rounded to whole seconds. */
  ghost function EstimateFor(envelope: Vector, baseline: Option<Baseline>, hint: int, group: string, success: Option<real>): Result<Estimate, EstimateError> {
    if !Fits(Nineties(envelope, baseline), envelope) then Failure(ExceedsEnvelope)
    else
      var probability := if success.Some? then success.value
                         else if baseline.Some? && baseline.value.confidence == High then 0.95 else 0.85;
      if !(0.0 < probability <= 1.0) then Failure(InvalidProbability)
      else
        Success(Estimate(Medians(envelope, baseline), Nineties(envelope, baseline), NinetyFives(envelope, baseline), envelope,
                         DurationOf(hint), if baseline.Some? then baseline.value.confidence else Uncalibrated,
                         if baseline.Some? then baseline.value.sampleCount else 0, group, probability))
  }

  /** The percentiles of an estimate are in order, in every dimension and in time, and end at the envelope. */
  lemma EstimateIsOrdered(envelope: Vector, baseline: Option<Baseline>, hint: int, group: string, success: Option<real>)
    requires EstimateFor(envelope, baseline, hint, group, success).Success?
    ensures Ordered(EstimateFor(envelope, baseline, hint, group, success).value)
    ensures EstimateFor(envelope, baseline, hint, group, success).value.hardMax == envelope
  {
  }

  /** The guard fires exactly when history exceeds the envelope in some dimension, and so never without a baseline. */
  lemma GuardFiresExactly(envelope: Vector, baseline: Option<Baseline>)
    ensures Fits(Nineties(envelope, baseline), envelope) <==>
              baseline.None? || (Fits(baseline.value.p50, envelope) && Fits(baseline.value.p90, envelope))
  {
    forall d ensures Percent(At(envelope, d), 40) <= At(envelope, d) && Percent(At(envelope, d), 80) <= At(envelope, d) {
      PercentBounds(At(envelope, d), 40);
      PercentBounds(At(envelope, d), 80);
    }
    if baseline.Some? && Fits(Nineties(envelope, baseline), envelope) {
      forall d ensures At(baseline.value.p50, d) <= At(envelope, d) && At(baseline.value.p90, d) <= At(envelope, d) {
        assert At(Nineties(envelope, baseline), d) <= At(envelope, d);
      }
    }
  }

  /** The least whole number of hundredths of x that is not below the percentage. */
  ghost predicate IsScaled(v: nat, percent: nat, n: nat) {
    v * percent <= 100 * n && 100 * n < v * percent + 100
  }

  /** The share of a hint, as the least whole number that is not below it. */
  ghost predicate IsTenths(d: nat, tenths: nat, n: nat) {
    d * tenths <= 10 * n && 10 * n < d * tenths + 10
  }

  lemma DurationMeans(hint: int)
    ensures DurationOf(hint).hardMax == (if hint < 1 then 1 else hint)
    ensures IsTenths(DurationOf(hint).hardMax, 5, DurationOf(hint).p50)
    ensures IsTenths(DurationOf(hint).hardMax, 8, DurationOf(hint).p90)
    ensures IsTenths(DurationOf(hint).hardMax, 9, DurationOf(hint).p95)
  {
  }

  /** Without history: 40, 80 and 90 per cent of the envelope, and nothing to be confident about. */
  lemma EstimateWithoutHistory(envelope: Vector, hint: int, group: string, success: Option<real>)
    ensures var res := EstimateFor(envelope, None, hint, group, success);
            && (res.Failure? <==> success.Some? && !(0.0 < success.value <= 1.0))
            && (res.Failure? ==> res.error == InvalidProbability)
            && (res.Success? ==>
                  var e := res.value;
                  && (forall d :: IsScaled(At(envelope, d), 40, At(e.p50, d)) && IsScaled(At(envelope, d), 80, At(e.p90, d)))
                  && (forall d :: IsScaled(At(envelope, d), 90, At(e.p95, d)) && At(e.hardMax, d) == At(envelope, d))
                  && e.confidence == Uncalibrated && e.sampleSize == 0 && e.riskGroup == group
                  && e.success == (if success.None? then 0.85 else success.value))
  {
    GuardFiresExactly(envelope, None);
    var res := EstimateFor(envelope, None, hint, group, success);
    if res.Success? {
      forall d ensures IsScaled(At(envelope, d), 90, At(res.value.p95, d)) {
        PercentInOrder(At(envelope, d), 80, 90);
      }
    }
  }

  lemma PercentInOrder(v: nat, less: nat, more: nat)
    requires less <= more
    ensures Percent(v, less) <= Percent(v, more)
  {
    assert v * less <= v * more;
  }

  /** With history: it must not exceed the envelope, and a given probability must be one. */
  lemma HistoryRefused(envelope: Vector, b: Baseline, hint: int, group: string, success: Option<real>)
    ensures var res := EstimateFor(envelope, Some(b), hint, group, success);
            && (res == Failure(ExceedsEnvelope) <==> exists d :: At(b.p50, d) > At(envelope, d) || At(b.p90, d) > At(envelope, d))
            && (res == Failure(InvalidProbability) <==>
                  && (forall d :: At(b.p50, d) <= At(envelope, d) && At(b.p90, d) <= At(envelope, d))
                  && success.Some? && !(0.0 < success.value <= 1.0))
  {
    GuardFiresExactly(envelope, Some(b));
    FitsFails(b.p50, envelope);
    FitsFails(b.p90, envelope);
  }

  /**
   * With history: each percentile is the larger of the observed one, of its part of the envelope
   * and of the percentile before it.
   */
  lemma EstimateWithHistory(envelope: Vector, b: Baseline, hint: int, group: string, success: Option<real>)
    requires EstimateFor(envelope, Some(b), hint, group, success).Success?
    ensures var e := EstimateFor(envelope, Some(b), hint, group, success).value;
            && (forall d :: Observed(At(envelope, d), 40, At(b.p50, d), At(e.p50, d)))
            && (forall d :: At(e.p90, d) == Max(At(b.p90, d), At(e.p50, d)))
            && (forall d :: Observed(At(envelope, d), 90, At(e.p90, d), At(e.p95, d)) && At(e.hardMax, d) == At(envelope, d))
            && e.confidence == b.confidence && e.sampleSize == b.sampleCount && e.riskGroup == group
            && e.success == (if success.Some? then success.value else if b.confidence == High then 0.95 else 0.85)
  {
    PercentilesObserved(envelope, b);
  }

  lemma PercentilesObserved(envelope: Vector, b: Baseline)
    ensures forall d :: Observed(At(envelope, d), 40, At(b.p50, d), At(Medians(envelope, Some(b)), d))
    ensures forall d :: At(Nineties(envelope, Some(b)), d) == Max(At(b.p90, d), At(Medians(envelope, Some(b)), d))
    ensures forall d ::
              Observed(At(envelope, d), 90, At(Nineties(envelope, Some(b)), d), At(NinetyFives(envelope, Some(b)), d))
  {
  }

  lemma FitsFails(v: Vector, limit: Vector)
    ensures !Fits(v, limit) <==> exists d :: At(v, d) > At(limit, d)
  {
  }

  /** The larger of an observed value and a percentage of the envelope. */
  ghost predicate Observed(envelope: nat, percent: nat, observed: nat, n: nat) {
    n >= observed && envelope * percent <= 100 * n && (n == observed || IsScaled(envelope, percent, n))
  }

  // ----- The source's loops -----

  lemma PercentIsRoundedUp(v: nat, numerator: nat)
    ensures RoundedUp(v, numerator) == Percent(v, numerator)
  {
  }

  method Scale(v: Vector, numerator: nat) returns (r: Vector)
    requires numerator <= 100
    ensures r == ScaleVector(v, numerator)
  {
    r := map[];
    var left := v.Keys;
    while left != {}
      invariant left <= v.Keys && r.Keys == v.Keys - left
      invariant forall d <- r.Keys :: r[d] == Percent(v[d], numerator)
      decreases |left|
    {
      var d :| d in left;
      PercentIsRoundedUp(v[d], numerator);
      PercentBounds(v[d], numerator);
      r := r[d := RoundedUp(v[d], numerator)];
      left := left - {d};
    }
  }

  method Larger(l: Vector, r: Vector) returns (m: Vector)
    ensures m == MaxVector(l, r)
  {
    m := map[];
    var left := l.Keys + r.Keys;
    ghost var seen: set<Dimension> := {};
    while left != {}
      invariant l.Keys + r.Keys == left + seen
      invariant forall d <- seen :: At(m, d) == Max(At(l, d), At(r, d))
      invariant forall d <- m.Keys :: d in seen && m[d] != 0
      decreases |left|
    {
      var d :| d in left;
      var value := Max(At(l, d), At(r, d));
      if value > 0 {
        m := m[d := value];
      }
      seen := seen + {d};
      left := left - {d};
    }
    forall d ensures At(m, d) == Max(At(l, d), At(r, d)) {
      assert d in l.Keys + r.Keys ==> d in seen;
    }
    CanonicalIsUnique(m, MaxVector(l, r));
  }

  method EstimatePackage(envelope: Vector, baseline: Option<Baseline>, hint: int, group: string, success: Option<real>)
    returns (res: Result<Estimate, EstimateError>)
    ensures res == EstimateFor(envelope, baseline, hint, group, success)
  {
    var p50 := Scale(envelope, 40);
    var p90 := Scale(envelope, 80);
    if baseline.Some? {
      p50 := Larger(baseline.value.p50, p50);
      p90 := Larger(baseline.value.p90, p50);
    }
    if !Fits(p90, envelope) {
      return Failure(ExceedsEnvelope);
    }
    var most := Scale(envelope, 90);
    var p95 := Larger(p90, most);
    var probability := 0.85;
    if success.Some? {
      probability := success.value;
    } else if baseline.Some? && baseline.value.confidence == High {
      probability := 0.95;
    }
    if !(0.0 < probability <= 1.0) {
      return Failure(InvalidProbability);
    }
    res := Success(Estimate(p50, p90, p95, envelope, DurationOf(hint),
                            if baseline.Some? then baseline.value.confidence else Uncalibrated,
                            if baseline.Some? then baseline.value.sampleCount else 0, group, probability));
  }

  // ----- Interpolation -----

  function Interpolate(p50: nat, p90: nat, hardMax: nat, value: real): int {
    if value <= 0.5 then Ceil(p50 as real * value / 0.5)
    else if value <= 0.9 then Ceil(p50 as real + (p90 as real - p50 as real) * (value - 0.5) / 0.4)
    else Ceil(p90 as real + (hardMax as real - p90 as real) * (value - 0.9) / 0.1)
  }

  /** The first half of the draws runs to the median, the next four tenths to the 90th percentile, the last to the maximum. */
  lemma InterpolateMeans(p50: nat, p90: nat, hardMax: nat, value: real)
    ensures var n := Interpolate(p50, p90, hardMax, value) as real;
            && (value <= 0.5 ==> 0.5 * (n - 1.0) < p50 as real * value <= 0.5 * n)
            && (0.5 < value <= 0.9 ==>
                  0.4 * (n - 1.0 - p50 as real) < (p90 as real - p50 as real) * (value - 0.5) <= 0.4 * (n - p50 as real))
            && (value > 0.9 ==>
                  0.1 * (n - 1.0 - p90 as real) < (hardMax as real - p90 as real) * (value - 0.9) <= 0.1 * (n - p90 as real))
  {
  }

  lemma CeilMonotone(x: real, y: real)
    requires x <= y
    ensures Ceil(x) <= Ceil(y)
  {
  }

  lemma CeilOfInt(x: real, n: int)
    requires x <= n as real
    ensures Ceil(x) <= n
  {
  }

  lemma ProductNonNegative(x: real, y: real)
    requires 0.0 <= x && 0.0 <= y
    ensures 0.0 <= x * y
  {
  }

  /** A point on the segment from a to b, at distance x of w. */
  lemma Between(a: real, b: real, x: real, w: real)
    requires 0.0 <= x <= w && 0.0 < w
    ensures a <= b ==> a <= a + (b - a) * x / w <= b
    ensures b <= a ==> b <= a + (b - a) * x / w <= a
  {
    var t := x / w;
    assert (b - a) * x / w == (b - a) * t;
    if a <= b {
      ProductNonNegative(b - a, t);
      ProductNonNegative(b - a, 1.0 - t);
    }
    if b <= a {
      ProductNonNegative(a - b, t);
      ProductNonNegative(a - b, 1.0 - t);
    }
  }

  /** The exact value before rounding up. */
  function Exact(p50: real, p90: real, hardMax: real, value: real): real {
    if value <= 0.5 then p50 * value / 0.5
    else if value <= 0.9 then p50 + (p90 - p50) * (value - 0.5) / 0.4
    else p90 + (hardMax - p90) * (value - 0.9) / 0.1
  }

  lemma InterpolateIsCeil(p50: nat, p90: nat, hardMax: nat, value: real)
    ensures Interpolate(p50, p90, hardMax, value) == Ceil(Exact(p50 as real, p90 as real, hardMax as real, value))
  {
  }

  /** Each segment of the interpolation stays between its end points. */
  lemma ExactBetween(p50: real, p90: real, hardMax: real, value: real)
    requires 0.0 <= value <= 1.0 && 0.0 <= p50
    ensures value <= 0.5 ==> 0.0 <= Exact(p50, p90, hardMax, value) <= p50
    ensures 0.5 < value <= 0.9 ==> (p50 <= p90 ==> p50 <= Exact(p50, p90, hardMax, value) <= p90)
                                   && (p90 <= p50 ==> p90 <= Exact(p50, p90, hardMax, value) <= p50)
    ensures value > 0.9 ==> (p90 <= hardMax ==> p90 <= Exact(p50, p90, hardMax, value) <= hardMax)
                            && (hardMax <= p90 ==> hardMax <= Exact(p50, p90, hardMax, value) <= p90)
  {
    if value <= 0.5 {
      Between(0.0, p50, value, 0.5);
    } else if value <= 0.9 {
      Between(p50, p90, value - 0.5, 0.4);
    } else {
      Between(p90, hardMax, value - 0.9, 0.1);
    }
  }

  /** Whatever the quantiles, a sample lies between zero and the largest of them. */
  lemma InterpolateInRange(p50: nat, p90: nat, hardMax: nat, value: real)
    requires 0.0 <= value <= 1.0
    ensures 0 <= Interpolate(p50, p90, hardMax, value) <= Max(p50, Max(p90, hardMax))
  {
    ExactBetween(p50 as real, p90 as real, hardMax as real, value);
    InterpolateIsCeil(p50, p90, hardMax, value);
    CeilOfInt(Exact(p50 as real, p90 as real, hardMax as real, value), Max(p50, Max(p90, hardMax)));
  }

  /** Quantiles in order: the sample grows with the draw and never passes the hard maximum. */
  lemma InterpolateMonotone(p50: nat, p90: nat, hardMax: nat, v: real, w: real)
    requires p50 <= p90 <= hardMax && 0.0 <= v <= w <= 1.0
    ensures 0 <= Interpolate(p50, p90, hardMax, v) <= Interpolate(p50, p90, hardMax, w) <= hardMax
  {
    InterpolateInRange(p50, p90, hardMax, v);
    InterpolateInRange(p50, p90, hardMax, w);
    InterpolateIsCeil(p50, p90, hardMax, v);
    InterpolateIsCeil(p50, p90, hardMax, w);
    ExactMonotone(p50 as real, p90 as real, hardMax as real, v, w);
    CeilMonotone(Exact(p50 as real, p90 as real, hardMax as real, v), Exact(p50 as real, p90 as real, hardMax as real, w));
  }

  lemma SegmentMonotone(a: real, b: real, x: real, y: real, w: real)
    requires a <= b && x <= y && w > 0.0
    ensures (b - a) * x / w <= (b - a) * y / w
  {
  }

  /** Within one segment. */
  lemma SegmentsMonotone(p50: real, p90: real, hardMax: real, v: real, w: real)
    requires 0.0 <= p50 <= p90 <= hardMax && 0.0 <= v <= w <= 1.0
    requires w <= 0.5 || (0.5 < v && w <= 0.9) || 0.9 < v
    ensures Exact(p50, p90, hardMax, v) <= Exact(p50, p90, hardMax, w)
  {
    if w <= 0.5 {
      SegmentMonotone(0.0, p50, v, w, 0.5);
    } else if w <= 0.9 {
      SegmentMonotone(p50, p90, v - 0.5, w - 0.5, 0.4);
    } else {
      SegmentMonotone(p90, hardMax, v - 0.9, w - 0.9, 0.1);
    }
  }

  lemma ExactMonotone(p50: real, p90: real, hardMax: real, v: real, w: real)
    requires 0.0 <= p50 <= p90 <= hardMax && 0.0 <= v <= w <= 1.0
    ensures Exact(p50, p90, hardMax, v) <= Exact(p50, p90, hardMax, w)
  {
    if w <= 0.5 || (0.5 < v && w <= 0.9) || 0.9 < v {
      SegmentsMonotone(p50, p90, hardMax, v, w);
    } else {
      ExactBetween(p50, p90, hardMax, v);
      ExactBetween(p50, p90, hardMax, w);
    }
  }

  // ----- sampleVector -----

  predicate IsBuiltin(d: Dimension) {
    !d.External?
  }

  /** The sample in one dimension: external units only where the hard maximum names them. */
  function SampleAt(e: Estimate, value: real, d: Dimension): int {
    if IsBuiltin(d) || d in e.hardMax then Interpolate(At(e.p50, d), At(e.p90, d), At(e.hardMax, d), value) else 0
  }

  /** The five own dimensions are always sampled, an external unit where the hard maximum has it. */
  lemma SampledDimensions(e: Estimate, value: real, d: Dimension)
    ensures d in {MoneyMicros, InputTokens, OutputTokens, ModelCalls, ToolCalls} || d in e.hardMax
            ==> SampleAt(e, value, d) == Interpolate(At(e.p50, d), At(e.p90, d), At(e.hardMax, d), value)
    ensures d.External? && d !in e.hardMax ==> SampleAt(e, value, d) == 0
  {
  }

  lemma SampleInRange(e: Estimate, value: real, d: Dimension)
    requires 0.0 <= value <= 1.0
    ensures 0 <= SampleAt(e, value, d) <= MAX_SAFE_INTEGER
  {
    InterpolateInRange(At(e.p50, d), At(e.p90, d), At(e.hardMax, d), value);
  }

  /** sampleVector: one draw moves all dimensions together; zeros are not stored. */
  method SampleVector(e: Estimate, value: real) returns (v: Vector)
    requires 0.0 <= value <= 1.0
    ensures Canonical(v) && forall d :: At(v, d) == SampleAt(e, value, d)
  {
    v := map[];
    for i := 0 to |BUILTINS|
      invariant forall d <- v.Keys :: v[d] != 0 && v[d] == SampleAt(e, value, d)
      invariant forall j :: 0 <= j < i ==> At(v, BUILTINS[j]) == SampleAt(e, value, BUILTINS[j])
      invariant forall d <- v.Keys :: !d.External?
    {
      SampleInRange(e, value, BUILTINS[i]);
      var sampled := Interpolate(At(e.p50, BUILTINS[i]), At(e.p90, BUILTINS[i]), At(e.hardMax, BUILTINS[i]), value);
      if sampled > 0 {
        v := v[BUILTINS[i] := sampled];
      }
    }
    BuiltinsSampled(e, value, v);
    var left := set d | d in e.hardMax && d.External?;
    ghost var externals := left;
    while left != {}
      invariant left <= externals
      invariant forall d <- v.Keys :: v[d] != 0 && v[d] == SampleAt(e, value, d)
      invariant forall d :: IsBuiltin(d) || d in externals - left ==> At(v, d) == SampleAt(e, value, d)
      decreases |left|
    {
      var d :| d in left;
      SampleInRange(e, value, d);
      var sampled := Interpolate(At(e.p50, d), At(e.p90, d), At(e.hardMax, d), value);
      if sampled > 0 {
        v := v[d := sampled];
      }
      left := left - {d};
    }
    forall d ensures At(v, d) == SampleAt(e, value, d) {
      if d.External? && d !in e.hardMax {
        assert SampleAt(e, value, d) == 0;
      }
    }
  }

  lemma BuiltinsSampled(e: Estimate, value: real, v: Vector)
    requires forall j :: 0 <= j < |BUILTINS| ==> At(v, BUILTINS[j]) == SampleAt(e, value, BUILTINS[j])
    ensures forall d :: IsBuiltin(d) ==> At(v, d) == SampleAt(e, value, d)
  {
    forall d | IsBuiltin(d) ensures At(v, d) == SampleAt(e, value, d) {
      assert BUILTINS[0] == MoneyMicros && BUILTINS[1] == InputTokens && BUILTINS[2] == OutputTokens;
      assert BUILTINS[3] == ModelCalls && BUILTINS[4] == ToolCalls;
    }
  }

  /** A sample of an ordered estimate never passes its hard maximum, in any dimension. */
  lemma SampleWithinHardMax(e: Estimate, value: real, d: Dimension)
    requires Ordered(e) && 0.0 <= value <= 1.0
    ensures SampleAt(e, value, d) <= At(e.hardMax, d)
  {
    assert At(e.p50, d) <= At(e.p90, d) <= At(e.p95, d) <= At(e.hardMax, d);
    InterpolateMonotone(At(e.p50, d), At(e.p90, d), At(e.hardMax, d), value, value);
  }
}
