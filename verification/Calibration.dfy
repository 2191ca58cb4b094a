/** Overflow-safe calibration arithmetic against its plain specification over the reals. */
module Calibration {
  import opened Floats
  import opened Reals
  import opened Sequences

  const TWO_64: real := 18446744073709551616.0

  /** The largest finite value: anything from 2^64 up; for an `f64` it is (2^53 - 1) * 2^971. */
  type FiniteLimit = x: real | x >= TWO_64 witness TWO_64

  const F64_MAX: FiniteLimit

  const F64_MIN: real := 0.0 - F64_MAX

  /**
   A finite `f64` value, without rounding. Every variable of this type carries the proof
   that the computation of its value did not overflow.
   */
  type f64 = x: real | F64_MIN <= x <= F64_MAX witness 0.0

  datatype Observation = Observation(predicted: f64, actual: f64)

  /** A vector of 16-byte observations holds at most this many. */
  const MAX_OBSERVATIONS: nat := 0x800_0000_0000_0000

  type Observations = s: seq<Observation> | |s| <= MAX_OBSERVATIONS

  const CALIBRATION_FACTOR_MIN: f64 := 0.1
  const CALIBRATION_FACTOR_MAX: f64 := 10.0
  const PREDICTION_EPSILON: real := 0.0000000001

  // The plain specification.

  function Errors(s: seq<Observation>): real {
    if s == [] then 0.0
    else Errors(s[..|s| - 1]) + Abs(s[|s| - 1].predicted - s[|s| - 1].actual)
  }

  function Biases(s: seq<Observation>): real {
    if s == [] then 0.0
    else Biases(s[..|s| - 1]) + (s[|s| - 1].predicted - s[|s| - 1].actual)
  }

  function Mean(sum: real, n: nat): real {
    if n == 0 then 0.0 else sum / n as real
  }

  /** To the nearest finite value. */
  function Saturated(x: real): f64 {
    if x > F64_MAX then F64_MAX
    else if x < F64_MIN then F64_MIN
    else x
  }

  function MeanAbsoluteError(s: seq<Observation>): f64 {
    Saturated(Mean(Errors(s), |s|))
  }

  function Bias(s: seq<Observation>): f64 {
    Saturated(Mean(Biases(s), |s|))
  }

  lemma {:induction false} BiasesWithinErrors(s: seq<Observation>)
    ensures Abs(Biases(s)) <= Errors(s)
  {
    if s != [] {
      BiasesWithinErrors(s[..|s| - 1]);
    }
  }

  lemma DivideBounded(a: real, b: real, n: real)
    requires n > 0.0 && Abs(a) <= b
    ensures Abs(a / n) <= b / n
  {
    assert (a / n) * n == a && (b / n) * n == b;
    if a / n > b / n { Grows(a / n, b / n, n); }
    if -(a / n) > b / n { Grows(-(a / n), b / n, n); }
  }

  /** The bias never exceeds the mean absolute error, saturated or not. */
  lemma BiasWithinError(s: seq<Observation>)
    ensures Abs(Bias(s)) <= MeanAbsoluteError(s)
  {
    BiasesWithinErrors(s);
    if s != [] {
      DivideBounded(Biases(s), Errors(s), |s| as real);
    }
  }

  // The computation.

  /** The `f64` result of an operation whose exact result is `x`, without rounding. */
  function Rounded(x: real): (r: Float)
    ensures !r.NaN?
    ensures r.Finite? <==> F64_MIN <= x <= F64_MAX
    ensures r.Finite? ==> r.value == x
  {
    if x > F64_MAX then PosInf else if x < F64_MIN then NegInf else Finite(x)
  }

  /** Kahan summation: the new sum and the new compensation, which exact arithmetic clears. */
  method CompensatedAdd(value: f64, sum: f64, compensation: f64) returns (next: f64, newCompensation: f64)
    requires F64_MIN <= value - compensation <= F64_MAX
    requires F64_MIN <= sum + (value - compensation) <= F64_MAX
    ensures next == sum + value - compensation && newCompensation == 0.0
  {
    var adjusted: f64 := value - compensation;
    next := sum + adjusted;
    newCompensation := (next - sum) - adjusted;
  }

  /** Only here may a product overflow, and then it saturates with its sign. */
  method SaturatingFiniteProduct(mean: f64, scale: f64) returns (product: f64)
    ensures product == Saturated(mean * scale)
  {
    var exact := mean * scale;
    var value := Rounded(exact);
    RoundedSaturates(exact);
    match value
    case PosInf => product := F64_MAX;
    case NegInf => product := F64_MIN;
    case Finite(v) => product := v;
  }

  lemma RoundedSaturates(x: real)
    ensures Saturated(x) == match Rounded(x) {
      case PosInf => F64_MAX
      case NegInf => F64_MIN
      case Finite(v) => v
      case NaN(_) => 0.0
    }
  {
  }

  lemma UnitRatio(x: real, scale: real)
    requires scale > 0.0 && Abs(x) <= scale
    ensures -1.0 <= x / scale <= 1.0 && (x / scale) * scale == x
  {
    var q := x / scale;
    assert q * scale == x;
    if q > 1.0 { Grows(q, 1.0, scale); }
    if q < -1.0 { Grows(-q, 1.0, scale); }
  }

  /** `scaled` is `x` divided by the scale. */
  predicate ScaledFrom(scaled: real, x: real, scale: real) {
    scaled * scale == x
  }

  lemma ScaledFromDivision(x: real, scale: real)
    requires scale > 0.0
    ensures ScaledFrom(x / scale, x, scale)
  {
  }

  lemma ScaledFromSum(a: real, x: real, b: real, y: real, scale: real)
    requires ScaledFrom(a, x, scale) && ScaledFrom(b, y, scale)
    ensures ScaledFrom(a + b, x + y, scale) && ScaledFrom(a - b, x - y, scale)
  {
    assert (a + b) * scale == a * scale + b * scale;
    assert (a - b) * scale == a * scale - b * scale;
  }

  lemma ScaledFromAbs(a: real, x: real, scale: real)
    requires ScaledFrom(a, x, scale) && scale > 0.0
    ensures ScaledFrom(Abs(a), Abs(x), scale)
  {
    if a >= 0.0 {
      NonNegativeProduct(a, scale);
    } else {
      assert (-a) * scale == -x;
      NonNegativeProduct(-a, scale);
    }
  }

  lemma MeanScalesBack(sum: real, x: real, n: real, scale: real)
    requires n > 0.0 && ScaledFrom(sum, x, scale)
    ensures ScaledFrom(sum / n, x / n, scale)
  {
    var q := sum / n;
    assert q * n == sum;
    assert (q * scale) * n == (q * n) * scale;
  }

  lemma {:induction false} NothingToMeasure(s: seq<Observation>)
    requires forall i | 0 <= i < |s| :: s[i].predicted == 0.0 && s[i].actual == 0.0
    ensures Errors(s) == 0.0 && Biases(s) == 0.0
  {
    if s != [] {
      NothingToMeasure(s[..|s| - 1]);
    }
  }

  /** The largest absolute value among the observations. */
  method ScaleOf(s: Observations) returns (scale: f64)
    ensures scale >= 0.0
    ensures forall i | 0 <= i < |s| :: Abs(s[i].predicted) <= scale && Abs(s[i].actual) <= scale
    ensures scale == 0.0 || exists i :: 0 <= i < |s| && (Abs(s[i].predicted) == scale || Abs(s[i].actual) == scale)
  {
    scale := 0.0;
    for i := 0 to |s|
      invariant scale >= 0.0
      invariant forall k | 0 <= k < i :: Abs(s[k].predicted) <= scale && Abs(s[k].actual) <= scale
      invariant scale == 0.0 || exists k :: 0 <= k < i && (Abs(s[k].predicted) == scale || Abs(s[k].actual) == scale)
    {
      var before := scale;
      if Abs(s[i].predicted) > scale { scale := Abs(s[i].predicted); }
      if Abs(s[i].actual) > scale { scale := Abs(s[i].actual); }
      if scale != before {
        assert Abs(s[i].predicted) == scale || Abs(s[i].actual) == scale;
      }
    }
  }

  /** Every value is at most the scale in size. */
  predicate Within(s: seq<Observation>, scale: real) {
    scale > 0.0 && forall i | 0 <= i < |s| :: Abs(s[i].predicted) <= scale && Abs(s[i].actual) <= scale
  }

  /** The difference of one observation's scaled values. */
  function ScaledError(o: Observation, scale: real): real
    requires scale > 0.0
  {
    o.predicted / scale - o.actual / scale
  }

  /** The sums as the loop over the observations accumulates them. */
  function ScaledErrorSum(s: seq<Observation>, scale: real): real
    requires scale > 0.0
  {
    if s == [] then 0.0 else ScaledErrorSum(s[..|s| - 1], scale) + Abs(ScaledError(s[|s| - 1], scale))
  }

  function ScaledBiasSum(s: seq<Observation>, scale: real): real
    requires scale > 0.0
  {
    if s == [] then 0.0 else ScaledBiasSum(s[..|s| - 1], scale) + ScaledError(s[|s| - 1], scale)
  }

  lemma ScaledErrorIsBounded(o: Observation, scale: real)
    requires scale > 0.0 && Abs(o.predicted) <= scale && Abs(o.actual) <= scale
    ensures Abs(o.predicted / scale) <= 1.0 && Abs(o.actual / scale) <= 1.0
    ensures Abs(ScaledError(o, scale)) <= 2.0
  {
    UnitRatio(o.predicted, scale);
    UnitRatio(o.actual, scale);
  }

  /**
   After `i` observations the scaled sum of errors is at most `2 * i`, and the scaled bias at
   most that sum in size.
   */
  lemma {:induction false} ScaledSumsStayBounded(s: seq<Observation>, scale: real, i: nat)
    requires i <= |s| && Within(s, scale)
    ensures Abs(ScaledBiasSum(s[..i], scale)) <= ScaledErrorSum(s[..i], scale) <= 2.0 * i as real
  {
    hide ScaledError;
    if i > 0 {
      ScaledSumsStayBounded(s, scale, i - 1);
      ScaledErrorIsBounded(s[i - 1], scale);
      assert s[..i][..i - 1] == s[..i - 1];
    }
  }

  /** The sums are the sums of errors and differences, divided by the scale. */
  lemma {:induction false} ScaledSumsScaleBack(s: seq<Observation>, scale: real)
    requires scale > 0.0
    ensures ScaledFrom(ScaledErrorSum(s, scale), Errors(s), scale)
    ensures ScaledFrom(ScaledBiasSum(s, scale), Biases(s), scale)
  {
    hide ScaledFrom, Abs;
    if s == [] {
      ScaledFromDivision(0.0, scale);
    } else {
      var (before, o) := (s[..|s| - 1], s[|s| - 1]);
      ScaledSumsScaleBack(before, scale);
      var (d, x) := (ScaledError(o, scale), o.predicted - o.actual);
      ScaledErrorScalesBack(o, scale);
      ScaledFromSum(ScaledErrorSum(before, scale), Errors(before), Abs(d), Abs(x), scale);
      ScaledFromSum(ScaledBiasSum(before, scale), Biases(before), d, x, scale);
    }
  }

  lemma ScaledErrorScalesBack(o: Observation, scale: real)
    requires scale > 0.0
    ensures ScaledFrom(ScaledError(o, scale), o.predicted - o.actual, scale)
    ensures ScaledFrom(Abs(ScaledError(o, scale)), Abs(o.predicted - o.actual), scale)
  {
    hide ScaledFrom, Abs;
    ScaledFromDivision(o.predicted, scale);
    ScaledFromDivision(o.actual, scale);
    ScaledFromSum(o.predicted / scale, o.predicted, o.actual / scale, o.actual, scale);
    ScaledFromAbs(ScaledError(o, scale), o.predicted - o.actual, scale);
  }

  /** One observation's scaled difference, from two quotients that cannot overflow. */
  method ScaledDifference(o: Observation, scale: f64) returns (difference: f64)
    requires scale > 0.0 && Abs(o.predicted) <= scale && Abs(o.actual) <= scale
    ensures difference == ScaledError(o, scale) && Abs(difference) <= 2.0
  {
    ScaledErrorIsBounded(o, scale);
    var predicted: f64 := o.predicted / scale;
    var actual: f64 := o.actual / scale;
    difference := predicted - actual;
  }

  /** The loop over the observations, with a compensation for each sum. */
  method AccumulateErrors(s: Observations, scale: f64) returns (errorSum: f64, biasSum: f64)
    requires Within(s, scale)
    ensures errorSum == ScaledErrorSum(s, scale) && biasSum == ScaledBiasSum(s, scale)
    ensures Abs(biasSum) <= errorSum <= 2.0 * |s| as real
  {
    hide ScaledError;
    var errorCompensation, biasCompensation: f64 := 0.0, 0.0;
    errorSum, biasSum := 0.0, 0.0;
    for i := 0 to |s|
      invariant errorCompensation == 0.0 == biasCompensation
      invariant errorSum == ScaledErrorSum(s[..i], scale) && biasSum == ScaledBiasSum(s[..i], scale)
    {
      assert s[..i + 1][..i] == s[..i];
      ScaledSumsStayBounded(s, scale, i);
      var difference := ScaledDifference(s[i], scale);
      errorSum, errorCompensation := CompensatedAdd(Abs(difference), errorSum, errorCompensation);
      biasSum, biasCompensation := CompensatedAdd(difference, biasSum, biasCompensation);
    }
    assert s[..|s|] == s;
    ScaledSumsStayBounded(s, scale, |s|);
  }

  /** Mean absolute error and bias, with no intermediate value that can overflow. */
  method CalibrationErrors(s: Observations) returns (meanAbsoluteError: f64, bias: f64)
    ensures meanAbsoluteError == MeanAbsoluteError(s) && bias == Bias(s)
  {
    hide ScaledFrom, Errors, Biases;
    var scale := ScaleOf(s);
    if scale == 0.0 {
      NothingToMeasure(s);
      return 0.0, 0.0;
    }
    var errorSum, biasSum := AccumulateErrors(s, scale);
    ScaledSumsScaleBack(s, scale);
    meanAbsoluteError := ScaledBack(errorSum, Errors(s), |s|, scale);
    bias := ScaledBack(biasSum, Biases(s), |s|, scale);
  }

  /** The mean of a scaled sum, scaled back. */
  method ScaledBack(sum: f64, ghost exact: real, count: nat, scale: f64) returns (mean: f64)
    requires 0 < count <= MAX_OBSERVATIONS && Abs(sum) <= 2.0 * count as real
    requires ScaledFrom(sum, exact, scale)
    ensures mean == Saturated(Mean(exact, count))
  {
    var n := count as real;
    DivideBounded(sum, 2.0 * n, n);
    TwiceOver(n);
    MeanScalesBack(sum, exact, n, scale);
    mean := SaturatingFiniteProduct(sum / n, scale);
  }

  lemma TwiceOver(count: real)
    requires count > 0.0
    ensures 2.0 * count / count == 2.0
  {
  }

  // The calibration factor.

  /** The ratio an observation contributes: none if it overflows, the maximum for no prediction. */
  function RatioOf(o: Observation): seq<f64> {
    if Abs(o.predicted) > PREDICTION_EPSILON then
      var ratio := Rounded(o.actual / o.predicted);
      if ratio.Finite? then [ratio.value] else []
    else [CALIBRATION_FACTOR_MAX]
  }

  function UsableRatios(s: seq<Observation>): (r: seq<f64>)
    ensures |r| <= |s|
  {
    if s == [] then [] else UsableRatios(s[..|s| - 1]) + RatioOf(s[|s| - 1])
  }

  function Sum(s: seq<real>): real {
    if s == [] then 0.0 else Sum(s[..|s| - 1]) + s[|s| - 1]
  }

  function ClampedFactor(mean: real): f64 {
    if mean < CALIBRATION_FACTOR_MIN then CALIBRATION_FACTOR_MIN
    else if mean > CALIBRATION_FACTOR_MAX then CALIBRATION_FACTOR_MAX
    else mean
  }

  /** The mean usable ratio within the allowed range, or one when no ratio is usable. */
  function CalibrationFactor(s: seq<Observation>): f64 {
    var ratios := UsableRatios(s);
    if ratios == [] then 1.0 else ClampedFactor(Sum(ratios) / |ratios| as real)
  }

  method CollectRatios(s: Observations) returns (ratios: seq<f64>)
    ensures ratios == UsableRatios(s)
  {
    ratios := [];
    for i := 0 to |s|
      invariant ratios == UsableRatios(s[..i])
    {
      assert s[..i + 1][..i] == s[..i];
      if Abs(s[i].predicted) > PREDICTION_EPSILON {
        var ratio := Rounded(s[i].actual / s[i].predicted);
        if ratio.Finite? {
          ratios := ratios + [ratio.value];
        }
      } else {
        ratios := ratios + [CALIBRATION_FACTOR_MAX];
      }
    }
    assert s[..|s|] == s;
  }

  method LargestRatio(ratios: seq<f64>) returns (scale: f64)
    ensures scale >= 0.0
    ensures forall i | 0 <= i < |ratios| :: Abs(ratios[i]) <= scale
  {
    scale := 0.0;
    for i := 0 to |ratios|
      invariant scale >= 0.0
      invariant forall k | 0 <= k < i :: Abs(ratios[k]) <= scale
    {
      if Abs(ratios[i]) > scale { scale := Abs(ratios[i]); }
    }
  }

  lemma {:induction false} NoRatios(ratios: seq<f64>)
    requires forall i | 0 <= i < |ratios| :: ratios[i] == 0.0
    ensures Sum(ratios) == 0.0
  {
    if ratios != [] {
      NoRatios(ratios[..|ratios| - 1]);
    }
  }

  /** The scaled mean of the ratios, at most one. */
  method ScaledMean(ratios: seq<f64>, scale: f64) returns (mean: f64)
    requires 0 < |ratios| <= MAX_OBSERVATIONS && scale > 0.0
    requires forall i | 0 <= i < |ratios| :: Abs(ratios[i]) <= scale
    ensures ScaledFrom(mean, Sum(ratios) / |ratios| as real, scale) && Abs(mean) <= 1.0
  {
    hide ScaledFrom;
    var sum, compensation: f64 := 0.0, 0.0;
    ScaledFromDivision(0.0, scale);
    for i := 0 to |ratios|
      invariant compensation == 0.0
      invariant ScaledFrom(sum, Sum(ratios[..i]), scale) && Abs(sum) <= i as real
    {
      assert ratios[..i + 1][..i] == ratios[..i];
      UnitRatio(ratios[i], scale);
      ScaledFromDivision(ratios[i], scale);
      var term: f64 := ratios[i] / scale;
      ScaledFromSum(sum, Sum(ratios[..i]), term, ratios[i], scale);
      sum, compensation := CompensatedAdd(term, sum, compensation);
    }
    assert ratios[..|ratios|] == ratios;
    mean := Average(sum, Sum(ratios), |ratios|, scale);
  }

  method Average(sum: f64, ghost exact: real, count: nat, scale: f64) returns (mean: f64)
    requires 0 < count <= MAX_OBSERVATIONS && Abs(sum) <= count as real
    requires ScaledFrom(sum, exact, scale)
    ensures ScaledFrom(mean, exact / count as real, scale) && Abs(mean) <= 1.0
  {
    var n := count as real;
    DivideBounded(sum, n, n);
    assert n / n == 1.0;
    MeanScalesBack(sum, exact, n, scale);
    mean := sum / n;
  }

  /** Comparing a scaled value with a scaled limit is comparing the values. */
  lemma Threshold(scaled: real, x: real, limit: real, scale: real)
    requires scale > 0.0 && ScaledFrom(scaled, x, scale)
    ensures scaled >= limit / scale <==> x >= limit
    ensures scaled <= limit / scale <==> x <= limit
  {
    var t := limit / scale;
    assert t * scale == limit;
    if scaled > t { Grows(scaled, t, scale); }
    if scaled < t { Grows(t, scaled, scale); }
  }

  lemma SignScales(scaled: real, x: real, scale: real)
    requires scale > 0.0 && ScaledFrom(scaled, x, scale)
    ensures scaled > 0.0 <==> x > 0.0
    ensures scaled < 0.0 <==> x < 0.0
  {
    if scaled > 0.0 { Grows(scaled, 0.0, scale); }
    if scaled < 0.0 { Grows(0.0, scaled, scale); }
  }

  lemma PositiveQuotient(limit: real, scale: real)
    requires scale > 0.0 && limit > 0.0
    ensures limit / scale > 0.0
  {
    assert (limit / scale) * scale == limit;
  }

  /** The branches that keep the last product from overflowing. */
  method ClampedRatio(scaledMean: f64, ghost exact: real, scale: f64) returns (factor: f64)
    requires scale > 0.0 && Abs(scaledMean) <= 1.0 && ScaledFrom(scaledMean, exact, scale)
    ensures factor == ClampedFactor(exact)
  {
    Threshold(scaledMean, exact, CALIBRATION_FACTOR_MAX, scale);
    Threshold(scaledMean, exact, CALIBRATION_FACTOR_MIN, scale);
    SignScales(scaledMean, exact, scale);
    PositiveQuotient(CALIBRATION_FACTOR_MAX, scale);
    PositiveQuotient(CALIBRATION_FACTOR_MIN, scale);
    var upper := Rounded(CALIBRATION_FACTOR_MAX / scale);
    var lower := Rounded(CALIBRATION_FACTOR_MIN / scale);
    var meanRatio: f64;
    if scaledMean > 0.0 && upper.Finite? && scaledMean >= upper.value {
      meanRatio := CALIBRATION_FACTOR_MAX;
    } else if scaledMean < 0.0 && (lower.PosInf? || (lower.Finite? && scaledMean <= lower.value)) {
      meanRatio := CALIBRATION_FACTOR_MIN;
    } else {
      meanRatio := scaledMean * scale;
    }
    factor := ClampedFactor(meanRatio);
  }

  /** The factor, from the scaled mean of the usable ratios. */
  method ComputeCalibrationFactor(s: Observations) returns (factor: f64)
    ensures factor == CalibrationFactor(s)
    ensures CALIBRATION_FACTOR_MIN <= factor <= CALIBRATION_FACTOR_MAX
  {
    hide ScaledFrom, UsableRatios, Sum;
    EmptyHasNoRatio();
    if s == [] { return 1.0; }
    var ratios := CollectRatios(s);
    if ratios == [] { return 1.0; }
    var scale := LargestRatio(ratios);
    if scale == 0.0 {
      NoRatios(ratios);
      return CALIBRATION_FACTOR_MIN;
    }
    var scaledMean := ScaledMean(ratios, scale);
    factor := ClampedRatio(scaledMean, Sum(ratios) / |ratios| as real, scale);
  }

  lemma EmptyHasNoRatio()
    ensures UsableRatios([]) == []
  {
  }

  // The results in terms of the observations.

  /** How far the prediction was above the actual value. */
  function Overestimate(o: Observation): real {
    o.predicted - o.actual
  }

  function Misestimate(o: Observation): real {
    if o.predicted >= o.actual then o.predicted - o.actual else o.actual - o.predicted
  }

  lemma MapLast<A, B>(s: seq<A>, f: A -> B)
    requires s != []
    ensures Map(s, f) == Map(s[..|s| - 1], f) + [f(s[|s| - 1])]
  {
    MapLength(s, f);
    MapLength(s[..|s| - 1], f);
  }

  lemma SumLast(terms: seq<real>, x: real)
    ensures Sum(terms + [x]) == Sum(terms) + x
  {
    assert (terms + [x])[..|terms + [x]| - 1] == terms;
  }

  lemma {:induction false} ErrorsAreSums(s: seq<Observation>)
    ensures Errors(s) == Sum(Map(s, Misestimate)) && Biases(s) == Sum(Map(s, Overestimate))
  {
    hide Map, Sum;
    if s == [] {
      NothingToSum();
    } else {
      var (before, o) := (s[..|s| - 1], s[|s| - 1]);
      ErrorsAreSums(before);
      MapLast(s, Misestimate);
      MapLast(s, Overestimate);
      SumLast(Map(before, Misestimate), Misestimate(o));
      SumLast(Map(before, Overestimate), Overestimate(o));
    }
  }

  lemma NothingToSum()
    ensures Map<Observation, real>([], Misestimate) == [] == Map<Observation, real>([], Overestimate)
    ensures Sum([]) == 0.0
  {
  }

  /** `mean` times `n` is the sum; a mean beyond the finite values is the limit of its sign. */
  predicate IsMean(mean: real, sum: real, n: nat) {
    && F64_MIN <= mean <= F64_MAX
    && (mean * n as real == sum
        || (mean == F64_MAX && sum > F64_MAX * n as real) || (mean == F64_MIN && sum < F64_MIN * n as real))
  }

  lemma SaturatedMeanIsMean(sum: real, n: nat)
    requires n > 0
    ensures IsMean(Saturated(Mean(sum, n)), sum, n)
  {
    var mean := sum / n as real;
    assert mean * n as real == sum;
    if mean > F64_MAX { Grows(mean, F64_MAX, n as real); }
    if mean < F64_MIN { Grows(F64_MIN, mean, n as real); }
  }

  /** The error is the mean distance between predicted and actual value, the bias the mean overestimate. */
  lemma ErrorsMean(s: seq<Observation>)
    ensures s == [] ==> MeanAbsoluteError(s) == 0.0 == Bias(s)
    ensures s != [] ==> IsMean(MeanAbsoluteError(s), Sum(Map(s, Misestimate)), |s|)
    ensures s != [] ==> IsMean(Bias(s), Sum(Map(s, Overestimate)), |s|)
  {
    hide IsMean, Sum, Map, Errors, Biases;
    ErrorsAreSums(s);
    if s != [] {
      SaturatedMeanIsMean(Errors(s), |s|);
      SaturatedMeanIsMean(Biases(s), |s|);
    }
  }

  /** A ratio that is a finite value, or a prediction too close to zero to divide by. */
  predicate Usable(o: Observation) {
    var ratioIsFinite := o.predicted != 0.0 && F64_MIN <= o.actual / o.predicted <= F64_MAX;
    -0.0000000001 <= o.predicted <= 0.0000000001 || ratioIsFinite
  }

  /** The actual value per predicted, or ten when next to nothing was predicted. */
  function Ratio(o: Observation): real {
    if -0.0000000001 <= o.predicted <= 0.0000000001 then 10.0 else o.actual / o.predicted
  }

  lemma RatioOfMeans(o: Observation)
    ensures RatioOf(o) == if Usable(o) then [Ratio(o)] else []
  {
  }

  lemma {:induction false} RatiosAreUsable(s: seq<Observation>)
    ensures UsableRatios(s) == Map(Retain(s, Usable), Ratio)
  {
    hide Map, Retain, RatioOf, Usable, Ratio;
    if s == [] {
      NoUsableRatio();
    } else {
      var (before, o) := (s[..|s| - 1], s[|s| - 1]);
      assert s == before + [o];
      RatiosAreUsable(before);
      RatioOfMeans(o);
      RetainAppend(before, [o], Usable);
      RetainOne(o, Usable);
      if Usable(o) {
        MapLast(Retain(s, Usable), Ratio);
        assert Retain(s, Usable)[..|Retain(s, Usable)| - 1] == Retain(before, Usable);
      } else {
        assert Retain(before, Usable) + [] == Retain(before, Usable);
      }
    }
  }

  lemma NoUsableRatio()
    ensures Map(Retain([], Usable), Ratio) == []
  {
  }

  /** The factor is the mean ratio of the usable observations, held between 0.1 and 10, or one without any. */
  lemma FactorMeans(s: seq<Observation>)
    ensures var usable := Retain(s, Usable);
      var (sum, n) := (Sum(Map(usable, Ratio)), |usable| as real);
      if usable == [] then CalibrationFactor(s) == 1.0
      else if sum < 0.1 * n then CalibrationFactor(s) == 0.1
      else if sum > 10.0 * n then CalibrationFactor(s) == 10.0
      else CalibrationFactor(s) * n == sum
  {
    hide Map, Retain, Sum, UsableRatios;
    RatiosAreUsable(s);
    var usable := Retain(s, Usable);
    MapLength(usable, Ratio);
    if usable != [] {
      ClampedMeans(Sum(Map(usable, Ratio)), |usable| as real);
    }
  }

  lemma ClampedMeans(sum: real, n: real)
    requires n > 0.0
    ensures sum < 0.1 * n ==> ClampedFactor(sum / n) == 0.1
    ensures sum > 10.0 * n ==> ClampedFactor(sum / n) == 10.0
    ensures 0.1 * n <= sum <= 10.0 * n ==> ClampedFactor(sum / n) * n == sum
  {
    var mean := sum / n;
    assert mean * n == sum;
    if mean < 0.1 { Grows(0.1, mean, n); }
    if mean > 0.1 { Grows(mean, 0.1, n); }
    if mean < 10.0 { Grows(10.0, mean, n); }
    if mean > 10.0 { Grows(mean, 10.0, n); }
  }
}
