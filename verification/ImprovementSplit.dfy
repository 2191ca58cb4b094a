/** Splitting best-first improvements into runs of similar magnitude. */
module ImprovementSplit {
  import opened Floats
  import opened Reals
  import opened Sequences

  const IMPROVEMENT_SIMILARITY_RATIO: real := 5.0
  /** `f32::EPSILON`, two to the power of minus 23. */
  const EPSILON: real := 1.0 / 8388608.0

  datatype ClusterableCandidate = ClusterableCandidate(
    fromUuid: string, toUuid: string, improvement: Float, neuronType: string)

  function ImprovementOf(c: ClusterableCandidate): Float {
    c.improvement
  }

  /** `abs().max(EPSILON)`: a NaN gives way to the floor, an infinity stays infinite. */
  function Magnitude(c: ClusterableCandidate): Float {
    match c.improvement
    case Finite(v) => Finite(if Abs(v) > EPSILON then Abs(v) else EPSILON)
    case PosInf => PosInf
    case NegInf => PosInf
    case NaN(_) => Finite(EPSILON)
  }

  /** `best / other > 5` for magnitudes; infinity over infinity is NaN and so not greater. */
  predicate TooFar(best: Float, other: Float) {
    match (best, other)
    case (Finite(b), Finite(o)) => o != 0.0 && b / o > IMPROVEMENT_SIMILARITY_RATIO
    case (PosInf, Finite(_)) => true
    case _ => false
  }

  lemma TooFarMeans(a: ClusterableCandidate, b: ClusterableCandidate)
    ensures Magnitude(a).Finite? && Magnitude(b).Finite? ==>
      (TooFar(Magnitude(a), Magnitude(b)) <==> Magnitude(a).value > 5.0 * Magnitude(b).value)
  {
    if Magnitude(a).Finite? && Magnitude(b).Finite? {
      RatioMeans(Magnitude(a).value, Magnitude(b).value);
    }
  }

  lemma RatioMeans(x: real, y: real)
    requires y > 0.0
    ensures x / y > 5.0 <==> x > 5.0 * y
  {
    var q := x / y;
    assert x == q * y;
    if q > 5.0 {
      Grows(q, 5.0, y);
    } else if q < 5.0 {
      Grows(5.0, q, y);
    }
  }

  /** The size of an improvement, where a NaN counts as nothing. */
  function SizeOf(f: Float): real {
    if f.Finite? then Abs(f.value) else 0.0
  }

  /**
   In terms of the improvements themselves: `b` is finite or NaN, and `a` is infinite or of more
   than five times the size of `b` and of the smallest size that counts, 2^-23.
   */
  lemma TooFarInImprovements(a: ClusterableCandidate, b: ClusterableCandidate)
    ensures TooFar(Magnitude(a), Magnitude(b)) <==>
      && b.improvement != PosInf && b.improvement != NegInf
      && (a.improvement == PosInf || a.improvement == NegInf
          || (SizeOf(a.improvement) > 5.0 * SizeOf(b.improvement) && SizeOf(a.improvement) > 5.0 / 8388608.0))
  {
    TooFarMeans(a, b);
  }

  type Group = seq<ClusterableCandidate>

  /** How many leading candidates are not too far below `best`. */
  function RunFrom(best: Float, s: Group): (n: nat)
    ensures n <= |s|
  {
    if s == [] || TooFar(best, Magnitude(s[0])) then 0 else 1 + RunFrom(best, s[1..])
  }

  /** The length of the run that starts with the first candidate. */
  function RunLength(s: Group): (n: nat)
    requires s != []
    ensures 0 < n <= |s|
  {
    1 + RunFrom(Magnitude(s[0]), s[1..])
  }

  /** The runs: each as long as its members are not too far below its first. */
  function Runs(s: Group): seq<Group> {
    if s == [] then [] else [s[..RunLength(s)]] + Runs(s[RunLength(s)..])
  }

  lemma {:induction false} RunFromMeans(best: Float, s: Group, k: nat)
    requires k <= |s|
    ensures k <= RunFrom(best, s) <==> forall i | 0 <= i < k :: !TooFar(best, Magnitude(s[i]))
    ensures RunFrom(best, s) < |s| ==> TooFar(best, Magnitude(s[RunFrom(best, s)]))
  {
    if s != [] {
      if k > 0 {
        RunFromMeans(best, s[1..], k - 1);
        assert forall i | 0 <= i < k - 1 :: s[1..][i] == s[i + 1];
        if !TooFar(best, Magnitude(s[0])) && k <= RunFrom(best, s) {
          forall i | 0 <= i < k ensures !TooFar(best, Magnitude(s[i])) {
            assert i == 0 || s[i] == s[1..][i - 1];
          }
        }
      } else {
        RunFromMeans(best, s[1..], 0);
      }
    }
  }

  lemma NotTooFarFromItself(c: ClusterableCandidate)
    ensures !TooFar(Magnitude(c), Magnitude(c))
  {
    TooFarMeans(c, c);
  }

  /** The run is the longest prefix without a member too far below the first. */
  lemma RunLengthMeans(s: Group, k: nat)
    requires 0 < k <= |s|
    ensures k <= RunLength(s) <==> forall i | 0 <= i < k :: !TooFar(Magnitude(s[0]), Magnitude(s[i]))
    ensures RunLength(s) < |s| ==> TooFar(Magnitude(s[0]), Magnitude(s[RunLength(s)]))
  {
    hide TooFar, Magnitude;
    RunFromMeans(Magnitude(s[0]), s[1..], k - 1);
    NotTooFarFromItself(s[0]);
    assert forall i | 0 <= i < k - 1 :: s[1..][i] == s[i + 1];
    assert forall i | 0 < i < k :: s[i] == s[1..][i - 1];
  }

  /** Walks the group once, closing a run whenever the next candidate is too far. */
  method SplitByImprovementSimilarity(sorted: Group) returns (result: seq<Group>)
    ensures result == Runs(sorted)
  {
    hide Runs, RunLength, TooFar, Magnitude;
    RunsUnfold(sorted);
    if sorted == [] { return []; }
    result := [];
    var currentSub := [sorted[0]];
    var currentBest := Magnitude(sorted[0]);
    ghost var start := 0;
    NotTooFarFromItself(sorted[0]);
    for i := 1 to |sorted|
      invariant 0 <= start < i
      invariant currentSub == sorted[start..i] && currentBest == Magnitude(sorted[start])
      invariant forall k | start <= k < i :: !TooFar(currentBest, Magnitude(sorted[k]))
      invariant Runs(sorted) == result + Runs(sorted[start..])
    {
      var improvement := Magnitude(sorted[i]);
      if TooFar(currentBest, improvement) {
        RunEnds(sorted[start..], i - start);
        assert sorted[start..][i - start..] == sorted[i..] && sorted[start..][..i - start] == currentSub;
        result := result + [currentSub];
        currentSub := [];
        currentBest := improvement;
        start := i;
        NotTooFarFromItself(sorted[i]);
      }
      currentSub := currentSub + [sorted[i]];
    }
    RunEnds(sorted[start..], |sorted| - start);
    RunsUnfold([]);
    assert sorted[start..][|sorted| - start..] == [] && sorted[start..][..|sorted| - start] == currentSub;
    result := result + [currentSub];
  }

  lemma RunsUnfold(s: Group)
    ensures s == [] ==> Runs(s) == []
    ensures s != [] ==> Runs(s) == [s[..RunLength(s)]] + Runs(s[RunLength(s)..])
  {
    hide RunLength;
  }

  /** A run of `n` that cannot be continued is the first of the runs. */
  lemma RunEnds(s: Group, n: nat)
    requires 0 < n <= |s|
    requires forall k | 0 <= k < n :: !TooFar(Magnitude(s[0]), Magnitude(s[k]))
    requires n < |s| ==> TooFar(Magnitude(s[0]), Magnitude(s[n]))
    ensures RunLength(s) == n && Runs(s) == [s[..n]] + Runs(s[n..])
  {
    hide Runs, RunLength;
    RunLengthMeans(s, n);
    if n < |s| {
      RunLengthMeans(s, n + 1);
    }
    RunsUnfold(s);
  }

  function Joined(parts: seq<Group>): Group {
    if parts == [] then [] else parts[0] + Joined(parts[1..])
  }

  /** The runs are nonempty and concatenate back to the group. */
  lemma {:induction false} RunsJoin(s: Group)
    ensures Joined(Runs(s)) == s
    ensures forall i | 0 <= i < |Runs(s)| :: Runs(s)[i] != []
  {
    hide Runs, RunLength;
    RunsUnfold(s);
    if s != [] {
      RunsJoin(s[RunLength(s)..]);
      assert Runs(s)[1..] == Runs(s[RunLength(s)..]);
    }
  }

  /** No earlier member of the part is more than the ratio above a later one. */
  predicate NoSteepFall(part: Group) {
    forall i, j | 0 <= i < j < |part| :: !TooFar(Magnitude(part[i]), Magnitude(part[j]))
  }

  /** No later member is more than the ratio above an earlier one. */
  predicate NoSteepRise(part: Group) {
    forall i, j | 0 <= i < j < |part| :: !TooFar(Magnitude(part[j]), Magnitude(part[i]))
  }

  /** Every two members have a floored ratio of at most five, whichever is the larger. */
  predicate Similar(part: Group) {
    NoSteepFall(part) && NoSteepRise(part)
  }

  predicate AllSimilar(parts: seq<Group>) {
    forall i | 0 <= i < |parts| :: Similar(parts[i])
  }

  lemma Splits<T>(a: seq<T>, b: seq<T>, c: seq<T>, d: seq<T>)
    requires a + b == c + d && |a| <= |c|
    ensures a == c[..|a|] && b == c[|a|..] + d
  {
    assert (a + b)[..|a|] == a && (a + b)[|a|..] == b;
    assert (c + d)[..|a|] == c[..|a|] && (c + d)[|a|..] == c[|a|..] + d;
  }

  /** A part that reaches into `s` is covered by the first run of `s`. */
  lemma RunReachesAsFar(before: Group, s: Group, m: nat)
    requires 0 < m <= |s| && NoSteepFall(before + s[..m])
    ensures m <= RunLength(s)
  {
    hide RunLength, TooFar, Magnitude;
    NotTooFarFromItself(s[0]);
    var part := before + s[..m];
    forall k | 0 < k < m ensures !TooFar(Magnitude(s[0]), Magnitude(s[k])) {
      assert part[|before|] == s[0] && part[|before| + k] == s[k];
    }
    RunLengthMeans(s, m);
  }

  lemma {:induction false} RunsAtMost(before: Group, s: Group, parts: seq<Group>)
    requires Joined(parts) == before + s
    requires forall i | 0 <= i < |parts| :: NoSteepFall(parts[i])
    ensures |Runs(s)| <= |parts|
    decreases |parts|
  {
    hide Runs, RunLength, NoSteepFall;
    RunsUnfold(s);
    if s != [] {
      assert parts != [];
      var (part, rest) := (parts[0], parts[1..]);
      assert Joined(parts) == part + Joined(rest);
      if |part| <= |before| {
        Splits(part, Joined(rest), before, s);
        RunsAtMost(before[|part|..], s, rest);
      } else {
        Splits(before, s, part, Joined(rest));
        var m := |part| - |before|;
        assert s[..m] == part[|before|..] && part == before + s[..m];
        RunReachesAsFar(before, s, m);
        var r := RunLength(s);
        assert Joined(rest) == s[m..] == s[m..r] + s[r..];
        RunsAtMost(s[m..r], s[r..], rest);
      }
    }
  }

  /** No split into contiguous parts with similar members uses fewer parts than the runs. */
  lemma RunsAreFewest(s: Group, parts: seq<Group>)
    requires Joined(parts) == s && AllSimilar(parts)
    ensures |Runs(s)| <= |parts|
  {
    assert [] + s == s;
    RunsAtMost([], s, parts);
  }

  lemma MagnitudeChain(
    g: ClusterableCandidate, a: ClusterableCandidate, f: ClusterableCandidate, b: ClusterableCandidate)
    requires TooFar(Magnitude(g), Magnitude(f)) && !TooFar(Magnitude(g), Magnitude(a))
    requires !TooFar(Magnitude(b), Magnitude(f))
    ensures !TooFar(Magnitude(b), Magnitude(a))
  {
    TooFarMeans(g, f);
    TooFarMeans(g, a);
    TooFarMeans(b, f);
    TooFarMeans(b, a);
  }

  lemma {:induction false} SimilarRunsDoNotRise(s: Group)
    requires AllSimilar(Runs(s))
    ensures NoSteepRise(s)
  {
    if s == [] { return; }
    hide RunLength, TooFar, Magnitude;
    var r := RunLength(s);
    var (run, rest) := (s[..r], s[r..]);
    assert Runs(s)[0] == run && Runs(s)[1..] == Runs(rest);
    assert AllSimilar(Runs(rest)) by {
      forall i | 0 <= i < |Runs(rest)| ensures Similar(Runs(rest)[i]) {
        assert Runs(rest)[i] == Runs(s)[i + 1];
      }
    }
    assert Similar(Runs(s)[0]);
    SimilarRunsDoNotRise(rest);
    RunLengthMeans(s, r);
    forall i, j | 0 <= i < j < |s| ensures !TooFar(Magnitude(s[j]), Magnitude(s[i])) {
      if j < r {
        assert s[i] == run[i] && s[j] == run[j];
      } else if i >= r {
        assert s[i] == rest[i - r] && s[j] == rest[j - r];
      } else {
        NotTooFarFromItself(s[r]);
        assert s[r] == rest[0] && s[j] == rest[j - r];
        assert !TooFar(Magnitude(s[j]), Magnitude(s[r]));
        MagnitudeChain(s[0], s[i], s[r], s[j]);
      }
    }
  }

  predicate NoNaN(s: Group) {
    forall i | 0 <= i < |s| :: !s[i].improvement.NaN?
  }

  lemma FirstIsLargestBeforeFall(g: ClusterableCandidate, a: ClusterableCandidate, b: ClusterableCandidate)
    requires TotalLe(b.improvement, a.improvement) && TotalLe(a.improvement, g.improvement)
    requires !a.improvement.NaN? && !b.improvement.NaN? && !g.improvement.NaN?
    requires !TooFar(Magnitude(g), Magnitude(b))
    ensures !TooFar(Magnitude(a), Magnitude(b))
  {
    TooFarMeans(g, b);
    TooFarMeans(a, b);
  }

  lemma {:induction false} RunsDoNotFall(s: Group)
    requires SortedDesc(s, ImprovementOf) && NoNaN(s)
    ensures forall i | 0 <= i < |Runs(s)| :: NoSteepFall(Runs(s)[i])
  {
    if s == [] { return; }
    hide RunLength, TooFar, Magnitude, Runs;
    RunsUnfold(s);
    var r := RunLength(s);
    RunsDoNotFall(s[r..]);
    RunLengthMeans(s, r);
    forall i, j | 0 <= i < j < r ensures !TooFar(Magnitude(s[..r][i]), Magnitude(s[..r][j])) {
      assert TotalLe(ImprovementOf(s[j]), ImprovementOf(s[i]));
      assert i == 0 || TotalLe(ImprovementOf(s[i]), ImprovementOf(s[0]));
      FirstIsLargestBeforeFall(s[0], s[i], s[j]);
    }
  }

  lemma {:induction false} NoRiseMeansNoRiseInRuns(s: Group)
    requires NoSteepRise(s)
    ensures forall i | 0 <= i < |Runs(s)| :: NoSteepRise(Runs(s)[i])
  {
    if s == [] { return; }
    hide RunLength, TooFar, Magnitude, Runs;
    RunsUnfold(s);
    NoRiseMeansNoRiseInRuns(s[RunLength(s)..]);
  }

  /**
   Sorted best first by signed value but split by absolute value, the runs are similar
   exactly when no later magnitude exceeds five times an earlier one.
   */
  lemma RunsAreSimilarExactlyWhenNothingRises(s: Group)
    requires SortedDesc(s, ImprovementOf) && NoNaN(s)
    ensures AllSimilar(Runs(s)) <==> NoSteepRise(s)
  {
    hide Runs, NoSteepRise, NoSteepFall;
    if AllSimilar(Runs(s)) {
      SimilarRunsDoNotRise(s);
    }
    if NoSteepRise(s) {
      NoRiseMeansNoRiseInRuns(s);
      RunsDoNotFall(s);
    }
  }

  predicate NonNegative(s: Group) {
    forall i | 0 <= i < |s| :: AtLeast(s[i].improvement, 0.0)
  }

  /**
   For non-negative improvements the runs are an optimal similar split: they join back to the
   group, each is similar, and no similar split has fewer parts.
   */
  lemma NonNegativeRunsAreOptimal(s: Group, parts: seq<Group>)
    requires SortedDesc(s, ImprovementOf) && NonNegative(s)
    ensures Joined(Runs(s)) == s && AllSimilar(Runs(s))
    ensures Joined(parts) == s && AllSimilar(parts) ==> |Runs(s)| <= |parts|
  {
    hide Runs, AllSimilar;
    RunsJoin(s);
    forall i, j | 0 <= i < j < |s| ensures !TooFar(Magnitude(s[j]), Magnitude(s[i])) {
      assert TotalLe(ImprovementOf(s[j]), ImprovementOf(s[i]));
      TooFarMeans(s[j], s[i]);
    }
    RunsAreSimilarExactlyWhenNothingRises(s);
    if Joined(parts) == s && AllSimilar(parts) {
      RunsAreFewest(s, parts);
    }
  }

  /** With a negative improvement the run that starts at zero also takes in minus one. */
  lemma NegativeImprovementJoinsARun() returns (s: Group)
    ensures SortedDesc(s, ImprovementOf) && NoNaN(s) && !AllSimilar(Runs(s))
  {
    var zero := ClusterableCandidate("a", "t", Finite(0.0), "input");
    var negative := ClusterableCandidate("b", "t", Finite(-1.0), "input");
    s := [zero, negative];
    TooFarMeans(negative, zero);
    assert TooFar(Magnitude(s[1]), Magnitude(s[0]));
    RunsAreSimilarExactlyWhenNothingRises(s);
  }
}
