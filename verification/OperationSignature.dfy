/** When two candidates count as doing the same thing. */
module OperationSignature {
  import opened Options
  import opened Floats
  import opened Reals
  import opened Sequences
  import opened Candidates
  import opened Grouping

  const PARAM_SIMILARITY_TOLERANCE: real := 0.05

  /** The text of a bucketed parameter: `"0.00"`, a multiple of the tolerance, or non-finite. */
  datatype Bucket = ZeroBucket | Step(k: int) | InfiniteBucket(positive: bool) | NaNBucket

  /** `f32::round`: to the nearest integer, halves away from zero. */
  function Round(x: real): int {
    if x >= 0.0 then (x + 0.5).Floor else -((-x + 0.5).Floor)
  }

  function ParamBucket(f: Float): Bucket {
    match f
    case Finite(v) =>
      if Abs(v) < PARAM_SIMILARITY_TOLERANCE then ZeroBucket else Step(Round(v / PARAM_SIMILARITY_TOLERANCE))
    case PosInf => InfiniteBucket(true)
    case NegInf => InfiniteBucket(false)
    case NaN(_) => NaNBucket
  }

  /** Two parameters in one bucket are near each other, or not finite in the same way. */
  predicate Near(a: Float, b: Float) {
    match (a, b)
    case (Finite(v), Finite(w)) =>
      Abs(v - w) < 2.0 * PARAM_SIMILARITY_TOLERANCE
      && (Abs(v) >= PARAM_SIMILARITY_TOLERANCE || Abs(w) >= PARAM_SIMILARITY_TOLERANCE ==>
            Abs(v - w) <= PARAM_SIMILARITY_TOLERANCE)
    case (NaN(_), NaN(_)) => true
    case _ => a == b
  }

  lemma RoundIsNear(x: real)
    ensures Abs(x - Round(x) as real) <= 0.5
  {
  }

  /** Values in one bucket differ by less than 0.1, and by at most 0.05 outside the zero bucket. */
  lemma SameBucketIsNear(a: Float, b: Float)
    requires ParamBucket(a) == ParamBucket(b)
    ensures Near(a, b)
  {
    if a.Finite? && b.Finite? && Abs(a.value) >= PARAM_SIMILARITY_TOLERANCE {
      RoundIsNear(a.value / PARAM_SIMILARITY_TOLERANCE);
      RoundIsNear(b.value / PARAM_SIMILARITY_TOLERANCE);
    }
  }

  /** The smallest value that rounds up into step `j`; step one begins at the tolerance. */
  function Edge(j: int): real
    requires j >= 1
  {
    if j == 1 then 0.05 else j as real * 0.05 - 0.025
  }

  /** Whether an edge between buckets lies between the two values. */
  ghost predicate EdgeBetween(v: real, w: real) {
    exists j :: j >= 1 && ((v >= Edge(j)) != (w >= Edge(j)) || (v <= -Edge(j)) != (w <= -Edge(j)))
  }

  /** Which step a finite value is in, with zero for the zero bucket. */
  function StepOf(v: real): int {
    if Abs(v) < PARAM_SIMILARITY_TOLERANCE then 0 else Round(v / PARAM_SIMILARITY_TOLERANCE)
  }

  lemma BucketIsStep(v: real, w: real)
    ensures ParamBucket(Finite(v)) == ParamBucket(Finite(w)) <==> StepOf(v) == StepOf(w)
  {
  }

  lemma StepReaches(v: real, j: int)
    requires j >= 1
    ensures StepOf(v) >= j <==> v >= Edge(j)
    ensures StepOf(v) <= -j <==> v <= -Edge(j)
  {
  }

  /**
   The documented promise, that near values share a bucket, holds exactly for the pairs
   without a bucket edge between them.
   */
  lemma SameBucketExactlyWithoutEdge(v: real, w: real)
    ensures ParamBucket(Finite(v)) == ParamBucket(Finite(w)) <==> !EdgeBetween(v, w)
  {
    BucketIsStep(v, w);
    if StepOf(v) == StepOf(w) {
      forall j | j >= 1 ensures (v >= Edge(j)) == (w >= Edge(j)) && (v <= -Edge(j)) == (w <= -Edge(j)) {
        StepReaches(v, j);
        StepReaches(w, j);
      }
    } else {
      var (low, high) := if StepOf(v) < StepOf(w) then (v, w) else (w, v);
      if StepOf(high) >= 1 {
        StepReaches(low, StepOf(high));
        StepReaches(high, StepOf(high));
      } else {
        StepReaches(low, -StepOf(low));
        StepReaches(high, -StepOf(low));
      }
    }
  }

  /** 0.049 and 0.051 are within the tolerance of each other and still in different buckets. */
  lemma NearValuesInDifferentBuckets()
    ensures Abs(0.049 - 0.051) < PARAM_SIMILARITY_TOLERANCE * 0.051
    ensures ParamBucket(Finite(0.049)) != ParamBucket(Finite(0.051))
  {
    StepReaches(0.051, 1);
  }

  /** Values within the tolerance are never more than two steps apart. */
  lemma NearValuesInNeighbouringBuckets(v: real, w: real)
    requires Abs(v - w) <= PARAM_SIMILARITY_TOLERANCE
    ensures -2 <= StepOf(v) - StepOf(w) <= 2
  {
  }

  /** One operation as it enters a signature. */
  datatype Part =
    | RemovesSynapse(fromUuid: string, toUuid: string)
    | AddsSynapse(fromUuid: string, toUuid: string, weight: Bucket)
    | AddsNeuron(uuid: string, neuronType: string, squash: string, bias: Bucket, before: string)
    | RemovesNeuron(uuid: string)
    | ChangesSquash(uuid: string, squash: string)
    | SetsBias(uuid: string, bias: Bucket)
    | SetsWeight(fromUuid: string, toUuid: string, weight: Bucket)

  function PartOf(op: Op): Part {
    match op
    case RemoveSynapse(f, t) => RemovesSynapse(f, t)
    case AddSynapse(f, t, w) => AddsSynapse(f, t, ParamBucket(w))
    case AddNeuron(u, n, s, b, before) =>
      AddsNeuron(u, n, s, ParamBucket(b), if before.Some? then before.value else "none")
    case RemoveNeuron(u) => RemovesNeuron(u)
    case ChangeSquash(u, s) => ChangesSquash(u, s)
    case SetBias(u, b) => SetsBias(u, ParamBucket(b))
    case SetWeight(f, t, w) => SetsWeight(f, t, ParamBucket(w))
  }

  /** The sorted parts, that is, the parts regardless of their order. */
  function Signature(c: Candidate): multiset<Part> {
    multiset(Map(c.operations, PartOf))
  }

  /** The same kind of operation on the same neurons, with parameters that are alike. */
  predicate Matches(a: Op, b: Op, alike: (Float, Float) -> bool) {
    match (a, b)
    case (RemoveSynapse(f, t), RemoveSynapse(g, u)) => f == g && t == u
    case (AddSynapse(f, t, w), AddSynapse(g, u, x)) => f == g && t == u && alike(w, x)
    case (AddNeuron(u, n, s, b, before), AddNeuron(v, m, r, c, other)) =>
      u == v && n == m && s == r && alike(b, c)
      && (before == other || (before.None? && other == Some("none")) || (before == Some("none") && other.None?))
    case (RemoveNeuron(u), RemoveNeuron(v)) => u == v
    case (ChangeSquash(u, s), ChangeSquash(v, r)) => u == v && s == r
    case (SetBias(u, b), SetBias(v, c)) => u == v && alike(b, c)
    case (SetWeight(f, t, w), SetWeight(g, u, x)) => f == g && t == u && alike(w, x)
    case _ => false
  }

  /** `matched` is `b` in the order in which its operations match those of `a`. */
  predicate OneToOne(a: seq<Op>, matched: seq<Op>, b: seq<Op>, alike: (Float, Float) -> bool) {
    && multiset(matched) == multiset(b) && |matched| == |a|
    && forall i | 0 <= i < |a| :: Matches(a[i], matched[i], alike)
  }

  /** No bucket edge between two finite values; infinities as they are, and all NaNs alike. */
  ghost predicate SameBucket(a: Float, b: Float) {
    match (a, b)
    case (Finite(v), Finite(w)) => !EdgeBetween(v, w)
    case (NaN(_), NaN(_)) => true
    case _ => a == b
  }

  lemma SameBucketMeans(a: Float, b: Float)
    ensures ParamBucket(a) == ParamBucket(b) <==> SameBucket(a, b)
  {
    hide EdgeBetween;
    if a.Finite? && b.Finite? {
      SameBucketExactlyWithoutEdge(a.value, b.value);
    }
  }

  lemma SamePartMeans(a: Op, b: Op)
    ensures PartOf(a) == PartOf(b) <==> Matches(a, b, SameBucket)
  {
    hide ParamBucket, SameBucket;
    match (a, b)
    case (AddSynapse(_, _, w), AddSynapse(_, _, x)) => SameBucketMeans(w, x);
    case (AddNeuron(_, _, _, b, _), AddNeuron(_, _, _, c, _)) => SameBucketMeans(b, c);
    case (SetBias(_, b), SetBias(_, c)) => SameBucketMeans(b, c);
    case (SetWeight(_, _, w), SetWeight(_, _, x)) => SameBucketMeans(w, x);
    case _ =>
  }

  lemma {:induction false} PartsMatch(a: seq<Op>, b: seq<Op>) returns (matched: seq<Op>)
    requires multiset(Map(a, PartOf)) == multiset(Map(b, PartOf))
    ensures OneToOne(a, matched, b, SameBucket)
    decreases |a|
  {
    hide PartOf, Matches, Map, Without, SameBucket, OneToOne;
    MapLength(a, PartOf);
    MapLength(b, PartOf);
    assert |multiset(Map(a, PartOf))| == |a| && |multiset(Map(b, PartOf))| == |b|;
    matched := [];
    if a == [] {
      MatchNone(b);
    } else {
      assert Map(a, PartOf)[0] in multiset(Map(b, PartOf));
      var j :| 0 <= j < |b| && Map(b, PartOf)[j] == Map(a, PartOf)[0];
      MapWithout(b, j);
      MapWithout(a, 0);
      var others := PartsMatch(Without(a, 0), Without(b, j));
      SamePartMeans(a[0], b[j]);
      matched := [b[j]] + others;
      MatchFirst(a, b, j, others);
    }
  }

  lemma MatchNone(b: seq<Op>)
    ensures b == [] ==> OneToOne([], [], b, SameBucket)
  {
  }

  lemma MatchFirst(a: seq<Op>, b: seq<Op>, j: nat, others: seq<Op>)
    requires a != [] && j < |b| && Matches(a[0], b[j], SameBucket)
    requires OneToOne(Without(a, 0), others, Without(b, j), SameBucket)
    ensures OneToOne(a, [b[j]] + others, b, SameBucket)
  {
    hide Matches, Without;
    WithoutMultiset(b, j);
    WithoutFirst(a);
  }

  lemma WithoutFirst<T>(s: seq<T>)
    requires s != []
    ensures Without(s, 0) == s[1..]
  {
  }

  lemma MapWithout(s: seq<Op>, j: nat)
    requires j < |s|
    ensures multiset(Map(Without(s, j), PartOf)) == multiset(Map(s, PartOf)) - multiset{PartOf(s[j])}
  {
    hide Map, PartOf;
    MapLength(s, PartOf);
    MapLength(Without(s, j), PartOf);
    assert Map(Without(s, j), PartOf) == Without(Map(s, PartOf), j);
    WithoutMultiset(Map(s, PartOf), j);
  }

  lemma {:induction false} SamePartsOfPermuted(a: seq<Op>, b: seq<Op>)
    requires multiset(a) == multiset(b)
    ensures multiset(Map(a, PartOf)) == multiset(Map(b, PartOf))
    decreases |a|
  {
    hide PartOf, Map, Without;
    SameLength(a, b);
    if a != [] {
      assert a[0] in multiset(b);
      var j :| 0 <= j < |b| && b[j] == a[0];
      WithoutMultiset(a, 0);
      WithoutMultiset(b, j);
      SamePartsOfPermuted(Without(a, 0), Without(b, j));
      MapWithout(a, 0);
      MapWithout(b, j);
      MapLength(a, PartOf);
      MapLength(b, PartOf);
      assert Map(a, PartOf)[0] == Map(b, PartOf)[j] == PartOf(a[0]);
      RestoreOne(multiset(Map(a, PartOf)), multiset(Map(b, PartOf)), PartOf(a[0]));
    } else {
      assert b == [];
    }
  }

  lemma RestoreOne<T>(a: multiset<T>, b: multiset<T>, x: T)
    requires x in a && x in b && a - multiset{x} == b - multiset{x}
    ensures a == b
  {
    assert a == a - multiset{x} + multiset{x};
    assert b == b - multiset{x} + multiset{x};
  }

  /**
   Two candidates have one signature exactly if their operations match one to one, in any order:
   the same kind on the same neurons, with parameters that no bucket edge separates.
   */
  lemma SameSignatureExactly(a: Candidate, b: Candidate)
    ensures Signature(a) == Signature(b) <==>
      exists matched :: OneToOne(a.operations, matched, b.operations, SameBucket)
  {
    hide PartOf, Matches, Map, SameBucket;
    if Signature(a) == Signature(b) {
      var matched := PartsMatch(a.operations, b.operations);
      assert OneToOne(a.operations, matched, b.operations, SameBucket);
    }
    if matched :| OneToOne(a.operations, matched, b.operations, SameBucket) {
      forall i | 0 <= i < |a.operations| ensures PartOf(a.operations[i]) == PartOf(matched[i]) {
        SamePartMeans(a.operations[i], matched[i]);
      }
      MapLength(a.operations, PartOf);
      MapLength(matched, PartOf);
      assert Map(a.operations, PartOf) == Map(matched, PartOf);
      SamePartsOfPermuted(matched, b.operations);
    }
  }

  /** So the parameters of matching operations are near each other. */
  lemma SameSignatureMatchesOneToOne(a: Candidate, b: Candidate) returns (matched: seq<Op>)
    requires Signature(a) == Signature(b)
    ensures OneToOne(a.operations, matched, b.operations, Near)
  {
    hide Matches, SameBucket, Near;
    matched := PartsMatch(a.operations, b.operations);
    forall i | 0 <= i < |a.operations| ensures Matches(a.operations[i], matched[i], Near) {
      MatchesNearly(a.operations[i], matched[i]);
    }
  }

  lemma MatchesNearly(a: Op, b: Op)
    requires Matches(a, b, SameBucket)
    ensures Matches(a, b, Near)
  {
    hide SameBucket, Near, ParamBucket;
    forall v, w | SameBucket(v, w) ensures Near(v, w) {
      SameBucketMeans(v, w);
      SameBucketIsNear(v, w);
    }
  }
}
