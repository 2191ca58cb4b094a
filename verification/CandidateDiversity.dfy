/** Reranking candidates so that similar ones do not crowd out the rest. */
module CandidateDiversity {
  import opened Options
  import opened Floats
  import opened Reals
  import opened Sequences
  import opened Grouping
  import opened Candidates

  const NEURON_WEIGHT: real := 0.7
  const TYPE_WEIGHT: real := 0.3

  datatype OpType =
    | RemoveSynapseType | AddSynapseType | AddNeuronType | RemoveNeuronType
    | ChangeSquashType | SetBiasType | SetWeightType

  function TypeOf(op: Op): OpType {
    match op
    case RemoveSynapse(_, _) => RemoveSynapseType
    case AddSynapse(_, _, _) => AddSynapseType
    case AddNeuron(_, _, _, _, _) => AddNeuronType
    case RemoveNeuron(_) => RemoveNeuronType
    case ChangeSquash(_, _) => ChangeSquashType
    case SetBias(_, _) => SetBiasType
    case SetWeight(_, _, _) => SetWeightType
  }

  function NeuronsOf(op: Op): set<string> {
    match op
    case RemoveSynapse(f, t) => {f, t}
    case AddSynapse(f, t, _) => {f, t}
    case SetWeight(f, t, _) => {f, t}
    case AddNeuron(uuid, _, _, _, _) => {uuid}
    case RemoveNeuron(uuid) => {uuid}
    case ChangeSquash(uuid, _) => {uuid}
    case SetBias(uuid, _) => {uuid}
  }

  function OpTypes(ops: seq<Op>): set<OpType> {
    set i | 0 <= i < |ops| :: TypeOf(ops[i])
  }

  function Neurons(ops: seq<Op>): set<string> {
    set i, uuid | 0 <= i < |ops| && uuid in NeuronsOf(ops[i]) :: uuid
  }

  /** Collects the neurons of every operation, in a loop. */
  method AffectedNeurons(ops: seq<Op>) returns (neurons: set<string>)
    ensures neurons == Neurons(ops)
  {
    neurons := {};
    for i := 0 to |ops|
      invariant neurons == Neurons(ops[..i])
    {
      neurons := neurons + NeuronsOf(ops[i]);
      assert forall k | 0 <= k < i :: ops[..i + 1][k] == ops[..i][k] == ops[k];
      assert ops[..i + 1][i] == ops[i];
    }
    assert ops[..|ops|] == ops;
  }

  function Jaccard<T>(a: set<T>, b: set<T>): real {
    if a == {} && b == {} then 1.0
    else if |a + b| == 0 then 0.0
    else |a * b| as real / |a + b| as real
  }

  lemma SubsetSize<T>(a: set<T>, b: set<T>)
    requires a <= b
    ensures |a| <= |b| && (|a| == |b| <==> a == b)
  {
    assert b == a + (b - a);
    assert |b| == |a| + |b - a|;
  }

  /** The Jaccard index is symmetric, between zero and one, and one exactly for equal sets. */
  lemma JaccardMeans<T>(a: set<T>, b: set<T>)
    ensures Jaccard(a, b) == Jaccard(b, a)
    ensures 0.0 <= Jaccard(a, b) <= 1.0
    ensures Jaccard(a, b) == 1.0 <==> a == b
  {
    assert a + b == b + a && a * b == b * a;
    SubsetSize(a * b, a + b);
    if a + b != {} {
      var (i, u) := (|a * b| as real, |a + b| as real);
      FractionMeans(i, u);
      assert a * b == a + b <==> a == b;
    }
  }

  lemma FractionMeans(i: real, u: real)
    requires 0.0 <= i <= u && u > 0.0
    ensures 0.0 <= i / u <= 1.0 && (i / u == 1.0 <==> i == u)
  {
  }

  /** The index is the share of the union that lies in the intersection; two empty sets are equal. */
  lemma JaccardIsTheFraction<T>(a: set<T>, b: set<T>)
    ensures a + b != {} ==> Jaccard(a, b) * |a + b| as real == |a * b| as real
    ensures a + b == {} ==> Jaccard(a, b) == 1.0
    ensures a * b == {} && a + b != {} ==> Jaccard(a, b) == 0.0
  {
    if a + b != {} {
      SubsetSize({}, a + b);
      var (i, u) := (|a * b| as real, |a + b| as real);
      QuotientTimes(i, u);
    }
  }

  lemma QuotientTimes(i: real, u: real)
    requires u > 0.0
    ensures (i / u) * u == i && (i == 0.0 ==> i / u == 0.0)
  {
  }

  /** For unions of one size, more in common means a greater index. */
  lemma JaccardGrows<T>(a: set<T>, b: set<T>, c: set<T>, d: set<T>)
    requires |a + b| == |c + d| > 0 && |a * b| < |c * d|
    ensures Jaccard(a, b) < Jaccard(c, d)
  {
    hide Jaccard;
    JaccardIsTheFraction(a, b);
    JaccardIsTheFraction(c, d);
    assert a + b != {} && c + d != {};
    GreaterShare(Jaccard(a, b), Jaccard(c, d), |a + b| as real, |a * b| as real, |c * d| as real);
  }

  lemma GreaterShare(x: real, y: real, u: real, i: real, j: real)
    requires u > 0.0 && x * u == i && y * u == j && i < j
    ensures x < y
  {
    if x > y {
      Grows(x, y, u);
    }
  }

  function Similarity(a: Candidate, b: Candidate): real {
    NEURON_WEIGHT * Jaccard(Neurons(a.operations), Neurons(b.operations))
    + TYPE_WEIGHT * Jaccard(OpTypes(a.operations), OpTypes(b.operations))
  }

  /**
   Similarity is symmetric, between zero and one, and one exactly when the two candidates
   have the same set of operation types and touch the same set of neurons.
   */
  lemma SimilarityMeans(a: Candidate, b: Candidate)
    ensures Similarity(a, b) == Similarity(b, a)
    ensures 0.0 <= Similarity(a, b) <= 1.0
    ensures Similarity(a, b) == 1.0 <==>
      OpTypes(a.operations) == OpTypes(b.operations) && Neurons(a.operations) == Neurons(b.operations)
  {
    hide Jaccard, OpTypes, Neurons;
    JaccardMeans(Neurons(a.operations), Neurons(b.operations));
    JaccardMeans(OpTypes(a.operations), OpTypes(b.operations));
  }

  /** The operation mentions the neuron, as one of its ends or as its own. */
  predicate Mentions(op: Op, uuid: string) {
    || ((op.RemoveSynapse? || op.AddSynapse? || op.SetWeight?) && (op.fromUuid == uuid || op.toUuid == uuid))
    || ((op.AddNeuron? || op.RemoveNeuron? || op.ChangeSquash? || op.SetBias?) && op.uuid == uuid)
  }

  /** The same constructor. */
  predicate SameKind(a: Op, b: Op) {
    && (a.RemoveSynapse? <==> b.RemoveSynapse?) && (a.AddSynapse? <==> b.AddSynapse?)
    && (a.SetWeight? <==> b.SetWeight?) && (a.AddNeuron? <==> b.AddNeuron?)
    && (a.RemoveNeuron? <==> b.RemoveNeuron?) && (a.ChangeSquash? <==> b.ChangeSquash?)
    && (a.SetBias? <==> b.SetBias?)
  }

  lemma NeuronsOfAreMentioned(op: Op, uuid: string)
    ensures uuid in NeuronsOf(op) <==> Mentions(op, uuid)
  {
  }

  /** The neurons of a list of operations are those that some operation mentions. */
  lemma NeuronsAreMentioned(ops: seq<Op>, uuid: string)
    ensures uuid in Neurons(ops) <==> exists i :: 0 <= i < |ops| && Mentions(ops[i], uuid)
  {
    hide NeuronsOf, Mentions;
    forall i | 0 <= i < |ops| ensures uuid in NeuronsOf(ops[i]) <==> Mentions(ops[i], uuid) {
      NeuronsOfAreMentioned(ops[i], uuid);
    }
    if uuid in Neurons(ops) {
      var i :| 0 <= i < |ops| && uuid in NeuronsOf(ops[i]);
      assert Mentions(ops[i], uuid);
    }
    if i :| 0 <= i < |ops| && Mentions(ops[i], uuid) {
      assert uuid in NeuronsOf(ops[i]);
    }
  }

  lemma SameKindIsSameType(a: Op, b: Op)
    ensures SameKind(a, b) <==> TypeOf(a) == TypeOf(b)
  {
  }

  /** Operation types tell apart exactly the kinds of operation. */
  lemma TypesAreKinds(ops: seq<Op>, op: Op)
    ensures TypeOf(op) in OpTypes(ops) <==> exists i :: 0 <= i < |ops| && SameKind(ops[i], op)
  {
    hide TypeOf, SameKind;
    forall i | 0 <= i < |ops| ensures SameKind(ops[i], op) <==> TypeOf(ops[i]) == TypeOf(op) {
      SameKindIsSameType(ops[i], op);
    }
    if i :| 0 <= i < |ops| && TypeOf(ops[i]) == TypeOf(op) {
      assert SameKind(ops[i], op);
    }
  }

  /**
   Neurons weigh 0.7 and operation types 0.3, each by the share of them that the two candidates
   have in common.
   */
  lemma SimilarityIsWeighted(a: Candidate, b: Candidate)
    ensures var (n, m) := (Neurons(a.operations), Neurons(b.operations));
      var (s, t) := (OpTypes(a.operations), OpTypes(b.operations));
      && (n + m != {} && s + t != {} ==>
            Similarity(a, b) * (|n + m| * |s + t|) as real
              == 0.7 * (|n * m| * |s + t|) as real + 0.3 * (|s * t| * |n + m|) as real)
      && (n == m && n != {} && s * t == {} && s + t != {} ==> Similarity(a, b) == 0.7)
      && (n * m == {} && n + m != {} && s == t ==> Similarity(a, b) == 0.3)
      && (n * m == {} && n + m != {} && s * t == {} && s + t != {} ==> Similarity(a, b) == 0.0)
  {
    hide Jaccard, OpTypes, Neurons;
    var (n, m) := (Neurons(a.operations), Neurons(b.operations));
    var (s, t) := (OpTypes(a.operations), OpTypes(b.operations));
    JaccardIsTheFraction(n, m);
    JaccardIsTheFraction(s, t);
    JaccardMeans(n, m);
    JaccardMeans(s, t);
    if n + m != {} && s + t != {} {
      WeightedFractions(
        Jaccard(n, m), Jaccard(s, t), |n * m| as real, |n + m| as real, |s * t| as real, |s + t| as real);
    }
  }

  lemma WeightedFractions(x: real, y: real, i: real, u: real, j: real, v: real)
    requires x * u == i && y * v == j
    ensures (0.7 * x + 0.3 * y) * (u * v) == 0.7 * (i * v) + 0.3 * (j * u)
  {
    assert x * (u * v) == i * v;
    assert y * (u * v) == j * u;
  }

  /** The documented multisets are sets in the code: repeating an operation changes nothing. */
  lemma RepeatedOperationIsFullySimilar(op: Op, gain: Float, note: string)
    ensures Similarity(Candidate([op], gain, note), Candidate([op, op], gain, note)) == 1.0
  {
    SimilarityMeans(Candidate([op], gain, note), Candidate([op, op], gain, note));
    SameTypes(op);
    SameNeurons(op);
  }

  lemma SameTypes(op: Op)
    ensures OpTypes([op]) == OpTypes([op, op])
  {
    assert [op][0] == op && [op, op][0] == op;
  }

  lemma SameNeurons(op: Op)
    ensures Neurons([op]) == Neurons([op, op])
  {
    assert [op][0] == op && [op, op][0] == op;
  }

  /** The greatest similarity to any of the higher-ranked candidates, or zero. */
  function MaxSimilarity(c: Candidate, above: seq<Candidate>): real {
    if above == [] then 0.0
    else
      var before := MaxSimilarity(c, above[..|above| - 1]);
      var sim := Similarity(c, above[|above| - 1]);
      if sim > before then sim else before
  }

  lemma {:induction false} MaxSimilarityMeans(c: Candidate, above: seq<Candidate>)
    ensures 0.0 <= MaxSimilarity(c, above) <= 1.0
    ensures forall i | 0 <= i < |above| :: Similarity(c, above[i]) <= MaxSimilarity(c, above)
    ensures above == [] || exists i :: 0 <= i < |above| && Similarity(c, above[i]) == MaxSimilarity(c, above)
  {
    hide Similarity;
    if above != [] {
      var before := above[..|above| - 1];
      MaxSimilarityMeans(c, before);
      SimilarityMeans(c, above[|above| - 1]);
      if Similarity(c, above[|above| - 1]) > MaxSimilarity(c, before) || before == [] {
        assert Similarity(c, above[|above| - 1]) == MaxSimilarity(c, above);
      } else {
        var i :| 0 <= i < |before| && Similarity(c, before[i]) == MaxSimilarity(c, before);
        assert above[i] == before[i];
      }
    }
  }

  /** The share of the gain that a penalty for this similarity leaves. */
  function KeptShare(penalty: real, similarity: real): real {
    1.0 - penalty * similarity
  }

  /** The gain after the penalty for similarity to the candidates ranked above. */
  function Effective(sorted: seq<Candidate>, i: nat, penalty: real): Float
    requires i < |sorted|
  {
    if i == 0 then sorted[0].gain
    else Scale(sorted[i].gain, KeptShare(penalty, MaxSimilarity(sorted[i], sorted[..i])))
  }

  /** The greatest of the similarities to the candidates ranked above. */
  predicate GreatestSimilarity(sorted: seq<Candidate>, i: nat, greatest: real)
    requires i < |sorted|
  {
    && (forall j | 0 <= j < i :: Similarity(sorted[i], sorted[j]) <= greatest)
    && exists j :: 0 <= j < i && Similarity(sorted[i], sorted[j]) == greatest
  }

  /** The first keeps its gain; any other loses the penalty's share of it for its greatest similarity. */
  lemma EffectiveMeans(sorted: seq<Candidate>, i: nat, penalty: real) returns (greatest: real)
    requires i < |sorted|
    ensures i == 0 ==> Effective(sorted, i, penalty) == sorted[0].gain
    ensures i > 0 ==> GreatestSimilarity(sorted, i, greatest)
    ensures i > 0 && sorted[i].gain.Finite? ==>
      Effective(sorted, i, penalty) == Finite(sorted[i].gain.value * (1.0 - penalty * greatest))
    ensures i > 0 && !sorted[i].gain.Finite? ==>
      Effective(sorted, i, penalty) == (
        if sorted[i].gain.NaN? then sorted[i].gain
        else if penalty * greatest == 1.0 then NaN(true)
        else if (sorted[i].gain == PosInf) == (penalty * greatest < 1.0) then PosInf else NegInf)
  {
    hide Similarity;
    var above := sorted[..i];
    MaxSimilarityMeans(sorted[i], above);
    greatest := MaxSimilarity(sorted[i], above);
    if i > 0 {
      var j :| 0 <= j < |above| && Similarity(sorted[i], above[j]) == greatest;
      assert above[j] == sorted[j];
      forall h | 0 <= h < i ensures Similarity(sorted[i], sorted[h]) <= greatest {
        assert above[h] == sorted[h];
      }
    }
  }

  /** A candidate's place in the original ranking with its effective score. */
  datatype Scored = Scored(index: nat, score: Float)

  function ScoreOf(s: Scored): Float {
    s.score
  }

  function Scores(sorted: seq<Candidate>, penalty: real): (r: seq<Scored>)
    ensures |r| == |sorted|
    ensures forall i | 0 <= i < |r| :: r[i] == Scored(i, Effective(sorted, i, penalty))
  {
    seq(|sorted|, i requires 0 <= i < |sorted| => Scored(i, Effective(sorted, i, penalty)))
  }

  /** The places in the final ranking: the original places, sorted by effective score. */
  function Placement(cs: seq<Candidate>, penalty: real): seq<Scored> {
    SortDesc(Scores(SortDesc(cs, GainOf), penalty), ScoreOf)
  }

  /** The candidate at an original place. */
  function At(sorted: seq<Candidate>): Scored -> seq<Candidate> {
    (p: Scored) => if p.index < |sorted| then [sorted[p.index]] else []
  }

  /** The candidates in the order of their effective scores. */
  function Reranked(cs: seq<Candidate>, penalty: real): seq<Candidate> {
    if |cs| <= 1 || penalty <= 0.0 then cs
    else FlatMap(Placement(cs, penalty), At(SortDesc(cs, GainOf)))
  }

  /** The computed scores, with the inner loop over the candidates ranked above. */
  method EffectiveScores(sorted: seq<Candidate>, penalty: real) returns (scores: seq<Scored>)
    requires sorted != []
    ensures scores == Scores(sorted, penalty)
  {
    hide Similarity, KeptShare;
    scores := [Scored(0, sorted[0].gain)];
    for i := 1 to |sorted|
      invariant |scores| == i
      invariant forall k | 0 <= k < i :: scores[k] == Scored(k, Effective(sorted, k, penalty))
    {
      var maxSimilarity := 0.0;
      for j := 0 to i
        invariant maxSimilarity == MaxSimilarity(sorted[i], sorted[..j])
      {
        assert sorted[..j + 1][..j] == sorted[..j];
        var sim := Similarity(sorted[i], sorted[j]);
        maxSimilarity := if sim > maxSimilarity then sim else maxSimilarity;
      }
      scores := scores + [Scored(i, Scale(sorted[i].gain, KeptShare(penalty, maxSimilarity)))];
    }
  }

  lemma TwoEqual<T>(s: seq<T>, i: nat, j: nat)
    requires i < j < |s| && s[i] == s[j]
    ensures multiset(s)[s[i]] >= 2
  {
    assert s == s[..j] + s[j..];
    assert s[i] in s[..j] && s[j] in s[j..];
  }

  /** Each original place occurs exactly once in the placement, with its effective score. */
  lemma PlacementIsPermutation(cs: seq<Candidate>, penalty: real)
    ensures var (placement, sorted) := (Placement(cs, penalty), SortDesc(cs, GainOf));
      && multiset(placement) == multiset(Scores(sorted, penalty)) && |placement| == |cs| == |sorted|
      && (forall i | 0 <= i < |placement| ::
           placement[i].index < |sorted| && placement[i].score == Effective(sorted, placement[i].index, penalty))
      && (forall i, j | 0 <= i < j < |placement| :: placement[i].index != placement[j].index)
      && SortedDesc(placement, ScoreOf)
  {
    hide SortDesc, Effective;
    SortPermutes(cs, GainOf);
    var sorted := SortDesc(cs, GainOf);
    var scores := Scores(sorted, penalty);
    SortPermutes(scores, ScoreOf);
    SortOrders(scores, ScoreOf);
    var placement := Placement(cs, penalty);
    DistinctMultiset(scores);
    forall i | 0 <= i < |placement| ensures placement[i] in scores {
      assert placement[i] in multiset(placement);
    }
    forall i, j | 0 <= i < j < |placement| ensures placement[i].index != placement[j].index {
      if placement[i].index == placement[j].index {
        TwoEqual(placement, i, j);
      }
    }
  }

  lemma {:induction false} ScoresReadBack(sorted: seq<Candidate>, penalty: real, n: nat)
    requires n <= |sorted|
    ensures FlatMap(Scores(sorted, penalty)[..n], At(sorted)) == sorted[..n]
  {
    hide Effective;
    if n > 0 {
      ScoresReadBack(sorted, penalty, n - 1);
      assert Scores(sorted, penalty)[..n][..n - 1] == Scores(sorted, penalty)[..n - 1];
    }
  }

  /** Reranking loses and invents no candidate. */
  lemma RerankPermutes(cs: seq<Candidate>, penalty: real)
    ensures multiset(Reranked(cs, penalty)) == multiset(cs)
  {
    hide SortDesc, FlatMap, Scores;
    var sorted := SortDesc(cs, GainOf);
    SortPermutes(cs, GainOf);
    PlacementIsPermutation(cs, penalty);
    FlatMapPermuted(Placement(cs, penalty), Scores(sorted, penalty), At(sorted));
    ScoresReadBack(sorted, penalty, |sorted|);
    assert sorted[..|sorted|] == sorted;
    assert Scores(sorted, penalty)[..|sorted|] == Scores(sorted, penalty);
  }

  lemma {:induction false} PlacedAt(sorted: seq<Candidate>, placement: seq<Scored>)
    requires forall i | 0 <= i < |placement| :: placement[i].index < |sorted|
    ensures var r := FlatMap(placement, At(sorted));
      |r| == |placement| && forall i | 0 <= i < |r| :: r[i] == sorted[placement[i].index]
  {
    if placement != [] {
      PlacedAt(sorted, placement[..|placement| - 1]);
    }
  }

  lemma {:induction false} KeptIndicesIncrease(scores: seq<Scored>, p: Scored -> bool)
    requires forall i, j | 0 <= i < j < |scores| :: scores[i].index < scores[j].index
    ensures forall a, b | 0 <= a < b < |Retain(scores, p)| ::
      Retain(scores, p)[a].index < Retain(scores, p)[b].index
  {
    if scores != [] {
      KeptIndicesIncrease(scores[1..], p);
      var later := Retain(scores[1..], p);
      forall b | 0 <= b < |later| ensures scores[0].index < later[b].index {
        RetainMember(scores[1..], p, later[b]);
        assert later[b] in later;
      }
    }
  }

  /** Equal scores keep the order of the gains. */
  lemma TiesKeepTheirOrder(cs: seq<Candidate>, penalty: real, i: nat, j: nat)
    requires i < j < |Placement(cs, penalty)|
    requires Placement(cs, penalty)[i].score == Placement(cs, penalty)[j].score
    ensures Placement(cs, penalty)[i].index < Placement(cs, penalty)[j].index
  {
    hide SortDesc, Effective, Retain;
    var scores := Scores(SortDesc(cs, GainOf), penalty);
    var placement := Placement(cs, penalty);
    var p := WithKey(ScoreOf, placement[i].score);
    var a, b := RetainInOrder(placement, p, i, j);
    SortIsStable(scores, ScoreOf, placement[i].score);
    KeptIndicesIncrease(scores, p);
  }

  /**
   Each candidate of the result stands at a different place of the gain order, and its score
   there, its gain less the penalty for the candidates above that place, decides the order,
   with the gain order between equal scores.
   */
  lemma RerankIsOrdered(cs: seq<Candidate>, penalty: real) returns (places: seq<nat>)
    requires |cs| > 1 && penalty > 0.0
    ensures var (r, sorted) := (Reranked(cs, penalty), SortDesc(cs, GainOf));
      && |places| == |r| == |sorted|
      && (forall i | 0 <= i < |r| :: places[i] < |sorted| && r[i] == sorted[places[i]])
      && (forall i, j | 0 <= i < j < |r| :: places[i] != places[j])
      && forall i, j | 0 <= i < j < |r| ::
           && TotalLe(Effective(sorted, places[j], penalty), Effective(sorted, places[i], penalty))
           && (Effective(sorted, places[j], penalty) == Effective(sorted, places[i], penalty) ==> places[i] < places[j])
  {
    hide SortDesc, Effective, FlatMap;
    var sorted := SortDesc(cs, GainOf);
    var placement := Placement(cs, penalty);
    PlacementIsPermutation(cs, penalty);
    PlacedAt(sorted, placement);
    places := seq(|placement|, i requires 0 <= i < |placement| => placement[i].index);
    forall i, j | 0 <= i < j < |placement|
      ensures TotalLe(Effective(sorted, places[j], penalty), Effective(sorted, places[i], penalty))
      ensures Effective(sorted, places[j], penalty) == Effective(sorted, places[i], penalty) ==> places[i] < places[j]
    {
      assert TotalLe(ScoreOf(placement[j]), ScoreOf(placement[i]));
      if placement[i].score == placement[j].score {
        TiesKeepTheirOrder(cs, penalty, i, j);
      }
    }
  }

  lemma KeptShareBounds(penalty: real, similarity: real)
    requires 0.0 <= penalty <= 1.0 && 0.0 <= similarity <= 1.0
    ensures 0.0 <= KeptShare(penalty, similarity) <= 1.0
  {
    NonNegativeProduct(penalty, similarity);
    NonNegativeProduct(1.0 - penalty, similarity);
    assert (1.0 - penalty) * similarity == similarity - penalty * similarity;
  }

  lemma ScaledDown(gain: real, share: real, best: real)
    requires gain <= best && best >= 0.0 && share <= 1.0 && (gain >= 0.0 || share >= 0.0)
    ensures gain * share <= best
  {
    if gain >= 0.0 {
      NonNegativeProduct(gain, 1.0 - share);
      assert gain * (1.0 - share) == gain - gain * share;
    } else {
      NonNegativeProduct(-gain, share);
      assert -gain * share == -(gain * share);
    }
  }

  lemma PenalisedGainIsLess(gain: Float, penalty: real, similarity: real, best: Float)
    requires gain.Finite? && best.Finite? && best.value >= 0.0 && TotalLe(gain, best)
    requires 0.0 <= penalty && 0.0 <= similarity <= 1.0 && (penalty <= 1.0 || gain.value >= 0.0)
    ensures TotalLe(Scale(gain, KeptShare(penalty, similarity)), best)
  {
    NonNegativeProduct(penalty, similarity);
    if penalty <= 1.0 {
      KeptShareBounds(penalty, similarity);
    }
    ScaledDown(gain.value, KeptShare(penalty, similarity), best.value);
  }

  /** Every gain is finite, and none is negative if the penalty exceeds one. */
  predicate FiniteGains(cs: seq<Candidate>, penalty: real) {
    forall c | c in cs :: c.gain.Finite? && (penalty <= 1.0 || c.gain.value >= 0.0)
  }

  lemma EffectiveIsLess(sorted: seq<Candidate>, penalty: real, i: nat)
    requires i < |sorted| && 0.0 <= penalty && SortedDesc(sorted, GainOf) && FiniteGains(sorted, penalty)
    requires sorted[0].gain.value >= 0.0
    ensures TotalLe(Effective(sorted, i, penalty), Effective(sorted, 0, penalty))
  {
    hide MaxSimilarity, Scale, KeptShare;
    if i > 0 {
      assert TotalLe(GainOf(sorted[i]), GainOf(sorted[0]));
      MaxSimilarityMeans(sorted[i], sorted[..i]);
      PenalisedGainIsLess(sorted[i].gain, penalty, MaxSimilarity(sorted[i], sorted[..i]), sorted[0].gain);
    }
  }

  /** The candidate that comes first by gain is one with the greatest. */
  lemma FirstIsBest(cs: seq<Candidate>, penalty: real)
    requires cs != [] && FiniteGains(cs, penalty)
    ensures var sorted := SortDesc(cs, GainOf);
      && sorted != [] && sorted[0] in cs && FiniteGains(sorted, penalty) && SortedDesc(sorted, GainOf)
      && forall c | c in cs :: c.gain.value <= sorted[0].gain.value
  {
    hide SortDesc;
    var sorted := SortDesc(cs, GainOf);
    SortPermutes(cs, GainOf);
    SortOrders(cs, GainOf);
    forall i | 0 <= i < |sorted| ensures sorted[i] in cs {
      assert sorted[i] in multiset(sorted);
    }
    forall c | c in cs ensures c.gain.value <= sorted[0].gain.value {
      assert c in multiset(sorted);
      var i :| 0 <= i < |sorted| && sorted[i] == c;
      assert i == 0 || TotalLe(GainOf(sorted[i]), GainOf(sorted[0]));
    }
  }

  /** When some gain is not negative, the candidate that comes first by gain stays first. */
  lemma BestStaysFirst(cs: seq<Candidate>, penalty: real)
    requires |cs| > 1 && 0.0 < penalty && FiniteGains(cs, penalty)
    requires exists c :: c in cs && c.gain.value >= 0.0
    ensures var (r, sorted) := (Reranked(cs, penalty), SortDesc(cs, GainOf));
      && r != [] && sorted != [] && r[0] == sorted[0]
      && r[0].gain.Finite? && forall c | c in cs :: c.gain.value <= r[0].gain.value
  {
    hide SortDesc, FlatMap, Effective;
    var sorted := SortDesc(cs, GainOf);
    FirstIsBest(cs, penalty);
    PlacementIsPermutation(cs, penalty);
    var scores := Scores(sorted, penalty);
    forall i | 0 <= i < |scores| ensures TotalLe(ScoreOf(scores[i]), ScoreOf(scores[0])) {
      EffectiveIsLess(sorted, penalty, i);
    }
    SortHead(scores, ScoreOf);
    assert Placement(cs, penalty)[0] == scores[0];
    PlacedAt(sorted, Placement(cs, penalty));
  }

  /** Reranks in place, taking each candidate out of its slot. */
  method RerankWithDiversity(cs: seq<Candidate>, penalty: real) returns (reranked: seq<Candidate>)
    ensures reranked == Reranked(cs, penalty)
    ensures |cs| <= 1 || penalty <= 0.0 ==> reranked == cs
  {
    hide SortDesc, FlatMap, Effective;
    if |cs| <= 1 || penalty <= 0.0 { return cs; }
    var sorted := SortDesc(cs, GainOf);
    SortPermutes(cs, GainOf);
    var scores := EffectiveScores(sorted, penalty);
    var indexed := SortDesc(scores, ScoreOf);
    PlacementIsPermutation(cs, penalty);
    reranked := [];
    var slots: seq<Option<Candidate>> := seq(|sorted|, i requires 0 <= i < |sorted| => Some(sorted[i]));
    FlatMapNone(At(sorted));
    for i := 0 to |indexed|
      invariant reranked == FlatMap(indexed[..i], At(sorted))
      invariant |slots| == |sorted|
      invariant forall k | i <= k < |indexed| :: slots[indexed[k].index] == Some(sorted[indexed[k].index])
    {
      assert indexed[..i + 1] == indexed[..i] + [indexed[i]];
      FlatMapAppend(indexed[..i], indexed[i], At(sorted));
      var index := indexed[i].index;
      if slots[index].Some? {
        reranked := reranked + [slots[index].value];
        slots := slots[index := None];
      }
    }
    assert indexed[..|indexed|] == indexed;
  }

  /** Less than a negative gain, by half the penalty's share of it. */
  function WorseGain(gain: real, penalty: real): real {
    gain * (1.0 + penalty / 2.0)
  }

  /** A candidate with the same operations and the worse gain. */
  function Companion(best: Candidate, penalty: real): Candidate
    requires best.gain.Finite?
  {
    best.(gain := Finite(WorseGain(best.gain.value, penalty)))
  }

  lemma WorseGainScoresBetter(gain: real, penalty: real)
    requires gain < 0.0 && 0.0 < penalty <= 1.0
    ensures WorseGain(gain, penalty) < gain
    ensures !TotalLe(Scale(Finite(WorseGain(gain, penalty)), KeptShare(penalty, 1.0)), Finite(gain))
  {
    var half := penalty / 2.0;
    Grows(half, 0.0, -gain);
    assert gain * (1.0 + half) == gain + gain * half;
    NonNegativeProduct(penalty, half);
    var lost := half + penalty * half;
    assert (1.0 + half) * KeptShare(penalty, 1.0) == 1.0 - lost;
    Grows(lost, 0.0, -gain);
    assert gain * (1.0 - lost) == gain - gain * lost;
  }

  lemma CompanionOvertakes(best: Candidate, penalty: real)
    requires best.gain.Finite? && best.gain.value < 0.0 && 0.0 < penalty <= 1.0
    ensures var cs := [best, Companion(best, penalty)];
      !TotalLe(best.gain, cs[1].gain) && !TotalLe(Effective(cs, 1, penalty), Effective(cs, 0, penalty))
  {
    hide KeptShare, Similarity, Scale, MaxSimilarity, WorseGain;
    var cs := [best, Companion(best, penalty)];
    WorseGainScoresBetter(best.gain.value, penalty);
    SimilarityMeans(cs[1], cs[0]);
    assert cs[..1] == [cs[0]];
    OneAbove(cs[1], cs[0]);
    assert Effective(cs, 1, penalty) == Scale(cs[1].gain, KeptShare(penalty, 1.0));
  }

  /**
   With a negative gain the penalty is a reward: every candidate with a negative gain is
   overtaken by a worse one with the same operations.
   */
  lemma NegativeBestIsOvertaken(best: Candidate, penalty: real)
    requires best.gain.Finite? && best.gain.value < 0.0 && 0.0 < penalty <= 1.0
    ensures var (cs, worse) := ([best, Companion(best, penalty)], Companion(best, penalty));
      && worse.gain.value < best.gain.value
      && SortDesc(cs, GainOf) == cs && Reranked(cs, penalty) == [worse, best]
  {
    hide Effective;
    var cs := [best, Companion(best, penalty)];
    CompanionOvertakes(best, penalty);
    SortTwo(cs);
    var places := RerankIsOrdered(cs, penalty);
    PlacesOfTwo(cs, Reranked(cs, penalty), places, penalty);
  }

  lemma SortTwo(cs: seq<Candidate>)
    requires |cs| == 2 && !TotalLe(cs[0].gain, cs[1].gain)
    ensures SortDesc(cs, GainOf) == cs
  {
    assert cs[1..][1..] == [];
    assert SortDesc(cs[1..], GainOf) == [cs[1]];
  }

  lemma OneAbove(c: Candidate, above: Candidate)
    requires Similarity(c, above) == 1.0
    ensures MaxSimilarity(c, [above]) == 1.0
  {
    hide Similarity;
    MaxSimilarityMeans(c, [above]);
    assert Similarity(c, [above][0]) <= MaxSimilarity(c, [above]);
  }

  lemma PlacesOfTwo(sorted: seq<Candidate>, r: seq<Candidate>, places: seq<nat>, penalty: real)
    requires |sorted| == |r| == |places| == 2
    requires forall i | 0 <= i < 2 :: places[i] < 2 && r[i] == sorted[places[i]]
    requires places[0] != places[1]
    requires TotalLe(Effective(sorted, places[1], penalty), Effective(sorted, places[0], penalty))
    requires !TotalLe(Effective(sorted, 1, penalty), Effective(sorted, 0, penalty))
    ensures r == [sorted[1], sorted[0]]
  {
    hide Effective;
    assert places[0] != 0;
  }

  /** Lists of at least two candidates whose greatest gain is this one. */
  predicate HasBestGain(cs: seq<Candidate>, gain: real) {
    && |cs| > 1 && FiniteGains(cs, 1.0)
    && (exists c :: c in cs && c.gain.value == gain) && forall c | c in cs :: c.gain.value <= gain
  }

  predicate KeepsBest(cs: seq<Candidate>, penalty: real) {
    |Reranked(cs, penalty)| == |SortDesc(cs, GainOf)| == |cs| > 0
    && Reranked(cs, penalty)[0] == SortDesc(cs, GainOf)[0]
  }

  /** A greatest gain is safe from being overtaken, whatever the others are, exactly if it is not negative. */
  lemma BestIsSafeExactlyWhenNotNegative(gain: real, penalty: real)
    requires 0.0 < penalty <= 1.0
    ensures (forall cs | HasBestGain(cs, gain) :: KeepsBest(cs, penalty)) <==> gain >= 0.0
  {
    hide SortDesc, Reranked;
    if gain >= 0.0 {
      forall cs | HasBestGain(cs, gain) ensures KeepsBest(cs, penalty) {
        BestStaysFirst(cs, penalty);
        RerankPermutes(cs, penalty);
        SortPermutes(cs, GainOf);
        SameLength(Reranked(cs, penalty), cs);
      }
    } else {
      var best := Candidate([], Finite(gain), "");
      NegativeBestIsOvertaken(best, penalty);
      var cs := [best, Companion(best, penalty)];
      assert best in cs && cs[1].gain.Finite?;
      assert HasBestGain(cs, gain) && !KeepsBest(cs, penalty);
    }
  }
}
