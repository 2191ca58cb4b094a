/** Clustering candidates by target, source type and similar improvement. */
module CandidateClustering {
  import opened Floats
  import opened Sequences
  import opened Grouping
  import opened ImprovementSplit

  const MIN_CLUSTER_SIZE: nat := 2

  datatype GroupKey = GroupKey(toUuid: string, neuronType: string)

  function KeyOf(c: ClusterableCandidate): GroupKey {
    GroupKey(c.toUuid, c.neuronType)
  }

  datatype Cluster = Cluster(
    representativeFrom: string,
    representativeTo: string,
    representativeImprovement: Float,
    memberCount: nat,
    memberFroms: seq<string>,
    correlation: Float)

  function FromOf(c: ClusterableCandidate): string {
    c.fromUuid
  }

  function RepresentativeOf(c: Cluster): Float {
    c.representativeImprovement
  }

  function ToCluster(run: Group, correlation: Group -> Float): Cluster
    requires run != []
  {
    Cluster(run[0].fromUuid, run[0].toUuid, run[0].improvement, |run|, Map(run, FromOf), correlation(run))
  }

  /** One cluster for each run with at least two members. */
  function ClustersOf(runs: seq<Group>, correlation: Group -> Float): seq<Cluster> {
    if runs == [] then []
    else
      var (before, run) := (runs[..|runs| - 1], runs[|runs| - 1]);
      ClustersOf(before, correlation) + if |run| < MIN_CLUSTER_SIZE then [] else [ToCluster(run, correlation)]
  }

  function RunsOfGroup(cs: Group, k: GroupKey): seq<Group> {
    Runs(SortDesc(GroupOf(cs, KeyOf)(k), ImprovementOf))
  }

  function ClustersOfGroup(cs: Group, correlation: Group -> Float): GroupKey -> seq<Cluster> {
    k => ClustersOf(RunsOfGroup(cs, k), correlation)
  }

  lemma SmallGroupHasNoCluster(group: Group, correlation: Group -> Float)
    requires |group| < MIN_CLUSTER_SIZE
    ensures ClustersOf(Runs(SortDesc(group, ImprovementOf)), correlation) == []
  {
    SortPermutes(group, ImprovementOf);
    var sorted := SortDesc(group, ImprovementOf);
    if sorted != [] {
      assert RunLength(sorted) == 1;
      assert Runs(sorted) == [sorted[..1]];
      assert [sorted[..1]][..0] == [];
    }
  }

  /** The clusters of one group, in a loop over its runs. */
  method ClusterGroup(group: Group, correlation: Group -> Float) returns (clusters: seq<Cluster>)
    ensures clusters == ClustersOf(Runs(SortDesc(group, ImprovementOf)), correlation)
  {
    hide Runs, SortDesc;
    if |group| < MIN_CLUSTER_SIZE {
      SmallGroupHasNoCluster(group, correlation);
      return [];
    }
    var runs := SplitByImprovementSimilarity(SortDesc(group, ImprovementOf));
    clusters := [];
    for i := 0 to |runs|
      invariant clusters == ClustersOf(runs[..i], correlation)
    {
      assert runs[..i + 1][..i] == runs[..i];
      if |runs[i]| < MIN_CLUSTER_SIZE { continue; }
      clusters := clusters + [ToCluster(runs[i], correlation)];
    }
    assert runs[..|runs|] == runs;
  }

  /** Clusters every group; `order` is the order in which the hash map yielded the groups. */
  method ClusterCandidates(cs: Group, correlation: Group -> Float)
    returns (clusters: seq<Cluster>, ghost order: seq<GroupKey>)
    ensures KeyOrder(order, cs, KeyOf)
    ensures clusters == SortDesc(FlatMap(order, ClustersOfGroup(cs, correlation)), RepresentativeOf)
    ensures forall i, j | 0 <= i < j < |clusters| ::
      TotalLe(clusters[j].representativeImprovement, clusters[i].representativeImprovement)
    ensures |cs| < MIN_CLUSTER_SIZE ==> clusters == []
  {
    hide RunsOfGroup, Retain, SortDesc, ClustersOf, FlatMap;
    if |cs| < MIN_CLUSTER_SIZE {
      order := if cs == [] then [] else [KeyOf(cs[0])];
      clusters := [];
      FewCandidates(cs, correlation, order);
      return;
    }
    var groups := GroupBy(cs, KeyOf);
    clusters, order := [], [];
    var remaining := groups.Keys;
    FlatMapNone(ClustersOfGroup(cs, correlation));
    while remaining != {}
      invariant ReadSoFar(order, remaining, groups.Keys)
      invariant clusters == FlatMap(order, ClustersOfGroup(cs, correlation))
      decreases |remaining|
    {
      var k :| k in remaining;
      var more := ClusterGroup(groups[k], correlation);
      assert more == ClustersOfGroup(cs, correlation)(k) by { RunsOfGroupIs(cs, k); }
      clusters := clusters + more;
      FlatMapAppend(order, k, ClustersOfGroup(cs, correlation));
      ReadNext(order, remaining, groups.Keys, k);
      order := order + [k];
      remaining := remaining - {k};
    }
    ReadAll(order, groups, cs, KeyOf);
    SortOrders(clusters, RepresentativeOf);
    clusters := SortDesc(clusters, RepresentativeOf);
  }

  lemma RunsOfGroupIs(cs: Group, k: GroupKey)
    ensures RunsOfGroup(cs, k) == Runs(SortDesc(Retain(cs, WithKey(KeyOf, k)), ImprovementOf))
  {
  }

  lemma FewCandidates(cs: Group, correlation: Group -> Float, order: seq<GroupKey>)
    requires |cs| < MIN_CLUSTER_SIZE && order == if cs == [] then [] else [KeyOf(cs[0])]
    ensures KeyOrder(order, cs, KeyOf)
    ensures SortDesc(FlatMap(order, ClustersOfGroup(cs, correlation)), RepresentativeOf) == []
  {
    if cs != [] {
      var k := KeyOf(cs[0]);
      assert exists i :: 0 <= i < |cs| && KeyOf(cs[i]) == k by { assert KeyOf(cs[0]) == k; }
      SmallGroupHasNoCluster(Retain(cs, WithKey(KeyOf, k)), correlation);
      FlatMapAppend([], k, ClustersOfGroup(cs, correlation));
      assert [] + [k] == order;
    }
  }

  /** The order in which the hash map yields its groups never changes which clusters result. */
  lemma OrderDoesNotMatter(cs: Group, correlation: Group -> Float, a: seq<GroupKey>, b: seq<GroupKey>)
    requires KeyOrder(a, cs, KeyOf) && KeyOrder(b, cs, KeyOf)
    ensures var (x, y) := (FlatMap(a, ClustersOfGroup(cs, correlation)), FlatMap(b, ClustersOfGroup(cs, correlation)));
      multiset(SortDesc(x, RepresentativeOf)) == multiset(SortDesc(y, RepresentativeOf))
  {
    hide FlatMap, SortDesc;
    KeyOrdersAgree(a, b, cs, KeyOf);
    FlatMapPermuted(a, b, ClustersOfGroup(cs, correlation));
    SortPermutes(FlatMap(a, ClustersOfGroup(cs, correlation)), RepresentativeOf);
    SortPermutes(FlatMap(b, ClustersOfGroup(cs, correlation)), RepresentativeOf);
  }

  lemma {:induction false} ClusterHasRun(runs: seq<Group>, correlation: Group -> Float, cluster: Cluster)
    returns (i: nat)
    requires cluster in ClustersOf(runs, correlation)
    ensures i < |runs| && |runs[i]| >= MIN_CLUSTER_SIZE && cluster == ToCluster(runs[i], correlation)
  {
    var before := runs[..|runs| - 1];
    if cluster in ClustersOf(before, correlation) {
      i := ClusterHasRun(before, correlation, cluster);
    } else {
      i := |runs| - 1;
    }
  }

  lemma {:induction false} FlatMapMember<A, B>(s: seq<A>, f: A -> seq<B>, x: B) returns (i: nat)
    requires x in FlatMap(s, f)
    ensures i < |s| && x in f(s[i])
  {
    if x in f(s[|s| - 1]) {
      i := |s| - 1;
    } else {
      i := FlatMapMember(s[..|s| - 1], f, x);
    }
  }

  lemma {:induction false} PartMember(parts: seq<Group>, i: nat, c: ClusterableCandidate)
    requires i < |parts| && c in parts[i]
    ensures c in Joined(parts)
  {
    if i > 0 {
      PartMember(parts[1..], i - 1, c);
    }
  }

  lemma {:induction false} PartOrdered(parts: seq<Group>, i: nat)
    requires i < |parts| && SortedDesc(Joined(parts), ImprovementOf)
    ensures SortedDesc(parts[i], ImprovementOf)
  {
    var (first, rest) := (parts[0], Joined(parts[1..]));
    assert Joined(parts) == first + rest;
    if i == 0 {
      forall p, q | 0 <= p < q < |first| ensures TotalLe(ImprovementOf(first[q]), ImprovementOf(first[p])) {
        assert Joined(parts)[p] == first[p] && Joined(parts)[q] == first[q];
      }
    } else {
      forall p, q | 0 <= p < q < |rest| ensures TotalLe(ImprovementOf(rest[q]), ImprovementOf(rest[p])) {
        assert Joined(parts)[|first| + p] == rest[p] && Joined(parts)[|first| + q] == rest[q];
      }
      PartOrdered(parts[1..], i - 1);
    }
  }

  /** The members of a cluster: candidates of one group, its representative the best of them. */
  predicate ClusterOf(cs: Group, k: GroupKey, members: Group) {
    && |members| >= MIN_CLUSTER_SIZE
    && forall c | c in members ::
         c in cs && KeyOf(c) == k && TotalLe(c.improvement, members[0].improvement)
  }

  /** Every cluster reports candidates of one target and source type, the best of them first. */
  lemma ClustersAreSound(cs: Group, correlation: Group -> Float, order: seq<GroupKey>, cluster: Cluster)
    returns (k: GroupKey, members: Group)
    requires cluster in SortDesc(FlatMap(order, ClustersOfGroup(cs, correlation)), RepresentativeOf)
    ensures ClusterOf(cs, k, members) && cluster == ToCluster(members, correlation)
    ensures members in RunsOfGroup(cs, k)
  {
    hide FlatMap, SortDesc, ClustersOf, RunsOfGroup, ToCluster;
    var all := FlatMap(order, ClustersOfGroup(cs, correlation));
    SortPermutes(all, RepresentativeOf);
    assert cluster in multiset(SortDesc(all, RepresentativeOf));
    assert cluster in all;
    var at := FlatMapMember(order, ClustersOfGroup(cs, correlation), cluster);
    k := order[at];
    var i := ClusterHasRun(RunsOfGroup(cs, k), correlation, cluster);
    members := RunsOfGroup(cs, k)[i];
    RunIsOfGroup(cs, k, i);
  }

  lemma RunIsOfGroup(cs: Group, k: GroupKey, i: nat)
    requires i < |RunsOfGroup(cs, k)|
    ensures forall c | c in RunsOfGroup(cs, k)[i] ::
      c in cs && KeyOf(c) == k && TotalLe(c.improvement, RunsOfGroup(cs, k)[i][0].improvement)
  {
    hide SortDesc, Runs, Retain;
    var group := Retain(cs, WithKey(KeyOf, k));
    var sorted := SortDesc(group, ImprovementOf);
    SortPermutes(group, ImprovementOf);
    SortOrders(group, ImprovementOf);
    RunsJoin(sorted);
    PartOrdered(Runs(sorted), i);
    var members := RunsOfGroup(cs, k)[i];
    forall c | c in members ensures c in cs && KeyOf(c) == k && TotalLe(c.improvement, members[0].improvement) {
      PartMember(Runs(sorted), i, c);
      assert c in multiset(sorted);
      assert c in group;
      RetainMember(cs, WithKey(KeyOf, k), c);
      var j :| 0 <= j < |members| && members[j] == c;
      assert j == 0 || TotalLe(ImprovementOf(members[j]), ImprovementOf(members[0]));
    }
  }

  /** The members of all the runs of a group. */
  function RunMembers(cs: Group): GroupKey -> Group {
    k => Joined(RunsOfGroup(cs, k))
  }

  /** Every candidate is in exactly one run, so in at most one cluster. */
  lemma RunsPartitionTheCandidates(cs: Group, order: seq<GroupKey>)
    requires KeyOrder(order, cs, KeyOf)
    ensures multiset(FlatMap(order, RunMembers(cs))) == multiset(cs)
  {
    hide SortDesc, Runs, Retain, FlatMap;
    forall i | 0 <= i < |order| ensures multiset(RunMembers(cs)(order[i])) == multiset(GroupOf(cs, KeyOf)(order[i])) {
      SortPermutes(GroupOf(cs, KeyOf)(order[i]), ImprovementOf);
      RunsJoin(SortDesc(GroupOf(cs, KeyOf)(order[i]), ImprovementOf));
    }
    FlatMapSame(order, RunMembers(cs), GroupOf(cs, KeyOf));
    GroupsPartition(cs, KeyOf, order);
  }

  // Which clusters result, in terms of the runs themselves.

  /** Two candidates are grouped together exactly if they share target and neuron type. */
  lemma GroupedByTargetAndType(a: ClusterableCandidate, b: ClusterableCandidate)
    ensures KeyOf(a) == KeyOf(b) <==> a.toUuid == b.toUuid && a.neuronType == b.neuronType
  {
  }

  predicate AtLeastTwo(run: Group) {
    |run| >= 2
  }

  /** The runs of a group that have at least two members. */
  function LargeRuns(cs: Group): GroupKey -> seq<Group> {
    k => Retain(RunsOfGroup(cs, k), AtLeastTwo)
  }

  /** The cluster reports the run: its first member, its size, and all members' sources in order. */
  ghost predicate Reports(cluster: Cluster, run: Group, correlation: Group -> Float) {
    && run != []
    && cluster.representativeFrom == run[0].fromUuid && cluster.representativeTo == run[0].toUuid
    && cluster.representativeImprovement == run[0].improvement
    && cluster.memberCount == |run| == |cluster.memberFroms|
    && (forall i | 0 <= i < |run| :: cluster.memberFroms[i] == run[i].fromUuid)
    && cluster.correlation == correlation(run)
  }

  /** One cluster for each of these runs, in their order. */
  ghost predicate ReportAll(clusters: seq<Cluster>, runs: seq<Group>, correlation: Group -> Float) {
    |clusters| == |runs| && forall i | 0 <= i < |runs| :: Reports(clusters[i], runs[i], correlation)
  }

  lemma {:induction false} ClustersReportLargeRuns(runs: seq<Group>, correlation: Group -> Float)
    ensures ReportAll(ClustersOf(runs, correlation), Retain(runs, AtLeastTwo), correlation)
  {
    hide Retain, Reports;
    if runs == [] {
      RetainAll(runs, AtLeastTwo);
    } else {
      var (before, run) := (runs[..|runs| - 1], runs[|runs| - 1]);
      assert runs == before + [run];
      ClustersReportLargeRuns(before, correlation);
      RetainAppend(before, [run], AtLeastTwo);
      RetainSingle(run);
      if |run| >= 2 {
        ToClusterReports(run, correlation);
      }
    }
  }

  lemma RetainSingle(run: Group)
    ensures Retain([run], AtLeastTwo) == if |run| >= 2 then [run] else []
  {
    assert [run][1..] == [];
  }

  lemma ToClusterReports(run: Group, correlation: Group -> Float)
    requires run != []
    ensures Reports(ToCluster(run, correlation), run, correlation)
  {
    MapLength(run, FromOf);
  }

  lemma ReportsJoin(a: seq<Cluster>, b: seq<Cluster>, r: seq<Group>, s: seq<Group>, correlation: Group -> Float)
    requires ReportAll(a, r, correlation) && ReportAll(b, s, correlation)
    ensures ReportAll(a + b, r + s, correlation)
  {
    hide Reports;
  }

  lemma {:induction false} GroupsReportLargeRuns(cs: Group, correlation: Group -> Float, order: seq<GroupKey>)
    ensures ReportAll(FlatMap(order, ClustersOfGroup(cs, correlation)), FlatMap(order, LargeRuns(cs)), correlation)
  {
    hide RunsOfGroup, Reports, ClustersOf, Retain;
    if order != [] {
      var (before, k) := (order[..|order| - 1], order[|order| - 1]);
      GroupsReportLargeRuns(cs, correlation, before);
      ClustersReportLargeRuns(RunsOfGroup(cs, k), correlation);
      ReportsJoin(FlatMap(before, ClustersOfGroup(cs, correlation)), ClustersOfGroup(cs, correlation)(k),
                  FlatMap(before, LargeRuns(cs)), LargeRuns(cs)(k), correlation);
    }
  }

  /**
   The clusters are exactly those of the runs with at least two members, one for each such run
   of each group, however the hash map orders the groups; as a list, best representative first.
   */
  lemma ClustersAreTheLargeRuns(cs: Group, correlation: Group -> Float, order: seq<GroupKey>)
    returns (unsorted: seq<Cluster>)
    requires KeyOrder(order, cs, KeyOf)
    ensures ReportAll(unsorted, FlatMap(order, LargeRuns(cs)), correlation)
    ensures var clusters := SortDesc(FlatMap(order, ClustersOfGroup(cs, correlation)), RepresentativeOf);
      && multiset(clusters) == multiset(unsorted) && |clusters| == |FlatMap(order, LargeRuns(cs))|
      && SortedDesc(clusters, RepresentativeOf)
  {
    hide SortDesc, FlatMap, RunsOfGroup, Reports;
    unsorted := FlatMap(order, ClustersOfGroup(cs, correlation));
    GroupsReportLargeRuns(cs, correlation, order);
    SortPermutes(unsorted, RepresentativeOf);
    SortOrders(unsorted, RepresentativeOf);
  }
}
