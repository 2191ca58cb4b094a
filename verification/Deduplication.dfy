/** Keeping the best candidate of each signature across modules. */
module Deduplication {
  import opened Options
  import opened Floats
  import opened Sequences
  import opened Grouping
  import opened Candidates
  import opened OperationSignature

  datatype DeduplicationResult = DeduplicationResult(
    candidates: seq<Candidate>,
    duplicatesRemoved: nat,
    originalCount: nat,
    conflictsDetected: nat)

  datatype Category = Remove | Modify | SynapseOnly

  function OpNeuronAndCategory(op: Op): (Option<string>, Category) {
    match op
    case RemoveNeuron(uuid) => (Some(uuid), Remove)
    case ChangeSquash(uuid, _) => (Some(uuid), Modify)
    case SetBias(uuid, _) => (Some(uuid), Modify)
    case AddNeuron(uuid, _, _, _, _) => (Some(uuid), Modify)
    case RemoveSynapse(_, _) => (None, SynapseOnly)
    case AddSynapse(_, _, _) => (None, SynapseOnly)
    case SetWeight(_, _, _) => (None, SynapseOnly)
  }

  /** The best of a group, first among equals, as a list of at most one. */
  function Winner(group: seq<Candidate>): seq<Candidate> {
    if group == [] then []
    else
      SortPermutes(group, GainOf);
      [SortDesc(group, GainOf)[0]]
  }

  function WinnerOf(cs: seq<Candidate>): multiset<Part> -> seq<Candidate> {
    sig => Winner(GroupOf(cs, Signature)(sig))
  }

  // Conflicts.

  function OperationsOf(c: Candidate): seq<Op> {
    c.operations
  }

  /** Some operation of `ops` acts on the neuron in this way. */
  predicate Acts(ops: seq<Op>, uuid: string, category: Category) {
    exists i :: 0 <= i < |ops| && OpNeuronAndCategory(ops[i]) == (Some(uuid), category)
  }

  /** The neurons that some candidate removes and some candidate modifies. */
  function ConflictedNeurons(ops: seq<Op>): set<string> {
    set i | 0 <= i < |ops| && ops[i].RemoveNeuron? && Acts(ops, ops[i].uuid, Modify) :: ops[i].uuid
  }

  /** Changing the squash or the bias of a neuron, or adding one of that name, modifies it. */
  predicate Modifies(op: Op, uuid: string) {
    (op.ChangeSquash? || op.SetBias? || op.AddNeuron?) && op.uuid == uuid
  }

  lemma ActsMeans(ops: seq<Op>, uuid: string)
    ensures Acts(ops, uuid, Remove) <==> RemoveNeuron(uuid) in ops
    ensures Acts(ops, uuid, Modify) <==> exists i :: 0 <= i < |ops| && Modifies(ops[i], uuid)
  {
    if RemoveNeuron(uuid) in ops {
      var i :| 0 <= i < |ops| && ops[i] == RemoveNeuron(uuid);
      assert OpNeuronAndCategory(ops[i]) == (Some(uuid), Remove);
    }
    if i :| 0 <= i < |ops| && Modifies(ops[i], uuid) {
      assert OpNeuronAndCategory(ops[i]) == (Some(uuid), Modify);
    }
    if Acts(ops, uuid, Modify) {
      var i :| 0 <= i < |ops| && OpNeuronAndCategory(ops[i]) == (Some(uuid), Modify);
      assert Modifies(ops[i], uuid);
    }
  }

  /** In conflict are the neurons that one operation removes and another modifies. */
  lemma ConflictedMeans(ops: seq<Op>, uuid: string)
    ensures uuid in ConflictedNeurons(ops) <==>
      RemoveNeuron(uuid) in ops && exists i :: 0 <= i < |ops| && Modifies(ops[i], uuid)
  {
    hide Acts, Modifies;
    ActsMeans(ops, uuid);
    if uuid in ConflictedNeurons(ops) {
      var i :| 0 <= i < |ops| && ops[i].RemoveNeuron? && ops[i].uuid == uuid && Acts(ops, uuid, Modify);
      assert ops[i] == RemoveNeuron(uuid);
    }
  }

  /** The collected categories of each neuron. */
  ghost predicate Collected(neuronOps: map<string, seq<Category>>, ops: seq<Op>) {
    (forall uuid, category | uuid in neuronOps :: category in neuronOps[uuid] <==> Acts(ops, uuid, category))
    && forall uuid, category | Acts(ops, uuid, category) :: uuid in neuronOps
  }

  lemma ActsAppend(ops: seq<Op>, op: Op, uuid: string, category: Category)
    ensures Acts(ops + [op], uuid, category) <==>
      Acts(ops, uuid, category) || OpNeuronAndCategory(op) == (Some(uuid), category)
  {
    var all := ops + [op];
    if Acts(ops, uuid, category) {
      var i :| 0 <= i < |ops| && OpNeuronAndCategory(ops[i]) == (Some(uuid), category);
      assert OpNeuronAndCategory(all[i]) == (Some(uuid), category);
    }
    if OpNeuronAndCategory(op) == (Some(uuid), category) {
      assert OpNeuronAndCategory(all[|ops|]) == (Some(uuid), category);
    }
    if Acts(all, uuid, category) {
      var i :| 0 <= i < |all| && OpNeuronAndCategory(all[i]) == (Some(uuid), category);
      assert i < |ops| ==> OpNeuronAndCategory(ops[i]) == (Some(uuid), category);
    }
  }

  lemma CollectedStep(neuronOps: map<string, seq<Category>>, ops: seq<Op>, op: Op)
    requires Collected(neuronOps, ops)
    ensures var (uuid, category) := OpNeuronAndCategory(op);
      if uuid.None? then Collected(neuronOps, ops + [op])
      else Collected(neuronOps[uuid.value :=
        (if uuid.value in neuronOps then neuronOps[uuid.value] else []) + [category]], ops + [op])
  {
    hide Acts;
    forall uuid, category
      ensures Acts(ops + [op], uuid, category) <==>
        Acts(ops, uuid, category) || OpNeuronAndCategory(op) == (Some(uuid), category)
    {
      ActsAppend(ops, op, uuid, category);
    }
  }

  /** Collects the categories of every operation, then counts the neurons with both. */
  method CountNeuronConflicts(cs: seq<Candidate>) returns (conflicts: nat)
    ensures conflicts == |ConflictedNeurons(FlatMap(cs, OperationsOf))|
  {
    hide Acts, ConflictedNeurons, FlatMap, OpNeuronAndCategory, Collected;
    var neuronOps: map<string, seq<Category>> := map[];
    ghost var seen := [];
    NothingCollected();
    for i := 0 to |cs|
      invariant seen == FlatMap(cs[..i], OperationsOf)
      invariant Collected(neuronOps, seen)
    {
      var ops := cs[i].operations;
      assert cs[..i + 1] == cs[..i] + [cs[i]];
      FlatMapAppend(cs[..i], cs[i], OperationsOf);
      ghost var before := seen;
      assert before == before + ops[..0];
      for j := 0 to |ops|
        invariant seen == before + ops[..j]
        invariant Collected(neuronOps, seen)
      {
        var (uuid, category) := OpNeuronAndCategory(ops[j]);
        CollectedStep(neuronOps, seen, ops[j]);
        assert before + ops[..j + 1] == seen + [ops[j]];
        if uuid.Some? {
          neuronOps := neuronOps[uuid.value :=
            (if uuid.value in neuronOps then neuronOps[uuid.value] else []) + [category]];
        }
        seen := seen + [ops[j]];
      }
      assert ops[..|ops|] == ops;
    }
    assert cs[..|cs|] == cs;
    conflicts := CountConflicted(neuronOps, seen);
  }

  lemma NothingCollected()
    ensures Collected(map[], []) && FlatMap([], OperationsOf) == []
  {
  }

  method CountConflicted(neuronOps: map<string, seq<Category>>, ghost ops: seq<Op>) returns (conflicts: nat)
    requires Collected(neuronOps, ops)
    ensures conflicts == |ConflictedNeurons(ops)|
  {
    hide Acts, ConflictedNeurons;
    conflicts := 0;
    var remaining := neuronOps.Keys;
    ghost var counted: set<string> := {};
    while remaining != {}
      invariant remaining <= neuronOps.Keys
      invariant forall uuid :: uuid in counted <==>
        uuid in neuronOps && uuid !in remaining && Acts(ops, uuid, Remove) && Acts(ops, uuid, Modify)
      invariant conflicts == |counted|
      decreases |remaining|
    {
      var uuid :| uuid in remaining;
      if Remove in neuronOps[uuid] && Modify in neuronOps[uuid] {
        conflicts := conflicts + 1;
        counted := counted + {uuid};
      }
      remaining := remaining - {uuid};
    }
    forall uuid ensures uuid in counted <==> uuid in ConflictedNeurons(ops) {
      ActsMeans(ops, uuid);
      ConflictedMeans(ops, uuid);
    }
    assert counted == ConflictedNeurons(ops);
  }

  // Deduplication.

  /** The winners collected so far, and how many of the candidates read so far they replace. */
  ghost predicate KeptSoFar(cs: seq<Candidate>, order: seq<multiset<Part>>, kept: seq<Candidate>, removed: nat) {
    kept == FlatMap(order, WinnerOf(cs)) && removed + |kept| == |FlatMap(order, GroupOf(cs, Signature))|
  }

  lemma KeepNext(cs: seq<Candidate>, order: seq<multiset<Part>>, kept: seq<Candidate>, removed: nat,
                 sig: multiset<Part>, group: seq<Candidate>)
    requires KeptSoFar(cs, order, kept, removed) && group == Retain(cs, WithKey(Signature, sig)) && group != []
    ensures |SortDesc(group, GainOf)| == |group|
    ensures KeptSoFar(cs, order + [sig], kept + [SortDesc(group, GainOf)[0]], removed + |group| - 1)
  {
    hide Retain, SortDesc, FlatMap, Signature;
    SortPermutes(group, GainOf);
    GroupIs(cs, sig);
    FlatMapAppend(order, sig, WinnerOf(cs));
    FlatMapAppend(order, sig, GroupOf(cs, Signature));
  }

  /** Reads the groups in whatever order the hash map yields them, keeping the best of each. */
  method KeepBest(cs: seq<Candidate>, groups: map<multiset<Part>, seq<Candidate>>)
    returns (kept: seq<Candidate>, removed: nat, ghost order: seq<multiset<Part>>)
    requires Groups(groups, cs, Signature) && NoEmptyGroup(groups)
    ensures KeyOrder(order, cs, Signature) && kept == FlatMap(order, WinnerOf(cs))
    ensures removed + |kept| == |cs|
  {
    hide Retain, SortDesc, Signature, KeptSoFar, KeyOrder;
    kept, removed, order := [], 0, [];
    var remaining := groups.Keys;
    NothingFlat(cs);
    while remaining != {}
      invariant ReadSoFar(order, remaining, groups.Keys)
      invariant KeptSoFar(cs, order, kept, removed)
      decreases |remaining|
    {
      var sig :| sig in remaining;
      KeepNext(cs, order, kept, removed, sig, groups[sig]);
      var group := SortDesc(groups[sig], GainOf);
      removed := removed + |group| - 1;
      kept := kept + [group[0]];
      ReadNext(order, remaining, groups.Keys, sig);
      order := order + [sig];
      remaining := remaining - {sig};
    }
    ReadAll(order, groups, cs, Signature);
    EveryoneKeptOrRemoved(cs, order, kept, removed);
  }

  lemma EveryoneKeptOrRemoved(cs: seq<Candidate>, order: seq<multiset<Part>>, kept: seq<Candidate>, removed: nat)
    requires KeyOrder(order, cs, Signature) && KeptSoFar(cs, order, kept, removed)
    ensures kept == FlatMap(order, WinnerOf(cs)) && removed + |kept| == |cs|
  {
    hide KeyOrder, FlatMap, Signature;
    GroupsPartition(cs, Signature, order);
    SameLength(FlatMap(order, GroupOf(cs, Signature)), cs);
  }

  /** Keeps the best of each signature; `order` is how the hash map yielded the groups. */
  method Deduplicate(cs: seq<Candidate>) returns (result: DeduplicationResult, ghost order: seq<multiset<Part>>)
    ensures KeyOrder(order, cs, Signature)
    ensures result.candidates == Survivors(cs, order)
    ensures result.originalCount == |cs| == result.duplicatesRemoved + |result.candidates|
    ensures result.conflictsDetected ==
      if |cs| <= 1 then 0 else |ConflictedNeurons(FlatMap(result.candidates, OperationsOf))|
  {
    hide Retain, SortDesc, FlatMap, Signature, ConflictedNeurons, KeyOrder;
    if |cs| <= 1 {
      order := if cs == [] then [] else [Signature(cs[0])];
      FewCandidates(cs, order);
      return DeduplicationResult(cs, 0, |cs|, 0), order;
    }
    var groups := GroupBy(cs, Signature);
    var kept, removed;
    kept, removed, order := KeepBest(cs, groups);
    SortPermutes(kept, GainOf);
    kept := SortDesc(kept, GainOf);
    var conflicts := CountNeuronConflicts(kept);
    result := DeduplicationResult(kept, removed, |cs|, conflicts);
  }

  /** The survivors, as the hash map's order and the final sort leave them. */
  function Survivors(cs: seq<Candidate>, order: seq<multiset<Part>>): seq<Candidate> {
    SortDesc(FlatMap(order, WinnerOf(cs)), GainOf)
  }

  lemma GroupIs(cs: seq<Candidate>, sig: multiset<Part>)
    ensures GroupOf(cs, Signature)(sig) == Retain(cs, WithKey(Signature, sig))
    ensures WinnerOf(cs)(sig) == Winner(Retain(cs, WithKey(Signature, sig)))
  {
    hide Retain, Signature, Winner;
  }

  lemma NothingFlat(cs: seq<Candidate>)
    ensures FlatMap([], WinnerOf(cs)) == [] && KeptSoFar(cs, [], [], 0)
  {
  }

  lemma FewCandidates(cs: seq<Candidate>, order: seq<multiset<Part>>)
    requires |cs| <= 1 && order == if cs == [] then [] else [Signature(cs[0])]
    ensures KeyOrder(order, cs, Signature)
    ensures Survivors(cs, order) == cs
  {
    hide Signature, SortDesc, Winner;
    if cs != [] {
      var sig := Signature(cs[0]);
      assert exists i :: 0 <= i < |cs| && Signature(cs[i]) == sig by { assert Signature(cs[0]) == sig; }
      RetainAll(cs, WithKey(Signature, sig));
      GroupIs(cs, sig);
      WinnerOfOne(cs);
      NothingFlat(cs);
      FlatMapAppend([], sig, WinnerOf(cs));
      assert [] + [sig] == order;
      assert [] + cs == cs && cs == [cs[0]];
      SortOne(cs[0]);
    } else {
      NothingFlat(cs);
      SortNone();
    }
  }

  lemma SortNone()
    ensures SortDesc([], GainOf) == []
  {
  }

  lemma SortOne(c: Candidate)
    ensures SortDesc([c], GainOf) == [c]
  {
    assert [c][1..] == [];
  }

  // What the survivors are.

  lemma WinnerIsBest(cs: seq<Candidate>, sig: multiset<Part>)
    ensures |WinnerOf(cs)(sig)| <= 1
    ensures |WinnerOf(cs)(sig)| == 1 <==> exists i :: 0 <= i < |cs| && Signature(cs[i]) == sig
    ensures |WinnerOf(cs)(sig)| == 1 ==>
      var best := WinnerOf(cs)(sig)[0];
      && best in cs && Signature(best) == sig
      && forall c | c in cs && Signature(c) == sig :: TotalLe(c.gain, best.gain)
  {
    hide Retain, Signature, SortDesc;
    var group := Retain(cs, WithKey(Signature, sig));
    GroupIs(cs, sig);
    var sorted := SortDesc(group, GainOf);
    SortPermutes(group, GainOf);
    SortOrders(group, GainOf);
    if group == [] {
      forall i | 0 <= i < |cs| ensures Signature(cs[i]) != sig {
        RetainMember(cs, WithKey(Signature, sig), cs[i]);
      }
    } else {
      var best := sorted[0];
      assert best in multiset(sorted);
      RetainMember(cs, WithKey(Signature, sig), best);
      forall c | c in cs && Signature(c) == sig ensures TotalLe(c.gain, best.gain) {
        RetainMember(cs, WithKey(Signature, sig), c);
        assert c in multiset(group);
        var j :| 0 <= j < |sorted| && sorted[j] == c;
        TotalLeIsTotalOrder(c.gain, c.gain, c.gain);
        assert j == 0 || TotalLe(GainOf(sorted[j]), GainOf(sorted[0]));
      }
    }
  }

  /** At most one element with each signature. */
  ghost predicate OneOfEach(s: seq<Candidate>) {
    forall sig :: |Retain(s, WithKey(Signature, sig))| <= 1
  }

  lemma {:induction false} WinnersOfKeys(cs: seq<Candidate>, order: seq<multiset<Part>>, sig: multiset<Part>)
    requires Distinct(order)
    ensures Retain(FlatMap(order, WinnerOf(cs)), WithKey(Signature, sig))
         == if sig in order then WinnerOf(cs)(sig) else []
  {
    hide Retain, Signature, Winner;
    if order == [] {
      NothingFlat(cs);
      RetainNone([], WithKey(Signature, sig));
    } else {
      var (before, last) := (order[..|order| - 1], order[|order| - 1]);
      assert order == before + [last];
      WinnersOfKeys(cs, before, sig);
      FlatMapAppend(before, last, WinnerOf(cs));
      RetainAppend(FlatMap(before, WinnerOf(cs)), WinnerOf(cs)(last), WithKey(Signature, sig));
      WinnerIsBest(cs, last);
      if last == sig {
        RetainAll(WinnerOf(cs)(last), WithKey(Signature, sig));
      } else {
        RetainNone(WinnerOf(cs)(last), WithKey(Signature, sig));
      }
    }
  }

  lemma OneOfEachIsDistinct(s: seq<Candidate>)
    requires OneOfEach(s)
    ensures forall i, j | 0 <= i < j < |s| :: Signature(s[i]) != Signature(s[j])
  {
    hide Retain, Signature;
    forall i, j | 0 <= i < j < |s| ensures Signature(s[i]) != Signature(s[j]) {
      if Signature(s[i]) == Signature(s[j]) {
        TwoOfOne(s, i, j);
      }
    }
  }

  lemma TwoOfOne(s: seq<Candidate>, i: nat, j: nat)
    requires i < j < |s| && Signature(s[i]) == Signature(s[j])
    ensures |Retain(s, WithKey(Signature, Signature(s[i])))| >= 2
  {
    hide Retain, Signature;
    var keep := WithKey(Signature, Signature(s[i]));
    assert s == s[..j] + s[j..];
    RetainAppend(s[..j], s[j..], keep);
    assert s[i] in s[..j] && s[j] in s[j..];
    RetainMember(s[..j], keep, s[i]);
    RetainMember(s[j..], keep, s[j]);
  }

  lemma SurvivorsOfKey(cs: seq<Candidate>, order: seq<multiset<Part>>, sig: multiset<Part>)
    requires KeyOrder(order, cs, Signature)
    ensures multiset(Retain(Survivors(cs, order), WithKey(Signature, sig))) == multiset(WinnerOf(cs)(sig))
    ensures |Retain(Survivors(cs, order), WithKey(Signature, sig))| == |WinnerOf(cs)(sig)|
  {
    hide Retain, Signature, SortDesc, FlatMap, WinnerOf;
    var all := FlatMap(order, WinnerOf(cs));
    SortPermutes(all, GainOf);
    RetainPermuted(Survivors(cs, order), all, WithKey(Signature, sig));
    WinnersOfKeys(cs, order, sig);
    WinnerIsBest(cs, sig);
    if sig !in order {
      assert WinnerOf(cs)(sig) == [];
    }
  }

  /**
   The survivors are a maximal quotient: pairwise different signatures, one for every class,
   each the best of its class, in order of gain.
   */
  lemma SurvivorsAreQuotient(cs: seq<Candidate>, order: seq<multiset<Part>>)
    requires KeyOrder(order, cs, Signature)
    ensures var kept := Survivors(cs, order);
      && (forall i, j | 0 <= i < j < |kept| :: Signature(kept[i]) != Signature(kept[j]))
      && (forall c | c in cs :: exists best :: best in kept && Signature(best) == Signature(c))
      && (forall best, c | best in kept && c in cs && Signature(c) == Signature(best) :: TotalLe(c.gain, best.gain))
      && (forall best | best in kept :: best in cs)
      && SortedDesc(kept, GainOf)
  {
    hide Retain, Signature, SortDesc, FlatMap, WinnerOf;
    var kept := Survivors(cs, order);
    SortOrders(FlatMap(order, WinnerOf(cs)), GainOf);
    forall sig ensures |Retain(kept, WithKey(Signature, sig))| <= 1 {
      SurvivorsOfKey(cs, order, sig);
      WinnerIsBest(cs, sig);
    }
    OneOfEachIsDistinct(kept);
    forall c | c in cs ensures exists best :: best in kept && Signature(best) == Signature(c) {
      ClassHasSurvivor(cs, order, c);
    }
    forall best | best in kept
      ensures best in cs && forall c | c in cs && Signature(c) == Signature(best) :: TotalLe(c.gain, best.gain)
    {
      SurvivorIsBest(cs, order, best);
    }
  }

  lemma ClassHasSurvivor(cs: seq<Candidate>, order: seq<multiset<Part>>, c: Candidate)
    requires KeyOrder(order, cs, Signature) && c in cs
    ensures exists best :: best in Survivors(cs, order) && Signature(best) == Signature(c)
  {
    hide Retain, Signature, Survivors, WinnerOf;
    var sig := Signature(c);
    SurvivorsOfKey(cs, order, sig);
    WinnerIsBest(cs, sig);
    var matching := Retain(Survivors(cs, order), WithKey(Signature, sig));
    RetainMember(Survivors(cs, order), WithKey(Signature, sig), matching[0]);
  }

  lemma SurvivorIsBest(cs: seq<Candidate>, order: seq<multiset<Part>>, best: Candidate)
    requires KeyOrder(order, cs, Signature) && best in Survivors(cs, order)
    ensures best in cs && forall c | c in cs && Signature(c) == Signature(best) :: TotalLe(c.gain, best.gain)
  {
    hide Retain, Signature, Survivors, WinnerOf;
    var sig := Signature(best);
    SurvivorsOfKey(cs, order, sig);
    WinnerIsBest(cs, sig);
    RetainMember(Survivors(cs, order), WithKey(Signature, sig), best);
    assert best in multiset(Retain(Survivors(cs, order), WithKey(Signature, sig)));
    assert best in multiset(WinnerOf(cs)(sig));
  }

  lemma WinnerIsFirst(cs: seq<Candidate>, sig: multiset<Part>) returns (i: nat)
    requires WinnerOf(cs)(sig) != []
    ensures i < |cs| && Signature(cs[i]) == sig && WinnerOf(cs)(sig) == [cs[i]]
    ensures forall j | 0 <= j < i && Signature(cs[j]) == sig :: cs[j].gain != cs[i].gain
  {
    hide Retain, Signature, SortDesc;
    var group := Retain(cs, WithKey(Signature, sig));
    GroupIs(cs, sig);
    SortPermutes(group, GainOf);
    var best := SortDesc(group, GainOf)[0];
    var (tied, both) := (WithKey(GainOf, best.gain), (c: Candidate) => Signature(c) == sig && c.gain == best.gain);
    SortIsStable(group, GainOf, best.gain);
    RetainCons(best, SortDesc(group, GainOf)[1..], tied);
    assert SortDesc(group, GainOf) == [best] + SortDesc(group, GainOf)[1..];
    RetainTwice(cs, WithKey(Signature, sig), tied, both);
    i := RetainFirst(cs, both);
  }

  /** Of several candidates with the greatest gain of their class, the first is the survivor. */
  lemma SurvivorIsFirst(cs: seq<Candidate>, order: seq<multiset<Part>>, best: Candidate) returns (i: nat)
    requires KeyOrder(order, cs, Signature) && best in Survivors(cs, order)
    ensures i < |cs| && cs[i] == best
    ensures forall c | c in cs && Signature(c) == Signature(best) :: TotalLe(c.gain, best.gain)
    ensures forall j | 0 <= j < i && Signature(cs[j]) == Signature(best) :: cs[j].gain != best.gain
  {
    hide Retain, Signature, Survivors, WinnerOf;
    var sig := Signature(best);
    SurvivorIsBest(cs, order, best);
    SurvivorsOfKey(cs, order, sig);
    RetainMember(Survivors(cs, order), WithKey(Signature, sig), best);
    assert best in multiset(Retain(Survivors(cs, order), WithKey(Signature, sig)));
    assert best in multiset(WinnerOf(cs)(sig));
    i := WinnerIsFirst(cs, sig);
  }

  /** The hash map's order never changes which candidates survive. */
  lemma SurvivorsDoNotDependOnOrder(cs: seq<Candidate>, a: seq<multiset<Part>>, b: seq<multiset<Part>>)
    requires KeyOrder(a, cs, Signature) && KeyOrder(b, cs, Signature)
    ensures multiset(Survivors(cs, a)) == multiset(Survivors(cs, b))
  {
    hide FlatMap, SortDesc, Signature;
    KeyOrdersAgree(a, b, cs, Signature);
    FlatMapPermuted(a, b, WinnerOf(cs));
    SortPermutes(FlatMap(a, WinnerOf(cs)), GainOf);
    SortPermutes(FlatMap(b, WinnerOf(cs)), GainOf);
  }

  /** Deduplicating the survivors again keeps every one of them. */
  lemma DeduplicationIsIdempotent(cs: seq<Candidate>, order: seq<multiset<Part>>, again: seq<multiset<Part>>)
    requires KeyOrder(order, cs, Signature) && KeyOrder(again, Survivors(cs, order), Signature)
    ensures multiset(Survivors(Survivors(cs, order), again)) == multiset(Survivors(cs, order))
  {
    hide FlatMap, SortDesc, Signature, Retain, Survivors, Winner;
    var kept := Survivors(cs, order);
    forall i | 0 <= i < |again|
      ensures multiset(WinnerOf(kept)(again[i])) == multiset(GroupOf(kept, Signature)(again[i]))
    {
      GroupIs(kept, again[i]);
      SurvivorsOfKey(cs, order, again[i]);
      WinnerIsBest(cs, again[i]);
      WinnerOfOne(Retain(kept, WithKey(Signature, again[i])));
    }
    FlatMapSame(again, WinnerOf(kept), GroupOf(kept, Signature));
    GroupsPartition(kept, Signature, again);
    SurvivorsPermute(kept, again);
  }

  lemma SurvivorsPermute(cs: seq<Candidate>, order: seq<multiset<Part>>)
    ensures multiset(Survivors(cs, order)) == multiset(FlatMap(order, WinnerOf(cs)))
  {
    hide FlatMap, SortDesc, WinnerOf;
    SortPermutes(FlatMap(order, WinnerOf(cs)), GainOf);
  }

  lemma WinnerOfOne(group: seq<Candidate>)
    requires |group| <= 1
    ensures Winner(group) == group
  {
    if group != [] {
      assert group == [group[0]];
      SortOne(group[0]);
    }
  }
}
