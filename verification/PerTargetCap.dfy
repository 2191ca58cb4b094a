/** The cap on coordinated candidates per target of their last operation. */
module PerTargetCap {
  import opened Options
  import opened Floats
  import opened Sequences
  import opened Candidates

  /** The target of the last operation; a candidate without operations has none. */
  function FinalTarget(c: Candidate): Option<string> {
    if c.operations == [] then None else Some(OpTarget(c.operations[|c.operations| - 1]))
  }

  /** Selects the candidates with a given final target. */
  function Targeting(target: Option<string>): Candidate -> bool {
    c => FinalTarget(c) == target
  }

  function CountFor(cs: seq<Candidate>, target: Option<string>): nat {
    |Retain(cs, Targeting(target))|
  }

  function Min(a: nat, b: nat): nat {
    if a <= b then a else b
  }

  predicate Room(before: seq<Candidate>, c: Candidate, cap: nat) {
    FinalTarget(c).None? || CountFor(before, FinalTarget(c)) < cap
  }

  /** In order, each candidate that finds fewer than `cap` earlier ones with its target. */
  function FirstPerTarget(cs: seq<Candidate>, cap: nat): seq<Candidate> {
    if cs == [] then []
    else
      var (before, c) := (cs[..|cs| - 1], cs[|cs| - 1]);
      FirstPerTarget(before, cap) + if Room(before, c, cap) then [c] else []
  }

  /** What the cap keeps. A cap of zero means no cap, and then nothing is sorted either. */
  function Capped(cs: seq<Candidate>, cap: nat): seq<Candidate> {
    if cap == 0 then cs else FirstPerTarget(SortDesc(cs, GainOf), cap)
  }

  lemma CountForAppend(cs: seq<Candidate>, c: Candidate, target: Option<string>)
    ensures CountFor(cs + [c], target) == CountFor(cs, target) + if FinalTarget(c) == target then 1 else 0
  {
    RetainAppend(cs, [c], Targeting(target));
    assert [c][1..] == [];
  }

  /** Counting per target does not depend on the order. */
  lemma CountForPermuted(a: seq<Candidate>, b: seq<Candidate>, target: Option<string>)
    requires multiset(a) == multiset(b)
    ensures CountFor(a, target) == CountFor(b, target)
  {
    RetainPermuted(a, b, Targeting(target));
  }

  lemma {:induction false} FirstPerTargetCount(cs: seq<Candidate>, cap: nat, target: Option<string>)
    ensures target.Some? ==> CountFor(FirstPerTarget(cs, cap), target) == Min(cap, CountFor(cs, target))
    ensures target.None? ==> CountFor(FirstPerTarget(cs, cap), target) == CountFor(cs, target)
  {
    if cs != [] {
      hide CountFor;
      var (before, c) := (cs[..|cs| - 1], cs[|cs| - 1]);
      assert cs == before + [c];
      FirstPerTargetCount(before, cap, target);
      CountForAppend(before, c, target);
      CountForAppend(FirstPerTarget(before, cap), c, target);
      assert FirstPerTarget(before, cap) + [] == FirstPerTarget(before, cap);
    } else {
      assert CountFor([], target) == 0;
    }
  }

  /** The kept candidates are a sub-multiset, and all those without a target are kept. */
  lemma {:induction false} FirstPerTargetMultiset(cs: seq<Candidate>, cap: nat)
    ensures multiset(FirstPerTarget(cs, cap)) <= multiset(cs)
    ensures forall c: Candidate | FinalTarget(c).None? :: multiset(FirstPerTarget(cs, cap))[c] == multiset(cs)[c]
  {
    if cs != [] {
      hide CountFor;
      var (before, c) := (cs[..|cs| - 1], cs[|cs| - 1]);
      assert cs == before + [c];
      FirstPerTargetMultiset(before, cap);
    }
  }

  lemma {:induction false} FirstPerTargetOrdered(cs: seq<Candidate>, cap: nat)
    requires SortedDesc(cs, GainOf)
    ensures SortedDesc(FirstPerTarget(cs, cap), GainOf)
  {
    if cs != [] {
      hide CountFor;
      var (before, c) := (cs[..|cs| - 1], cs[|cs| - 1]);
      assert cs == before + [c];
      FirstPerTargetOrdered(before, cap);
      KeptComesEarlier(cs, cap);
    }
  }

  /** Whatever is kept of a prefix has at least the gain of the next candidate. */
  lemma KeptComesEarlier(cs: seq<Candidate>, cap: nat)
    requires cs != [] && SortedDesc(cs, GainOf)
    ensures forall k | k in FirstPerTarget(cs[..|cs| - 1], cap) :: TotalLe(cs[|cs| - 1].gain, k.gain)
  {
    hide FirstPerTarget;
    var before := cs[..|cs| - 1];
    FirstPerTargetMultiset(before, cap);
    forall k | k in FirstPerTarget(before, cap) ensures TotalLe(cs[|cs| - 1].gain, k.gain) {
      assert k in multiset(FirstPerTarget(before, cap));
      assert k in multiset(before);
      var i :| 0 <= i < |before| && before[i] == k;
      assert TotalLe(GainOf(cs[|cs| - 1]), GainOf(cs[i]));
    }
  }

  /** A candidate that was dropped, at least once. */
  predicate Dropped(cs: seq<Candidate>, kept: seq<Candidate>, c: Candidate) {
    multiset(kept)[c] < multiset(cs)[c]
  }

  /** `cap` candidates with the target of `c` were kept, none with less gain than `c`. */
  predicate Dominated(kept: seq<Candidate>, c: Candidate, cap: nat) {
    CountFor(kept, FinalTarget(c)) == cap
    && forall k | k in kept && FinalTarget(k) == FinalTarget(c) :: TotalLe(c.gain, k.gain)
  }

  lemma FirstPerTargetStep(before: seq<Candidate>, c: Candidate, cap: nat)
    ensures FirstPerTarget(before + [c], cap) == FirstPerTarget(before, cap) + if Room(before, c, cap) then [c] else []
  {
    hide CountFor;
    assert (before + [c])[..|before + [c]| - 1] == before;
  }

  lemma DominatedAppend(kept: seq<Candidate>, last: Candidate, c: Candidate, cap: nat)
    requires Dominated(kept, c, cap) && FinalTarget(last) != FinalTarget(c)
    ensures Dominated(kept + [last], c, cap)
  {
    hide CountFor;
    CountForAppend(kept, last, FinalTarget(c));
  }

  /** Once `cap` candidates of a target are kept there is no room for another. */
  lemma FullHasNoRoom(before: seq<Candidate>, last: Candidate, cap: nat)
    requires FinalTarget(last).Some? && CountFor(FirstPerTarget(before, cap), FinalTarget(last)) == cap
    ensures !Room(before, last, cap)
  {
    hide CountFor, FirstPerTarget;
    FirstPerTargetCount(before, cap, FinalTarget(last));
  }

  /** The last candidate, if there is no room for it, is dominated by what was kept before. */
  lemma LastIsDominated(before: seq<Candidate>, last: Candidate, cap: nat)
    requires SortedDesc(before + [last], GainOf) && !Room(before, last, cap)
    ensures FinalTarget(last).Some? && Dominated(FirstPerTarget(before, cap), last, cap)
  {
    hide CountFor, FirstPerTarget;
    assert (before + [last])[..|before + [last]| - 1] == before;
    FirstPerTargetCount(before, cap, FinalTarget(last));
    KeptComesEarlier(before + [last], cap);
  }

  lemma {:induction false} FirstPerTargetDominates(cs: seq<Candidate>, cap: nat, c: Candidate)
    requires SortedDesc(cs, GainOf) && Dropped(cs, FirstPerTarget(cs, cap), c)
    ensures FinalTarget(c).Some? && Dominated(FirstPerTarget(cs, cap), c, cap)
    decreases |cs|
  {
    hide CountFor, FirstPerTarget, Room;
    if cs != [] {
      var (before, last) := (cs[..|cs| - 1], cs[|cs| - 1]);
      var kept := FirstPerTarget(before, cap);
      var room := Room(before, last, cap);
      assert cs == before + [last];
      FirstPerTargetStep(before, last, cap);
      if Dropped(before, kept, c) {
        FirstPerTargetDominates(before, cap, c);
        if FinalTarget(last) == FinalTarget(c) {
          FullHasNoRoom(before, last, cap);
          assert kept + [] == kept;
        } else if room {
          DominatedAppend(kept, last, c, cap);
        } else {
          assert kept + [] == kept;
        }
      } else {
        DroppedLast(before, last, kept, c, room);
        LastIsDominated(before, last, cap);
        assert kept + [] == kept;
      }
    }
  }

  lemma DroppedLast(before: seq<Candidate>, last: Candidate, kept: seq<Candidate>, c: Candidate, room: bool)
    requires Dropped(before + [last], kept + if room then [last] else [], c) && !Dropped(before, kept, c)
    ensures !room && c == last
  {
  }

  /**
   The cap keeps an exact top-K per target, best first: `min(cap, count)` of each target;
   everything dropped is outranked by `cap` kept candidates of its own target; candidates
   without operations all stay.
   */
  lemma CapIsTopK(cs: seq<Candidate>, cap: nat)
    requires cap > 0
    ensures var kept := Capped(cs, cap);
      && multiset(kept) <= multiset(cs) && SortedDesc(kept, GainOf)
      && (forall t :: CountFor(kept, Some(t)) == Min(cap, CountFor(cs, Some(t))))
      && (forall c | c in cs && Dropped(cs, kept, c) :: FinalTarget(c).Some? && Dominated(kept, c, cap))
      && (forall c: Candidate | c.operations == [] :: multiset(kept)[c] == multiset(cs)[c])
  {
    hide FirstPerTarget, SortDesc, CountFor;
    var sorted := SortDesc(cs, GainOf);
    SortPermutes(cs, GainOf);
    SortOrders(cs, GainOf);
    FirstPerTargetMultiset(sorted, cap);
    FirstPerTargetOrdered(sorted, cap);
    forall t ensures CountFor(Capped(cs, cap), Some(t)) == Min(cap, CountFor(cs, Some(t))) {
      FirstPerTargetCount(sorted, cap, Some(t));
      CountForPermuted(sorted, cs, Some(t));
    }
    forall c | c in cs && Dropped(cs, Capped(cs, cap), c)
      ensures FinalTarget(c).Some? && Dominated(Capped(cs, cap), c, cap)
    {
      FirstPerTargetDominates(sorted, cap, c);
    }
  }

  // The cap in terms of the last operation itself.

  /** A synapse operation acts on the neuron at the synapse's end, any other on its neuron. */
  predicate ActsOn(op: Op, uuid: string) {
    || ((op.RemoveSynapse? || op.AddSynapse? || op.SetWeight?) && op.toUuid == uuid)
    || ((op.AddNeuron? || op.RemoveNeuron? || op.ChangeSquash? || op.SetBias?) && op.uuid == uuid)
  }

  /** Selects the candidates whose last operation acts on the neuron. */
  function EndingOn(uuid: string): Candidate -> bool {
    (c: Candidate) => c.operations != [] && ActsOn(c.operations[|c.operations| - 1], uuid)
  }

  lemma {:induction false} EndingIsTargeting(cs: seq<Candidate>, uuid: string)
    ensures Retain(cs, EndingOn(uuid)) == Retain(cs, Targeting(Some(uuid)))
  {
    if cs != [] {
      EndingIsTargeting(cs[1..], uuid);
    }
  }

  lemma SameSizeIsSame(a: multiset<Candidate>, b: multiset<Candidate>)
    requires a <= b && |a| == |b|
    ensures a == b
  {
    assert b == a + (b - a);
  }

  /** What is kept of the candidates selected is among them. */
  lemma KeptAreAmongAll(cs: seq<Candidate>, kept: seq<Candidate>, keep: Candidate -> bool)
    requires multiset(kept) <= multiset(cs)
    ensures multiset(Retain(kept, keep)) <= multiset(Retain(cs, keep))
  {
    hide Retain;
    RetainMultiset(cs, keep);
    RetainMultiset(kept, keep);
    forall c ensures multiset(Retain(kept, keep))[c] <= multiset(Retain(cs, keep))[c] {
    }
  }

  lemma DroppedEndingIsDominated(cs: seq<Candidate>, cap: nat, uuid: string, c: Candidate, k: Candidate)
    requires cap > 0 && k in Retain(Capped(cs, cap), EndingOn(uuid))
    requires multiset(Retain(Capped(cs, cap), EndingOn(uuid)))[c] < multiset(Retain(cs, EndingOn(uuid)))[c]
    ensures TotalLe(c.gain, k.gain)
  {
    hide Retain, Capped, CountFor;
    RetainMultiset(cs, EndingOn(uuid));
    RetainMultiset(Capped(cs, cap), EndingOn(uuid));
    RetainMember(Capped(cs, cap), EndingOn(uuid), k);
    CapIsTopK(cs, cap);
    assert c in multiset(cs);
    assert Dropped(cs, Capped(cs, cap), c);
    assert Dominated(Capped(cs, cap), c, cap);
  }

  lemma KeptOfEnding(cs: seq<Candidate>, cap: nat, uuid: string)
    requires cap > 0
    ensures |Retain(Capped(cs, cap), EndingOn(uuid))| == Min(cap, |Retain(cs, EndingOn(uuid))|)
    ensures multiset(Retain(Capped(cs, cap), EndingOn(uuid))) <= multiset(Retain(cs, EndingOn(uuid)))
  {
    hide Retain, Capped;
    CapIsTopK(cs, cap);
    KeptAreAmongAll(cs, Capped(cs, cap), EndingOn(uuid));
    EndingIsTargeting(cs, uuid);
    EndingIsTargeting(Capped(cs, cap), uuid);
    assert CountFor(Capped(cs, cap), Some(uuid)) == Min(cap, CountFor(cs, Some(uuid)));
  }

  /**
   Of the candidates whose last operation acts on the neuron exactly `min(cap, count)` are kept:
   all of them when the cap is zero or not exceeded, and otherwise `cap`, each with at least the
   gain of any that was dropped.
   */
  lemma CapByLastOperation(cs: seq<Candidate>, cap: nat, uuid: string)
    ensures cap == 0 ==> Capped(cs, cap) == cs
    ensures var (all, kept) := (Retain(cs, EndingOn(uuid)), Retain(Capped(cs, cap), EndingOn(uuid)));
      && multiset(kept) <= multiset(all)
      && (cap > 0 ==> |kept| == if |all| <= cap then |all| else cap)
      && (cap == 0 || |all| <= cap ==> multiset(kept) == multiset(all))
      && (forall c: Candidate, k | multiset(kept)[c] < multiset(all)[c] && k in kept :: TotalLe(c.gain, k.gain))
  {
    hide Retain, Capped, EndingOn;
    var (all, kept) := (Retain(cs, EndingOn(uuid)), Retain(Capped(cs, cap), EndingOn(uuid)));
    if cap == 0 {
      NoCap(cs);
    } else {
      KeptOfEnding(cs, cap, uuid);
      if |all| <= cap {
        SameSizeIsSame(multiset(kept), multiset(all));
      }
      forall c: Candidate, k | multiset(kept)[c] < multiset(all)[c] && k in kept ensures TotalLe(c.gain, k.gain) {
        DroppedEndingIsDominated(cs, cap, uuid, c, k);
      }
    }
  }

  lemma NoCap(cs: seq<Candidate>)
    ensures Capped(cs, 0) == cs
  {
  }

  function Excess(count: nat, cap: nat): nat {
    if count <= cap then 0 else count - cap
  }

  /** How far the listed targets exceed the cap, together. */
  function TotalExcess(targets: seq<string>, cs: seq<Candidate>, cap: nat): nat {
    if targets == [] then 0
    else Excess(CountFor(cs, Some(targets[0])), cap) + TotalExcess(targets[1..], cs, cap)
  }

  predicate CoversTargets(targets: seq<string>, cs: seq<Candidate>) {
    (forall i, j | 0 <= i < j < |targets| :: targets[i] != targets[j])
    && forall c | c in cs && FinalTarget(c).Some? :: FinalTarget(c).value in targets
  }

  lemma {:induction false} ExcessAppend(targets: seq<string>, cs: seq<Candidate>, c: Candidate, cap: nat)
    requires forall i, j | 0 <= i < j < |targets| :: targets[i] != targets[j]
    ensures var (more, target) := (TotalExcess(targets, cs + [c], cap) - TotalExcess(targets, cs, cap), FinalTarget(c));
      more == if target.Some? && target.value in targets && CountFor(cs, target) >= cap then 1 else 0
  {
    if targets != [] {
      hide CountFor;
      ExcessAppend(targets[1..], cs, c, cap);
      CountForAppend(cs, c, Some(targets[0]));
    }
  }

  lemma {:induction false} FirstPerTargetDrops(targets: seq<string>, cs: seq<Candidate>, cap: nat)
    requires CoversTargets(targets, cs)
    ensures |cs| - |FirstPerTarget(cs, cap)| == TotalExcess(targets, cs, cap)
  {
    hide CountFor;
    if cs == [] {
      NoExcess(targets, cap);
    } else {
      var (before, c) := (cs[..|cs| - 1], cs[|cs| - 1]);
      assert cs == before + [c];
      FirstPerTargetDrops(targets, before, cap);
      ExcessAppend(targets, before, c, cap);
    }
  }

  lemma {:induction false} NoExcess(targets: seq<string>, cap: nat)
    ensures TotalExcess(targets, [], cap) == 0
  {
    if targets != [] {
      NoExcess(targets[1..], cap);
    }
  }

  lemma {:induction false} ExcessPermuted(targets: seq<string>, a: seq<Candidate>, b: seq<Candidate>, cap: nat)
    requires multiset(a) == multiset(b)
    ensures TotalExcess(targets, a, cap) == TotalExcess(targets, b, cap)
  {
    if targets != [] {
      hide CountFor;
      CountForPermuted(a, b, Some(targets[0]));
      ExcessPermuted(targets[1..], a, b, cap);
    }
  }

  /** The number dropped is the sum over the targets of `max(0, count - cap)`. */
  lemma CapDropsTheExcess(targets: seq<string>, cs: seq<Candidate>, cap: nat)
    requires cap > 0 && CoversTargets(targets, cs)
    ensures |cs| - |Capped(cs, cap)| == TotalExcess(targets, cs, cap)
  {
    hide FirstPerTarget, SortDesc, CountFor;
    var sorted := SortDesc(cs, GainOf);
    SortPermutes(cs, GainOf);
    forall c | c in sorted ensures c in cs {
      assert c in multiset(sorted);
    }
    FirstPerTargetDrops(targets, sorted, cap);
    ExcessPermuted(targets, sorted, cs, cap);
  }

  lemma CappedShrinks(cs: seq<Candidate>, cap: nat)
    ensures |Capped(cs, cap)| <= |cs|
    ensures multiset(Capped(cs, cap)) <= multiset(cs)
  {
    hide FirstPerTarget, SortDesc;
    SortPermutes(cs, GainOf);
    if cap > 0 {
      FirstPerTargetMultiset(SortDesc(cs, GainOf), cap);
    }
    assert |multiset(Capped(cs, cap))| == |Capped(cs, cap)| && |multiset(cs)| == |cs|;
    SubMultisetSmaller(multiset(Capped(cs, cap)), multiset(cs));
  }

  lemma SubMultisetSmaller<T>(a: multiset<T>, b: multiset<T>)
    requires a <= b
    ensures |a| <= |b|
  {
    assert b == a + (b - a);
  }

  lemma NothingToCap(cap: nat)
    ensures Capped([], cap) == [] == FirstPerTarget([], cap)
    ensures Tallies(map[], [], cap)
  {
  }

  /** The running counts: how many candidates of each target have been kept so far. */
  predicate Tallies(perTarget: map<string, nat>, before: seq<Candidate>, cap: nat) {
    (forall t | t in perTarget :: perTarget[t] == Min(cap, CountFor(before, Some(t))))
    && forall c | c in before && FinalTarget(c).Some? :: FinalTarget(c).value in perTarget
  }

  function Tally(perTarget: map<string, nat>, target: string): nat {
    if target in perTarget then perTarget[target] else 0
  }

  lemma TallyOf(perTarget: map<string, nat>, before: seq<Candidate>, cap: nat, target: string)
    requires Tallies(perTarget, before, cap)
    ensures Tally(perTarget, target) == Min(cap, CountFor(before, Some(target)))
  {
    if target !in perTarget {
      var matching := Retain(before, Targeting(Some(target)));
      if matching != [] {
        RetainMember(before, Targeting(Some(target)), matching[0]);
      }
    }
  }

  lemma TallyStep(perTarget: map<string, nat>, before: seq<Candidate>, cap: nat, c: Candidate)
    requires Tallies(perTarget, before, cap)
    ensures c.operations == [] ==> Tallies(perTarget, before + [c], cap)
    ensures FinalTarget(c).Some? ==>
      Tallies(perTarget[FinalTarget(c).value := Min(cap, CountFor(before + [c], FinalTarget(c)))], before + [c], cap)
  {
    hide CountFor;
    forall t | t in perTarget && FinalTarget(c) != Some(t)
      ensures CountFor(before + [c], Some(t)) == CountFor(before, Some(t))
    {
      CountForAppend(before, c, Some(t));
    }
  }

  /** Sorts best first, then retains while counting the kept candidates of each target. */
  method ApplyPerTargetCap(cs: seq<Candidate>, cap: nat) returns (kept: seq<Candidate>, dropped: nat)
    ensures kept == Capped(cs, cap)
    ensures dropped == |cs| - |kept|
  {
    hide CountFor, FirstPerTarget, SortDesc, Tallies;
    CappedShrinks(cs, cap);
    if cs == [] || cap == 0 {
      NothingToCap(cap);
      return cs, 0;
    }
    var sorted := SortDesc(cs, GainOf);
    SortPermutes(cs, GainOf);
    var perTarget: map<string, nat> := map[];
    kept := [];
    NothingToCap(cap);
    for i := 0 to |sorted|
      invariant kept == FirstPerTarget(sorted[..i], cap)
      invariant Tallies(perTarget, sorted[..i], cap)
    {
      var c := sorted[i];
      assert sorted[..i + 1] == sorted[..i] + [c];
      FirstPerTargetStep(sorted[..i], c, cap);
      TallyStep(perTarget, sorted[..i], cap, c);
      if c.operations == [] {
        kept := kept + [c];
      } else {
        var target := OpTarget(c.operations[|c.operations| - 1]);
        TallyOf(perTarget, sorted[..i], cap, target);
        CountForAppend(sorted[..i], c, Some(target));
        var count := Tally(perTarget, target);
        if count < cap {
          perTarget := perTarget[target := count + 1];
          kept := kept + [c];
        } else {
          perTarget := perTarget[target := count];
        }
      }
    }
    assert sorted[..|sorted|] == sorted;
    dropped := |cs| - |kept|;
  }
}
