/** What becomes of each candidate of a module, said of the candidates themselves. */
module CandidateFates {
  import opened Options
  import opened Floats
  import opened Sequences
  import opened Candidates
  import opened CandidateAggregation
  import opened PerTargetCap
  import opened DiscoveryDispatch
  import opened DispatchConservation
  import DispatchGuarantees

  /** Weights and biases are the parameters an operation can carry. */
  predicate ParametersFinite(c: Candidate) {
    forall i | 0 <= i < |c.operations| ::
      var op := c.operations[i];
      && (op.AddSynapse? || op.SetWeight? ==> op.weight.Finite?)
      && (op.AddNeuron? || op.SetBias? ==> op.bias.Finite?)
  }

  predicate Sound(c: Candidate) {
    ParametersFinite(c) && c.gain.Finite?
  }

  predicate SoundAndPositive(c: Candidate) {
    Sound(c) && c.gain.value > 0.0
  }

  /** The discount leaves more than 0.00001 only of gains above these bounds. */
  predicate TooSmallTogether(c: Candidate)
    requires c.gain.Finite?
  {
    || (|c.operations| == 2 && c.gain.value <= 0.00002)
    || (|c.operations| == 3 && c.gain.value <= 0.00005)
    || (|c.operations| >= 4 && c.gain.value <= 0.0001)
  }

  predicate Addable(c: Candidate) {
    SoundAndPositive(c) && !TooSmallTogether(c)
  }

  /** A half, a fifth or a tenth of the gain, for two, three or more operations. */
  function AsAdded(c: Candidate): Candidate {
    if !c.gain.Finite? || |c.operations| <= 1 then c
    else if |c.operations| == 2 then c.(gain := Finite(c.gain.value / 2.0))
    else if |c.operations| == 3 then c.(gain := Finite(c.gain.value / 5.0))
    else c.(gain := Finite(c.gain.value / 10.0))
  }

  lemma FiniteOpsMeans(c: Candidate)
    ensures FiniteOps(c) <==> ParametersFinite(c)
  {
    if ParametersFinite(c) {
      forall i | 0 <= i < |c.operations| ensures FiniteOp(c.operations[i]) {
      }
    }
    if FiniteOps(c) {
      forall i | 0 <= i < |c.operations|
        ensures var op := c.operations[i];
          && (op.AddSynapse? || op.SetWeight? ==> op.weight.Finite?)
          && (op.AddNeuron? || op.SetBias? ==> op.bias.Finite?)
      {
        assert FiniteOp(c.operations[i]);
      }
    }
  }

  lemma SoundOnesAreKept(cs: seq<Candidate>)
    ensures Retain(cs, FiniteOps) == Retain(cs, ParametersFinite) && FiniteOnly(cs) == Retain(cs, Sound)
  {
    hide Retain, ParametersFinite, FiniteOps;
    forall c ensures FiniteOps(c) <==> ParametersFinite(c) {
      FiniteOpsMeans(c);
    }
    RetainSame(cs, FiniteOps, ParametersFinite);
    RetainTwice(cs, FiniteOps, FiniteGain, Sound);
  }

  lemma EligibleMeans(cs: seq<Candidate>)
    ensures Eligible(cs) == Retain(cs, SoundAndPositive)
  {
    hide Retain, ParametersFinite, FiniteOps;
    SoundOnesAreKept(cs);
    RetainTwice(cs, Sound, PositiveGain, SoundAndPositive);
  }

  lemma DiscountMeans(c: Candidate)
    requires SoundAndPositive(c)
    ensures ClearsMergeFloor(Discounted(c)) <==> !TooSmallTogether(c)
    ensures Discounted(c) == AsAdded(c)
  {
    hide ParametersFinite;
  }

  /**
   A merge adds, in their order, exactly the candidates with finite parameters and a finite
   positive gain that stays above the floor, with that gain discounted.
   */
  lemma AdditionsMean(cs: seq<Candidate>)
    ensures Additions(cs) == Map(Retain(cs, Addable), AsAdded)
  {
    hide Retain, Map, ParametersFinite;
    EligibleMeans(cs);
    var eligible := Retain(cs, SoundAndPositive);
    forall c | c in eligible
      ensures Addable(c) == ClearsMergeFloor(Discounted(c)) && Discounted(c) == AsAdded(c)
    {
      RetainMember(cs, SoundAndPositive, c);
      DiscountMeans(c);
    }
    RetainMap(eligible, Discounted, ClearsMergeFloor, Addable);
    RetainTwice(cs, SoundAndPositive, Addable, Addable);
    AddableOnes(cs);
  }

  lemma AddableOnes(cs: seq<Candidate>)
    ensures Map(Retain(cs, Addable), Discounted) == Map(Retain(cs, Addable), AsAdded)
  {
    hide Retain, Map, ParametersFinite;
    forall c | c in Retain(cs, Addable) ensures Discounted(c) == AsAdded(c) {
      RetainMember(cs, Addable, c);
      DiscountMeans(c);
    }
    MapSame(Retain(cs, Addable), Discounted, AsAdded);
  }

  // Screening.

  /** Fewer than `budget` sound candidates come before this place; zero is no budget. */
  predicate InBudget(before: seq<Candidate>, budget: nat) {
    budget == 0 || |Places(before, Sound)| < budget
  }

  /** The candidates that reach the cap: sound, within the budget and with gain 0.00001 or more. */
  function Reaching(cs: seq<Candidate>, budget: nat): seq<Candidate> {
    if cs == [] then []
    else
      var (before, c) := (cs[..|cs| - 1], cs[|cs| - 1]);
      Reaching(before, budget)
      + if Sound(c) && InBudget(before, budget) && c.gain.value >= 0.00001 then [c] else []
  }

  lemma WithinBudgetStep(before: seq<Candidate>, c: Candidate, budget: nat)
    ensures WithinBudget(FiniteOnly(before + [c]), budget)
         == WithinBudget(FiniteOnly(before), budget) + if Sound(c) && InBudget(before, budget) then [c] else []
  {
    hide Retain, Sound, Places;
    SoundOnesAreKept(before);
    SoundOnesAreKept(before + [c]);
    RetainAppend(before, [c], Sound);
    RetainOne(c, Sound);
    RetainPlaces(before, Sound);
  }

  lemma {:induction false} ReachingIsScreened(cs: seq<Candidate>, budget: nat)
    ensures Retain(WithinBudget(FiniteOnly(cs), budget), ClearsFloor) == Reaching(cs, budget)
  {
    hide Retain, WithinBudget, FiniteOnly, ParametersFinite;
    if cs == [] {
      NothingReaches(budget);
    } else {
      var (before, c) := (cs[..|cs| - 1], cs[|cs| - 1]);
      assert cs == before + [c];
      ReachingIsScreened(before, budget);
      WithinBudgetStep(before, c, budget);
      var more := if Sound(c) && InBudget(before, budget) then [c] else [];
      RetainAppend(WithinBudget(FiniteOnly(before), budget), more, ClearsFloor);
      RetainOne(c, ClearsFloor);
      RetainNone([], ClearsFloor);
    }
  }

  lemma NothingReaches(budget: nat)
    ensures Retain(WithinBudget(FiniteOnly([]), budget), ClearsFloor) == []
  {
  }

  /** Screening hands to the cap exactly the candidates that reach it. */
  lemma ScreenedMeans(cs: seq<Candidate>, budget: nat, cap: nat)
    ensures Screened(cs, budget, cap) == Capped(Reaching(cs, budget), cap)
  {
    hide Retain, WithinBudget, FiniteOnly, Reaching, Capped;
    ReachingIsScreened(cs, budget);
  }

  // Counting the rejections.

  /** The places of the sound candidates within the budget whose gain is below the floor. */
  function BelowFloor(cs: seq<Candidate>, budget: nat): set<nat> {
    set i: nat | i < |cs| && Sound(cs[i]) && InBudget(cs[..i], budget) && cs[i].gain.value < 0.00001
  }

  predicate BadParameters(c: Candidate) {
    !ParametersFinite(c)
  }

  predicate BadGain(c: Candidate) {
    ParametersFinite(c) && !c.gain.Finite?
  }

  predicate NotPositive(c: Candidate) {
    Sound(c) && c.gain.value <= 0.0
  }

  predicate TooSmall(c: Candidate) {
    SoundAndPositive(c) && TooSmallTogether(c)
  }

  /** How many candidates of a module end up under a reason, in a turn of the merge loop. */
  function Rejections(skipping: bool, entry: Entry, cap: nat, reason: Reason): nat {
    var cs := Proposed(entry);
    var reaching := Reaching(cs, entry.maxCandidates);
    match reason
    case ModuleSuppressed(why) => if entry.skipReason == Some(why) then 1 else 0
    case SkippedQualitySatisfied => if skipping then |cs| else 0
    case NonFiniteOperation => if skipping then 0 else |Places(cs, BadParameters)|
    case NonFiniteGain => if skipping then 0 else |Places(cs, BadGain)|
    case BudgetTruncated =>
      if skipping || entry.maxCandidates == 0 then 0 else Excess(|Places(cs, Sound)|, entry.maxCandidates)
    case BelowExpectedGainFloor => if skipping then 0 else |BelowFloor(cs, entry.maxCandidates)|
    case TargetCapExceeded => if skipping then 0 else Excess(|reaching|, |Capped(reaching, cap)|)
    case NonPositiveGain => 0
    case BelowMultiOpFloor => if skipping then 0 else |Places(Capped(reaching, cap), TooSmall)|
  }

  lemma NonFiniteCounts(cs: seq<Candidate>)
    ensures |cs| - |Retain(cs, FiniteOps)| == |Places(cs, BadParameters)|
    ensures |Retain(cs, FiniteOps)| - |FiniteOnly(cs)| == |Places(cs, BadGain)|
  {
    hide Retain, Places, ParametersFinite, FiniteOps;
    SoundOnesAreKept(cs);
    var anything := (c: Candidate) => true;
    RetainAll(cs, anything);
    RetainDrops(cs, anything, ParametersFinite, BadParameters);
    RetainDrops(cs, ParametersFinite, FiniteGain, BadGain);
  }

  lemma MergeCounts(cs: seq<Candidate>)
    ensures var finite := Retain(Retain(cs, FiniteOps), FiniteGain);
      && |finite| - |Eligible(cs)| == |Places(cs, NotPositive)|
      && |Eligible(cs)| - |Additions(cs)| == |Places(cs, TooSmall)|
  {
    hide Retain, Places, ParametersFinite, FiniteOps, Map;
    SoundOnesAreKept(cs);
    EligibleMeans(cs);
    AdditionsMean(cs);
    MapLength(Retain(cs, Addable), AsAdded);
    RetainDrops(cs, Sound, PositiveGain, NotPositive);
    RetainDrops(cs, SoundAndPositive, Addable, TooSmall);
    RetainTwice(cs, SoundAndPositive, Addable, Addable);
  }

  lemma BelowFloorAppend(before: seq<Candidate>, c: Candidate, budget: nat)
    ensures |BelowFloor(before + [c], budget)| == |BelowFloor(before, budget)| +
      if Sound(c) && InBudget(before, budget) && c.gain.value < 0.00001 then 1 else 0
  {
    hide Places, ParametersFinite;
    var cs := before + [c];
    assert forall i | 0 <= i <= |before| :: cs[..i] == before[..i];
    assert before[..|before|] == before;
    var more := if Sound(c) && InBudget(before, budget) && c.gain.value < 0.00001 then {|before|} else {};
    assert BelowFloor(cs, budget) == BelowFloor(before, budget) + more;
  }

  lemma {:induction false} FloorCounts(cs: seq<Candidate>, budget: nat)
    ensures |WithinBudget(FiniteOnly(cs), budget)| - |Reaching(cs, budget)| == |BelowFloor(cs, budget)|
  {
    hide WithinBudget, FiniteOnly, ParametersFinite, BelowFloor, InBudget;
    if cs == [] {
      NothingBelow(budget);
    } else {
      var (before, c) := (cs[..|cs| - 1], cs[|cs| - 1]);
      assert cs == before + [c];
      FloorCounts(before, budget);
      WithinBudgetStep(before, c, budget);
      BelowFloorAppend(before, c, budget);
    }
  }

  lemma NothingBelow(budget: nat)
    ensures WithinBudget(FiniteOnly([]), budget) == [] && BelowFloor([], budget) == {}
  {
  }

  lemma {:induction false} DroppedForAppend(first: seq<Drop>, second: seq<Drop>, reason: Reason)
    ensures DroppedFor(first + second, reason) == DroppedFor(first, reason) + DroppedFor(second, reason)
  {
    if second == [] {
      assert first + second == first;
    } else {
      DroppedForAppend(first, second[..|second| - 1], reason);
      assert (first + second)[..|first + second| - 1] == first + second[..|second| - 1];
    }
  }

  lemma DroppedForOne(d: Drop, reason: Reason)
    ensures DroppedFor([d], reason) == if d.reason == reason then d.count else 0
  {
    assert [d][..0] == [];
    assert DroppedFor([d][..0], reason) == 0;
  }

  lemma DroppedForFour(drops: seq<Drop>, reason: Reason)
    requires |drops| == 4
    ensures DroppedFor(drops, reason)
         == DroppedFor([drops[0]], reason) + DroppedFor([drops[1]], reason)
          + DroppedFor([drops[2]], reason) + DroppedFor([drops[3]], reason)
  {
    hide DroppedFor;
    DroppedForAppend([drops[0]], [drops[1]], reason);
    DroppedForAppend([drops[0], drops[1]], [drops[2]], reason);
    DroppedForAppend([drops[0], drops[1], drops[2]], [drops[3]], reason);
    assert [drops[0]] + [drops[1]] == [drops[0], drops[1]];
    assert [drops[0], drops[1]] + [drops[2]] == [drops[0], drops[1], drops[2]];
    assert [drops[0], drops[1], drops[2]] + [drops[3]] == drops;
  }

  /** What screening lets through is sound and positive, so merging it drops nothing else. */
  lemma ScreenedAreSound(cs: seq<Candidate>, budget: nat, cap: nat)
    ensures var kept := Screened(cs, budget, cap);
      Places(kept, BadParameters) == Places(kept, BadGain) == Places(kept, NotPositive) == {}
  {
    hide Screened, ParametersFinite, FiniteOps;
    var kept := Screened(cs, budget, cap);
    forall c | c in kept ensures !BadParameters(c) && !BadGain(c) && !NotPositive(c) {
      DispatchGuarantees.ScreenedMember(cs, budget, cap, c);
      FiniteOpsMeans(c);
    }
  }

  lemma MergeRejections(cs: seq<Candidate>, reason: Reason)
    ensures DroppedFor(MergeDrops(cs), reason) == match reason
      case NonFiniteOperation => |Places(cs, BadParameters)|
      case NonFiniteGain => |Places(cs, BadGain)|
      case NonPositiveGain => |Places(cs, NotPositive)|
      case BelowMultiOpFloor => |Places(cs, TooSmall)|
      case _ => 0
  {
    hide Retain, Map, Places, DroppedFor, FiniteOps;
    var drops := MergeDrops(cs);
    NonFiniteCounts(cs);
    MergeCounts(cs);
    MapLength(Eligible(cs), Discounted);
    DroppedForFour(drops, reason);
    forall i | 0 <= i < 4
      ensures DroppedFor([drops[i]], reason) == if drops[i].reason == reason then drops[i].count else 0
    {
      DroppedForOne(drops[i], reason);
    }
  }

  lemma ScreeningRejections(cs: seq<Candidate>, budget: nat, cap: nat, reason: Reason)
    ensures var reaching := Reaching(cs, budget);
      DroppedFor(ScreeningDrops(cs, budget, cap), reason) == match reason
      case NonFiniteOperation => |Places(cs, BadParameters)|
      case NonFiniteGain => |Places(cs, BadGain)|
      case BudgetTruncated => if budget == 0 then 0 else Excess(|Places(cs, Sound)|, budget)
      case BelowExpectedGainFloor => |BelowFloor(cs, budget)|
      case TargetCapExceeded => Excess(|reaching|, |Capped(reaching, cap)|)
      case _ => 0
  {
    hide Retain, Places, DroppedFor, FiniteOps, Capped, Reaching, BelowFloor;
    var drops := ScreeningDrops(cs, budget, cap);
    NonFiniteCounts(cs);
    SoundOnesAreKept(cs);
    RetainPlaces(cs, Sound);
    FloorCounts(cs, budget);
    ReachingIsScreened(cs, budget);
    CappedShrinks(Reaching(cs, budget), cap);
    assert drops == drops[..4] + [drops[4]];
    DroppedForAppend(drops[..4], [drops[4]], reason);
    DroppedForFour(drops[..4], reason);
    forall i | 0 <= i < 5
      ensures DroppedFor([drops[i]], reason) == if drops[i].reason == reason then drops[i].count else 0
    {
      DroppedForOne(drops[i], reason);
    }
  }

  /** A turn of the merge loop drops under each reason exactly the candidates it applies to. */
  lemma RejectionsOfEntry(skipping: bool, entry: Entry, cap: nat, reason: Reason)
    ensures DroppedFor(EntryDrops(skipping, entry, cap), reason) == Rejections(skipping, entry, cap, reason)
  {
    hide Screened, ScreeningDrops, MergeDrops, DroppedFor, Places, Reaching, Capped, BelowFloor;
    var cs := Proposed(entry);
    SuppressionRejections(entry, reason);
    if skipping {
      DroppedForAppend(SuppressionDrops(entry), [Drop(SkippedQualitySatisfied, |cs|)], reason);
      DroppedForOne(Drop(SkippedQualitySatisfied, |cs|), reason);
    } else {
      var kept := Screened(cs, entry.maxCandidates, cap);
      var (screening, merge) := (ScreeningDrops(cs, entry.maxCandidates, cap), MergeDrops(kept));
      DroppedForAppend(SuppressionDrops(entry), screening + merge, reason);
      DroppedForAppend(screening, merge, reason);
      ScreeningRejections(cs, entry.maxCandidates, cap, reason);
      MergeRejections(kept, reason);
      ScreenedAreSound(cs, entry.maxCandidates, cap);
      ScreenedMeans(cs, entry.maxCandidates, cap);
    }
  }

  lemma SuppressionRejections(entry: Entry, reason: Reason)
    ensures DroppedFor(SuppressionDrops(entry), reason)
         == if entry.skipReason.Some? && reason == ModuleSuppressed(entry.skipReason.value) then 1 else 0
  {
    if entry.skipReason.Some? {
      DroppedForOne(Drop(ModuleSuppressed(entry.skipReason.value), 1), reason);
    }
  }

  /** The rejections of a whole run under one reason; a module is skipped once quality was reached. */
  function RunRejections(run: Run, entries: seq<Entry>, cfg: Config, reason: Reason): nat {
    if entries == [] then 0
    else
      var (before, entry) := (entries[..|entries| - 1], entries[|entries| - 1]);
      RunRejections(run, before, cfg, reason)
      + Rejections(AllMerged(run, before, cfg).skipping, entry, cfg.cap, reason)
  }

  lemma {:induction false} RejectionsAreTheDrops(run: Run, entries: seq<Entry>, cfg: Config, reason: Reason)
    ensures DroppedFor(RunDrops(run, entries, cfg), reason) == RunRejections(run, entries, cfg, reason)
  {
    hide EntryDrops, Rejections, AllMerged, DroppedFor;
    if entries == [] {
      NothingDroppedFor(reason);
    } else {
      var (before, entry) := (entries[..|entries| - 1], entries[|entries| - 1]);
      var skipping := AllMerged(run, before, cfg).skipping;
      RejectionsAreTheDrops(run, before, cfg, reason);
      RejectionsOfEntry(skipping, entry, cfg.cap, reason);
      DroppedForAppend(RunDrops(run, before, cfg), EntryDrops(skipping, entry, cfg.cap), reason);
    }
  }

  lemma NothingDroppedFor(reason: Reason)
    ensures DroppedFor([], reason) == 0
  {
  }

  /**
   Over the whole loop every counter rises by exactly the candidates rejected for its reason if
   they fit in 32 bits with what it showed before, and by less if they do not.
   */
  lemma CountersShowTheRejections(run: Run, entries: seq<Entry>, cfg: Config, reason: Reason)
    ensures var rejected := RunRejections(run, entries, cfg, reason);
      var (start, end) := (Count(run.syn.breakdown, reason), Count(AllMerged(run, entries, cfg).syn.breakdown, reason));
      end <= start + rejected && (end == start + rejected <==> start + rejected <= U32_MAX)
  {
    hide AllMerged, RunDrops, RunRejections, DroppedFor, Recorded, Count;
    RunIsRecorded(run, entries, cfg);
    RejectionsAreTheDrops(run, entries, cfg, reason);
    CounterIsExactWhenItFits(run.syn.breakdown, RunDrops(run, entries, cfg), reason);
  }

  /** The merge skips further modules once 15 candidates on the list have a gain of 0.01 or more. */
  lemma QualityMeans(syn: Syn)
    ensures QualityReached(syn) <==>
      15 <= |set i: nat | i < |syn.lists.coordinated| && var gain := syn.lists.coordinated[i].gain;
               gain == PosInf || (gain.Finite? && gain.value >= 0.01)|
  {
    hide Retain;
    var cs := syn.lists.coordinated;
    RetainPlaces(cs, HighQuality);
    assert Places(cs, HighQuality) == set i: nat | i < |cs| && var gain := cs[i].gain;
      gain == PosInf || (gain.Finite? && gain.value >= 0.01);
  }

  // The lists and the log after one module.

  /** The old list and the new candidates, best first among them, equal gains in list order. */
  ghost predicate StableMerge(ordered: seq<Candidate>, all: seq<Candidate>) {
    && multiset(ordered) == multiset(all) && SortedDesc(ordered, GainOf)
    && forall gain :: Retain(ordered, WithKey(GainOf, gain)) == Retain(all, WithKey(GainOf, gain))
  }

  /**
   Without an addition a merge changes no list, however long they are. With one, the candidates
   are appended, sorted unless runs are diversified, and all three lists go through the
   truncation when a limit is set; `returned` is what is left on them.
   */
  lemma MergedLists(syn: Syn, cs: seq<Candidate>, cfg: Config) returns (ordered: seq<Candidate>)
    ensures var (before, after) := (syn.lists, Merged(syn, cs, cfg).lists);
      var added := Map(Retain(cs, Addable), AsAdded);
      if added == [] then after == before
      else
        && (if cfg.diversify then ordered == before.coordinated + added
            else StableMerge(ordered, before.coordinated + added))
        && (after.helpful, after.harmful, after.coordinated) ==
             (if cfg.limit.Some?
              then cfg.truncate(before.helpful, before.harmful, ordered, cfg.limit.value, cfg.diversify)
              else (before.helpful, before.harmful, ordered))
        && after.returned == |after.helpful| + |after.harmful| + |after.coordinated|
  {
    hide Retain, Map, SortDesc, Additions, MergeBreakdown;
    AdditionsMean(cs);
    var all := syn.lists.coordinated + Additions(cs);
    ordered := if cfg.diversify then all else SortDesc(all, GainOf);
    SortPermutes(all, GainOf);
    SortOrders(all, GainOf);
    forall gain ensures Retain(SortDesc(all, GainOf), WithKey(GainOf, gain)) == Retain(all, WithKey(GainOf, gain)) {
      SortIsStable(all, GainOf, gain);
    }
  }

  /**
   What a turn of the loop logs: one statistics row with what the module produced, and one soft
   failure with the sound candidates that screening dropped, if it dropped any and the module was
   not skipped. A skipped module changes no list and leaves the loop skipping.
   */
  lemma TurnIsLogged(run: Run, entry: Entry, cfg: Config)
    ensures var after := EntryMerged(run, entry, cfg);
      var lost := |Places(Proposed(entry), Sound)| - |Capped(Reaching(Proposed(entry), entry.maxCandidates), cfg.cap)|;
      && after.stats == run.stats + [ModuleStat(entry.moduleName,
           match entry.result { case Some(cs) => |cs| case None => 0 }, entry.skipReason)]
      && (run.skipping ==>
           after.syn.lists == run.syn.lists && after.softFailures == run.softFailures && after.skipping)
      && (!run.skipping ==>
           && after.softFailures == run.softFailures + (if lost > 0 then [SoftFailure(entry.moduleName, lost)] else [])
           && after.skipping == QualityReached(after.syn))
  {
    hide Screened, FiniteOnly, Merged, ScreenedBreakdown, Record, QualityReached, Retain, Places, Capped, Reaching;
    var cs := Proposed(entry);
    ScreenedMeans(cs, entry.maxCandidates, cfg.cap);
    SoundOnesAreKept(cs);
    RetainPlaces(cs, Sound);
  }
}
