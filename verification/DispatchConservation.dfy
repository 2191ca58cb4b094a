/**
 Conservation across the merge loop: the drops that a run records, and exactly when the 32-bit
 counters account for all of them.
 */
module DispatchConservation {
  import opened Options
  import opened Floats
  import opened Sequences
  import opened Candidates
  import opened CandidateAggregation
  import opened PerTargetCap
  import opened DiscoveryDispatch

  /** One call of `record_many`: a reason and a number. */
  datatype Drop = Drop(reason: Reason, count: nat)

  function Recorded(b: Breakdown, drops: seq<Drop>): Breakdown {
    if drops == [] then b
    else Record(Recorded(b, drops[..|drops| - 1]), drops[|drops| - 1].reason, drops[|drops| - 1].count)
  }

  lemma {:induction false} RecordedAppend(b: Breakdown, first: seq<Drop>, second: seq<Drop>)
    ensures Recorded(b, first + second) == Recorded(Recorded(b, first), second)
  {
    hide Record;
    if second == [] {
      assert first + second == first;
    } else {
      RecordedAppend(b, first, second[..|second| - 1]);
      assert (first + second)[..|first + second| - 1] == first + second[..|second| - 1];
    }
  }

  // The drops of a run.

  function ScreeningDrops(cs: seq<Candidate>, budget: nat, cap: nat): seq<Drop> {
    var finiteOps := Retain(cs, FiniteOps);
    var finite := FiniteOnly(cs);
    var inBudget := WithinBudget(finite, budget);
    var floored := Retain(inBudget, ClearsFloor);
    CappedShrinks(floored, cap);
    [Drop(NonFiniteOperation, |cs| - |finiteOps|), Drop(NonFiniteGain, |finiteOps| - |finite|),
     Drop(BudgetTruncated, |finite| - |inBudget|), Drop(BelowExpectedGainFloor, |inBudget| - |floored|),
     Drop(TargetCapExceeded, |floored| - |Capped(floored, cap)|)]
  }

  function MergeDrops(cs: seq<Candidate>): seq<Drop> {
    var finiteOps := Retain(cs, FiniteOps);
    var finite := Retain(finiteOps, FiniteGain);
    var eligible := Retain(finite, PositiveGain);
    MapLength(eligible, Discounted);
    var added := Retain(Map(eligible, Discounted), ClearsMergeFloor);
    [Drop(NonFiniteOperation, |cs| - |finiteOps|), Drop(NonFiniteGain, |finiteOps| - |finite|),
     Drop(NonPositiveGain, |finite| - |eligible|), Drop(BelowMultiOpFloor, |eligible| - |added|)]
  }

  function SuppressionDrops(entry: Entry): seq<Drop> {
    if entry.skipReason.Some? then [Drop(ModuleSuppressed(entry.skipReason.value), 1)] else []
  }

  function EntryDrops(skipping: bool, entry: Entry, cap: nat): seq<Drop> {
    var screened := Screened(Proposed(entry), entry.maxCandidates, cap);
    SuppressionDrops(entry) +
    if skipping then [Drop(SkippedQualitySatisfied, |Proposed(entry)|)]
    else ScreeningDrops(Proposed(entry), entry.maxCandidates, cap) + MergeDrops(screened)
  }

  function RunDrops(run: Run, entries: seq<Entry>, cfg: Config): seq<Drop> {
    if entries == [] then []
    else
      var before := entries[..|entries| - 1];
      RunDrops(run, before, cfg) + EntryDrops(AllMerged(run, before, cfg).skipping, entries[|entries| - 1], cfg.cap)
  }

  lemma RecordedFour(b: Breakdown, d0: Drop, d1: Drop, d2: Drop, d3: Drop)
    ensures Recorded(b, [d0, d1, d2, d3]) ==
      Record(Record(Record(Record(b,
        d0.reason, d0.count), d1.reason, d1.count), d2.reason, d2.count), d3.reason, d3.count)
  {
    hide Record;
    RecordedOne(b, d0);
    RecordedOne(Recorded(b, [d0]), d1);
    RecordedOne(Recorded(b, [d0, d1]), d2);
    RecordedOne(Recorded(b, [d0, d1, d2]), d3);
    RecordedAppend(b, [d0], [d1]);
    RecordedAppend(b, [d0, d1], [d2]);
    RecordedAppend(b, [d0, d1, d2], [d3]);
    assert [d0] + [d1] == [d0, d1] && [d0, d1] + [d2] == [d0, d1, d2] && [d0, d1, d2] + [d3] == [d0, d1, d2, d3];
  }

  lemma RecordedOne(b: Breakdown, d: Drop)
    ensures Recorded(b, [d]) == Record(b, d.reason, d.count)
  {
    hide Record;
    assert [d][..0] == [];
    assert Recorded(b, [d][..0]) == b;
  }

  lemma MergeIsRecorded(b: Breakdown, cs: seq<Candidate>)
    ensures MergeBreakdown(b, cs) == Recorded(b, MergeDrops(cs))
  {
    hide Record, Recorded, Retain, Map;
    var drops := MergeDrops(cs);
    RecordedFour(b, drops[0], drops[1], drops[2], drops[3]);
  }

  lemma ScreeningIsRecorded(b: Breakdown, cs: seq<Candidate>, budget: nat, cap: nat)
    ensures ScreenedBreakdown(b, cs, budget, cap) == Recorded(b, ScreeningDrops(cs, budget, cap))
  {
    hide Record, Recorded, Retain, Capped;
    var drops := ScreeningDrops(cs, budget, cap);
    RecordedFour(b, drops[0], drops[1], drops[2], drops[3]);
    RecordedOne(Recorded(b, drops[..4]), drops[4]);
    RecordedAppend(b, drops[..4], [drops[4]]);
    assert drops[..4] == [drops[0], drops[1], drops[2], drops[3]] && drops[..4] + [drops[4]] == drops;
  }

  lemma EntryIsRecorded(run: Run, entry: Entry, cfg: Config)
    ensures EntryMerged(run, entry, cfg).syn.breakdown
         == Recorded(run.syn.breakdown, EntryDrops(run.skipping, entry, cfg.cap))
  {
    hide Record, Recorded, MergeBreakdown, ScreenedBreakdown, Screened;
    hide ScreeningDrops, MergeDrops, QualityReached, SoftFailuresOf;
    var (b, cs) := (run.syn.breakdown, Proposed(entry));
    var noted := Recorded(b, SuppressionDrops(entry));
    SuppressionIsRecorded(b, entry);
    if run.skipping {
      RecordedOne(noted, Drop(SkippedQualitySatisfied, |cs|));
      RecordedAppend(b, SuppressionDrops(entry), [Drop(SkippedQualitySatisfied, |cs|)]);
    } else {
      var screening := ScreeningDrops(cs, entry.maxCandidates, cfg.cap);
      var merge := MergeDrops(Screened(cs, entry.maxCandidates, cfg.cap));
      ScreeningIsRecorded(noted, cs, entry.maxCandidates, cfg.cap);
      MergeIsRecorded(Recorded(noted, screening), Screened(cs, entry.maxCandidates, cfg.cap));
      RecordedAppend(noted, screening, merge);
      RecordedAppend(b, SuppressionDrops(entry), screening + merge);
    }
  }

  lemma SuppressionIsRecorded(b: Breakdown, entry: Entry)
    ensures SuppressionRecorded(b, entry) == Recorded(b, SuppressionDrops(entry))
  {
    hide Record;
    if entry.skipReason.Some? {
      RecordedOne(b, Drop(ModuleSuppressed(entry.skipReason.value), 1));
    }
  }

  lemma {:induction false} RunIsRecorded(run: Run, entries: seq<Entry>, cfg: Config)
    ensures AllMerged(run, entries, cfg).syn.breakdown == Recorded(run.syn.breakdown, RunDrops(run, entries, cfg))
  {
    hide EntryMerged, EntryDrops, Record;
    if entries != [] {
      var (before, entry) := (entries[..|entries| - 1], entries[|entries| - 1]);
      var now := AllMerged(run, before, cfg);
      RunIsRecorded(run, before, cfg);
      EntryIsRecorded(now, entry, cfg);
      RecordedAppend(run.syn.breakdown, RunDrops(run, before, cfg), EntryDrops(now.skipping, entry, cfg.cap));
    }
  }

  // Every proposed candidate is added or dropped.

  function Produced(entries: seq<Entry>): nat {
    if entries == [] then 0 else Produced(entries[..|entries| - 1]) + |Proposed(entries[|entries| - 1])|
  }

  /** The dropped candidates; suppressed modules are not candidates. */
  function Dropped(drops: seq<Drop>): nat {
    if drops == [] then 0
    else
      var d := drops[|drops| - 1];
      Dropped(drops[..|drops| - 1]) + if CountsCandidates(d.reason) then d.count else 0
  }

  lemma {:induction false} DroppedAppend(first: seq<Drop>, second: seq<Drop>)
    ensures Dropped(first + second) == Dropped(first) + Dropped(second)
  {
    if second == [] {
      assert first + second == first;
    } else {
      DroppedAppend(first, second[..|second| - 1]);
      assert (first + second)[..|first + second| - 1] == first + second[..|second| - 1];
    }
  }

  lemma DroppedOne(d: Drop)
    ensures Dropped([d]) == if CountsCandidates(d.reason) then d.count else 0
  {
    assert [d][..0] == [];
    assert Dropped([d][..0]) == 0;
  }

  lemma DroppedFour(d0: Drop, d1: Drop, d2: Drop, d3: Drop)
    requires CountsCandidates(d0.reason) && CountsCandidates(d1.reason)
    requires CountsCandidates(d2.reason) && CountsCandidates(d3.reason)
    ensures Dropped([d0, d1, d2, d3]) == d0.count + d1.count + d2.count + d3.count
  {
    DroppedOne(d0);
    DroppedOne(d1);
    DroppedOne(d2);
    DroppedOne(d3);
    DroppedAppend([d0], [d1]);
    DroppedAppend([d0, d1], [d2]);
    DroppedAppend([d0, d1, d2], [d3]);
    assert [d0] + [d1] == [d0, d1] && [d0, d1] + [d2] == [d0, d1, d2] && [d0, d1, d2] + [d3] == [d0, d1, d2, d3];
  }

  lemma ScreeningDropsTheRest(cs: seq<Candidate>, budget: nat, cap: nat)
    ensures Dropped(ScreeningDrops(cs, budget, cap)) + |Screened(cs, budget, cap)| == |cs|
  {
    hide Dropped, Retain, Capped;
    var drops := ScreeningDrops(cs, budget, cap);
    DroppedFour(drops[0], drops[1], drops[2], drops[3]);
    DroppedOne(drops[4]);
    DroppedAppend(drops[..4], [drops[4]]);
    assert drops[..4] == [drops[0], drops[1], drops[2], drops[3]] && drops[..4] + [drops[4]] == drops;
  }

  lemma MergeDropsTheRest(syn: Syn, cs: seq<Candidate>, cfg: Config)
    requires cfg.limit == None
    ensures |Merged(syn, cs, cfg).lists.coordinated| + Dropped(MergeDrops(cs)) == |syn.lists.coordinated| + |cs|
  {
    hide Dropped, Retain, Map, SortDesc;
    var drops := MergeDrops(cs);
    DroppedFour(drops[0], drops[1], drops[2], drops[3]);
    SortPermutes(syn.lists.coordinated + Additions(cs), GainOf);
  }

  lemma EntryDropsTheRest(run: Run, entry: Entry, cfg: Config)
    requires cfg.limit == None
    ensures |EntryMerged(run, entry, cfg).syn.lists.coordinated| + Dropped(EntryDrops(run.skipping, entry, cfg.cap))
         == |run.syn.lists.coordinated| + |Proposed(entry)|
  {
    hide Dropped, Record, MergeBreakdown, ScreenedBreakdown, Screened;
    hide ScreeningDrops, MergeDrops, AddToLists, QualityReached, SoftFailuresOf;
    var cs := Proposed(entry);
    SuppressionIsNoDrop(entry);
    if run.skipping {
      DroppedOne(Drop(SkippedQualitySatisfied, |cs|));
      DroppedAppend(SuppressionDrops(entry), [Drop(SkippedQualitySatisfied, |cs|)]);
    } else {
      var screening := ScreeningDrops(cs, entry.maxCandidates, cfg.cap);
      var merge := MergeDrops(Screened(cs, entry.maxCandidates, cfg.cap));
      var noted := SuppressionRecorded(run.syn.breakdown, entry);
      var screened := Syn(run.syn.lists, ScreenedBreakdown(noted, cs, entry.maxCandidates, cfg.cap));
      ScreeningDropsTheRest(cs, entry.maxCandidates, cfg.cap);
      MergeDropsTheRest(screened, Screened(cs, entry.maxCandidates, cfg.cap), cfg);
      DroppedAppend(screening, merge);
      DroppedAppend(SuppressionDrops(entry), screening + merge);
    }
  }

  lemma SuppressionIsNoDrop(entry: Entry)
    ensures Dropped(SuppressionDrops(entry)) == 0
  {
    if entry.skipReason.Some? {
      DroppedOne(Drop(ModuleSuppressed(entry.skipReason.value), 1));
    }
  }

  /** Whatever the counters do: without a limit, every produced candidate is on the list or dropped. */
  lemma {:induction false} ProducedIsAddedOrDropped(run: Run, entries: seq<Entry>, cfg: Config)
    requires cfg.limit == None
    ensures |AllMerged(run, entries, cfg).syn.lists.coordinated| + Dropped(RunDrops(run, entries, cfg))
         == |run.syn.lists.coordinated| + Produced(entries)
  {
    hide EntryMerged, EntryDrops, Dropped;
    if entries == [] {
      assert Dropped([]) == 0 by { NothingDropped(); }
    } else {
      var (before, entry) := (entries[..|entries| - 1], entries[|entries| - 1]);
      var now := AllMerged(run, before, cfg);
      ProducedIsAddedOrDropped(run, before, cfg);
      EntryDropsTheRest(now, entry, cfg);
      DroppedAppend(RunDrops(run, before, cfg), EntryDrops(now.skipping, entry, cfg.cap));
    }
  }

  lemma NothingDropped()
    ensures Dropped([]) == 0
  {
  }

  // The counters.

  function DroppedFor(drops: seq<Drop>, reason: Reason): nat {
    if drops == [] then 0
    else
      var d := drops[|drops| - 1];
      DroppedFor(drops[..|drops| - 1], reason) + if d.reason == reason then d.count else 0
  }

  function DroppedForAll(drops: seq<Drop>, reasons: seq<Reason>): nat {
    if reasons == [] then 0 else DroppedFor(drops, reasons[0]) + DroppedForAll(drops, reasons[1..])
  }

  /** What a counter is told of its drops: a single drop beyond 32 bits counts as the maximum. */
  function ToldFor(drops: seq<Drop>, reason: Reason): nat {
    if drops == [] then 0
    else
      var d := drops[|drops| - 1];
      ToldFor(drops[..|drops| - 1], reason) + if d.reason == reason then ToU32(d.count) else 0
  }

  /** A counter never hears of more than was dropped, and of all of it while that fits. */
  lemma {:induction false} ToldIsDroppedWhileItFits(drops: seq<Drop>, reason: Reason)
    ensures ToldFor(drops, reason) <= DroppedFor(drops, reason)
    ensures DroppedFor(drops, reason) <= U32_MAX ==> ToldFor(drops, reason) == DroppedFor(drops, reason)
  {
    if drops != [] {
      ToldIsDroppedWhileItFits(drops[..|drops| - 1], reason);
    }
  }

  /** Each counter ends at its start plus what it was told, modulo 2^32. */
  lemma {:induction false} CounterWrapsAround(b: Breakdown, drops: seq<Drop>, reason: Reason)
    ensures Count(Recorded(b, drops), reason) == (Count(b, reason) + ToldFor(drops, reason)) % (U32_MAX + 1)
  {
    hide Record, Count, ToU32;
    if drops == [] {
      ModuloMeans(Count(b, reason));
    } else {
      var (before, d) := (drops[..|drops| - 1], drops[|drops| - 1]);
      CounterWrapsAround(b, before, reason);
      RecordWrapsAround(Recorded(b, before), d, reason);
      AddModulo(Count(b, reason) + ToldFor(before, reason), if d.reason == reason then ToU32(d.count) else 0);
    }
  }

  lemma RecordWrapsAround(b: Breakdown, d: Drop, reason: Reason)
    ensures Count(Record(b, d.reason, d.count), reason)
         == (Count(b, reason) + if d.reason == reason then ToU32(d.count) else 0) % (U32_MAX + 1)
  {
  }

  lemma AddModulo(total: nat, n: nat)
    ensures (total % (U32_MAX + 1) + n) % (U32_MAX + 1) == (total + n) % (U32_MAX + 1)
  {
  }

  lemma ModuloMeans(total: nat)
    ensures total % (U32_MAX + 1) <= total && total % (U32_MAX + 1) <= U32_MAX
    ensures total <= U32_MAX ==> total % (U32_MAX + 1) == total
  {
  }

  /** Wrapped or saturated, a counter falls short exactly if start and drops exceed 32 bits. */
  lemma CounterIsExactWhenItFits(b: Breakdown, drops: seq<Drop>, reason: Reason)
    ensures Count(Recorded(b, drops), reason) <= Count(b, reason) + DroppedFor(drops, reason)
    ensures Count(Recorded(b, drops), reason) == Count(b, reason) + DroppedFor(drops, reason)
      <==> Count(b, reason) + DroppedFor(drops, reason) <= U32_MAX
  {
    hide Recorded, DroppedFor, ToldFor, Count;
    CounterWrapsAround(b, drops, reason);
    ToldIsDroppedWhileItFits(drops, reason);
    ModuloMeans(Count(b, reason) + ToldFor(drops, reason));
  }

  predicate Fits(b: Breakdown, drops: seq<Drop>, reasons: seq<Reason>) {
    forall i | 0 <= i < |reasons| :: Count(b, reasons[i]) + DroppedFor(drops, reasons[i]) <= U32_MAX
  }

  /** The counters together show all the drops exactly if none of them runs over. */
  lemma {:induction false} TotalIsExactWhenItFits(b: Breakdown, drops: seq<Drop>, reasons: seq<Reason>)
    ensures Total(Recorded(b, drops), reasons) <= Total(b, reasons) + DroppedForAll(drops, reasons)
    ensures Total(Recorded(b, drops), reasons) == Total(b, reasons) + DroppedForAll(drops, reasons)
      <==> Fits(b, drops, reasons)
  {
    if reasons != [] {
      hide Recorded, DroppedFor, Count;
      TotalIsExactWhenItFits(b, drops, reasons[1..]);
      CounterIsExactWhenItFits(b, drops, reasons[0]);
      FitsStep(b, drops, reasons);
    }
  }

  lemma FitsStep(b: Breakdown, drops: seq<Drop>, reasons: seq<Reason>)
    requires reasons != []
    ensures Fits(b, drops, reasons) <==>
      Count(b, reasons[0]) + DroppedFor(drops, reasons[0]) <= U32_MAX && Fits(b, drops, reasons[1..])
  {
    hide DroppedFor, Count;
    if Fits(b, drops, reasons[1..]) && Count(b, reasons[0]) + DroppedFor(drops, reasons[0]) <= U32_MAX {
      forall i | 0 <= i < |reasons| ensures Count(b, reasons[i]) + DroppedFor(drops, reasons[i]) <= U32_MAX {
        assert i == 0 || reasons[i] == reasons[1..][i - 1];
      }
    }
    if Fits(b, drops, reasons) {
      forall i | 0 <= i < |reasons[1..]|
        ensures Count(b, reasons[1..][i]) + DroppedFor(drops, reasons[1..][i]) <= U32_MAX
      {
        assert reasons[1..][i] == reasons[i + 1];
      }
    }
  }

  lemma {:induction false} ReasonsSplitOne(before: seq<Drop>, d: Drop, reasons: seq<Reason>)
    requires forall i, j | 0 <= i < j < |reasons| :: reasons[i] != reasons[j]
    ensures DroppedForAll(before + [d], reasons)
         == DroppedForAll(before, reasons) + if d.reason in reasons then d.count else 0
  {
    if reasons != [] {
      ReasonsSplitOne(before, d, reasons[1..]);
      assert (before + [d])[..|before + [d]| - 1] == before;
    }
  }

  lemma {:induction false} ReasonsSplitTheDrops(drops: seq<Drop>)
    ensures DroppedForAll(drops, CANDIDATE_REASONS) == Dropped(drops)
  {
    if drops == [] {
      NothingForAll(CANDIDATE_REASONS);
    } else {
      hide DroppedForAll;
      var (before, d) := (drops[..|drops| - 1], drops[|drops| - 1]);
      assert drops == before + [d];
      ReasonsSplitTheDrops(before);
      CandidateReasonsAreAll(d.reason);
      ReasonsSplitOne(before, d, CANDIDATE_REASONS);
    }
  }

  lemma {:induction false} NothingForAll(reasons: seq<Reason>)
    ensures DroppedForAll([], reasons) == 0
  {
    if reasons != [] {
      NothingForAll(reasons[1..]);
    }
  }

  lemma CandidateReasonsAreAll(reason: Reason)
    ensures reason in CANDIDATE_REASONS <==> CountsCandidates(reason)
    ensures forall i, j | 0 <= i < j < |CANDIDATE_REASONS| :: CANDIDATE_REASONS[i] != CANDIDATE_REASONS[j]
  {
    assert CANDIDATE_REASONS[0] == NonFiniteOperation && CANDIDATE_REASONS[1] == NonFiniteGain
      && CANDIDATE_REASONS[2] == NonPositiveGain && CANDIDATE_REASONS[3] == BelowMultiOpFloor
      && CANDIDATE_REASONS[4] == BudgetTruncated && CANDIDATE_REASONS[5] == BelowExpectedGainFloor
      && CANDIDATE_REASONS[6] == TargetCapExceeded && CANDIDATE_REASONS[7] == SkippedQualitySatisfied;
  }

  /** The candidates on the list and those counted as dropped, together. */
  function Accounted(syn: Syn): nat {
    |syn.lists.coordinated| + Ledger(syn.breakdown)
  }

  /**
   Without a combined limit, the growth of the list and of the candidate counts never exceeds
   the number of candidates all modules produced, quality-skipped modules included, and equals
   it exactly when no 32-bit counter runs over; a single drop beyond 32 bits, which is recorded
   as the maximum, runs its counter over too.
   */
  lemma DispatchConservesExactlyWithoutOverflow(run: Run, entries: seq<Entry>, cfg: Config)
    requires cfg.limit == None
    ensures Accounted(AllMerged(run, entries, cfg).syn) <= Accounted(run.syn) + Produced(entries)
    ensures Accounted(AllMerged(run, entries, cfg).syn) == Accounted(run.syn) + Produced(entries)
      <==> Fits(run.syn.breakdown, RunDrops(run, entries, cfg), CANDIDATE_REASONS)
  {
    hide AllMerged, RunDrops, Recorded, Dropped, DroppedForAll, Fits, Total;
    var drops := RunDrops(run, entries, cfg);
    RunIsRecorded(run, entries, cfg);
    ProducedIsAddedOrDropped(run, entries, cfg);
    TotalIsExactWhenItFits(run.syn.breakdown, drops, CANDIDATE_REASONS);
    ReasonsSplitTheDrops(drops);
  }

  lemma {:induction false} PartsWithinTotal(b: Breakdown, drops: seq<Drop>, reasons: seq<Reason>)
    requires Total(b, reasons) + DroppedForAll(drops, reasons) <= U32_MAX
    ensures Fits(b, drops, reasons)
  {
    if reasons != [] {
      hide DroppedFor, Count;
      PartsWithinTotal(b, drops, reasons[1..]);
      FitsStep(b, drops, reasons);
    }
  }

  lemma MergeOnlyAdds(syn: Syn, cs: seq<Candidate>, cfg: Config)
    requires cfg.limit == None
    ensures |Merged(syn, cs, cfg).lists.coordinated| >= |syn.lists.coordinated|
  {
    hide Additions, MergeBreakdown, SortDesc;
    SortPermutes(syn.lists.coordinated + Additions(cs), GainOf);
  }

  lemma {:induction false} ListNeverShrinks(run: Run, entries: seq<Entry>, cfg: Config)
    requires cfg.limit == None
    ensures |AllMerged(run, entries, cfg).syn.lists.coordinated| >= |run.syn.lists.coordinated|
  {
    hide ScreenedBreakdown, Screened, Merged, Record, QualityReached, SoftFailuresOf;
    if entries != [] {
      var (before, entry) := (entries[..|entries| - 1], entries[|entries| - 1]);
      ListNeverShrinks(run, before, cfg);
      var now := AllMerged(run, before, cfg);
      var noted := SuppressionRecorded(now.syn.breakdown, entry);
      var screened := ScreenedBreakdown(noted, Proposed(entry), entry.maxCandidates, cfg.cap);
      MergeOnlyAdds(Syn(now.syn.lists, screened), Screened(Proposed(entry), entry.maxCandidates, cfg.cap), cfg);
    }
  }

  /** In particular nothing runs over while all counts and all candidates together fit. */
  lemma DispatchConserves(run: Run, entries: seq<Entry>, cfg: Config)
    requires cfg.limit == None && Ledger(run.syn.breakdown) + Produced(entries) <= U32_MAX
    ensures Accounted(AllMerged(run, entries, cfg).syn) == Accounted(run.syn) + Produced(entries)
  {
    hide AllMerged, RunDrops, Dropped, DroppedForAll, Fits, Total;
    var drops := RunDrops(run, entries, cfg);
    ProducedIsAddedOrDropped(run, entries, cfg);
    ListNeverShrinks(run, entries, cfg);
    ReasonsSplitTheDrops(drops);
    PartsWithinTotal(run.syn.breakdown, drops, CANDIDATE_REASONS);
    DispatchConservesExactlyWithoutOverflow(run, entries, cfg);
  }

  /** A module whose one candidate has a NaN gain, met by a loop that has just begun. */
  function NaNModule(): Entry {
    Entry("module", 0, Some([Candidate([], NaN(true), "")]), None)
  }

  function FullCounter(): Run {
    Run(Syn(Lists([], [], [], 0), map[NonFiniteGain := U32_MAX]), [], [], false)
  }

  /**
   A counter at its maximum wraps around: starting the loop with it on a module with one NaN
   gain, the candidate is not on the list and the account falls short.
   */
  lemma FullCounterLosesCount(cfg: Config)
    requires cfg.limit == None
    ensures !Fits(FullCounter().syn.breakdown, RunDrops(FullCounter(), [NaNModule()], cfg), CANDIDATE_REASONS)
    ensures Accounted(AllMerged(FullCounter(), [NaNModule()], cfg).syn)
         < Accounted(FullCounter().syn) + Produced([NaNModule()])
  {
    hide AllMerged, RunDrops, Fits, Dropped, Total;
    var drops := RunDrops(FullCounter(), [NaNModule()], cfg);
    OneNaNDropped(cfg);
    NaNDoesNotFit(drops);
    DispatchConservesExactlyWithoutOverflow(FullCounter(), [NaNModule()], cfg);
  }

  lemma OneNaNDropped(cfg: Config)
    requires cfg.limit == None
    ensures DroppedFor(RunDrops(FullCounter(), [NaNModule()], cfg), NonFiniteGain) >= 1
  {
    hide ScreeningDrops, Screened, EntryDrops, DroppedFor;
    var entry := NaNModule();
    assert [entry][..0] == [];
    var drops := EntryDrops(false, entry, cfg.cap);
    assert RunDrops(FullCounter(), [entry], cfg) == [] + drops == drops;
    DropsOfNaN(cfg.cap);
    DroppedAt(drops, 1);
  }

  lemma DropsOfNaN(cap: nat)
    ensures var drops := EntryDrops(false, NaNModule(), cap);
      |drops| == 9 && drops[1] == Drop(NonFiniteGain, 1)
  {
    hide ScreeningDrops, Screened;
    NaNIsScreened(cap);
  }

  lemma NaNIsScreened(cap: nat)
    ensures var cs := [Candidate([], NaN(true), "")];
      && Screened(cs, 0, cap) == []
      && ScreeningDrops(cs, 0, cap) ==
           [Drop(NonFiniteOperation, 0), Drop(NonFiniteGain, 1), Drop(BudgetTruncated, 0),
            Drop(BelowExpectedGainFloor, 0), Drop(TargetCapExceeded, 0)]
  {
    hide Capped;
    var c := Candidate([], NaN(true), "");
    assert [c][1..] == [];
    assert FiniteOnly([c]) == [];
    NothingToCap(cap);
  }

  lemma {:induction false} DroppedAt(drops: seq<Drop>, i: nat)
    requires i < |drops|
    ensures DroppedFor(drops, drops[i].reason) >= drops[i].count
  {
    if i < |drops| - 1 {
      DroppedAt(drops[..|drops| - 1], i);
    }
  }

  lemma NaNDoesNotFit(drops: seq<Drop>)
    requires DroppedFor(drops, NonFiniteGain) >= 1
    ensures !Fits(FullCounter().syn.breakdown, drops, CANDIDATE_REASONS)
  {
    hide DroppedFor;
    assert CANDIDATE_REASONS[1] == NonFiniteGain;
    assert Count(FullCounter().syn.breakdown, CANDIDATE_REASONS[1]) == U32_MAX;
  }
}
