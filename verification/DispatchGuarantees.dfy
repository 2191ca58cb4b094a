/** What the merge loop guarantees over any list of modules. */
module DispatchGuarantees {
  import opened Options
  import opened Floats
  import opened Sequences
  import opened Candidates
  import opened CandidateAggregation
  import opened PerTargetCap
  import opened DiscoveryDispatch
  import DispatchConservation

  // Soft failures account for exactly what screening dropped.

  const SCREENING_REASONS: seq<Reason> := [BudgetTruncated, BelowExpectedGainFloor, TargetCapExceeded]

  function ScreenedOut(b: Breakdown): nat {
    Total(b, SCREENING_REASONS)
  }

  function SoftTotal(failures: seq<SoftFailure>): nat {
    if failures == [] then 0 else SoftTotal(failures[..|failures| - 1]) + failures[|failures| - 1].count
  }

  lemma RecordElsewhere(b: Breakdown, reason: Reason, n: nat)
    requires reason !in SCREENING_REASONS
    ensures ScreenedOut(Record(b, reason, n)) == ScreenedOut(b)
  {
    TotalOfOthers(b, SCREENING_REASONS, reason, n);
  }

  lemma RecordScreened(b: Breakdown, reason: Reason, n: nat)
    requires reason in SCREENING_REASONS && ScreenedOut(b) + n <= U32_MAX
    ensures ScreenedOut(Record(b, reason, n)) == ScreenedOut(b) + n
  {
    TotalRecords(b, SCREENING_REASONS, reason, n);
  }

  lemma ReasonsOfScreening()
    ensures BudgetTruncated in SCREENING_REASONS && BelowExpectedGainFloor in SCREENING_REASONS
    ensures TargetCapExceeded in SCREENING_REASONS
    ensures NonFiniteOperation !in SCREENING_REASONS && NonFiniteGain !in SCREENING_REASONS
    ensures NonPositiveGain !in SCREENING_REASONS && BelowMultiOpFloor !in SCREENING_REASONS
    ensures SkippedQualitySatisfied !in SCREENING_REASONS
    ensures forall why :: ModuleSuppressed(why) !in SCREENING_REASONS
  {
    assert SCREENING_REASONS[0] == BudgetTruncated && SCREENING_REASONS[1] == BelowExpectedGainFloor
      && SCREENING_REASONS[2] == TargetCapExceeded;
  }

  lemma ScreeningCountsSoftFailures(b: Breakdown, cs: seq<Candidate>, budget: nat, cap: nat)
    requires ScreenedOut(b) + |FiniteOnly(cs)| <= U32_MAX
    ensures |Screened(cs, budget, cap)| <= |FiniteOnly(cs)|
    ensures ScreenedOut(ScreenedBreakdown(b, cs, budget, cap))
         == ScreenedOut(b) + |FiniteOnly(cs)| - |Screened(cs, budget, cap)|
  {
    hide Retain, Capped, Record, ScreenedOut;
    ReasonsOfScreening();
    var finiteOps := Retain(cs, FiniteOps);
    var finite := FiniteOnly(cs);
    var inBudget := WithinBudget(finite, budget);
    var floored := Retain(inBudget, ClearsFloor);
    CappedShrinks(floored, cap);
    RecordElsewhere(b, NonFiniteOperation, |cs| - |finiteOps|);
    RecordElsewhere(Record(b, NonFiniteOperation, |cs| - |finiteOps|), NonFiniteGain, |finiteOps| - |finite|);
    var b2 := NonFiniteBreakdown(b, cs);
    RecordScreened(b2, BudgetTruncated, |finite| - |inBudget|);
    var b3 := Record(b2, BudgetTruncated, |finite| - |inBudget|);
    RecordScreened(b3, BelowExpectedGainFloor, |inBudget| - |floored|);
    var b4 := Record(b3, BelowExpectedGainFloor, |inBudget| - |floored|);
    RecordScreened(b4, TargetCapExceeded, |floored| - |Capped(floored, cap)|);
  }

  lemma MergingScreensNothing(b: Breakdown, cs: seq<Candidate>)
    ensures ScreenedOut(MergeBreakdown(b, cs)) == ScreenedOut(b)
  {
    hide Retain, Map, Record, ScreenedOut;
    ReasonsOfScreening();
    var finiteOps := Retain(cs, FiniteOps);
    var finite := Retain(finiteOps, FiniteGain);
    var eligible := Retain(finite, PositiveGain);
    MapLength(eligible, Discounted);
    var added := Retain(Map(eligible, Discounted), ClearsMergeFloor);
    RecordElsewhere(b, NonFiniteOperation, |cs| - |finiteOps|);
    var b1 := Record(b, NonFiniteOperation, |cs| - |finiteOps|);
    RecordElsewhere(b1, NonFiniteGain, |finiteOps| - |finite|);
    var b2 := Record(b1, NonFiniteGain, |finiteOps| - |finite|);
    RecordElsewhere(b2, NonPositiveGain, |finite| - |eligible|);
    RecordElsewhere(Record(b2, NonPositiveGain, |finite| - |eligible|), BelowMultiOpFloor, |eligible| - |added|);
  }

  lemma SoftTotalAppend(failures: seq<SoftFailure>, f: SoftFailure)
    ensures SoftTotal(failures + [f]) == SoftTotal(failures) + f.count
  {
    assert (failures + [f])[..|failures + [f]| - 1] == failures;
  }

  lemma EntrySoftFailures(run: Run, entry: Entry, cfg: Config)
    requires ScreenedOut(run.syn.breakdown) + |Proposed(entry)| <= U32_MAX
    ensures var after := EntryMerged(run, entry, cfg);
      && ScreenedOut(after.syn.breakdown) - ScreenedOut(run.syn.breakdown)
           == SoftTotal(after.softFailures) - SoftTotal(run.softFailures)
      && ScreenedOut(after.syn.breakdown) <= ScreenedOut(run.syn.breakdown) + |Proposed(entry)|
  {
    hide Record, ScreenedBreakdown, Screened, MergeBreakdown, QualityReached, ScreenedOut, SoftTotal, Retain;
    ReasonsOfScreening();
    var cs := Proposed(entry);
    var noted := SuppressionRecorded(run.syn.breakdown, entry);
    if entry.skipReason.Some? {
      RecordElsewhere(run.syn.breakdown, ModuleSuppressed(entry.skipReason.value), 1);
    }
    if run.skipping {
      RecordElsewhere(noted, SkippedQualitySatisfied, |cs|);
    } else {
      ScreeningCountsSoftFailures(noted, cs, entry.maxCandidates, cfg.cap);
      var kept := Screened(cs, entry.maxCandidates, cfg.cap);
      MergingScreensNothing(ScreenedBreakdown(noted, cs, entry.maxCandidates, cfg.cap), kept);
      SoftTotalAppend(run.softFailures, SoftFailure(entry.moduleName, |FiniteOnly(cs)| - |kept|));
      assert run.softFailures + [] == run.softFailures;
    }
  }

  /**
   The soft failures logged over the whole loop are exactly the candidates counted as
   truncated, below the floor or capped; each module's statistics row says what it produced.
   */
  lemma {:induction false} SoftFailuresMatchTheBreakdown(run: Run, entries: seq<Entry>, cfg: Config)
    requires ScreenedOut(run.syn.breakdown) + DispatchConservation.Produced(entries) <= U32_MAX
    ensures var after := AllMerged(run, entries, cfg);
      && ScreenedOut(after.syn.breakdown) - ScreenedOut(run.syn.breakdown)
           == SoftTotal(after.softFailures) - SoftTotal(run.softFailures)
      && ScreenedOut(after.syn.breakdown) <= ScreenedOut(run.syn.breakdown) + DispatchConservation.Produced(entries)
      && |after.stats| == |run.stats| + |entries| && after.stats[..|run.stats|] == run.stats
      && forall i | 0 <= i < |entries| :: after.stats[|run.stats| + i]
           == ModuleStat(entries[i].moduleName, |Proposed(entries[i])|, entries[i].skipReason)
  {
    hide ScreenedOut, SoftTotal, ModuleMerged, Record, SoftFailuresOf, QualityReached;
    if entries != [] {
      var (before, entry) := (entries[..|entries| - 1], entries[|entries| - 1]);
      SoftFailuresMatchTheBreakdown(run, before, cfg);
      EntrySoftFailures(AllMerged(run, before, cfg), entry, cfg);
    }
  }

  // Quality skipping refines a plain fold.

  /** Merging without ever skipping. */
  function PlainMerged(syn: Syn, entries: seq<Entry>, cfg: Config): Syn {
    if entries == [] then syn
    else
      var (before, entry) := (entries[..|entries| - 1], entries[|entries| - 1]);
      var now := PlainMerged(syn, before, cfg);
      ModuleMerged(Syn(now.lists, SuppressionRecorded(now.breakdown, entry)), Proposed(entry), entry.maxCandidates, cfg)
  }

  predicate ReachedAfter(syn: Syn, entries: seq<Entry>, cfg: Config, n: nat)
    requires n <= |entries|
  {
    QualityReached(PlainMerged(syn, entries[..n], cfg))
  }

  /** `n` modules is the shortest nonempty prefix that reaches the minimum, or all of them. */
  predicate StopsAfter(syn: Syn, entries: seq<Entry>, cfg: Config, n: nat)
    requires n <= |entries|
  {
    (forall k | 0 < k < n :: !ReachedAfter(syn, entries, cfg, k))
    && (n < |entries| ==> n > 0 && ReachedAfter(syn, entries, cfg, n))
  }

  lemma StopExtends(syn: Syn, before: seq<Entry>, entry: Entry, cfg: Config, n: nat)
    requires n <= |before|
    ensures forall k: nat | k <= n :: ReachedAfter(syn, before + [entry], cfg, k) == ReachedAfter(syn, before, cfg, k)
  {
    hide QualityReached, PlainMerged;
    forall k: nat | k <= n ensures ReachedAfter(syn, before + [entry], cfg, k) == ReachedAfter(syn, before, cfg, k) {
      assert (before + [entry])[..k] == before[..k];
    }
  }

  /** How the skipping run relates to the plain fold over its first `n` modules. */
  ghost predicate Refines(run: Run, syn: Syn, entries: seq<Entry>, cfg: Config, n: nat)
    requires n <= |entries|
  {
    var plain := PlainMerged(syn, entries[..n], cfg);
    && StopsAfter(syn, entries, cfg, n)
    && run.syn.lists == plain.lists
    && (run.skipping <==> n > 0 && ReachedAfter(syn, entries, cfg, n))
    && (forall reason | CountsCandidates(reason) && reason != SkippedQualitySatisfied ::
         Count(run.syn.breakdown, reason) == Count(plain.breakdown, reason))
    && (n == |entries| ==> run.syn.breakdown == plain.breakdown)
  }

  /**
   The merge with quality skipping equals the merge without it of the shortest nonempty
   prefix of the modules that reaches the high-quality minimum, or of all modules.
   */
  lemma {:induction false} QualitySkipIsPrefix(run: Run, entries: seq<Entry>, cfg: Config) returns (n: nat)
    requires !run.skipping
    ensures n <= |entries| && Refines(AllMerged(run, entries, cfg), run.syn, entries, cfg, n)
  {
    hide QualityReached, ModuleMerged, Record;
    if entries == [] { return 0; }
    var (before, entry) := (entries[..|entries| - 1], entries[|entries| - 1]);
    assert entries == before + [entry];
    n := QualitySkipIsPrefix(run, before, cfg);
    var now := AllMerged(run, before, cfg);
    StopExtends(run.syn, before, entry, cfg, n);
    assert entries[..n] == before[..n];
    if now.skipping {
      SkippingKeeps(now, entry, cfg);
    } else {
      assert n == |before| && before[..n] == before;
      n := |entries|;
      assert entries[..n] == entries;
      MergingFollows(now, run.syn, before, entry, cfg);
    }
  }

  lemma SkippingKeeps(run: Run, entry: Entry, cfg: Config)
    requires run.skipping
    ensures var after := EntryMerged(run, entry, cfg);
      && after.skipping && after.syn.lists == run.syn.lists
      && forall reason | CountsCandidates(reason) && reason != SkippedQualitySatisfied ::
           Count(after.syn.breakdown, reason) == Count(run.syn.breakdown, reason)
  {
  }

  lemma MergingFollows(run: Run, syn: Syn, before: seq<Entry>, entry: Entry, cfg: Config)
    requires !run.skipping && run.syn == PlainMerged(syn, before, cfg)
    ensures EntryMerged(run, entry, cfg).syn == PlainMerged(syn, before + [entry], cfg)
    ensures EntryMerged(run, entry, cfg).skipping == QualityReached(PlainMerged(syn, before + [entry], cfg))
  {
    hide QualityReached, ModuleMerged, SuppressionRecorded;
    assert (before + [entry])[..|before|] == before;
  }

  // With zero budgets the plain fold is `run_discovery_module` in order.

  function ModulesRun(syn: Syn, entries: seq<Entry>, cfg: Config): Syn {
    if entries == [] then syn
    else ModuleMerged(ModulesRun(syn, entries[..|entries| - 1], cfg), Proposed(entries[|entries| - 1]), 0, cfg)
  }

  ghost predicate SameCounts(a: Breakdown, b: Breakdown, except: set<Reason>) {
    forall reason | reason !in except :: Count(a, reason) == Count(b, reason)
  }

  /** Calling `run_discovery_module` for each module of a list, in order. */
  method RunDiscoveryModules(syn: SynapseResult, entries: seq<Entry>, cfg: Config)
    modifies syn
    ensures syn.View() == ModulesRun(old(syn.View()), entries, cfg)
  {
    hide ModuleMerged;
    for i := 0 to |entries|
      invariant syn.View() == ModulesRun(old(syn.View()), entries[..i], cfg)
    {
      assert entries[..i + 1][..i] == entries[..i];
      RunDiscoveryModule(syn, entries[i].result, cfg);
    }
    assert entries[..|entries|] == entries;
  }

  lemma RecordKeepsSame(a: Breakdown, b: Breakdown, except: set<Reason>, reason: Reason, n: nat)
    requires SameCounts(a, b, except)
    ensures SameCounts(Record(a, reason, n), Record(b, reason, n), except)
  {
  }

  lemma RecordExempt(a: Breakdown, b: Breakdown, except: set<Reason>, reason: Reason, n: nat)
    requires SameCounts(a, b, except) && reason in except
    ensures SameCounts(Record(a, reason, n), b, except) && SameCounts(a, Record(b, reason, n), except)
  {
  }

  /** Screening and merging react to the breakdown only by adding to it. */
  lemma ModuleMergedSame(a: Syn, b: Syn, except: set<Reason>, cs: seq<Candidate>, budget: nat, cfg: Config)
    requires a.lists == b.lists && SameCounts(a.breakdown, b.breakdown, except)
    ensures ModuleMerged(a, cs, budget, cfg).lists == ModuleMerged(b, cs, budget, cfg).lists
    ensures SameCounts(ModuleMerged(a, cs, budget, cfg).breakdown, ModuleMerged(b, cs, budget, cfg).breakdown, except)
  {
    hide Retain, Capped, Additions, AddToLists, SameCounts, Record;
    var finiteOps := Retain(cs, FiniteOps);
    var finite := FiniteOnly(cs);
    RecordKeepsSame(a.breakdown, b.breakdown, except, NonFiniteOperation, |cs| - |finiteOps|);
    RecordKeepsSame(Record(a.breakdown, NonFiniteOperation, |cs| - |finiteOps|),
      Record(b.breakdown, NonFiniteOperation, |cs| - |finiteOps|), except, NonFiniteGain, |finiteOps| - |finite|);
    ScreenedSame(NonFiniteBreakdown(a.breakdown, cs), NonFiniteBreakdown(b.breakdown, cs),
                 except, finite, budget, cfg.cap);
    MergeBreakdownSame(ScreenedBreakdown(a.breakdown, cs, budget, cfg.cap),
      ScreenedBreakdown(b.breakdown, cs, budget, cfg.cap), except, Screened(cs, budget, cfg.cap));
  }

  /** The records that screening makes after the non-finite candidates are gone. */
  function FiniteScreenedBreakdown(b: Breakdown, finite: seq<Candidate>, budget: nat, cap: nat): Breakdown {
    var inBudget := WithinBudget(finite, budget);
    var floored := Retain(inBudget, ClearsFloor);
    CappedShrinks(floored, cap);
    Record(Record(Record(b,
      BudgetTruncated, |finite| - |inBudget|),
      BelowExpectedGainFloor, |inBudget| - |floored|),
      TargetCapExceeded, |floored| - |Capped(floored, cap)|)
  }

  lemma ScreenedSame(a: Breakdown, b: Breakdown, except: set<Reason>, finite: seq<Candidate>, budget: nat, cap: nat)
    requires SameCounts(a, b, except)
    ensures SameCounts(FiniteScreenedBreakdown(a, finite, budget, cap),
                       FiniteScreenedBreakdown(b, finite, budget, cap), except)
  {
    hide Retain, Capped, SameCounts, Record;
    var inBudget := WithinBudget(finite, budget);
    var floored := Retain(inBudget, ClearsFloor);
    CappedShrinks(floored, cap);
    RecordKeepsSame(a, b, except, BudgetTruncated, |finite| - |inBudget|);
    var truncated := |finite| - |inBudget|;
    var (a1, b1) := (Record(a, BudgetTruncated, truncated), Record(b, BudgetTruncated, truncated));
    RecordKeepsSame(a1, b1, except, BelowExpectedGainFloor, |inBudget| - |floored|);
    RecordKeepsSame(Record(a1, BelowExpectedGainFloor, |inBudget| - |floored|),
      Record(b1, BelowExpectedGainFloor, |inBudget| - |floored|),
      except, TargetCapExceeded, |floored| - |Capped(floored, cap)|);
  }

  lemma MergeBreakdownSame(a: Breakdown, b: Breakdown, except: set<Reason>, cs: seq<Candidate>)
    requires SameCounts(a, b, except)
    ensures SameCounts(MergeBreakdown(a, cs), MergeBreakdown(b, cs), except)
  {
    hide Retain, Map, SameCounts, Record;
    var finiteOps := Retain(cs, FiniteOps);
    var finite := Retain(finiteOps, FiniteGain);
    var eligible := Retain(finite, PositiveGain);
    MapLength(eligible, Discounted);
    var added := Retain(Map(eligible, Discounted), ClearsMergeFloor);
    var (n1, n2, n3, n4) := (|cs| - |finiteOps|, |finiteOps| - |finite|, |finite| - |eligible|, |eligible| - |added|);
    RecordKeepsSame(a, b, except, NonFiniteOperation, n1);
    var (a1, b1) := (Record(a, NonFiniteOperation, n1), Record(b, NonFiniteOperation, n1));
    RecordKeepsSame(a1, b1, except, NonFiniteGain, n2);
    var (a2, b2) := (Record(a1, NonFiniteGain, n2), Record(b1, NonFiniteGain, n2));
    RecordKeepsSame(a2, b2, except, NonPositiveGain, n3);
    RecordKeepsSame(Record(a2, NonPositiveGain, n3), Record(b2, NonPositiveGain, n3), except, BelowMultiOpFloor, n4);
  }

  /** The counters of suppressed modules, which a module run on its own does not touch. */
  const MODULE_REASONS: set<Reason> :=
    {ModuleSuppressed(GatedLowSuccess), ModuleSuppressed(DeadlinePassed),
     ModuleSuppressed(Panicked), ModuleSuppressed(TieredOut)}

  lemma SuppressionIsModuleReason(why: SkipReason)
    ensures ModuleSuppressed(why) in MODULE_REASONS
  {
  }

  /** With zero budgets, the plain fold and the module-by-module runs agree. */
  lemma {:induction false} ZeroBudgetsRunModules(syn: Syn, entries: seq<Entry>, cfg: Config)
    requires forall entry | entry in entries :: entry.maxCandidates == 0
    ensures PlainMerged(syn, entries, cfg).lists == ModulesRun(syn, entries, cfg).lists
    ensures SameCounts(PlainMerged(syn, entries, cfg).breakdown, ModulesRun(syn, entries, cfg).breakdown,
                       MODULE_REASONS)
  {
    hide ModuleMerged, Record;
    if entries != [] {
      var (before, entry) := (entries[..|entries| - 1], entries[|entries| - 1]);
      assert entry in entries;
      ZeroBudgetsRunModules(syn, before, cfg);
      var (p, m) := (PlainMerged(syn, before, cfg), ModulesRun(syn, before, cfg));
      if entry.skipReason.Some? {
        SuppressionIsModuleReason(entry.skipReason.value);
        RecordExempt(p.breakdown, m.breakdown, MODULE_REASONS, ModuleSuppressed(entry.skipReason.value), 1);
      }
      var noted := Syn(p.lists, SuppressionRecorded(p.breakdown, entry));
      ModuleMergedSame(noted, m, MODULE_REASONS, Proposed(entry), 0, cfg);
    }
  }

  /** The merge loop with zero budgets, skipping included, is some first modules run in order. */
  lemma SkippingRunsModules(run: Run, entries: seq<Entry>, cfg: Config) returns (n: nat)
    requires !run.skipping && forall entry | entry in entries :: entry.maxCandidates == 0
    ensures n <= |entries| && StopsAfter(run.syn, entries, cfg, n)
    ensures AllMerged(run, entries, cfg).syn.lists == ModulesRun(run.syn, entries[..n], cfg).lists
  {
    hide AllMerged, PlainMerged, ModulesRun, StopsAfter, ReachedAfter;
    n := QualitySkipIsPrefix(run, entries, cfg);
    ZeroBudgetsRunModules(run.syn, entries[..n], cfg);
  }

  // Non-interference: non-finite candidates influence nothing but their own counters.

  function Cleaned(entry: Entry): Entry {
    if entry.result.Some? then entry.(result := Some(FiniteOnly(entry.result.value))) else entry
  }

  const NON_FINITE_REASONS: set<Reason> := {NonFiniteOperation, NonFiniteGain, SkippedQualitySatisfied}

  lemma FiniteOnlyTwice(cs: seq<Candidate>)
    ensures FiniteOnly(FiniteOnly(cs)) == FiniteOnly(cs)
    ensures Retain(FiniteOnly(cs), FiniteOps) == FiniteOnly(cs)
  {
    hide Retain;
    forall c | c in FiniteOnly(cs) ensures FiniteOps(c) && FiniteGain(c) {
      RetainMember(Retain(cs, FiniteOps), FiniteGain, c);
      RetainMember(cs, FiniteOps, c);
    }
    RetainAll(FiniteOnly(cs), FiniteOps);
    RetainAll(FiniteOnly(cs), FiniteGain);
  }

  lemma ModuleMergedCleaned(a: Syn, b: Syn, cs: seq<Candidate>, budget: nat, cfg: Config)
    requires a.lists == b.lists && SameCounts(a.breakdown, b.breakdown, NON_FINITE_REASONS)
    ensures Screened(FiniteOnly(cs), budget, cfg.cap) == Screened(cs, budget, cfg.cap)
    ensures ModuleMerged(a, cs, budget, cfg).lists == ModuleMerged(b, FiniteOnly(cs), budget, cfg).lists
    ensures SameCounts(ModuleMerged(a, cs, budget, cfg).breakdown,
      ModuleMerged(b, FiniteOnly(cs), budget, cfg).breakdown, NON_FINITE_REASONS)
  {
    hide Retain, Capped, Additions, AddToLists, SameCounts, Record;
    FiniteOnlyTwice(cs);
    var finiteOps := Retain(cs, FiniteOps);
    var finite := FiniteOnly(cs);
    RecordExempt(a.breakdown, b.breakdown, NON_FINITE_REASONS, NonFiniteOperation, |cs| - |finiteOps|);
    RecordExempt(Record(a.breakdown, NonFiniteOperation, |cs| - |finiteOps|), b.breakdown,
      NON_FINITE_REASONS, NonFiniteGain, |finiteOps| - |finite|);
    RecordZero(b.breakdown, NonFiniteOperation);
    RecordZero(b.breakdown, NonFiniteGain);
    ScreenedSame(NonFiniteBreakdown(a.breakdown, cs), b.breakdown, NON_FINITE_REASONS, finite, budget, cfg.cap);
    MergeBreakdownSame(ScreenedBreakdown(a.breakdown, cs, budget, cfg.cap),
      ScreenedBreakdown(b.breakdown, finite, budget, cfg.cap), NON_FINITE_REASONS, Screened(cs, budget, cfg.cap));
  }

  /** Two runs that a caller can tell apart only by the three exempt counters and produced counts. */
  ghost predicate Indistinguishable(a: Run, b: Run) {
    && a.syn.lists == b.syn.lists
    && SameCounts(a.syn.breakdown, b.syn.breakdown, NON_FINITE_REASONS)
    && a.softFailures == b.softFailures
    && a.skipping == b.skipping
    && |a.stats| == |b.stats|
    && forall i | 0 <= i < |a.stats| :: a.stats[i] == b.stats[i].(produced := a.stats[i].produced)
  }

  lemma EntryIndistinguishable(a: Run, b: Run, entry: Entry, cfg: Config)
    requires Indistinguishable(a, b)
    ensures Indistinguishable(EntryMerged(a, entry, cfg), EntryMerged(b, Cleaned(entry), cfg))
  {
    hide ModuleMerged, Record, SameCounts, Retain, Capped, QualityReached;
    var cs := Proposed(entry);
    FiniteOnlyTwice(cs);
    EmptyIsFinite();
    if entry.skipReason.Some? {
      var suppressed := ModuleSuppressed(entry.skipReason.value);
      RecordKeepsSame(a.syn.breakdown, b.syn.breakdown, NON_FINITE_REASONS, suppressed, 1);
    }
    var notedA := Syn(a.syn.lists, SuppressionRecorded(a.syn.breakdown, entry));
    var notedB := Syn(b.syn.lists, SuppressionRecorded(b.syn.breakdown, entry));
    assert SameCounts(notedA.breakdown, notedB.breakdown, NON_FINITE_REASONS);
    if a.skipping {
      RecordExempt(notedA.breakdown, notedB.breakdown, NON_FINITE_REASONS, SkippedQualitySatisfied, |cs|);
      RecordExempt(Record(notedA.breakdown, SkippedQualitySatisfied, |cs|), notedB.breakdown,
        NON_FINITE_REASONS, SkippedQualitySatisfied, |FiniteOnly(cs)|);
    } else {
      ModuleMergedCleaned(notedA, notedB, cs, entry.maxCandidates, cfg);
      QualityByLists(ModuleMerged(notedA, cs, entry.maxCandidates, cfg),
        ModuleMerged(notedB, FiniteOnly(cs), entry.maxCandidates, cfg));
    }
  }

  lemma EmptyIsFinite()
    ensures FiniteOnly([]) == []
  {
  }

  lemma QualityByLists(a: Syn, b: Syn)
    requires a.lists == b.lists
    ensures QualityReached(a) == QualityReached(b)
  {
  }

  function AllCleaned(entries: seq<Entry>): (r: seq<Entry>)
    ensures |r| == |entries|
  {
    if entries == [] then [] else AllCleaned(entries[..|entries| - 1]) + [Cleaned(entries[|entries| - 1])]
  }

  /**
   Removing every non-finite candidate beforehand changes neither the lists, nor the point
   where skipping starts, nor any soft failure, nor any other counter.
   */
  lemma {:induction false} NonFiniteCandidatesDoNotInterfere(run: Run, entries: seq<Entry>, cfg: Config)
    ensures Indistinguishable(AllMerged(run, entries, cfg), AllMerged(run, AllCleaned(entries), cfg))
  {
    hide EntryMerged, SameCounts;
    if entries == [] {
      SameAsItself(run);
    } else {
      var (before, entry) := (entries[..|entries| - 1], entries[|entries| - 1]);
      NonFiniteCandidatesDoNotInterfere(run, before, cfg);
      EntryIndistinguishable(AllMerged(run, before, cfg), AllMerged(run, AllCleaned(before), cfg), entry, cfg);
      AllMergedStep(run, AllCleaned(before), Cleaned(entry), cfg);
    }
  }

  lemma SameAsItself(run: Run)
    ensures Indistinguishable(run, run)
  {
  }

  // Provenance: what ends up on the list.

  /** What the first `n` modules add, without a limit. */
  function AddedBy(entries: seq<Entry>, cap: nat): multiset<Candidate> {
    if entries == [] then multiset{}
    else AddedBy(entries[..|entries| - 1], cap) + multiset(AddedByModule(entries[|entries| - 1], cap))
  }

  function AddedByModule(entry: Entry, cap: nat): seq<Candidate> {
    Additions(Screened(Proposed(entry), entry.maxCandidates, cap))
  }

  /** Without a limit nothing that was on the list is lost, and only additions join it. */
  lemma {:induction false} ListGrowsByAdditions(syn: Syn, entries: seq<Entry>, cfg: Config)
    requires cfg.limit == None
    ensures multiset(PlainMerged(syn, entries, cfg).lists.coordinated)
         == multiset(syn.lists.coordinated) + AddedBy(entries, cfg.cap)
  {
    hide Screened, Additions, Merged, ScreenedBreakdown, Record;
    if entries != [] {
      var (before, entry) := (entries[..|entries| - 1], entries[|entries| - 1]);
      ListGrowsByAdditions(syn, before, cfg);
      var now := PlainMerged(syn, before, cfg);
      var noted := Syn(now.lists, SuppressionRecorded(now.breakdown, entry));
      var screened := Syn(now.lists, ScreenedBreakdown(noted.breakdown, Proposed(entry), entry.maxCandidates, cfg.cap));
      MergeAddsExactly(screened, Screened(Proposed(entry), entry.maxCandidates, cfg.cap), cfg);
    }
  }

  /** The same for the merge loop, whose additions are those of the modules before it skips. */
  lemma LoopGrowsByAdditions(run: Run, entries: seq<Entry>, cfg: Config) returns (n: nat)
    requires cfg.limit == None && !run.skipping
    ensures n <= |entries| && StopsAfter(run.syn, entries, cfg, n)
    ensures multiset(AllMerged(run, entries, cfg).syn.lists.coordinated)
         == multiset(run.syn.lists.coordinated) + AddedBy(entries[..n], cfg.cap)
  {
    hide AllMerged, PlainMerged, AddedBy, StopsAfter, ReachedAfter;
    n := QualitySkipIsPrefix(run, entries, cfg);
    ListGrowsByAdditions(run.syn, entries[..n], cfg);
  }

  lemma ScreenedMember(cs: seq<Candidate>, budget: nat, cap: nat, c: Candidate)
    requires c in Screened(cs, budget, cap)
    ensures c in cs && FiniteOps(c) && c.gain.Finite? && ClearsFloor(c)
  {
    hide Retain, Capped;
    var inBudget := WithinBudget(FiniteOnly(cs), budget);
    var floored := Retain(inBudget, ClearsFloor);
    CappedShrinks(floored, cap);
    assert c in multiset(Capped(floored, cap));
    assert c in multiset(floored);
    RetainMember(inBudget, ClearsFloor, c);
    assert c in FiniteOnly(cs);
    RetainMember(Retain(cs, FiniteOps), FiniteGain, c);
    RetainMember(cs, FiniteOps, c);
  }

  /** `a` is `origin` with its gain discounted once for its number of operations. */
  predicate DiscountedOnce(a: Candidate, origin: Candidate) {
    && a.operations == origin.operations && a.note == origin.note
    && origin.gain.Finite? && a.gain.Finite?
    && var (n, gain) := (|origin.operations|, origin.gain.value);
       a.gain.value ==
         if n <= 1 then gain else if n == 2 then gain / 2.0 else if n == 3 then gain / 5.0 else gain / 10.0
  }

  /** Everything added comes from a finite candidate above the floor, discounted once. */
  lemma {:induction false} AddedHasOrigin(entries: seq<Entry>, cap: nat, a: Candidate)
    returns (i: nat, origin: Candidate)
    requires a in AddedBy(entries, cap)
    ensures i < |entries| && origin in Proposed(entries[i])
    ensures FiniteOps(origin) && ClearsFloor(origin) && DiscountedOnce(a, origin)
    ensures a.gain.value > 0.0 && (|a.operations| > 1 ==> a.gain.value > MIN_COORDINATED_MULTI_OP_GAIN)
  {
    hide Screened, Additions;
    var (before, entry) := (entries[..|entries| - 1], entries[|entries| - 1]);
    if a in AddedBy(before, cap) {
      i, origin := AddedHasOrigin(before, cap, a);
    } else {
      assert a in multiset(AddedByModule(entry, cap));
      i := |entries| - 1;
      origin := AdditionsAreSound(Screened(Proposed(entry), entry.maxCandidates, cap), a);
      ScreenedMember(Proposed(entry), entry.maxCandidates, cap, origin);
    }
  }
}
