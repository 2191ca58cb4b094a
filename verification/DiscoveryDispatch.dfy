/** Screening each module's candidates and merging the modules in order. */
module DiscoveryDispatch {
  import opened Options
  import opened Floats
  import opened Sequences
  import opened Candidates
  import opened CandidateAggregation
  import opened PerTargetCap

  const COORDINATED_MIN_EXPECTED_GAIN: real := 0.00001
  const QUALITY_SKIP_GAIN_THRESHOLD: real := 0.01
  const QUALITY_SKIP_MIN_CANDIDATES: nat := 15

  /** One module's detection outcome: `result` is `None` when it detected nothing or never ran. */
  datatype Entry = Entry(
    moduleName: string,
    maxCandidates: nat,
    result: Option<seq<Candidate>>,
    skipReason: Option<SkipReason>)

  /** The part of a module's statistics that this merge determines. */
  datatype ModuleStat = ModuleStat(moduleName: string, produced: nat, skipped: Option<SkipReason>)

  datatype SoftFailure = SoftFailure(moduleName: string, count: nat)

  /** The whole state the merge loop works on. */
  datatype Run = Run(syn: Syn, stats: seq<ModuleStat>, softFailures: seq<SoftFailure>, skipping: bool)

  function Proposed(entry: Entry): seq<Candidate> {
    if entry.result.Some? then entry.result.value else []
  }

  function FiniteOnly(cs: seq<Candidate>): seq<Candidate> {
    Retain(Retain(cs, FiniteOps), FiniteGain)
  }

  predicate ClearsFloor(c: Candidate) {
    AtLeast(c.gain, COORDINATED_MIN_EXPECTED_GAIN)
  }

  predicate HighQuality(c: Candidate) {
    AtLeast(c.gain, QUALITY_SKIP_GAIN_THRESHOLD)
  }

  /** The first `budget` candidates; a zero budget is no budget. */
  function WithinBudget(cs: seq<Candidate>, budget: nat): seq<Candidate> {
    if 0 < budget < |cs| then cs[..budget] else cs
  }

  /** What a module may contribute: finite, within budget, above the floor, within the cap. */
  function Screened(cs: seq<Candidate>, budget: nat, cap: nat): seq<Candidate> {
    Capped(Retain(WithinBudget(FiniteOnly(cs), budget), ClearsFloor), cap)
  }

  function NonFiniteBreakdown(b: Breakdown, cs: seq<Candidate>): Breakdown {
    var finiteOps := Retain(cs, FiniteOps);
    Record(Record(b, NonFiniteOperation, |cs| - |finiteOps|), NonFiniteGain, |finiteOps| - |FiniteOnly(cs)|)
  }

  function ScreenedBreakdown(b: Breakdown, cs: seq<Candidate>, budget: nat, cap: nat): Breakdown {
    var finite := FiniteOnly(cs);
    var inBudget := WithinBudget(finite, budget);
    var floored := Retain(inBudget, ClearsFloor);
    CappedShrinks(floored, cap);
    Record(Record(Record(NonFiniteBreakdown(b, cs),
      BudgetTruncated, |finite| - |inBudget|),
      BelowExpectedGainFloor, |inBudget| - |floored|),
      TargetCapExceeded, |floored| - |Capped(floored, cap)|)
  }

  /** Screening one module and merging what is left. */
  function ModuleMerged(syn: Syn, cs: seq<Candidate>, budget: nat, cfg: Config): Syn {
    Merged(Syn(syn.lists, ScreenedBreakdown(syn.breakdown, cs, budget, cfg.cap)), Screened(cs, budget, cfg.cap), cfg)
  }

  function CountHighQuality(cs: seq<Candidate>): nat {
    |Retain(cs, HighQuality)|
  }

  predicate QualityReached(syn: Syn) {
    CountHighQuality(syn.lists.coordinated) >= QUALITY_SKIP_MIN_CANDIDATES
  }

  function SuppressionRecorded(b: Breakdown, entry: Entry): Breakdown {
    if entry.skipReason.Some? then Record(b, ModuleSuppressed(entry.skipReason.value), 1) else b
  }

  function SoftFailuresOf(entry: Entry, cap: nat): seq<SoftFailure> {
    var screened := Screened(Proposed(entry), entry.maxCandidates, cap);
    var finite := FiniteOnly(Proposed(entry));
    if |screened| < |finite| then [SoftFailure(entry.moduleName, |finite| - |screened|)] else []
  }

  /** One turn of the merge loop. */
  function EntryMerged(run: Run, entry: Entry, cfg: Config): Run {
    var noted := Syn(run.syn.lists, SuppressionRecorded(run.syn.breakdown, entry));
    var stats := run.stats + [ModuleStat(entry.moduleName, |Proposed(entry)|, entry.skipReason)];
    if run.skipping then
      Run(noted.(breakdown := Record(noted.breakdown, SkippedQualitySatisfied, |Proposed(entry)|)),
        stats, run.softFailures, true)
    else
      var syn := ModuleMerged(noted, Proposed(entry), entry.maxCandidates, cfg);
      Run(syn, stats, run.softFailures + SoftFailuresOf(entry, cfg.cap), QualityReached(syn))
  }

  /** The whole merge loop. */
  function AllMerged(run: Run, entries: seq<Entry>, cfg: Config): Run {
    if entries == [] then run
    else EntryMerged(AllMerged(run, entries[..|entries| - 1], cfg), entries[|entries| - 1], cfg)
  }

  lemma AllMergedStep(run: Run, entries: seq<Entry>, entry: Entry, cfg: Config)
    ensures AllMerged(run, entries + [entry], cfg) == EntryMerged(AllMerged(run, entries, cfg), entry, cfg)
  {
    hide EntryMerged;
    assert (entries + [entry])[..|entries + [entry]| - 1] == entries;
  }

  /** The module statistics of the metadata, and the soft failures of the outcome tracker. */
  class DispatchLog {
    var stats: seq<ModuleStat>
    var softFailures: seq<SoftFailure>

    constructor ()
      ensures stats == [] && softFailures == []
    {
      stats, softFailures := [], [];
    }

    method RecordSoftFailures(moduleName: string, count: nat)
      modifies this`softFailures
      ensures softFailures == old(softFailures) + if count == 0 then [] else [SoftFailure(moduleName, count)]
    {
      if count == 0 { return; }
      softFailures := softFailures + [SoftFailure(moduleName, count)];
    }
  }

  method RejectNonFinite(syn: SynapseResult, cs: seq<Candidate>) returns (finite: seq<Candidate>)
    modifies syn
    ensures finite == FiniteOnly(cs)
    ensures syn.View() == Syn(old(syn.View()).lists, NonFiniteBreakdown(old(syn.breakdown), cs))
  {
    hide Retain, Record;
    var finiteOps := syn.RetainAndRecord(cs, FiniteOps, NonFiniteOperation);
    finite := syn.RetainAndRecord(finiteOps, FiniteGain, NonFiniteGain);
  }

  method FloorAndCap(syn: SynapseResult, cs: seq<Candidate>, cap: nat) returns (kept: seq<Candidate>)
    modifies syn
    ensures kept == Capped(Retain(cs, ClearsFloor), cap)
    ensures |kept| <= |Retain(cs, ClearsFloor)|
    ensures syn.View() == Syn(old(syn.View()).lists,
      Record(Record(old(syn.breakdown), BelowExpectedGainFloor, |cs| - |Retain(cs, ClearsFloor)|),
        TargetCapExceeded, |Retain(cs, ClearsFloor)| - |kept|))
  {
    hide Retain, Record, Capped;
    var floored := syn.RetainAndRecord(cs, ClearsFloor, BelowExpectedGainFloor);
    var dropped;
    CappedShrinks(floored, cap);
    kept, dropped := ApplyPerTargetCap(floored, cap);
    syn.RecordMany(TargetCapExceeded, dropped);
  }

  /** One module on its own: no budget, no soft failures, no skipping. */
  method RunDiscoveryModule(syn: SynapseResult, result: Option<seq<Candidate>>, cfg: Config)
    modifies syn
    ensures syn.View() == ModuleMerged(old(syn.View()), if result.Some? then result.value else [], 0, cfg)
  {
    hide Retain, Record, Capped, Merged;
    if result.Some? && result.value != [] {
      var finite := RejectNonFinite(syn, result.value);
      RecordZero(syn.breakdown, BudgetTruncated);
      var kept := FloorAndCap(syn, finite, cfg.cap);
      if kept == [] {
        NothingMerged(syn.View(), cfg);
      } else {
        syn.MergeCoordinated(kept, cfg);
      }
    } else {
      NothingProposed(syn.View(), 0, cfg);
    }
  }

  lemma RecordZero(b: Breakdown, reason: Reason)
    ensures Record(b, reason, 0) == b
  {
  }

  lemma NothingProposed(syn: Syn, budget: nat, cfg: Config)
    ensures Screened([], budget, cfg.cap) == FiniteOnly([]) == []
    ensures ModuleMerged(syn, [], budget, cfg) == syn
  {
    NothingToCap(cfg.cap);
  }

  /** Screens and merges one entry, and logs its soft failures. */
  method MergeEntry(syn: SynapseResult, log: DispatchLog, entry: Entry, cfg: Config)
    modifies syn, log`softFailures
    ensures syn.View() == ModuleMerged(old(syn.View()), Proposed(entry), entry.maxCandidates, cfg)
    ensures log.softFailures == old(log.softFailures) + SoftFailuresOf(entry, cfg.cap)
  {
    hide Retain, Record, Capped, Merged;
    if entry.result.Some? && entry.result.value != [] {
      var finite := RejectNonFinite(syn, entry.result.value);
      var inBudget := finite;
      if entry.maxCandidates > 0 && |finite| > entry.maxCandidates {
        syn.RecordMany(BudgetTruncated, |finite| - entry.maxCandidates);
        inBudget := finite[..entry.maxCandidates];
      } else {
        RecordZero(syn.breakdown, BudgetTruncated);
      }
      var kept := FloorAndCap(syn, inBudget, cfg.cap);
      log.RecordSoftFailures(entry.moduleName, |finite| - |kept|);
      if kept == [] {
        NothingMerged(syn.View(), cfg);
      } else {
        syn.MergeCoordinated(kept, cfg);
      }
    } else {
      NothingProposed(syn.View(), entry.maxCandidates, cfg);
    }
  }

  ghost function RunOf(syn: SynapseResult, log: DispatchLog, skipping: bool): Run
    reads syn, log
  {
    Run(syn.View(), log.stats, log.softFailures, skipping)
  }

  /** Merges the modules in order, and only counts those that come after enough quality. */
  method MergeDiscoveryModuleResults(syn: SynapseResult, log: DispatchLog, entries: seq<Entry>, cfg: Config)
    returns (qualitySkipActive: bool)
    modifies syn, log
    ensures RunOf(syn, log, qualitySkipActive) == AllMerged(old(RunOf(syn, log, false)), entries, cfg)
  {
    hide AllMerged, ModuleMerged, Record, SoftFailuresOf, CountHighQuality;
    qualitySkipActive := false;
    AllMergedNone(RunOf(syn, log, false), cfg);
    for i := 0 to |entries|
      invariant RunOf(syn, log, qualitySkipActive) == AllMerged(old(RunOf(syn, log, false)), entries[..i], cfg)
    {
      var entry := entries[i];
      assert entries[..i + 1] == entries[..i] + [entry];
      AllMergedStep(old(RunOf(syn, log, false)), entries[..i], entry, cfg);
      log.stats := log.stats + [ModuleStat(entry.moduleName, |Proposed(entry)|, entry.skipReason)];
      if entry.skipReason.Some? {
        syn.RecordMany(ModuleSuppressed(entry.skipReason.value), 1);
      }
      if qualitySkipActive {
        syn.RecordMany(SkippedQualitySatisfied, |Proposed(entry)|);
        continue;
      }
      MergeEntry(syn, log, entry, cfg);
      if CountHighQuality(syn.coordinated) >= QUALITY_SKIP_MIN_CANDIDATES {
        qualitySkipActive := true;
      }
    }
    assert entries[..|entries|] == entries;
  }

  lemma AllMergedNone(run: Run, cfg: Config)
    ensures AllMerged(run, [], cfg) == run
  {
  }
}
