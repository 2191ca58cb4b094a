/** Merging coordinated candidates into the synapse result, with the rejection breakdown. */
module CandidateAggregation {
  import opened Options
  import opened Floats
  import opened Sequences
  import opened Candidates

  const U32_MAX: nat := 0xFFFF_FFFF
  const MIN_COORDINATED_MULTI_OP_GAIN: real := 0.00001

  datatype SkipReason = GatedLowSuccess | DeadlinePassed | Panicked | TieredOut

  datatype Reason =
    | NonFiniteOperation
    | NonFiniteGain
    | NonPositiveGain
    | BelowMultiOpFloor
    | BudgetTruncated
    | BelowExpectedGainFloor
    | TargetCapExceeded
    | SkippedQualitySatisfied
    | ModuleSuppressed(why: SkipReason)

  type u32 = n: nat | n <= U32_MAX

  type Breakdown = map<Reason, u32>

  function Count(b: Breakdown, reason: Reason): u32 {
    if reason in b then b[reason] else 0
  }

  /** `u32::try_from(n).unwrap_or(u32::MAX)`. */
  function ToU32(n: nat): u32 {
    if n <= U32_MAX then n else U32_MAX
  }

  function WrappingAdd(a: u32, b: u32): u32 {
    if a + b <= U32_MAX then a + b else a + b - U32_MAX - 1
  }

  /** `record_many_u32` of a drop count: nothing for zero, otherwise a wrapping `u32` add. */
  function Record(b: Breakdown, reason: Reason, n: nat): Breakdown {
    if ToU32(n) == 0 then b else b[reason := WrappingAdd(Count(b, reason), ToU32(n))]
  }

  /** The other two candidate lists of the result; only their gains matter to a truncation. */
  datatype SynapseCandidate = SynapseCandidate(gain: Float, note: string)

  /** The part of `AnalyzeSynapsesResult` the merge works on. */
  datatype Lists = Lists(
    coordinated: seq<Candidate>,
    helpful: seq<SynapseCandidate>,
    harmful: seq<SynapseCandidate>,
    returned: nat)

  datatype Syn = Syn(lists: Lists, breakdown: Breakdown)

  /**
   How results are merged: the optional limit with the truncation it triggers, whether runs
   are diversified, and the cap per target. The truncation may be any function.
   */
  datatype Config = Config(
    limit: Option<nat>,
    truncate: (seq<SynapseCandidate>, seq<SynapseCandidate>, seq<Candidate>, nat, bool) ->
              (seq<SynapseCandidate>, seq<SynapseCandidate>, seq<Candidate>),
    diversify: bool,
    cap: nat)

  function EmpiricalDiscount(opCount: nat): real {
    if opCount <= 1 then 1.0 else if opCount == 2 then 0.5 else if opCount == 3 then 0.2 else 0.1
  }

  /** The gain after the discount for the number of operations. */
  function DiscountedGain(c: Candidate): Float {
    Scale(c.gain, EmpiricalDiscount(|c.operations|))
  }

  /** Only multi-operation candidates are discounted. */
  function Discounted(c: Candidate): Candidate {
    if |c.operations| > 1 then c.(gain := DiscountedGain(c)) else c
  }

  predicate PositiveGain(c: Candidate) {
    Exceeds(c.gain, 0.0)
  }

  predicate ClearsMergeFloor(c: Candidate) {
    if |c.operations| <= 1 then Exceeds(c.gain, 0.0) else Exceeds(c.gain, MIN_COORDINATED_MULTI_OP_GAIN)
  }

  /** The candidates a merge lets through, before they are added: finite and positive. */
  function Eligible(cs: seq<Candidate>): seq<Candidate> {
    Retain(Retain(Retain(cs, FiniteOps), FiniteGain), PositiveGain)
  }

  /** What a merge adds: the eligible candidates, discounted, that clear the floor. */
  function Additions(cs: seq<Candidate>): seq<Candidate> {
    Retain(Map(Eligible(cs), Discounted), ClearsMergeFloor)
  }

  function MergeBreakdown(b: Breakdown, cs: seq<Candidate>): Breakdown {
    var finiteOps := Retain(cs, FiniteOps);
    var finite := Retain(finiteOps, FiniteGain);
    var eligible := Retain(finite, PositiveGain);
    var added := Retain(Map(eligible, Discounted), ClearsMergeFloor);
    MapLength(eligible, Discounted);
    Record(Record(Record(Record(b,
      NonFiniteOperation, |cs| - |finiteOps|),
      NonFiniteGain, |finiteOps| - |finite|),
      NonPositiveGain, |finite| - |eligible|),
      BelowMultiOpFloor, |eligible| - |added|)
  }

  /** Append, keep the order, and truncate when a limit is set. */
  function AddToLists(lists: Lists, added: seq<Candidate>, cfg: Config): Lists {
    var all := lists.coordinated + added;
    var ordered := if cfg.diversify then all else SortDesc(all, GainOf);
    var (helpful, harmful, coordinated) :=
      if cfg.limit.Some? then cfg.truncate(lists.helpful, lists.harmful, ordered, cfg.limit.value, cfg.diversify)
      else (lists.helpful, lists.harmful, ordered);
    Lists(coordinated, helpful, harmful, |helpful| + |harmful| + |coordinated|)
  }

  /** `merge_coordinated_structural_replacements` as a function of the state before. */
  function Merged(syn: Syn, cs: seq<Candidate>, cfg: Config): Syn {
    var added := Additions(cs);
    Syn(if added == [] then syn.lists else AddToLists(syn.lists, added, cfg), MergeBreakdown(syn.breakdown, cs))
  }

  /** The synapse result that merging updates in place. */
  class SynapseResult {
    var coordinated: seq<Candidate>
    var helpful: seq<SynapseCandidate>
    var harmful: seq<SynapseCandidate>
    var returned: nat
    var breakdown: Breakdown

    ghost function View(): Syn
      reads this
    {
      Syn(Lists(coordinated, helpful, harmful, returned), breakdown)
    }

    constructor ()
      ensures View() == Syn(Lists([], [], [], 0), map[])
    {
      coordinated, helpful, harmful, returned, breakdown := [], [], [], 0, map[];
    }

    method RecordMany(reason: Reason, n: nat)
      modifies this`breakdown
      ensures breakdown == Record(old(breakdown), reason, n)
    {
      breakdown := Record(breakdown, reason, n);
    }

    /**
     A `retain` whose drops are recorded under `reason`: exactly the candidates with `keep` stay,
     in order, and only that counter moves, by the number of the others while it has room.
     */
    method RetainAndRecord(cs: seq<Candidate>, keep: Candidate -> bool, reason: Reason) returns (kept: seq<Candidate>)
      modifies this`breakdown
      ensures kept == Retain(cs, keep) && breakdown == Record(old(breakdown), reason, |cs| - |kept|)
      ensures forall c :: multiset(kept)[c] == if keep(c) then multiset(cs)[c] else 0
      ensures forall other | other != reason :: Count(breakdown, other) == Count(old(breakdown), other)
      ensures Count(old(breakdown), reason) + |cs| - |kept| <= U32_MAX ==>
        Count(breakdown, reason) == Count(old(breakdown), reason) + |cs| - |kept|
    {
      kept := Retain(cs, keep);
      RetainMultiset(cs, keep);
      RecordMany(reason, |cs| - |kept|);
    }

    /** Drops, discounts, adds, sorts and truncates, returning early when nothing is left. */
    method MergeCoordinated(cs: seq<Candidate>, cfg: Config)
      modifies this
      ensures View() == Merged(old(View()), cs, cfg)
    {
      hide Retain, Map, Record, AddToLists;
      if cs == [] {
        NothingMerged(View(), cfg);
        return;
      }
      var finiteOps := RetainAndRecord(cs, FiniteOps, NonFiniteOperation);
      var finite := RetainAndRecord(finiteOps, FiniteGain, NonFiniteGain);
      if finite == [] {
        NothingFinite(View().breakdown);
        return;
      }
      var eligible := RetainAndRecord(finite, PositiveGain, NonPositiveGain);
      if eligible == [] {
        NothingFinite(View().breakdown);
        return;
      }
      var discounted := DiscountAll(eligible);
      MapLength(eligible, Discounted);
      var added := RetainAndRecord(discounted, ClearsMergeFloor, BelowMultiOpFloor);
      if added == [] { return; }
      AppendAndTruncate(added, cfg);
    }

    method AppendAndTruncate(added: seq<Candidate>, cfg: Config)
      modifies this
      ensures View() == Syn(AddToLists(old(View()).lists, added, cfg), old(breakdown))
    {
      coordinated := coordinated + added;
      if !cfg.diversify {
        coordinated := SortDesc(coordinated, GainOf);
      }
      if cfg.limit.Some? {
        var (h, m, c) := cfg.truncate(helpful, harmful, coordinated, cfg.limit.value, cfg.diversify);
        helpful, harmful, coordinated := h, m, c;
      }
      returned := |helpful| + |harmful| + |coordinated|;
    }
  }

  lemma NothingMerged(syn: Syn, cfg: Config)
    ensures Merged(syn, [], cfg) == syn
  {
  }

  /** Empty lists stay empty and record nothing. */
  lemma NothingFinite(b: Breakdown)
    ensures Retain([], PositiveGain) == [] && Retain([], ClearsMergeFloor) == []
    ensures Map([], Discounted) == []
    ensures forall reason :: Record(b, reason, 0) == b
  {
  }

  /** Discounts every multi-operation candidate, in a loop over the list. */
  method DiscountAll(cs: seq<Candidate>) returns (r: seq<Candidate>)
    ensures r == Map(cs, Discounted)
  {
    r := cs;
    MapLength(cs, Discounted);
    for i := 0 to |cs|
      invariant |r| == |cs|
      invariant forall k | 0 <= k < i :: r[k] == Discounted(cs[k])
      invariant forall k | i <= k < |cs| :: r[k] == cs[k]
    {
      if |r[i].operations| > 1 {
        r := r[i := r[i].(gain := DiscountedGain(r[i]))];
      }
    }
    assert r == Map(cs, Discounted);
  }

  /** The reasons that count candidates rather than modules. */
  const CANDIDATE_REASONS: seq<Reason> :=
    [NonFiniteOperation, NonFiniteGain, NonPositiveGain, BelowMultiOpFloor,
     BudgetTruncated, BelowExpectedGainFloor, TargetCapExceeded, SkippedQualitySatisfied]

  predicate CountsCandidates(reason: Reason) {
    !reason.ModuleSuppressed?
  }

  function Total(b: Breakdown, reasons: seq<Reason>): nat {
    if reasons == [] then 0 else Count(b, reasons[0]) + Total(b, reasons[1..])
  }

  /** How many candidates the breakdown says were dropped. */
  function Ledger(b: Breakdown): nat {
    Total(b, CANDIDATE_REASONS)
  }

  lemma {:induction false} TotalOfOthers(b: Breakdown, reasons: seq<Reason>, reason: Reason, n: nat)
    requires reason !in reasons
    ensures Total(Record(b, reason, n), reasons) == Total(b, reasons)
  {
    if reasons != [] {
      assert reasons[0] in reasons;
      TotalOfOthers(b, reasons[1..], reason, n);
    }
  }

  lemma {:induction false} TotalRecords(b: Breakdown, reasons: seq<Reason>, reason: Reason, n: nat)
    requires forall i, j | 0 <= i < j < |reasons| :: reasons[i] != reasons[j]
    requires reason in reasons && Total(b, reasons) + n <= U32_MAX
    ensures Total(Record(b, reason, n), reasons) == Total(b, reasons) + n
  {
    if reasons[0] == reason {
      TotalOfOthers(b, reasons[1..], reason, n);
    } else {
      TotalRecords(b, reasons[1..], reason, n);
    }
  }

  lemma RecordCounts(b: Breakdown, reason: Reason, n: nat)
    requires CountsCandidates(reason) && Ledger(b) + n <= U32_MAX
    ensures Ledger(Record(b, reason, n)) == Ledger(b) + n
  {
    assert CANDIDATE_REASONS[0] == NonFiniteOperation && CANDIDATE_REASONS[1] == NonFiniteGain
      && CANDIDATE_REASONS[2] == NonPositiveGain && CANDIDATE_REASONS[3] == BelowMultiOpFloor
      && CANDIDATE_REASONS[4] == BudgetTruncated && CANDIDATE_REASONS[5] == BelowExpectedGainFloor
      && CANDIDATE_REASONS[6] == TargetCapExceeded && CANDIDATE_REASONS[7] == SkippedQualitySatisfied;
    TotalRecords(b, CANDIDATE_REASONS, reason, n);
  }

  /** A merge either adds a candidate or counts it: none disappears. */
  lemma MergeConserves(syn: Syn, cs: seq<Candidate>, cfg: Config)
    requires cfg.limit == None && Ledger(syn.breakdown) + |cs| <= U32_MAX
    ensures var after := Merged(syn, cs, cfg);
      |after.lists.coordinated| - |syn.lists.coordinated|
        + Ledger(after.breakdown) - Ledger(syn.breakdown) == |cs|
  {
    hide Retain, Map, SortDesc, Ledger, Record;
    var finiteOps := Retain(cs, FiniteOps);
    var finite := Retain(finiteOps, FiniteGain);
    var eligible := Retain(finite, PositiveGain);
    MapLength(eligible, Discounted);
    var added := Retain(Map(eligible, Discounted), ClearsMergeFloor);
    var b1 := Record(syn.breakdown, NonFiniteOperation, |cs| - |finiteOps|);
    RecordCounts(syn.breakdown, NonFiniteOperation, |cs| - |finiteOps|);
    var b2 := Record(b1, NonFiniteGain, |finiteOps| - |finite|);
    RecordCounts(b1, NonFiniteGain, |finiteOps| - |finite|);
    var b3 := Record(b2, NonPositiveGain, |finite| - |eligible|);
    RecordCounts(b2, NonPositiveGain, |finite| - |eligible|);
    RecordCounts(b3, BelowMultiOpFloor, |eligible| - |added|);
    SortPermutes(syn.lists.coordinated + added, GainOf);
  }

  /** Without a limit the merged list is the old one plus the additions, as a multiset. */
  lemma MergeAddsExactly(syn: Syn, cs: seq<Candidate>, cfg: Config)
    requires cfg.limit == None
    ensures multiset(Merged(syn, cs, cfg).lists.coordinated)
         == multiset(syn.lists.coordinated) + multiset(Additions(cs))
    ensures !cfg.diversify && SortedDesc(syn.lists.coordinated, GainOf) ==>
      SortedDesc(Merged(syn, cs, cfg).lists.coordinated, GainOf)
  {
    hide Retain, Map, SortDesc;
    var added := Additions(cs);
    SortPermutes(syn.lists.coordinated + added, GainOf);
    SortOrders(syn.lists.coordinated + added, GainOf);
    if added == [] {
      assert syn.lists.coordinated + added == syn.lists.coordinated;
    }
  }

  /**
   Everything a merge adds is a proposed candidate with its operations intact, a finite
   positive gain, and the discount for its operation count applied exactly once.
   */
  lemma AdditionsAreSound(cs: seq<Candidate>, a: Candidate) returns (origin: Candidate)
    requires a in Additions(cs)
    ensures origin in cs && FiniteOps(origin) && origin.gain.Finite? && origin.gain.value > 0.0
    ensures a.operations == origin.operations && a.note == origin.note
    ensures a.gain.Finite? && a.gain.value > 0.0
    ensures var (n, gain) := (|origin.operations|, origin.gain.value);
      a.gain.value ==
        if n <= 1 then gain else if n == 2 then gain / 2.0 else if n == 3 then gain / 5.0 else gain / 10.0
    ensures |a.operations| > 1 ==> a.gain.value > MIN_COORDINATED_MULTI_OP_GAIN
  {
    hide Retain, Map;
    var discounted := Map(Eligible(cs), Discounted);
    RetainMember(discounted, ClearsMergeFloor, a);
    MapLength(Eligible(cs), Discounted);
    var i :| 0 <= i < |discounted| && discounted[i] == a;
    origin := Eligible(cs)[i];
    EligibleMember(cs, origin);
  }

  lemma EligibleMember(cs: seq<Candidate>, c: Candidate)
    requires c in Eligible(cs)
    ensures c in cs && FiniteOps(c) && FiniteGain(c) && PositiveGain(c)
  {
    hide Retain;
    RetainMember(Retain(Retain(cs, FiniteOps), FiniteGain), PositiveGain, c);
    RetainMember(Retain(cs, FiniteOps), FiniteGain, c);
    RetainMember(cs, FiniteOps, c);
  }
}
