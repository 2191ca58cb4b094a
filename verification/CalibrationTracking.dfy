/** The calibration tracker: observations under a joined key, and what is read back from them. */
module CalibrationTracking {
  import opened Options
  import opened Floats
  import opened Sequences
  import opened Grouping
  import opened Calibration

  // Keys.

  function CalibrationKey(moduleName: string, candidateType: string): string {
    moduleName + "::" + candidateType
  }

  predicate SeparatorAt(s: string, i: nat) {
    i + 1 < |s| && s[i] == ':' && s[i + 1] == ':'
  }

  predicate HasSeparator(s: string) {
    exists i :: 0 <= i < |s| && SeparatorAt(s, i)
  }

  /** Where the first separator begins. */
  function FirstSeparator(s: string): (r: Option<nat>)
    ensures r.Some? ==> r.value + 2 <= |s|
  {
    if |s| < 2 then None
    else if SeparatorAt(s, 0) then Some(0)
    else
      var later := FirstSeparator(s[1..]);
      if later.Some? then Some(later.value + 1) else None
  }

  function ParseCalibrationKey(key: string): (string, string) {
    var at := FirstSeparator(key);
    if at.Some? then (key[..at.value], key[at.value + 2..]) else (key, "")
  }

  lemma {:induction false} FirstSeparatorMeans(s: string)
    ensures FirstSeparator(s).Some? ==>
      SeparatorAt(s, FirstSeparator(s).value) && forall i: nat | i < FirstSeparator(s).value :: !SeparatorAt(s, i)
    ensures FirstSeparator(s).None? ==> forall i: nat :: !SeparatorAt(s, i)
  {
    if |s| >= 2 && !SeparatorAt(s, 0) {
      FirstSeparatorMeans(s[1..]);
      forall i: nat ensures SeparatorAt(s, i) <==> i > 0 && SeparatorAt(s[1..], i - 1) {
      }
    }
  }

  /** A key is read back as it was built exactly when the module name meets no separator early. */
  lemma KeyRoundTripsExactly(moduleName: string, candidateType: string)
    ensures ParseCalibrationKey(CalibrationKey(moduleName, candidateType)) == (moduleName, candidateType)
      <==> !HasSeparator(moduleName + ":")
  {
    var key := CalibrationKey(moduleName, candidateType);
    FirstSeparatorMeans(key);
    var n := |moduleName|;
    assert SeparatorAt(key, n);
    forall i: nat | i < n ensures SeparatorAt(key, i) <==> SeparatorAt(moduleName + ":", i) {
    }
    var at := FirstSeparator(key).value;
    assert key[..n] == moduleName && key[n + 2..] == candidateType;
    if !HasSeparator(moduleName + ":") {
      assert at == n;
    } else {
      var i: nat :| i < |moduleName + ":"| && SeparatorAt(moduleName + ":", i);
      assert i < n;
      assert at < n;
      assert |key[..at]| < n;
    }
  }

  /** Two module names with a separator can share one key. */
  lemma KeysCanCollide()
    ensures CalibrationKey("a", "b::c") == CalibrationKey("a::b", "c")
  {
    assert "a" + "::" + "b::c" == "a::b" + "::" + "c";
  }

  /** Names whose key reads back correctly. */
  predicate CleanName(moduleName: string) {
    !HasSeparator(moduleName + ":")
  }

  lemma CleanKeysDiffer(m: string, t: string, n: string, u: string)
    requires CleanName(m) && CleanName(n) && CalibrationKey(m, t) == CalibrationKey(n, u)
    ensures m == n && t == u
  {
    KeyRoundTripsExactly(m, t);
    KeyRoundTripsExactly(n, u);
  }

  // The tracker.

  type Store = map<string, seq<Observation>>

  function Bucket(store: Store, key: string): seq<Observation> {
    if key in store then store[key] else []
  }

  /** One call of `record_prediction`. */
  datatype Call = Call(moduleName: string, candidateType: string, predicted: Float, actual: Float)

  predicate IsF64(f: Float) {
    f.Finite? ==> F64_MIN <= f.value <= F64_MAX
  }

  /** What a call stores: nothing when a value is not finite. */
  function StoredBy(call: Call): seq<Observation> {
    if call.predicted.Finite? && IsF64(call.predicted) && call.actual.Finite? && IsF64(call.actual)
    then [Observation(call.predicted.value, call.actual.value)] else []
  }

  function Recorded(store: Store, call: Call): Store {
    var key := CalibrationKey(call.moduleName, call.candidateType);
    if StoredBy(call) == [] then store else store[key := Bucket(store, key) + StoredBy(call)]
  }

  function FactorFor(store: Store, moduleName: string, candidateType: string): f64 {
    CalibrationFactor(Bucket(store, CalibrationKey(moduleName, candidateType)))
  }

  datatype SummaryEntry = SummaryEntry(
    moduleName: string,
    candidateType: string,
    sampleCount: nat,
    meanAbsoluteError: f64,
    bias: f64,
    calibrationFactor: f64)

  function SamplesOf(entry: SummaryEntry): Float {
    Finite(entry.sampleCount as real)
  }

  function SummaryOf(store: Store): string -> seq<SummaryEntry> {
    key =>
      var s := Bucket(store, key);
      var (moduleName, candidateType) := ParseCalibrationKey(key);
      [SummaryEntry(moduleName, candidateType, |s|, MeanAbsoluteError(s), Bias(s), CalibrationFactor(s))]
  }

  class CalibrationTracker {
    var observations: Store

    /** Every bucket fits in memory. */
    predicate Valid()
      reads this
    {
      forall key | key in observations :: |observations[key]| <= MAX_OBSERVATIONS
    }

    constructor ()
      ensures Valid() && observations == map[]
    {
      observations := map[];
    }

    /** Stores the observation under its key, unless a value is not finite. */
    method RecordPrediction(moduleName: string, candidateType: string, predicted: Float, actual: Float)
      requires Valid() && IsF64(predicted) && IsF64(actual)
      requires |Bucket(observations, CalibrationKey(moduleName, candidateType))| < MAX_OBSERVATIONS
      modifies this
      ensures Valid()
      ensures observations == Recorded(old(observations), Call(moduleName, candidateType, predicted, actual))
    {
      if !predicted.Finite? || !actual.Finite? { return; }
      var key := CalibrationKey(moduleName, candidateType);
      var bucket := if key in observations then observations[key] else [];
      observations := observations[key := bucket + [Observation(predicted.value, actual.value)]];
    }

    /** The factor of the bucket, neutral when there is none. */
    method CalibrationFactorFor(moduleName: string, candidateType: string) returns (factor: f64)
      requires Valid()
      ensures factor == FactorFor(observations, moduleName, candidateType)
    {
      var key := CalibrationKey(moduleName, candidateType);
      if key !in observations || |observations[key]| < 1 { return 1.0; }
      factor := ComputeCalibrationFactor(observations[key]);
    }

    /** One entry per bucket, most samples first; `order` is how the hash map yielded them. */
    method CalibrationSummary() returns (entries: seq<SummaryEntry>, ghost order: seq<string>)
      requires Valid()
      ensures ReadSoFar(order, {}, observations.Keys)
      ensures entries == SortDesc(FlatMap(order, SummaryOf(observations)), SamplesOf)
      ensures SortedDesc(entries, SamplesOf) && |entries| == |observations|
    {
      hide FlatMap, SortDesc, MeanAbsoluteError, Bias, CalibrationFactor;
      entries, order := [], [];
      var remaining := observations.Keys;
      FlatMapNone(SummaryOf(observations));
      while remaining != {}
        invariant ReadSoFar(order, remaining, observations.Keys)
        invariant entries == FlatMap(order, SummaryOf(observations))
        invariant |entries| + |remaining| == |observations.Keys|
        decreases |remaining|
      {
        var key :| key in remaining;
        var (moduleName, candidateType) := ParseCalibrationKey(key);
        var mae, bias := CalibrationErrors(observations[key]);
        var factor := ComputeCalibrationFactor(observations[key]);
        entries := entries + [SummaryEntry(moduleName, candidateType, |observations[key]|, mae, bias, factor)];
        FlatMapAppend(order, key, SummaryOf(observations));
        ReadNext(order, remaining, observations.Keys, key);
        order := order + [key];
        remaining := remaining - {key};
      }
      SortOrders(entries, SamplesOf);
      SortPermutes(entries, SamplesOf);
      entries := SortDesc(entries, SamplesOf);
    }
  }

  /** The tracker's store after a sequence of calls. */
  function Tracked(calls: seq<Call>): Store {
    if calls == [] then map[] else Recorded(Tracked(calls[..|calls| - 1]), calls[|calls| - 1])
  }

  /** The finite observations of one module and candidate type, in order. */
  function OwnObservations(calls: seq<Call>, moduleName: string, candidateType: string): seq<Observation> {
    if calls == [] then []
    else
      var (before, call) := (calls[..|calls| - 1], calls[|calls| - 1]);
      OwnObservations(before, moduleName, candidateType)
      + if call.moduleName == moduleName && call.candidateType == candidateType then StoredBy(call) else []
  }

  /**
   Whatever was recorded and in whatever order, among clean module names the bucket of a
   module and type holds exactly its own finite observations.
   */
  lemma {:induction false} BucketHoldsOwnObservations(calls: seq<Call>, moduleName: string, candidateType: string)
    requires CleanName(moduleName) && forall call | call in calls :: CleanName(call.moduleName)
    ensures Bucket(Tracked(calls), CalibrationKey(moduleName, candidateType))
         == OwnObservations(calls, moduleName, candidateType)
  {
    if calls != [] {
      hide CleanName, CalibrationKey, StoredBy, Recorded, Bucket;
      var (before, call) := (calls[..|calls| - 1], calls[|calls| - 1]);
      assert call in calls;
      BucketHoldsOwnObservations(before, moduleName, candidateType);
      RecordedBucket(Tracked(before), call, CalibrationKey(moduleName, candidateType));
      if CalibrationKey(moduleName, candidateType) == CalibrationKey(call.moduleName, call.candidateType) {
        CleanKeysDiffer(moduleName, candidateType, call.moduleName, call.candidateType);
      }
    }
  }

  lemma RecordedBucket(store: Store, call: Call, key: string)
    ensures Bucket(Recorded(store, call), key) == Bucket(store, key)
      + if key == CalibrationKey(call.moduleName, call.candidateType) then StoredBy(call) else []
  {
    hide CalibrationKey, StoredBy;
    assert Bucket(store, key) + [] == Bucket(store, key);
  }

  /** So the factor is neutral without observations, and otherwise depends on nothing else. */
  lemma FactorIsOfOwnObservations(calls: seq<Call>, moduleName: string, candidateType: string)
    requires CleanName(moduleName) && forall call | call in calls :: CleanName(call.moduleName)
    ensures FactorFor(Tracked(calls), moduleName, candidateType)
         == CalibrationFactor(OwnObservations(calls, moduleName, candidateType))
  {
    hide CalibrationFactor, Tracked, OwnObservations, CleanName;
    BucketHoldsOwnObservations(calls, moduleName, candidateType);
  }

  /** The calls for this module and type with finite values. */
  function OwnFinite(moduleName: string, candidateType: string): Call -> bool {
    (call: Call) =>
      call.moduleName == moduleName && call.candidateType == candidateType
      && call.predicted.Finite? && call.actual.Finite?
  }

  /** The observation holds the two values of the call. */
  predicate Holds(o: Observation, call: Call) {
    call.predicted == Finite(o.predicted) && call.actual == Finite(o.actual)
  }

  lemma StoredMeans(call: Call)
    requires IsF64(call.predicted) && IsF64(call.actual)
    ensures |StoredBy(call)| == if call.predicted.Finite? && call.actual.Finite? then 1 else 0
    ensures StoredBy(call) != [] ==> Holds(StoredBy(call)[0], call)
  {
  }

  /** The own observations are the values of the own calls, one for one and in order. */
  lemma {:induction false} OwnObservationsMean(calls: seq<Call>, moduleName: string, candidateType: string)
    requires forall call | call in calls :: IsF64(call.predicted) && IsF64(call.actual)
    ensures var own := Retain(calls, OwnFinite(moduleName, candidateType));
      var stored := OwnObservations(calls, moduleName, candidateType);
      |stored| == |own| && forall i | 0 <= i < |own| :: Holds(stored[i], own[i])
  {
    hide Retain, StoredBy, Holds, IsF64;
    var p := OwnFinite(moduleName, candidateType);
    if calls == [] {
      RetainNone([], p);
    } else {
      var (before, call) := (calls[..|calls| - 1], calls[|calls| - 1]);
      assert calls == before + [call] && call in calls;
      OwnObservationsMean(before, moduleName, candidateType);
      StoredMeans(call);
      RetainAppend(before, [call], p);
      RetainOne(call, p);
    }
  }

  /** The names a key was built from: split at its first separator, or all of it without one. */
  predicate NamesOf(key: string, moduleName: string, candidateType: string) {
    || (key == moduleName + "::" + candidateType && !HasSeparator(moduleName + ":"))
    || (key == moduleName && candidateType == "" && !HasSeparator(key))
  }

  lemma ParseMeans(key: string)
    ensures var (moduleName, candidateType) := ParseCalibrationKey(key); NamesOf(key, moduleName, candidateType)
  {
    FirstSeparatorMeans(key);
    var (moduleName, candidateType) := ParseCalibrationKey(key);
    if FirstSeparator(key).Some? {
      var at := FirstSeparator(key).value;
      assert key[at..at + 2] == "::";
      assert key == key[..at] + key[at..at + 2] + key[at + 2..];
      forall i: nat | i < at ensures !SeparatorAt(moduleName + ":", i) {
        assert !SeparatorAt(key, i);
      }
    }
  }

  /** One line of the summary: the names in the key, the number of samples and what they amount to. */
  ghost predicate Reports(store: Store, key: string, entry: SummaryEntry) {
    && key in store && NamesOf(key, entry.moduleName, entry.candidateType)
    && entry.sampleCount == |store[key]|
    && entry.meanAbsoluteError == MeanAbsoluteError(store[key])
    && entry.bias == Bias(store[key])
    && entry.calibrationFactor == CalibrationFactor(store[key])
  }

  /** Before they are sorted, the lines of the summary are one for each bucket, in the order they are read. */
  lemma {:induction false} SummaryReportsBuckets(store: Store, order: seq<string>)
    requires forall key | key in order :: key in store
    ensures var entries := FlatMap(order, SummaryOf(store));
      |entries| == |order| && forall i | 0 <= i < |order| :: Reports(store, order[i], entries[i])
  {
    hide SummaryOf, Reports, FlatMap;
    if order == [] {
      FlatMapNone(SummaryOf(store));
    } else {
      var (before, key) := (order[..|order| - 1], order[|order| - 1]);
      assert order == before + [key] && key in order;
      SummaryReportsBuckets(store, before);
      FlatMapAppend(before, key, SummaryOf(store));
      SummaryLine(store, key);
    }
  }

  lemma SummaryLine(store: Store, key: string)
    requires key in store
    ensures |SummaryOf(store)(key)| == 1 && Reports(store, key, SummaryOf(store)(key)[0])
  {
    hide MeanAbsoluteError, Bias, CalibrationFactor, ParseCalibrationKey, NamesOf;
    ParseMeans(key);
  }
}
