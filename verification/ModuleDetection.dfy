/** Parallel detection: worker threads run the modules in any interleaving, against a deadline. */
module ModuleDetection {
  import opened Options
  import opened Candidates
  import opened CandidateAggregation
  import opened DiscoveryDispatch

  /** What a detection closure does when it is run. */
  datatype Detection = Detects(result: Option<seq<Candidate>>) | Panics

  /** A module to run; `gated` is the tracker's verdict on its history. */
  datatype Spec = Spec(moduleName: string, maxCandidates: nat, gated: bool, detection: Detection)

  /** Where the worker of one module is. */
  datatype Slot = Waiting | ReadingFlag | ReadingClock | Detecting | Done(entry: Entry)

  /**
   `cancelled` is the host's request to stop; `timedOut` is the flag that lets later workers
   skip without asking again whether the time is up.
   */
  datatype State = State(now: nat, cancelled: bool, timedOut: bool, slots: seq<Slot>)

  datatype Step = Tick | CancelAnalysis | Work(worker: nat)

  function Skipped(spec: Spec, why: SkipReason): Slot {
    Done(Entry(spec.moduleName, spec.maxCandidates, None, Some(why)))
  }

  /** The entry of a module that is run: a caught panic counts as a skip without a result. */
  function Ran(spec: Spec): Slot {
    if spec.detection.Panics? then Skipped(spec, Panicked)
    else Done(Entry(spec.moduleName, spec.maxCandidates, spec.detection.result, None))
  }

  /** The host has asked to stop, or the deadline has been reached. */
  predicate TimeIsUp(s: State, deadline: Option<nat>) {
    s.cancelled || (deadline.Some? && s.now >= deadline.value)
  }

  predicate CanStep(s: State, specs: seq<Spec>, step: Step) {
    step.Work? ==> step.worker < |s.slots| == |specs| && !s.slots[step.worker].Done?
  }

  /** One statement of a worker. */
  function WorkerStep(s: State, spec: Spec, deadline: Option<nat>, i: nat): State
    requires i < |s.slots| && !s.slots[i].Done?
  {
    match s.slots[i]
    case Waiting =>
      s.(slots := s.slots[i := if spec.gated then Skipped(spec, GatedLowSuccess) else ReadingFlag])
    case ReadingFlag =>
      if s.timedOut then s.(slots := s.slots[i := Skipped(spec, DeadlinePassed)])
      else s.(slots := s.slots[i := ReadingClock])
    case ReadingClock =>
      if TimeIsUp(s, deadline)
      then s.(timedOut := true, slots := s.slots[i := Skipped(spec, DeadlinePassed)])
      else s.(slots := s.slots[i := Detecting])
    case Detecting => s.(slots := s.slots[i := Ran(spec)])
  }

  function Next(s: State, specs: seq<Spec>, deadline: Option<nat>, step: Step): State
    requires CanStep(s, specs, step)
  {
    match step
    case Tick => s.(now := s.now + 1)
    case CancelAnalysis => s.(cancelled := true)
    case Work(i) => WorkerStep(s, specs[i], deadline, i)
  }

  predicate Initial(s: State, specs: seq<Spec>) {
    |s.slots| == |specs| && !s.timedOut && forall i | 0 <= i < |s.slots| :: s.slots[i].Waiting?
  }

  predicate ValidRun(s: State, specs: seq<Spec>, deadline: Option<nat>, run: seq<Step>)
    decreases |run|
  {
    run == [] || (CanStep(s, specs, run[0]) && ValidRun(Next(s, specs, deadline, run[0]), specs, deadline, run[1..]))
  }

  function AfterRun(s: State, specs: seq<Spec>, deadline: Option<nat>, run: seq<Step>): State
    requires ValidRun(s, specs, deadline, run)
    decreases |run|
  {
    if run == [] then s else AfterRun(Next(s, specs, deadline, run[0]), specs, deadline, run[1..])
  }

  /** What a worker's slot says about its own module, whatever the other workers do. */
  predicate SlotOk(slot: Slot, spec: Spec, late: bool) {
    match slot
    case Waiting => true
    case Done(_) =>
      slot == if spec.gated then Skipped(spec, GatedLowSuccess)
              else if late && slot == Skipped(spec, DeadlinePassed) then slot
              else Ran(spec)
    case _ => !spec.gated
  }

  predicate Inv(s: State, specs: seq<Spec>, deadline: Option<nat>) {
    && |s.slots| == |specs|
    && (s.timedOut ==> TimeIsUp(s, deadline))
    && forall i | 0 <= i < |specs| :: SlotOk(s.slots[i], specs[i], TimeIsUp(s, deadline))
  }

  lemma StepKeepsInv(s: State, specs: seq<Spec>, deadline: Option<nat>, step: Step)
    requires Inv(s, specs, deadline) && CanStep(s, specs, step)
    ensures Inv(Next(s, specs, deadline, step), specs, deadline)
  {
    var s' := Next(s, specs, deadline, step);
    forall i | 0 <= i < |specs| ensures SlotOk(s'.slots[i], specs[i], TimeIsUp(s', deadline)) {
      assert SlotOk(s.slots[i], specs[i], TimeIsUp(s, deadline));
    }
  }

  lemma {:induction false} RunKeepsInv(s: State, specs: seq<Spec>, deadline: Option<nat>, run: seq<Step>)
    requires Inv(s, specs, deadline) && ValidRun(s, specs, deadline, run)
    ensures Inv(AfterRun(s, specs, deadline, run), specs, deadline)
    decreases |run|
  {
    if run != [] {
      hide Inv, Next, CanStep;
      StepKeepsInv(s, specs, deadline, run[0]);
      RunKeepsInv(Next(s, specs, deadline, run[0]), specs, deadline, run[1..]);
    }
  }

  /**
   In every interleaving each finished worker leaves its own module's entry, in the module's
   place: gated exactly when its history says so, otherwise what its closure produced, or a
   deadline skip, and that only once the time is really up.
   */
  lemma EntriesAreTheirModules(s: State, specs: seq<Spec>, deadline: Option<nat>, run: seq<Step>, i: nat)
    requires Initial(s, specs) && ValidRun(s, specs, deadline, run)
    requires i < |specs| == |AfterRun(s, specs, deadline, run).slots|
    requires AfterRun(s, specs, deadline, run).slots[i].Done?
    ensures var (slot, spec) := (AfterRun(s, specs, deadline, run).slots[i], specs[i]);
      && slot.entry.moduleName == spec.moduleName && slot.entry.maxCandidates == spec.maxCandidates
      && (slot.entry.skipReason == Some(GatedLowSuccess) <==> spec.gated)
      && (slot.entry.skipReason == Some(DeadlinePassed) ==>
            TimeIsUp(AfterRun(s, specs, deadline, run), deadline))
      && (slot.entry.skipReason == Some(Panicked) ==> spec.detection.Panics?)
      && slot.entry.skipReason != Some(TieredOut)
      && (slot.entry.skipReason.None? ==> spec.detection == Detects(slot.entry.result))
      && (slot.entry.skipReason.Some? ==> slot.entry.result.None?)
  {
    hide AfterRun, ValidRun;
    RunKeepsInv(s, specs, deadline, run);
    assert SlotOk(AfterRun(s, specs, deadline, run).slots[i], specs[i],
      TimeIsUp(AfterRun(s, specs, deadline, run), deadline));
  }

  /** The only way into a detection: the host has not asked to stop and the deadline is still ahead. */
  lemma DetectionStartsInTime(s: State, specs: seq<Spec>, deadline: Option<nat>, step: Step, i: nat)
    requires CanStep(s, specs, step) && i < |s.slots| && !s.slots[i].Detecting?
    ensures Next(s, specs, deadline, step).slots[i] == Detecting <==>
      && step == Work(i) && s.slots[i] == ReadingClock && !s.cancelled
      && match deadline { case Some(limit) => s.now < limit case None => true }
    ensures step == Work(i) && s.slots[i] == ReadingClock && Next(s, specs, deadline, step).slots[i] != Detecting ==>
      Next(s, specs, deadline, step).timedOut
  {
  }

  predicate Finished(s: State) {
    forall i | 0 <= i < |s.slots| :: s.slots[i].Done?
  }

  function Entries(s: State): (r: seq<Entry>)
    requires Finished(s)
    ensures |r| == |s.slots|
  {
    seq(|s.slots|, i requires 0 <= i < |s.slots| => s.slots[i].entry)
  }

  /**
   Without a deadline or a cancellation the entries do not depend on the schedule, so neither
   does the merge: any two runs to the end hand it the same list.
   */
  lemma ScheduleDoesNotMatter(s: State, specs: seq<Spec>, a: seq<Step>, b: seq<Step>, start: Run, cfg: Config)
    requires Initial(s, specs) && ValidRun(s, specs, None, a) && ValidRun(s, specs, None, b)
    requires Finished(AfterRun(s, specs, None, a)) && !AfterRun(s, specs, None, a).cancelled
    requires Finished(AfterRun(s, specs, None, b)) && !AfterRun(s, specs, None, b).cancelled
    ensures Entries(AfterRun(s, specs, None, a)) == Entries(AfterRun(s, specs, None, b))
    ensures AllMerged(start, Entries(AfterRun(s, specs, None, a)), cfg)
         == AllMerged(start, Entries(AfterRun(s, specs, None, b)), cfg)
  {
    hide AfterRun, ValidRun, AllMerged;
    RunKeepsInv(s, specs, None, a);
    RunKeepsInv(s, specs, None, b);
    var (x, y) := (AfterRun(s, specs, None, a), AfterRun(s, specs, None, b));
    forall i | 0 <= i < |specs| ensures x.slots[i] == y.slots[i] {
      assert SlotOk(x.slots[i], specs[i], false) && SlotOk(y.slots[i], specs[i], false);
    }
  }

  /** A module whose worker has not looked at the flag yet when it is set. */
  predicate NotStarted(slot: Slot) {
    slot.Waiting? || slot.ReadingFlag?
  }

  predicate Suppressed(slot: Slot, spec: Spec) {
    NotStarted(slot) || slot == Skipped(spec, GatedLowSuccess) || slot == Skipped(spec, DeadlinePassed)
  }

  /** Once one worker has found the time up, no module that has not started is ever run. */
  lemma {:induction false} TimeoutStopsNewModules(
    s: State, specs: seq<Spec>, deadline: Option<nat>, run: seq<Step>, i: nat)
    requires |s.slots| == |specs| && i < |specs| && s.timedOut && Suppressed(s.slots[i], specs[i])
    requires ValidRun(s, specs, deadline, run)
    ensures var s' := AfterRun(s, specs, deadline, run);
      s'.timedOut && |s'.slots| == |specs| && Suppressed(s'.slots[i], specs[i])
    decreases |run|
  {
    if run != [] {
      TimeoutStopsNewModules(Next(s, specs, deadline, run[0]), specs, deadline, run[1..], i);
    }
  }
}
