/** What a cancel, or the sweep, promises about appends from the moment it has marked a session. */
module StreamingCancellation {
  import opened Options
  import opened RecordBatches
  import opened StreamingProtocol
  import opened StreamingInvariants
  import opened StreamingGuarantees
  import opened StreamingWatch
  import opened StreamingRecordKeeping

  /** The thread has taken the session out of the map and has yet to mark it dead. */
  predicate Marking(pc: Pc, id: Id) {
    pc == CancelMark(id) || (pc.SweepTombstone? && pc.id == id)
  }

  predicate PastLastCheck(pc: Pc, id: Id) {
    pc.InAppend? && pc.id == id && pc.append.Adding?
  }

  predicate AtCheck(pc: Pc, id: Id) {
    pc.InAppend? && pc.id == id && (pc.append.FirstCheck? || pc.append.LastCheck?)
  }

  /** A call is looking for the session in the map. */
  predicate LooksUp(pc: Pc, id: Id) {
    pc.InGlobal? && (pc.job.LookupAppend? || pc.job.LookupFinish? || pc.job.RemoveCancelled?) && pc.job.id == id
  }

  /** What one step does about marking the session, its tombstone and the checks of it. */
  ghost predicate MarkEffects(pc: Pc, sh: Shared, c: Choice, pc': Pc, sh': Shared, id: Id) {
    && (Dooms(pc, sh, c, id) ==> Marking(pc', id) && id !in sh'.registered)
    && (Marking(pc', id) ==> Dooms(pc, sh, c, id))
    && (Marking(pc, id) && id in sh'.entries ==> sh'.entries[id].cancelled)
    && (id in sh.entries && id in sh'.entries && sh.entries[id].cancelled ==> sh'.entries[id].cancelled)
    && (AtCheck(pc, id) && id in sh.entries && sh.entries[id].cancelled ==> pc' == InAppend(id, AppendUnlock(None)))
    && (PastLastCheck(pc', id) ==> AtCheck(pc, id))
    && (LooksUp(pc, id) && id !in sh.registered ==> pc' == Idle)
  }

  lemma FinishMarks(sh: Shared, t: Tid, x: Id, stage: FinishStage, c: Choice, id: Id)
    requires x in sh.entries && x in sh.history
    ensures var next := FinishMove(sh, t, x, stage, c); MarkEffects(InFinish(x, stage), sh, c, next.pc, next.sh, id)
  {
  }

  lemma AppendMarks(sh: Shared, x: Id, stage: AppendStage, c: Choice, id: Id)
    requires x in sh.entries && x in sh.history
    ensures var next := AppendMove(sh, x, stage, c); MarkEffects(InAppend(x, stage), sh, c, next.pc, next.sh, id)
  {
    hide RecordCount;
  }

  lemma JobMarks(sh: Shared, t: Tid, job: Job, c: Choice, id: Id)
    requires Grounded(InGlobal(job), sh)
    ensures var next := JobStep(sh, t, job); MarkEffects(InGlobal(job), sh, c, next.pc, next.sh, id)
  {
  }

  lemma SweepMarks(pc: Pc, sh: Shared, t: Tid, c: Choice, id: Id)
    requires pc.SweepScan? || pc.SweepProbe? || pc.SweepEvict? || pc.SweepTombstone?
    requires CanStep(pc, sh, c) && Grounded(pc, sh)
    ensures var next := SweepStep(pc, sh, t, c); MarkEffects(pc, sh, c, next.pc, next.sh, id)
  {
  }

  lemma DropMarks(pc: Pc, sh: Shared, t: Tid, c: Choice, id: Id)
    requires pc.Dropping? && CanStep(pc, sh, c) && Grounded(pc, sh)
    ensures var next := DropStep(pc, sh, t, c); MarkEffects(pc, sh, c, next.pc, next.sh, id)
  {
  }

  lemma StepMarks(pc: Pc, sh: Shared, t: Tid, c: Choice, id: Id)
    requires CanStep(pc, sh, c) && Grounded(pc, sh)
    ensures var next := Local(pc, sh, t, c); MarkEffects(pc, sh, c, next.pc, next.sh, id)
  {
    hide HasNonInputNeuron, RecordCount, FinishMove, AppendMove, JobStep, SweepStep, DropStep;
    if pc.InFinish? {
      FinishMarks(sh, t, pc.id, pc.finish, c, id);
    } else if pc.InAppend? {
      AppendMarks(sh, pc.id, pc.append, c, id);
    } else if pc.InGlobal? {
      JobMarks(sh, t, pc.job, c, id);
    } else if pc.SweepScan? || pc.SweepProbe? || pc.SweepEvict? || pc.SweepTombstone? {
      SweepMarks(pc, sh, t, c, id);
    } else if pc.Dropping? {
      DropMarks(pc, sh, t, c, id);
    }
  }

  /** The session is out of the map for good, and dead unless `t` is still about to mark it. */
  ghost predicate TakenBy(s: State, id: Id, t: Tid) {
    && id in s.shared.history && id !in s.shared.registered
    && (forall u :: !Inserting(PcOf(s, u), id) && (Marking(PcOf(s, u), id) ==> u == t))
    && (id in s.shared.entries ==> s.shared.entries[id].cancelled || Marking(PcOf(s, t), id))
  }

  /** A registered session is not being inserted, nor is anybody about to mark it. */
  lemma RegisteredIsUntouched(s: State, id: Id, u: Tid)
    requires Inv(s) && id in s.shared.registered
    ensures !Inserting(PcOf(s, u), id) && id in s.shared.entries && id in s.shared.history
  {
    assert ThreadOk(PcOf(s, u), s.shared, u);
  }

  /** Nobody is marking a session that is still in the map. */
  ghost predicate MarkersOk(s: State, id: Id) {
    id in s.shared.registered || id !in s.shared.history ==> forall u :: !Marking(PcOf(s, u), id)
  }

  lemma MarkersStay(s: State, ev: Event, id: Id)
    requires Inv(s) && CanMove(s, ev) && MarkersOk(s, id)
    ensures MarkersOk(Next(s, ev), id)
  {
    hide Inv, Local, Marking;
    var (pc, t, s') := (PcOf(s, ev.thread), ev.thread, Next(s, ev));
    StepMarks(pc, s.shared, t, ev.choice, id);
    StepSession(pc, s.shared, t, ev.choice, id);
    MarkedIsKnown(s, id);
    if id in s'.shared.registered && id !in s.shared.registered {
      InsertedIsUnmarked(s, t, id);
    }
    forall u | id in s'.shared.registered || id !in s'.shared.history ensures !Marking(PcOf(s', u), id) {
      assert u != t ==> PcOf(s', u) == PcOf(s, u);
    }
  }

  lemma MarkedIsKnown(s: State, id: Id)
    requires Inv(s)
    ensures forall u :: Marking(PcOf(s, u), id) ==> id in s.shared.entries && id in s.shared.history
    ensures id in s.shared.registered ==> id in s.shared.history
  {
    forall u | Marking(PcOf(s, u), id) ensures id in s.shared.entries && id in s.shared.history {
      assert ThreadOk(PcOf(s, u), s.shared, u);
    }
  }

  /** The thread that inserts a session is the only one with a handle to it. */
  lemma InsertedIsUnmarked(s: State, t: Tid, id: Id)
    requires Inv(s) && PcOf(s, t) == InGlobal(Insert(id))
    ensures forall u :: !Marking(PcOf(s, u), id)
  {
    assert ThreadOk(PcOf(s, t), s.shared, t);
    forall u ensures !Marking(PcOf(s, u), id) {
      assert ThreadOk(PcOf(s, u), s.shared, u);
    }
  }

  lemma {:induction false} MarkersAlongRun(s: State, events: seq<Event>, id: Id)
    requires Inv(s) && ValidRun(s, events) && MarkersOk(s, id)
    ensures MarkersOk(RunFrom(s, events), id)
    decreases |events|
  {
    hide Inv, Local, MarkersOk;
    if events != [] {
      NextOk(s, events[0]);
      MarkersStay(s, events[0], id);
      MarkersAlongRun(Next(s, events[0]), events[1..], id);
    }
  }

  lemma ReachableMarkers(s: State, id: Id)
    requires Reachable(s)
    ensures Inv(s) && MarkersOk(s, id)
  {
    hide Inv;
    var s0, events :| Initial(s0) && ValidRun(s0, events) && s == RunFrom(s0, events);
    InitialOk(s0);
    RunKeepsInv(s0, events);
    MarkersAlongRun(s0, events, id);
  }

  lemma TakingStarts(s: State, ev: Event, id: Id)
    requires Inv(s) && MarkersOk(s, id) && CanMove(s, ev) && Dooms(PcOf(s, ev.thread), s.shared, ev.choice, id)
    ensures TakenBy(Next(s, ev), id, ev.thread)
  {
    hide Inv, Local, Marking, Inserting;
    var (pc, t, s') := (PcOf(s, ev.thread), ev.thread, Next(s, ev));
    StepMarks(pc, s.shared, t, ev.choice, id);
    StepSession(pc, s.shared, t, ev.choice, id);
    StepThread(pc, s.shared, t, ev.choice, id);
    RegisteredIsUntouched(s, id, t);
    forall u ensures !Inserting(PcOf(s', u), id) && (Marking(PcOf(s', u), id) ==> u == t) {
      RegisteredIsUntouched(s, id, u);
      assert u != t ==> PcOf(s', u) == PcOf(s, u);
    }
  }

  lemma TakingStays(s: State, ev: Event, id: Id, t: Tid)
    requires Inv(s) && CanMove(s, ev) && TakenBy(s, id, t)
    ensures TakenBy(Next(s, ev), id, t)
    ensures !Marking(PcOf(s, t), id) ==> !Marking(PcOf(Next(s, ev), t), id)
  {
    hide Inv, Local, Marking;
    var (pc, s') := (PcOf(s, ev.thread), Next(s, ev));
    StepMarks(pc, s.shared, ev.thread, ev.choice, id);
    StepSession(pc, s.shared, ev.thread, ev.choice, id);
    StepThread(pc, s.shared, ev.thread, ev.choice, id);
    assert t != ev.thread ==> PcOf(s', t) == PcOf(s, t);
    forall u ensures !Inserting(PcOf(s', u), id) && (Marking(PcOf(s', u), id) ==> u == t) {
      assert u != ev.thread ==> PcOf(s', u) == PcOf(s, u);
    }
  }

  lemma {:induction false} TakingAlongRun(s: State, events: seq<Event>, id: Id, t: Tid)
    requires Inv(s) && ValidRun(s, events) && TakenBy(s, id, t)
    ensures TakenBy(RunFrom(s, events), id, t)
    decreases |events|
  {
    hide Inv, Local, TakenBy;
    if events != [] {
      NextOk(s, events[0]);
      TakingStays(s, events[0], id, t);
      TakingAlongRun(Next(s, events[0]), events[1..], id, t);
    }
  }

  /** The batch of the append that is past its last check, if there is one. */
  ghost function PendingBatch(s: State, id: Id): nat
    requires id in s.shared.entries
  {
    var lock := s.shared.entries[id].lock;
    if lock.Some? && PastLastCheck(PcOf(s, lock.value), id) then PcOf(s, lock.value).append.sum else 0
  }

  /** All the records that can ever count for the session: counted, or past the last check. */
  ghost function MostRecords(s: State, id: Id): nat
    requires id in s.shared.history
  {
    if id in s.shared.entries then s.shared.entries[id].recordsWritten + PendingBatch(s, id)
    else s.shared.history[id].acked
  }

  /** A dead session with at most this many records, counting the batch past its last check. */
  ghost predicate DeadWithin(s: State, id: Id, t: Tid, most: nat) {
    && TakenBy(s, id, t) && !Marking(PcOf(s, t), id) && s.shared.history[id].acked <= most
    && (id in s.shared.entries ==> s.shared.entries[id].recordsWritten <= most)
    && forall u | PastLastCheck(PcOf(s, u), id) ::
         id in s.shared.entries && s.shared.entries[id].recordsWritten + PcOf(s, u).append.sum <= most
  }

  lemma OneHolder(s: State, id: Id, t: Tid, u: Tid)
    requires Inv(s) && SessionOf(PcOf(s, t)) == Some(id) && SessionOf(PcOf(s, u)) == Some(id)
    ensures t == u && id in s.shared.entries && s.shared.entries[id].lock == Some(t)
  {
    assert ThreadOk(PcOf(s, t), s.shared, t);
    assert ThreadOk(PcOf(s, u), s.shared, u);
  }

  /** What was acknowledged never exceeds what is counted. */
  lemma AcknowledgedIsCounted(s: State, id: Id)
    requires Inv(s) && id in s.shared.entries
    ensures id in s.shared.history && s.shared.history[id].acked <= s.shared.entries[id].recordsWritten
  {
    var lock := s.shared.entries[id].lock;
    if lock.Some? {
      assert ThreadOk(PcOf(s, lock.value), s.shared, lock.value);
    }
  }

  lemma DeadNow(s: State, id: Id, t: Tid)
    requires Inv(s) && TakenBy(s, id, t) && !Marking(PcOf(s, t), id)
    ensures DeadWithin(s, id, t, MostRecords(s, id))
  {
    hide Inv;
    if id in s.shared.entries {
      AcknowledgedIsCounted(s, id);
    }
    forall u | PastLastCheck(PcOf(s, u), id)
      ensures id in s.shared.entries
      ensures s.shared.entries[id].recordsWritten + PcOf(s, u).append.sum <= MostRecords(s, id)
    {
      OneHolder(s, id, u, u);
    }
  }

  lemma PendingStays(s: State, ev: Event, id: Id, t: Tid, most: nat, u: Tid)
    requires Inv(s) && CanMove(s, ev) && DeadWithin(s, id, t, most) && PastLastCheck(PcOf(Next(s, ev), u), id)
    ensures u != ev.thread && PcOf(Next(s, ev), u) == PcOf(s, u)
    ensures id in Next(s, ev).shared.entries
    ensures Next(s, ev).shared.entries[id].recordsWritten == s.shared.entries[id].recordsWritten
  {
    hide Inv, Local, Inserting, Dooms;
    var pc := PcOf(s, ev.thread);
    StepMarks(pc, s.shared, ev.thread, ev.choice, id);
    StepSession(pc, s.shared, ev.thread, ev.choice, id);
    NextOk(s, ev);
    OneHolder(Next(s, ev), id, u, u);
    if AtCheck(pc, id) {
      OneHolder(s, id, ev.thread, ev.thread);
      assert s.shared.entries[id].cancelled;
    }
    if AddsRecords(pc, id) && u != ev.thread {
      OneHolder(s, id, ev.thread, u);
    }
  }

  lemma DeadStays(s: State, ev: Event, id: Id, t: Tid, most: nat)
    requires Inv(s) && CanMove(s, ev) && DeadWithin(s, id, t, most)
    ensures DeadWithin(Next(s, ev), id, t, most)
  {
    hide Inv, Local, Marking, Inserting;
    var (pc, s') := (PcOf(s, ev.thread), Next(s, ev));
    TakingStays(s, ev, id, t);
    StepSession(pc, s.shared, ev.thread, ev.choice, id);
    NextOk(s, ev);
    if id in s'.shared.entries {
      AcknowledgedIsCounted(s', id);
    } else {
      HistoryOfAbsent(s, ev, id);
    }
    forall u | PastLastCheck(PcOf(s', u), id)
      ensures id in s'.shared.entries && s'.shared.entries[id].recordsWritten + PcOf(s', u).append.sum <= most
    {
      PendingStays(s, ev, id, t, most, u);
    }
  }

  /** What the steps of a run do once the session is dead: every check fails, every look-up misses. */
  ghost predicate Refuses(s: State, ev: Event, id: Id)
    requires CanMove(s, ev)
  {
    var (pc, pc') := (PcOf(s, ev.thread), PcOf(Next(s, ev), ev.thread));
    && (AtCheck(pc, id) ==> pc' == InAppend(id, AppendUnlock(None)))
    && (LooksUp(pc, id) ==> pc' == Idle)
  }

  ghost predicate RefusesAll(s: State, events: seq<Event>, id: Id)
    requires ValidRun(s, events)
    decreases |events|
  {
    events == [] || (Refuses(s, events[0], id) && RefusesAll(Next(s, events[0]), events[1..], id))
  }

  lemma DeadRefuses(s: State, ev: Event, id: Id, t: Tid, most: nat)
    requires Inv(s) && CanMove(s, ev) && DeadWithin(s, id, t, most)
    ensures Refuses(s, ev, id)
  {
    hide Inv, Local, Marking, Inserting, Dooms;
    StepMarks(PcOf(s, ev.thread), s.shared, ev.thread, ev.choice, id);
    if AtCheck(PcOf(s, ev.thread), id) {
      OneHolder(s, id, ev.thread, ev.thread);
    }
  }

  lemma {:induction false} DeadAlongRun(s: State, events: seq<Event>, id: Id, t: Tid, most: nat)
    requires Inv(s) && ValidRun(s, events) && DeadWithin(s, id, t, most)
    ensures RefusesAll(s, events, id) && DeadWithin(RunFrom(s, events), id, t, most)
    decreases |events|
  {
    hide Inv, Local, DeadWithin, Refuses;
    if events != [] {
      NextOk(s, events[0]);
      DeadRefuses(s, events[0], id, t, most);
      DeadStays(s, events[0], id, t, most);
      DeadAlongRun(Next(s, events[0]), events[1..], id, t, most);
    }
  }

  /**
   A cancel or a sweep takes the session out of the map with the step `ev`. Once that thread has
   marked it, in every continuation every check of an append to it fails and every look-up
   misses it; and the acknowledged total stays within the records counted at that moment, plus
   those of the one append that was then already past its last check.
   */
  lemma DeadSessionsTakeNoMore(s: State, ev: Event, middle: seq<Event>, rest: seq<Event>, id: Id)
    requires Reachable(s) && CanMove(s, ev) && Dooms(PcOf(s, ev.thread), s.shared, ev.choice, id)
    requires ValidRun(Next(s, ev), middle) && !Marking(PcOf(RunFrom(Next(s, ev), middle), ev.thread), id)
    requires ValidRun(RunFrom(Next(s, ev), middle), rest)
    ensures var marked := RunFrom(Next(s, ev), middle);
      && id in marked.shared.history && RefusesAll(marked, rest, id)
      && id in RunFrom(marked, rest).shared.history && id !in RunFrom(marked, rest).shared.registered
      && RunFrom(marked, rest).shared.history[id].acked <= MostRecords(marked, id)
  {
    hide Inv, Local, MarkersOk, Marking, Dooms, Inserting, MostRecords, Reachable;
    ReachableMarkers(s, id);
    TakingStarts(s, ev, id);
    NextOk(s, ev);
    TakingAlongRun(Next(s, ev), middle, id, ev.thread);
    RunKeepsInv(Next(s, ev), middle);
    var marked := RunFrom(Next(s, ev), middle);
    DeadNow(marked, id, ev.thread);
    DeadAlongRun(marked, rest, id, ev.thread, MostRecords(marked, id));
  }

  /** The cancel call itself: taking the session out of the map leads straight to marking it. */
  lemma DoomedIsMarkedNext(s: State, ev: Event, mark: Event, id: Id)
    requires Reachable(s) && CanMove(s, ev) && Dooms(PcOf(s, ev.thread), s.shared, ev.choice, id)
    requires mark.thread == ev.thread && CanMove(Next(s, ev), mark)
    ensures Marking(PcOf(Next(s, ev), ev.thread), id) && !Marking(PcOf(Next(Next(s, ev), mark), ev.thread), id)
    ensures id in Next(Next(s, ev), mark).shared.entries && Next(Next(s, ev), mark).shared.entries[id].cancelled
  {
    hide Inv, Local, MarkersOk, Reachable;
    ReachableMarkers(s, id);
    TakingStarts(s, ev, id);
    NextOk(s, ev);
    StepMarks(PcOf(s, ev.thread), s.shared, ev.thread, ev.choice, id);
    StepMarks(PcOf(Next(s, ev), ev.thread), Next(s, ev).shared, ev.thread, mark.choice, id);
    StepSession(PcOf(Next(s, ev), ev.thread), Next(s, ev).shared, ev.thread, mark.choice, id);
    MarkedIsKnown(Next(s, ev), id);
  }

  // Which sessions a sweep takes: exactly those it found stale.

  predicate Sweeping(pc: Pc) {
    pc.SweepScan? || pc.SweepProbe? || pc.SweepEvict? || pc.SweepTombstone?
  }

  function StaleOf(pc: Pc): set<Id> {
    if Sweeping(pc) then pc.stale else {}
  }

  /** The sweep holds the session's lock and finds that it is too old. */
  predicate FindsStale(pc: Pc, c: Choice, id: Id) {
    pc.SweepProbe? && pc.id == id && c == IsStale
  }

  /** How the sweep's list changes: it grows by what is found stale, and shrinks by what is evicted. */
  ghost predicate StaleEffects(pc: Pc, sh: Shared, c: Choice, pc': Pc, sh': Shared, id: Id) {
    && (id in StaleOf(pc') ==> id in StaleOf(pc) || FindsStale(pc, c, id))
    && (FindsStale(pc, c, id) ==> id in StaleOf(pc'))
    && (id in StaleOf(pc) && id in sh'.registered ==> id in StaleOf(pc'))
  }

  lemma SweepStale(pc: Pc, sh: Shared, t: Tid, c: Choice, id: Id)
    requires Sweeping(pc) && CanStep(pc, sh, c) && Grounded(pc, sh)
    ensures var next := SweepStep(pc, sh, t, c); StaleEffects(pc, sh, c, next.pc, next.sh, id)
  {
  }

  lemma StepStale(pc: Pc, sh: Shared, t: Tid, c: Choice, id: Id)
    requires CanStep(pc, sh, c) && Grounded(pc, sh)
    ensures var next := Local(pc, sh, t, c); StaleEffects(pc, sh, c, next.pc, next.sh, id)
  {
    hide HasNonInputNeuron, RecordCount, SweepStep;
    if Sweeping(pc) {
      SweepStale(pc, sh, t, c, id);
    }
  }

  /** In the run the thread, holding the session's lock, finds it stale. */
  ghost predicate FoundStale(s: State, events: seq<Event>, t: Tid, id: Id)
    requires ValidRun(s, events)
    decreases |events|
  {
    events != [] &&
    ((events[0].thread == t && FindsStale(PcOf(s, t), events[0].choice, id))
     || FoundStale(Next(s, events[0]), events[1..], t, id))
  }

  lemma {:induction false} ListedWasFoundStale(s: State, events: seq<Event>, t: Tid, id: Id)
    requires ValidRun(s, events) && id in StaleOf(PcOf(RunFrom(s, events), t))
    ensures id in StaleOf(PcOf(s, t)) || FoundStale(s, events, t, id)
    decreases |events|
  {
    hide Local, StaleOf, FindsStale;
    if events != [] {
      var ev := events[0];
      ListedWasFoundStale(Next(s, ev), events[1..], t, id);
      if ev.thread == t {
        StepStale(PcOf(s, t), s.shared, t, ev.choice, id);
      } else {
        assert PcOf(Next(s, ev), t) == PcOf(s, t);
      }
    }
  }

  /** A sweep evicts no session that it did not find stale while it held the session's lock. */
  lemma EvictedWasFoundStale(s: State, events: seq<Event>, ev: Event, id: Id)
    requires Initial(s) && ValidRun(s, events) && CanMove(RunFrom(s, events), ev)
    requires PcOf(RunFrom(s, events), ev.thread).SweepEvict?
    requires id in RunFrom(s, events).shared.registered && id !in Next(RunFrom(s, events), ev).shared.registered
    ensures FoundStale(s, events, ev.thread, id)
  {
    hide Local, ValidRun, RunFrom, FindsStale;
    var now := RunFrom(s, events);
    StepSession(PcOf(now, ev.thread), now.shared, ev.thread, ev.choice, id);
    ListedWasFoundStale(s, events, ev.thread, id);
  }

  /** The session is on the sweep's list and in the map, or out of the map for good. */
  ghost predicate Condemned(s: State, id: Id, t: Tid) {
    || (id in StaleOf(PcOf(s, t)) && id in s.shared.registered)
    || (id in s.shared.history && id !in s.shared.registered && forall u :: !Inserting(PcOf(s, u), id))
  }

  lemma CondemnedStays(s: State, ev: Event, id: Id, t: Tid)
    requires Inv(s) && CanMove(s, ev) && Condemned(s, id, t)
    ensures Condemned(Next(s, ev), id, t)
  {
    hide Inv, Local, StaleOf;
    var (pc, s') := (PcOf(s, ev.thread), Next(s, ev));
    StepSession(pc, s.shared, ev.thread, ev.choice, id);
    StepThread(pc, s.shared, ev.thread, ev.choice, id);
    StepStale(pc, s.shared, ev.thread, ev.choice, id);
    assert ev.thread != t ==> PcOf(s', t) == PcOf(s, t);
    if id in s.shared.registered {
      RegisteredIsUntouched(s, id, t);
    }
    if id !in s'.shared.registered {
      forall u ensures !Inserting(PcOf(s', u), id) {
        if id in s.shared.registered {
          RegisteredIsUntouched(s, id, u);
        }
        assert u != ev.thread ==> PcOf(s', u) == PcOf(s, u);
      }
    }
  }

  lemma {:induction false} CondemnedAlongRun(s: State, events: seq<Event>, id: Id, t: Tid)
    requires Inv(s) && ValidRun(s, events) && Condemned(s, id, t)
    ensures Condemned(RunFrom(s, events), id, t)
    decreases |events|
  {
    hide Inv, Local, Condemned;
    if events != [] {
      NextOk(s, events[0]);
      CondemnedStays(s, events[0], id, t);
      CondemnedAlongRun(Next(s, events[0]), events[1..], id, t);
    }
  }

  /** What a sweep finds stale is out of the map, for good, once the sweep has let go of the map. */
  lemma StaleSessionsAreEvicted(s: State, ev: Event, events: seq<Event>, id: Id)
    requires Reachable(s) && CanMove(s, ev) && FindsStale(PcOf(s, ev.thread), ev.choice, id)
    requires ValidRun(Next(s, ev), events) && !Sweeping(PcOf(RunFrom(Next(s, ev), events), ev.thread))
    ensures id !in RunFrom(Next(s, ev), events).shared.registered
  {
    hide Inv, Local, Inserting, Reachable, ValidRun, RunFrom;
    ReachableMarkers(s, id);
    NextOk(s, ev);
    StepStale(PcOf(s, ev.thread), s.shared, ev.thread, ev.choice, id);
    StepSession(PcOf(s, ev.thread), s.shared, ev.thread, ev.choice, id);
    ProbedIsRegistered(s, ev.thread);
    CondemnedAlongRun(Next(s, ev), events, id, ev.thread);
  }

  /** The sweep probes registered sessions whose lock it has taken. */
  lemma ProbedIsRegistered(s: State, t: Tid)
    requires Inv(s) && PcOf(s, t).SweepProbe?
    ensures var id := PcOf(s, t).id;
      id in s.shared.registered && id in s.shared.entries && s.shared.entries[id].lock == Some(t)
  {
    assert ThreadOk(PcOf(s, t), s.shared, t);
  }

  /** The sessions that a sweep has yet to look at. */
  function TodoOf(pc: Pc): set<Id> {
    if pc.SweepScan? || pc.SweepProbe? then pc.todo else {}
  }

  /** The sweep turns to the session, and probes it if nobody holds its lock. */
  predicate Examines(pc: Pc, sh: Shared, c: Choice, pc': Pc, id: Id) {
    && pc.SweepScan? && c == Pick(id) && id in sh.entries
    && (sh.entries[id].lock == None ==> pc'.SweepProbe? && pc'.id == id)
  }

  lemma StepTodo(pc: Pc, sh: Shared, t: Tid, c: Choice, id: Id)
    requires CanStep(pc, sh, c) && Grounded(pc, sh)
    ensures var pc' := Local(pc, sh, t, c).pc;
      && (pc.InGlobal? && pc.job.Scan? && id in sh.registered ==> id in TodoOf(pc'))
      && (id in TodoOf(pc) ==> id in TodoOf(pc') || Examines(pc, sh, c, pc', id))
  {
    hide HasNonInputNeuron, RecordCount;
  }

  /** In the run the thread's sweep turns to the session. */
  ghost predicate Examined(s: State, events: seq<Event>, t: Tid, id: Id)
    requires ValidRun(s, events)
    decreases |events|
  {
    events != [] &&
    ((events[0].thread == t
      && Examines(PcOf(s, t), s.shared, events[0].choice, PcOf(Next(s, events[0]), t), id))
     || Examined(Next(s, events[0]), events[1..], t, id))
  }

  lemma {:induction false} TodoIsExamined(s: State, events: seq<Event>, t: Tid, id: Id)
    requires ValidRun(s, events) && id in TodoOf(PcOf(s, t)) && id !in TodoOf(PcOf(RunFrom(s, events), t))
    ensures Examined(s, events, t, id)
    decreases |events|
  {
    hide Local, TodoOf, Examines;
    if events != [] {
      var ev := events[0];
      if ev.thread == t {
        StepTodo(PcOf(s, t), s.shared, t, ev.choice, id);
      } else {
        assert PcOf(Next(s, ev), t) == PcOf(s, t);
      }
      if id in TodoOf(PcOf(Next(s, ev), t)) {
        TodoIsExamined(Next(s, ev), events[1..], t, id);
      }
    }
  }

  /**
   A sweep is done with its scan only after it has turned to every session that was in the map
   when it began, and has probed each whose lock was free.
   */
  lemma SweepExaminesEverySession(s: State, ev: Event, events: seq<Event>, id: Id)
    requires CanMove(s, ev) && PcOf(s, ev.thread).InGlobal? && PcOf(s, ev.thread).job.Scan?
    requires id in s.shared.registered && ValidRun(Next(s, ev), events)
    requires var pc := PcOf(RunFrom(Next(s, ev), events), ev.thread); !pc.SweepScan? && !pc.SweepProbe?
    ensures Examined(Next(s, ev), events, ev.thread, id)
  {
    hide Local, Examines;
    StepTodo(PcOf(s, ev.thread), s.shared, ev.thread, ev.choice, id);
    TodoIsExamined(Next(s, ev), events, ev.thread, id);
  }

  predicate AwaitsScan(pc: Pc) {
    (pc.WantGlobal? || pc.InGlobal?) && pc.job.Scan?
  }

  /** In the run the thread's scan of the map begins. */
  ghost predicate Scans(s: State, events: seq<Event>, t: Tid)
    requires ValidRun(s, events)
    decreases |events|
  {
    events != [] &&
    ((events[0].thread == t && PcOf(s, t).InGlobal? && PcOf(s, t).job.Scan?)
     || Scans(Next(s, events[0]), events[1..], t))
  }

  lemma {:induction false} AwaitedScanComes(s: State, events: seq<Event>, t: Tid)
    requires ValidRun(s, events) && AwaitsScan(PcOf(s, t)) && !AwaitsScan(PcOf(RunFrom(s, events), t))
    ensures Scans(s, events, t)
    decreases |events|
  {
    hide JobStep, SweepStep, DropStep, DeleteStep, CreateStep, AppendMove, FinishMove;
    if events != [] && AwaitsScan(PcOf(Next(s, events[0]), t)) {
      AwaitedScanComes(Next(s, events[0]), events[1..], t);
    }
  }

  /** A start call creates its session only after it has swept. */
  lemma StartSweepsFirst(s: State, ev: Event, events: seq<Event>)
    requires CanMove(s, ev) && ev.choice.Begin? && ev.choice.request.Start? && ValidRun(Next(s, ev), events)
    requires PcOf(RunFrom(Next(s, ev), events), ev.thread).StartCreate?
    ensures Scans(Next(s, ev), events, ev.thread)
  {
    AwaitedScanComes(Next(s, ev), events, ev.thread);
  }
}
