/**
 Where the protocol stops short of its documentation: runs from a fresh process in which
 acknowledged records, or another session's recording, are lost.
 */
module StreamingLimits {
  import opened Options
  import opened RecordBatches
  import opened StreamingProtocol
  import opened StreamingInvariants
  import opened StreamingFiles
  import opened StreamingGuarantees
  import opened StreamingOwnership
  import opened StreamingWatch
  import opened StreamingRecordKeeping

  /** A run without cancels, in which no session is found stale, leads from `s` to `s'`. */
  ghost predicate Leads(s: State, s': State) {
    exists events :: ValidRun(s, events) && Unprovoked(events) && RunFrom(s, events) == s'
  }

  lemma {:induction false} RunSnoc(s: State, events: seq<Event>, ev: Event)
    requires ValidRun(s, events) && CanMove(RunFrom(s, events), ev)
    ensures ValidRun(s, events + [ev]) && RunFrom(s, events + [ev]) == Next(RunFrom(s, events), ev)
    decreases |events|
  {
    if events == [] {
      assert events + [ev] == [ev];
      assert [ev][1..] == [];
    } else {
      assert (events + [ev])[1..] == events[1..] + [ev];
      RunSnoc(Next(s, events[0]), events[1..], ev);
    }
  }

  lemma LeadsNowhere(s: State)
    ensures Leads(s, s)
  {
    assert ValidRun(s, []) && Unprovoked([]) && RunFrom(s, []) == s;
  }

  /** One more step of a run in progress. */
  lemma Advance(s0: State, s: State, t: Tid, c: Choice) returns (s': State)
    requires Inv(s0) && Leads(s0, s) && CanStep(PcOf(s, t), s.shared, c)
    requires c != IsStale && !(c.Begin? && c.request.Cancel?)
    ensures CanMove(s, Event(t, c)) && s' == Next(s, Event(t, c))
    ensures Leads(s0, s')
    ensures forall u :: u != t ==> PcOf(s', u) == PcOf(s, u)
  {
    hide Inv, Local, CanStep, Grounded;
    var ev := Event(t, c);
    var events :| ValidRun(s0, events) && Unprovoked(events) && RunFrom(s0, events) == s;
    RunKeepsInv(s0, events);
    NextOk(s, ev);
    s' := Next(s, ev);
    RunSnoc(s0, events, ev);
  }

  /** Session `id` is in state (e, h) and thread `t` is at `pc`. */
  ghost predicate Shows(s: State, id: Id, e: Entry, h: History) {
    id in s.shared.entries && id in s.shared.history && s.shared.entries[id] == e && s.shared.history[id] == h
  }

  /** Only thread `t` moved, and no session was created. */
  ghost predicate OnlyThread(s: State, s': State, t: Tid) {
    && (forall u :: u != t ==> PcOf(s', u) == PcOf(s, u))
    && s'.shared.history.Keys == s.shared.history.Keys
  }

  /** In addition the map, its lock and the files are as before. */
  ghost predicate OnlySessions(s: State, s': State, t: Tid) {
    && OnlyThread(s, s', t)
    && s'.shared.registered == s.shared.registered && s'.shared.globalLock == s.shared.globalLock
    && s'.shared.files == s.shared.files
  }

  lemma AppendAdvance(s0: State, s: State, t: Tid, id: Id, stage: AppendStage, e: Entry, h: History)
    returns (s': State)
    requires Inv(s0) && Leads(s0, s) && PcOf(s, t) == InAppend(id, stage) && Shows(s, id, e, h)
    ensures Leads(s0, s') && OnlySessions(s, s', t)
    ensures var held := AppendStep(id, e, h, stage, Go);
      PcOf(s', t) == held.pc && Shows(s', id, held.e, held.h)
  {
    hide Inv, Leads, RecordCount;
    s' := Advance(s0, s, t, Go);
  }

  lemma FinishAdvance(s0: State, s: State, t: Tid, id: Id, stage: FinishStage, e: Entry, h: History, c: Choice)
    returns (s': State)
    requires Inv(s0) && Leads(s0, s) && PcOf(s, t) == InFinish(id, stage) && Shows(s, id, e, h)
    requires !stage.Renaming? && (c == Go || (stage.Flushing? && c == IoError))
    ensures Leads(s0, s') && OnlySessions(s, s', t)
    ensures var held := FinishStep(id, e, h, t, stage, false, c);
      PcOf(s', t) == held.pc && Shows(s', id, held.e, held.h)
  {
    hide Inv, Leads, RecordCount;
    s' := Advance(s0, s, t, c);
  }

  /** A thread starts a call and takes a handle out of the map. */
  lemma LookUp(s0: State, s: State, t: Tid, id: Id, request: Request, e: Entry, h: History) returns (s': State)
    requires Inv(s0) && Leads(s0, s) && PcOf(s, t) == Idle && s.shared.globalLock == None && Shows(s, id, e, h)
    requires id in s.shared.registered && (request.Append? || request.Finish?) && request.id == id
    ensures Leads(s0, s') && OnlySessions(s, s', t)
    ensures PcOf(s', t) == if request.Append? then WantAppend(id, request.batches) else WantFinish(id)
    ensures Shows(s', id, AddRef(e, t), h)
  {
    hide Inv, Leads, RecordCount;
    s' := Advance(s0, s, t, Begin(request));
    s' := Advance(s0, s', t, Go);
    s' := Advance(s0, s', t, Go);
  }

  /** A waiting thread takes the free session lock. */
  lemma TakeLock(s0: State, s: State, t: Tid, id: Id, e: Entry, h: History) returns (s': State)
    requires Inv(s0) && Leads(s0, s) && (PcOf(s, t).WantAppend? || PcOf(s, t).WantFinish?) && PcOf(s, t).id == id
    requires Shows(s, id, e, h) && e.lock == None
    ensures Leads(s0, s') && OnlySessions(s, s', t)
    ensures PcOf(s', t) == if PcOf(s, t).WantFinish? then InFinish(id, EmptyCheck)
                           else InAppend(id, FirstCheck(PcOf(s, t).batches))
    ensures Shows(s', id, e.(lock := Some(t)), h)
  {
    hide Inv, Leads, RecordCount;
    s' := Advance(s0, s, t, Go);
  }

  /** A call returns, releasing a handle that is not the last one. */
  lemma ReleaseHandle(s0: State, s: State, t: Tid, id: Id, e: Entry, h: History) returns (s': State)
    requires Inv(s0) && Leads(s0, s) && PcOf(s, t) == Dropping({id}, None) && Shows(s, id, e, h)
    requires id in s.shared.registered || e.refs != {t}
    ensures Leads(s0, s') && OnlySessions(s, s', t) && PcOf(s', t) == Idle
    ensures Shows(s', id, DropRef(e, t), h)
  {
    hide Inv, Leads, RecordCount;
    s' := Advance(s0, s, t, Pick(id));
    assert {id} - {id} == {};
    s' := Advance(s0, s', t, Go);
  }

  /** An append of one batch, from taking the session lock to its final check. */
  lemma WriteBatch(s0: State, s: State, t: Tid, id: Id, batch: Batch, e: Entry, h: History) returns (s': State)
    requires Inv(s0) && Leads(s0, s) && PcOf(s, t) == WantAppend(id, [batch]) && Shows(s, id, e, h)
    requires e.lock == None && !e.cancelled && e.writerOpen && RecordCount(e.creature, batch) > 0
    ensures Leads(s0, s') && OnlySessions(s, s', t)
    ensures var n := RecordCount(e.creature, batch);
      PcOf(s', t) == InAppend(id, LastCheck(n)) && Shows(s', id, e.(lock := Some(t)), h.(written := h.written + n))
  {
    hide Inv, Leads, RecordCount;
    var n := RecordCount(e.creature, batch);
    var locked := e.(lock := Some(t));
    s' := TakeLock(s0, s, t, id, e, h);
    s' := AppendAdvance(s0, s', t, id, FirstCheck([batch]), locked, h);
    s' := AppendAdvance(s0, s', t, id, Writing([batch], 0), locked, h);
    assert [batch][1..] == [];
    s' := AppendAdvance(s0, s', t, id, Writing([], n), locked, h.(written := h.written + n));
  }

  /** The final check passes and the batch is added. */
  lemma AddBatch(s0: State, s: State, t: Tid, id: Id, n: nat, e: Entry, h: History) returns (s': State)
    requires Inv(s0) && Leads(s0, s) && PcOf(s, t) == InAppend(id, LastCheck(n)) && Shows(s, id, e, h)
    requires !e.cancelled
    ensures Leads(s0, s') && OnlySessions(s, s', t) && PcOf(s', t) == InAppend(id, AppendUnlock(Some(n)))
    ensures Shows(s', id, e.(recordsWritten := e.recordsWritten + n), h)
  {
    hide Inv, Leads, RecordCount;
    s' := AppendAdvance(s0, s, t, id, LastCheck(n), e, h);
    s' := AppendAdvance(s0, s', t, id, Adding(n), e, h);
  }

  /** The rest of an append to a live session: the batch is added and acknowledged. */
  lemma AcknowledgeBatch(s0: State, s: State, t: Tid, id: Id, n: nat, e: Entry, h: History) returns (s': State)
    requires Inv(s0) && Leads(s0, s) && PcOf(s, t) == InAppend(id, LastCheck(n)) && Shows(s, id, e, h)
    requires !e.cancelled
    ensures Leads(s0, s') && OnlySessions(s, s', t) && PcOf(s', t) == Dropping({id}, None)
    ensures Shows(s', id, e.(lock := None, recordsWritten := e.recordsWritten + n), h.(acked := h.acked + n))
  {
    hide Inv, Leads, RecordCount;
    s' := AddBatch(s0, s, t, id, n, e, h);
    s' := AppendAdvance(s0, s', t, id, AppendUnlock(Some(n)), e.(recordsWritten := e.recordsWritten + n), h);
  }

  /** A finish that finds no records unlocks the session and heads for the map. */
  lemma FinishEmptyUnlock(s0: State, s: State, t: Tid, id: Id, e: Entry, h: History) returns (s': State)
    requires Inv(s0) && Leads(s0, s) && PcOf(s, t) == WantFinish(id) && Shows(s, id, e, h)
    requires e.lock == None && e.recordsWritten == 0
    ensures Leads(s0, s') && OnlySessions(s, s', t) && PcOf(s', t) == WantGlobal(RemoveEmpty(id))
    ensures Shows(s', id, e, h)
  {
    hide Inv, Leads, RecordCount;
    s' := TakeLock(s0, s, t, id, e, h);
    s' := FinishAdvance(s0, s', t, id, EmptyCheck, e.(lock := Some(t)), h, Go);
    s' := FinishAdvance(s0, s', t, id, EmptyUnlock, e.(lock := Some(t)), h, Go);
  }

  /** That finish removes the session from the map and, holding the last handle, deletes it. */
  lemma FinishEmptyDelete(s0: State, s: State, t: Tid, id: Id, e: Entry, h: History) returns (s': State)
    requires Inv(s0) && Leads(s0, s) && PcOf(s, t) == WantGlobal(RemoveEmpty(id)) && s.shared.globalLock == None
    requires Shows(s, id, e, h) && e.refs == {t} && !e.finished && !e.preserve
    ensures Leads(s0, s')
    ensures id !in s'.shared.entries && Tmp(e.path) !in s'.shared.files
    ensures id in s'.shared.history && s'.shared.history[id] == h && s'.shared.history.Keys == s.shared.history.Keys
  {
    hide Inv, Leads, RecordCount;
    s' := Advance(s0, s, t, Go);
    s' := Advance(s0, s', t, Go);
    assert Shows(s', id, e, h) && id !in s'.shared.registered;
    s' := Advance(s0, s', t, Pick(id));
    assert Shows(s', id, e, h) && PcOf(s', t).Deleting?;
    s' := Advance(s0, s', t, Go);
  }

  /** A finish has found the session empty and unlocked it; an append holds a handle. */
  lemma FinishOvertaken(s0: State, s: State, id: Id, t: Tid, u: Tid, batch: Batch, e: Entry, h: History)
    returns (s': State)
    requires Inv(s0) && Leads(s0, s) && s.shared.globalLock == None
    requires t != u && PcOf(s, t) == Idle && PcOf(s, u) == Idle
    requires id in s.shared.registered && Shows(s, id, e, h) && e.lock == None && e.recordsWritten == 0
    ensures Leads(s0, s') && s'.shared.globalLock == None && s'.shared.history.Keys == s.shared.history.Keys
    ensures PcOf(s', t) == WantGlobal(RemoveEmpty(id)) && PcOf(s', u) == WantAppend(id, [batch])
    ensures id in s'.shared.registered && Shows(s', id, AddRef(AddRef(e, t), u), h)
  {
    hide Inv, Leads, RecordCount;
    s' := LookUp(s0, s, t, id, Finish(id), e, h);
    s' := LookUp(s0, s', u, id, Append(id, [batch]), AddRef(e, t), h);
    s' := FinishEmptyUnlock(s0, s', t, id, AddRef(AddRef(e, t), u), h);
  }

  /** The append is acknowledged and returns; then the finish deletes the session. */
  lemma AppendThenDelete(s0: State, s: State, id: Id, t: Tid, u: Tid, batch: Batch, e: Entry, h: History)
    returns (s': State)
    requires Inv(s0) && Leads(s0, s) && t != u && s.shared.globalLock == None
    requires PcOf(s, t) == WantGlobal(RemoveEmpty(id)) && PcOf(s, u) == WantAppend(id, [batch])
    requires id in s.shared.registered && Shows(s, id, e, h) && e.refs == {t, u} && e.lock == None
    requires !e.cancelled && e.writerOpen && !e.finished && !e.preserve && RecordCount(e.creature, batch) > 0
    ensures Leads(s0, s') && id in s'.shared.history && id !in s'.shared.entries
    ensures s'.shared.history.Keys == s.shared.history.Keys
    ensures s'.shared.history[id].acked == h.acked + RecordCount(e.creature, batch)
    ensures s'.shared.history[id].published == h.published && s'.shared.history[id].path == h.path
    ensures Tmp(e.path) !in s'.shared.files
  {
    hide Inv, Leads, RecordCount;
    var n := RecordCount(e.creature, batch);
    s' := WriteBatch(s0, s, u, id, batch, e, h);
    s' := AcknowledgeBatch(s0, s', u, id, n, s'.shared.entries[id], s'.shared.history[id]);
    s' := ReleaseHandle(s0, s', u, id, s'.shared.entries[id], s'.shared.history[id]);
    assert s'.shared.entries[id].refs == {t};
    s' := FinishEmptyDelete(s0, s', t, id, s'.shared.entries[id], s'.shared.history[id]);
  }

  // From a fresh process to a session in use.

  /** A process that has just started, with nothing on disk. */
  const FRESH: State := State(map[], Shared({}, map[], map[], None, map[], {}))

  lemma FreshIsInitial()
    ensures Initial(FRESH) && Inv(FRESH) && Leads(FRESH, FRESH)
    ensures forall t :: PcOf(FRESH, t) == Idle && Harmless(PcOf(FRESH, t))
  {
    InitialOk(FRESH);
    LeadsNowhere(FRESH);
  }

  /** Every call has returned, and one session, in this state, is registered. */
  ghost predicate OneSession(s: State, id: Id, e: Entry, h: History) {
    && (forall u :: PcOf(s, u) == Idle)
    && s.shared.globalLock == None && s.shared.registered == {id} && s.shared.history.Keys == {id}
    && Shows(s, id, e, h) && e.lock == None && e.refs == {} && e.path == h.path
    && s.shared.files == map[Tmp(e.path) := Own(id)]
  }

  /** A new session has no records, and a history to match. */
  lemma SessionStarts(t: Tid, args: StartArgs, id: Id) returns (s': State, e: Entry, h: History)
    requires HasNonInputNeuron(args.creature)
    ensures Leads(FRESH, s') && OneSession(s', id, e, h)
    ensures e.creature == args.creature && e.path == args.path && !e.cancelled && e.writerOpen
    ensures e.recordsWritten == 0 && !e.finished && !e.preserve
    ensures h.sealed == None && !h.published && h.acked == 0
  {
    hide Inv, Leads, HasNonInputNeuron;
    FreshIsInitial();
    s' := StartSweeps(FRESH, FRESH, t, args);
    s' := Advance(FRESH, s', t, NewId(id));
    s' := Advance(FRESH, s', t, Go);
    s' := Advance(FRESH, s', t, Go);
    e, h := s'.shared.entries[id], s'.shared.history[id];
    assert e.refs == {t} - {t} == {};
  }

  /** One batch is appended and acknowledged, and the call returns. */
  lemma SessionAppends(s: State, t: Tid, id: Id, batch: Batch, e: Entry, h: History)
    returns (s': State, e': Entry, h': History)
    requires Leads(FRESH, s) && OneSession(s, id, e, h)
    requires !e.cancelled && e.writerOpen && RecordCount(e.creature, batch) > 0
    ensures Leads(FRESH, s') && OneSession(s', id, e', h')
    ensures e' == e.(recordsWritten := e.recordsWritten + RecordCount(e.creature, batch))
    ensures h'.sealed == h.sealed && h'.published == h.published
  {
    hide Inv, Leads, RecordCount;
    FreshIsInitial();
    s' := LookUp(FRESH, s, t, id, Append(id, [batch]), e, h);
    s' := WriteBatch(FRESH, s', t, id, batch, AddRef(e, t), h);
    var n := RecordCount(e.creature, batch);
    s' := AcknowledgeBatch(FRESH, s', t, id, n, s'.shared.entries[id], s'.shared.history[id]);
    s' := ReleaseHandle(FRESH, s', t, id, s'.shared.entries[id], s'.shared.history[id]);
    e', h' := s'.shared.entries[id], s'.shared.history[id];
    assert e'.refs == {};
  }

  /**
   The promise that discarded records are never acknowledged fails for a finish of an empty
   session: it unlocks before it unregisters and sets no tombstone, so an append that holds
   a handle can be acknowledged in between, after which the file is deleted. It fails in a
   fresh process, for every session and batch, with nothing cancelled and nothing stale.
   */
  lemma EmptyFinishDiscardsAcknowledgedRecords(args: StartArgs, batch: Batch, id: Id, t: Tid, u: Tid)
    returns (events: seq<Event>)
    requires t != u && HasNonInputNeuron(args.creature) && RecordCount(args.creature, batch) > 0
    ensures Initial(FRESH) && ValidRun(FRESH, events)
    ensures var (sh, w) := (RunFrom(FRESH, events).shared, Watched(UNSEEN, FRESH, events, id));
      && Lost(sh, id) && sh.history[id].acked == RecordCount(args.creature, batch)
      && id !in sh.entries && Tmp(args.path) !in sh.files
      && !w.doomed && w.overtaken
  {
    hide Inv, RecordCount, HasNonInputNeuron, NoHijack, Watched;
    FreshIsInitial();
    var s', e, h := SessionStarts(t, args, id);
    s' := FinishOvertaken(FRESH, s', id, t, u, batch, e, h);
    s' := AppendThenDelete(FRESH, s', id, t, u, batch, AddRef(AddRef(e, t), u), h);
    events :| ValidRun(FRESH, events) && Unprovoked(events) && RunFrom(FRESH, events) == s';
    UnprovokedDoomsNobody(FRESH, events, UNSEEN, id);
    SingleSessionIsNotHijacked(FRESH, events, id);
    LossNeedsAnOvertakenFinish(FRESH, events, id);
  }

  /** A finish up to the point where it takes the writer. */
  lemma FinishSeals(s0: State, s: State, t: Tid, id: Id, e: Entry, h: History) returns (s': State)
    requires Inv(s0) && Leads(s0, s) && PcOf(s, t) == WantFinish(id) && Shows(s, id, e, h)
    requires e.lock == None && e.recordsWritten > 0
    ensures Leads(s0, s') && OnlySessions(s, s', t)
    ensures PcOf(s', t) == InFinish(id, if e.writerOpen then Flushing else Renaming)
    ensures Shows(s', id, e.(lock := Some(t), preserve := true, writerOpen := false),
                  if h.sealed.None? then h.(sealed := Some(e.recordsWritten)) else h)
  {
    hide Inv, Leads, RecordCount;
    var locked := e.(lock := Some(t));
    s' := TakeLock(s0, s, t, id, e, h);
    s' := FinishAdvance(s0, s', t, id, EmptyCheck, locked, h, Go);
    s' := FinishAdvance(s0, s', t, id, SetPreserve, locked, h, Go);
    s' := FinishAdvance(s0, s', t, id, TakeWriter, s'.shared.entries[id], s'.shared.history[id], Go);
  }

  /** A finish whose flush fails; the writer is gone, the session stays registered. */
  lemma FlushFails(s0: State, s: State, t: Tid, id: Id, e: Entry, h: History) returns (s': State)
    requires Inv(s0) && Leads(s0, s) && PcOf(s, t) == Idle && s.shared.globalLock == None && Shows(s, id, e, h)
    requires id in s.shared.registered && e.lock == None && e.recordsWritten > 0 && e.writerOpen
    requires h.sealed == None
    ensures Leads(s0, s') && OnlySessions(s, s', t) && PcOf(s', t) == Idle
    ensures Shows(s', id, e.(preserve := true, writerOpen := false, refs := e.refs + {t} - {t}),
                  h.(sealed := Some(e.recordsWritten), flushFailed := true))
  {
    hide Inv, Leads, RecordCount;
    s' := LookUp(s0, s, t, id, Finish(id), e, h);
    s' := FinishSeals(s0, s', t, id, AddRef(e, t), h);
    s' := FlushErrorUnlocks(s0, s', t, id, s'.shared.entries[id], s'.shared.history[id]);
    s' := ReleaseHandle(s0, s', t, id, s'.shared.entries[id], s'.shared.history[id]);
  }

  lemma FlushErrorUnlocks(s0: State, s: State, t: Tid, id: Id, e: Entry, h: History) returns (s': State)
    requires Inv(s0) && Leads(s0, s) && PcOf(s, t) == InFinish(id, Flushing) && Shows(s, id, e, h)
    ensures Leads(s0, s') && OnlySessions(s, s', t) && PcOf(s', t) == Dropping({id}, None)
    ensures Shows(s', id, e.(lock := None), h.(flushFailed := true))
  {
    hide Inv, Leads, RecordCount;
    s' := FinishAdvance(s0, s, t, id, Flushing, e, h, IoError);
    s' := FinishAdvance(s0, s', t, id, FinishUnlock(None), e, h.(flushFailed := true), Go);
  }

  lemma RenameSucceeds(s0: State, s: State, t: Tid, id: Id, e: Entry, h: History) returns (s': State)
    requires Inv(s0) && Leads(s0, s) && PcOf(s, t) == InFinish(id, Renaming) && Shows(s, id, e, h)
    requires Tmp(e.path) in s.shared.files
    ensures Leads(s0, s') && PcOf(s', t) == InFinish(id, SetFinished)
    ensures Shows(s', id, e, h.(published := true, finisher := t))
    ensures s'.shared.files == Renamed(s.shared.files, e.path)
    ensures s'.shared.globalLock == s.shared.globalLock && s'.shared.registered == s.shared.registered
    ensures OnlyThread(s, s', t)
  {
    hide Inv, Leads, RecordCount;
    s' := Advance(s0, s, t, Go);
  }

  /** The rename succeeds and the finish reports the session's records. */
  lemma RenameAndReport(s0: State, s: State, t: Tid, id: Id, e: Entry, h: History) returns (s': State)
    requires Inv(s0) && Leads(s0, s) && PcOf(s, t) == InFinish(id, Renaming) && Shows(s, id, e, h)
    requires Tmp(e.path) in s.shared.files
    ensures Leads(s0, s') && PcOf(s', t) == WantGlobal(RemoveFinished(id))
    ensures Shows(s', id, e.(lock := None, finished := true),
                  h.(published := true, finisher := t, result := Some(e.recordsWritten)))
    ensures s'.shared.files == Renamed(s.shared.files, e.path)
    ensures s'.shared.globalLock == s.shared.globalLock && s'.shared.registered == s.shared.registered
    ensures OnlyThread(s, s', t)
  {
    hide Inv, Leads, RecordCount;
    var renamed := h.(published := true, finisher := t);
    s' := RenameSucceeds(s0, s, t, id, e, h);
    s' := FinishAdvance(s0, s', t, id, SetFinished, e, renamed, Go);
    s' := FinishAdvance(s0, s', t, id, FinishUnlock(Some(e.recordsWritten)), e.(finished := true), renamed, Go);
  }

  /**
   A finish retried after a failed flush succeeds, although the writer was consumed by the
   first attempt and the file it publishes was never completed.
   */
  lemma RetryAfterFailedFlushPublishesIncompleteFile(args: StartArgs, batch: Batch, id: Id, t: Tid)
    returns (events: seq<Event>)
    requires HasNonInputNeuron(args.creature) && RecordCount(args.creature, batch) > 0
    ensures Initial(FRESH) && ValidRun(FRESH, events)
    ensures var sh := RunFrom(FRESH, events).shared;
      && id in sh.history && sh.history[id].result == Some(RecordCount(args.creature, batch))
      && !sh.history[id].flushed && sh.files == map[Final(args.path) := Own(id)]
  {
    hide Inv, RecordCount, HasNonInputNeuron;
    FreshIsInitial();
    var s', e, h := SessionStarts(t, args, id);
    s', e, h := SessionAppends(s', t, id, batch, e, h);
    StartedSessionIsUnflushed(s', id);
    s' := FlushFails(FRESH, s', t, id, e, h);
    s' := RetryPublishes(FRESH, s', t, id, s'.shared.entries[id], s'.shared.history[id]);
    events :| ValidRun(FRESH, events) && Unprovoked(events) && RunFrom(FRESH, events) == s';
  }

  lemma StartedSessionIsUnflushed(s: State, id: Id)
    requires Leads(FRESH, s) && id in s.shared.entries
    requires s.shared.entries[id].lock == None && s.shared.entries[id].writerOpen
    ensures id in s.shared.history && !s.shared.history[id].flushed
  {
    hide Inv;
    FreshIsInitial();
    var events :| ValidRun(FRESH, events) && Unprovoked(events) && RunFrom(FRESH, events) == s;
    RunKeepsInv(FRESH, events);
    UnlockedIsQuiet(s, id);
  }

  lemma UnlockedIsQuiet(s: State, id: Id)
    requires Inv(s) && id in s.shared.entries && s.shared.entries[id].lock == None
    ensures id in s.shared.history && Quiet(s.shared.entries[id], s.shared.history[id])
  {
  }

  /** A second finish, with the writer gone, renames and reports. */
  lemma RetryPublishes(s0: State, s: State, t: Tid, id: Id, e: Entry, h: History) returns (s': State)
    requires Inv(s0) && Leads(s0, s) && PcOf(s, t) == Idle && s.shared.globalLock == None && Shows(s, id, e, h)
    requires id in s.shared.registered && e.lock == None && e.recordsWritten > 0 && !e.writerOpen
    requires h.sealed.Some? && Tmp(e.path) in s.shared.files
    ensures Leads(s0, s') && id in s'.shared.history
    ensures s'.shared.history[id].result == Some(e.recordsWritten) && s'.shared.history[id].flushed == h.flushed
    ensures s'.shared.files == Renamed(s.shared.files, e.path)
  {
    hide Inv, Leads, RecordCount;
    s' := LookUp(s0, s, t, id, Finish(id), e, h);
    s' := FinishSeals(s0, s', t, id, AddRef(e, t), h);
    s' := RenameAndReport(s0, s', t, id, s'.shared.entries[id], s'.shared.history[id]);
  }

  /** A successful finish takes its session out of the map and returns. */
  lemma ReleaseFinished(s0: State, s: State, t: Tid, id: Id, e: Entry, h: History) returns (s': State)
    requires Inv(s0) && Leads(s0, s) && PcOf(s, t) == WantGlobal(RemoveFinished(id)) && s.shared.globalLock == None
    requires Shows(s, id, e, h) && e.refs != {t}
    ensures Leads(s0, s') && PcOf(s', t) == Idle && Shows(s', id, DropRef(e, t), h)
    ensures OnlyThread(s, s', t)
    ensures s'.shared.registered == s.shared.registered - {id} && s'.shared.globalLock == None
    ensures s'.shared.files == s.shared.files
  {
    hide Inv, Leads, RecordCount;
    s' := Advance(s0, s, t, Go);
    s' := Advance(s0, s', t, Go);
    assert Shows(s', id, e, h);
    s' := ReleaseHandle(s0, s', t, id, e, h);
  }

  /** A start, with nothing registered, up to the point where it creates its file. */
  lemma StartSweeps(s0: State, s: State, t: Tid, args: StartArgs) returns (s': State)
    requires Inv(s0) && Leads(s0, s) && PcOf(s, t) == Idle && s.shared.globalLock == None
    requires s.shared.registered == {}
    ensures Leads(s0, s') && PcOf(s', t) == StartCreate(args)
    ensures forall u :: u != t ==> PcOf(s', u) == PcOf(s, u)
    ensures s'.shared == s.shared
  {
    hide Inv, Leads, RecordCount;
    s' := Advance(s0, s, t, Begin(Start(args)));
    s' := Advance(s0, s', t, Go);
    s' := Advance(s0, s', t, Go);
    s' := Advance(s0, s', t, Go);
    s' := Advance(s0, s', t, Go);
    s' := Advance(s0, s', t, Go);
  }

  /** Session `id` is alive and unfinished, but its recording is at the final name. */
  ghost predicate Hijacked(s: State, id: Id) {
    && id in s.shared.entries && !s.shared.entries[id].finished
    && id in s.shared.history && !s.shared.history[id].published
    && Tmp(s.shared.entries[id].path) !in s.shared.files
    && Final(s.shared.entries[id].path) in s.shared.files
    && s.shared.files[Final(s.shared.entries[id].path)] == Own(id)
  }

  /** Two finishes hold handles; the first succeeds and returns. */
  lemma FirstOfTwoFinishes(s0: State, s: State, id: Id, t: Tid, u: Tid, e: Entry, h: History) returns (s': State)
    requires Inv(s0) && Leads(s0, s) && s.shared.globalLock == None
    requires t != u && PcOf(s, t) == Idle && PcOf(s, u) == Idle
    requires s.shared.registered == {id} && Shows(s, id, e, h) && e.lock == None && e.recordsWritten > 0
    requires !e.writerOpen && h.sealed.Some? && Tmp(e.path) in s.shared.files
    ensures Leads(s0, s') && PcOf(s', t) == Idle && PcOf(s', u) == WantFinish(id)
    ensures s'.shared.registered == {} && s'.shared.globalLock == None
    ensures Tmp(e.path) !in s'.shared.files && s'.shared.history.Keys == s.shared.history.Keys
    ensures id in s'.shared.entries && id in s'.shared.history
    ensures var e' := s'.shared.entries[id];
      e'.path == e.path && e'.lock == None && e'.recordsWritten > 0 && !e'.writerOpen
  {
    hide Inv, Leads, RecordCount;
    s' := LookUp(s0, s, u, id, Finish(id), e, h);
    s' := LookUp(s0, s', t, id, Finish(id), AddRef(e, u), h);
    s' := FinishSeals(s0, s', t, id, AddRef(AddRef(e, u), t), h);
    s' := RenameAndReport(s0, s', t, id, s'.shared.entries[id], s'.shared.history[id]);
    assert u in s'.shared.entries[id].refs;
    s' := ReleaseFinished(s0, s', t, id, s'.shared.entries[id], s'.shared.history[id]);
  }

  /** A new session creates its file at the path; then the late finish renames it. */
  lemma LateFinishTakesFile(s0: State, s: State, id: Id, t: Tid, u: Tid, args: StartArgs, novel: Id) returns (s': State)
    requires Inv(s0) && Leads(s0, s) && t != u && PcOf(s, t) == Idle && PcOf(s, u) == WantFinish(id)
    requires s.shared.registered == {} && s.shared.globalLock == None
    requires id in s.shared.entries && id in s.shared.history && novel != id
    requires var e := s.shared.entries[id];
      e.path == args.path && e.lock == None && e.recordsWritten > 0 && !e.writerOpen
    requires Tmp(args.path) !in s.shared.files && HasNonInputNeuron(args.creature) && novel !in s.shared.history
    ensures Leads(s0, s') && Hijacked(s', novel)
  {
    hide Inv, Leads, RecordCount;
    s' := StartSweeps(s0, s, t, args);
    s' := Advance(s0, s', t, NewId(novel));
    var e, h := s'.shared.entries[id], s'.shared.history[id];
    var created, born := s'.shared.entries[novel], s'.shared.history[novel];
    assert e == s.shared.entries[id] && s'.shared.files[Tmp(args.path)] == Own(novel);
    assert Shows(s', novel, created, born) && PcOf(s', u) == WantFinish(id);
    s' := LateFinishRenames(s0, s', id, u, e, h, novel, created, born);
  }

  lemma LateFinishRenames(
    s0: State, s: State, id: Id, u: Tid, e: Entry, h: History, novel: Id, created: Entry, born: History)
    returns (s': State)
    requires Inv(s0) && Leads(s0, s) && PcOf(s, u) == WantFinish(id) && novel != id
    requires Shows(s, id, e, h) && Shows(s, novel, created, born)
    requires e.lock == None && e.recordsWritten > 0 && !e.writerOpen && e.path == created.path
    requires Tmp(e.path) in s.shared.files && s.shared.files[Tmp(e.path)] == Own(novel)
    requires !created.finished && !born.published
    ensures Leads(s0, s') && Hijacked(s', novel)
  {
    hide Inv, Leads, RecordCount;
    s' := EntersFinish(s0, s, u, id, e, h, novel);
    s' := SealsSettled(s0, s', u, id, s'.shared.entries[id], novel);
    s' := Advance(s0, s', u, Go);
  }

  /** The first half of a finish of a session with records; session `other` is untouched. */
  lemma EntersFinish(s0: State, s: State, t: Tid, id: Id, e: Entry, h: History, other: Id) returns (s': State)
    requires Inv(s0) && Leads(s0, s) && PcOf(s, t) == WantFinish(id) && Shows(s, id, e, h)
    requires e.lock == None && e.recordsWritten > 0
    requires other != id && other in s.shared.entries && other in s.shared.history
    ensures Leads(s0, s') && PcOf(s', t) == InFinish(id, SetPreserve) && Shows(s', id, e.(lock := Some(t)), h)
    ensures s'.shared.files == s.shared.files
    ensures Shows(s', other, s.shared.entries[other], s.shared.history[other])
  {
    hide Inv, Leads, RecordCount;
    s' := Advance(s0, s, t, Go);
    s' := Advance(s0, s', t, Go);
  }

  /** The second half, when the writer is already gone. */
  lemma SealsSettled(s0: State, s: State, t: Tid, id: Id, e: Entry, other: Id) returns (s': State)
    requires Inv(s0) && Leads(s0, s) && PcOf(s, t) == InFinish(id, SetPreserve)
    requires id in s.shared.entries && id in s.shared.history && s.shared.entries[id] == e && !e.writerOpen
    requires other != id && other in s.shared.entries && other in s.shared.history
    ensures Leads(s0, s') && PcOf(s', t) == InFinish(id, Renaming)
    ensures s'.shared.files == s.shared.files
    ensures id in s'.shared.entries && id in s'.shared.history && s'.shared.entries[id].path == e.path
    ensures Shows(s', other, s.shared.entries[other], s.shared.history[other])
  {
    hide Inv, Leads, RecordCount;
    s' := Advance(s0, s, t, Go);
    s' := Advance(s0, s', t, Go);
  }

  /** A finish whose rename fails; the session stays registered, sealed, its writer gone. */
  lemma RenameFails(s: State, t: Tid, id: Id, e: Entry, h: History) returns (s': State, e': Entry, h': History)
    requires Leads(FRESH, s) && OneSession(s, id, e, h) && e.recordsWritten > 0 && e.writerOpen && h.sealed == None
    ensures Leads(FRESH, s') && OneSession(s', id, e', h')
    ensures e' == e.(preserve := true, writerOpen := false) && h'.sealed == Some(e.recordsWritten)
  {
    hide Inv, Leads, RecordCount;
    FreshIsInitial();
    s' := LookUp(FRESH, s, t, id, Finish(id), e, h);
    s' := FinishSeals(FRESH, s', t, id, AddRef(e, t), h);
    s' := RenameErrorUnlocks(FRESH, s', t, id, s'.shared.entries[id], s'.shared.history[id]);
    s' := ReleaseHandle(FRESH, s', t, id, s'.shared.entries[id], s'.shared.history[id]);
    e', h' := s'.shared.entries[id], s'.shared.history[id];
    assert e'.refs == {};
  }

  lemma RenameErrorUnlocks(s0: State, s: State, t: Tid, id: Id, e: Entry, h: History) returns (s': State)
    requires Inv(s0) && Leads(s0, s) && PcOf(s, t) == InFinish(id, Flushing) && Shows(s, id, e, h)
    ensures Leads(s0, s') && OnlySessions(s, s', t) && PcOf(s', t) == Dropping({id}, None)
    ensures Shows(s', id, e.(lock := None), h.(flushed := true))
  {
    hide Inv, Leads, RecordCount;
    s' := FinishAdvance(s0, s, t, id, Flushing, e, h, Go);
    s' := RenameAttempt(s0, s', t, id, e, h.(flushed := true));
    s' := FinishAdvance(s0, s', t, id, FinishUnlock(None), e, h.(flushed := true), Go);
  }

  lemma RenameAttempt(s0: State, s: State, t: Tid, id: Id, e: Entry, h: History) returns (s': State)
    requires Inv(s0) && Leads(s0, s) && PcOf(s, t) == InFinish(id, Renaming) && Shows(s, id, e, h)
    ensures Leads(s0, s') && OnlySessions(s, s', t) && PcOf(s', t) == InFinish(id, FinishUnlock(None))
    ensures Shows(s', id, e, h)
  {
    hide Inv, Leads, RecordCount;
    s' := Advance(s0, s, t, IoError);
  }

  /**
   If two finishes of one session overlap, file ownership fails: the second renames, by
   path, the file of a new session that has started there in between.
   */
  lemma OverlappingFinishTakesAnotherSessionsFile(args: StartArgs, batch: Batch, id: Id, novel: Id, t: Tid, u: Tid)
    returns (events: seq<Event>)
    requires t != u && novel != id && HasNonInputNeuron(args.creature) && RecordCount(args.creature, batch) > 0
    ensures Initial(FRESH) && ValidRun(FRESH, events)
    ensures Hijacked(RunFrom(FRESH, events), novel) && !NoHijack(FRESH, events)
  {
    hide Inv, RecordCount, HasNonInputNeuron, NoHijack;
    FreshIsInitial();
    var s', e, h := SessionStarts(t, args, id);
    s', e, h := SessionAppends(s', t, id, batch, e, h);
    s', e, h := RenameFails(s', t, id, e, h);
    s' := FirstOfTwoFinishes(FRESH, s', id, t, u, e, h);
    s' := LateFinishTakesFile(FRESH, s', id, t, u, args, novel);
    events :| ValidRun(FRESH, events) && Unprovoked(events) && RunFrom(FRESH, events) == s';
    HijackedMeansHijack(events, novel);
  }

  /** A session that has lost its file to another shows that some step took one. */
  lemma HijackedMeansHijack(events: seq<Event>, id: Id)
    requires ValidRun(FRESH, events) && Hijacked(RunFrom(FRESH, events), id)
    ensures !NoHijack(FRESH, events)
  {
    hide Inv, NoHijack, OwnedThroughout;
    FreshIsInitial();
    InitiallyOwned(FRESH);
    OwnershipAlongRun(FRESH, events);
    RunKeepsInv(FRESH, events);
    SamePath(RunFrom(FRESH, events), id);
    assert Claims(RunFrom(FRESH, events).shared, id);
  }
}
