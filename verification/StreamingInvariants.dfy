/**
 What every micro-step keeps, in rely-guarantee style: `ThreadOk` is what a thread knows,
 `SharedOk` what holds of the shared state, `Guarantee` what a step of one thread may do to
 what the others know.
 */
module StreamingInvariants {
  import opened Options
  import opened RecordBatches
  import opened StreamingProtocol

  /**
   The record-keeping of a session, with `pending` records added but not yet acknowledged
   and `staged` records written but not yet added.
   */
  ghost predicate BooksBalance(e: Entry, h: History, pending: nat, staged: nat) {
    && e.recordsWritten == h.acked + pending
    && e.recordsWritten + staged <= h.written
    && (pending + staged > 0 ==> e.writerOpen)
    && (e.preserve <==> h.sealed.Some?)
    && (e.preserve ==> h.sealed == Some(e.recordsWritten) && e.recordsWritten > 0)
    && h.lateAdds <= (if e.cancelled then 1 else 0)
    && (e.finished ==> e.preserve)
  }

  /** A sealed session has no open writer, and its one flush has succeeded or failed. */
  ghost predicate WriterSettled(e: Entry, h: History) {
    && (e.preserve <==> !e.writerOpen)
    && (e.writerOpen ==> !h.flushed && !h.flushFailed)
    && (!e.writerOpen ==> h.flushed != h.flushFailed)
  }

  ghost predicate Quiet(e: Entry, h: History) {
    BooksBalance(e, h, 0, 0) && WriterSettled(e, h)
  }

  /** What the thread inside an append knows about its session. */
  ghost predicate AppendOk(e: Entry, h: History, stage: AppendStage) {
    WriterSettled(e, h) &&
    match stage
    case FirstCheck(_) => BooksBalance(e, h, 0, 0)
    case Writing(_, sum) => BooksBalance(e, h, 0, sum)
    case LastCheck(sum) => BooksBalance(e, h, 0, sum)
    case Adding(sum) => BooksBalance(e, h, 0, sum) && h.lateAdds == 0
    case AppendUnlock(outcome) => BooksBalance(e, h, if outcome.Some? then outcome.value else 0, 0)
  }

  /** What the thread inside a finish knows about its session. */
  ghost predicate FinishOk(e: Entry, h: History, stage: FinishStage) {
    BooksBalance(e, h, 0, 0) &&
    match stage
    case EmptyCheck => WriterSettled(e, h)
    case EmptyUnlock => WriterSettled(e, h)
    case SetPreserve => WriterSettled(e, h) && e.recordsWritten > 0
    case TakeWriter =>
      && e.preserve
      && (if e.writerOpen then !h.flushed && !h.flushFailed else h.flushed != h.flushFailed)
    case Flushing => e.preserve && !e.writerOpen && !h.flushed && !h.flushFailed
    case Renaming => WriterSettled(e, h) && e.preserve
    case SetFinished => WriterSettled(e, h) && e.preserve && h.published
    case FinishUnlock(outcome) =>
      WriterSettled(e, h) && e.preserve && (outcome.Some? ==> outcome == h.sealed && h.published)
  }

  ghost predicate StageOk(pc: Pc, sh: Shared)
    requires SessionOf(pc).Some? ==> SessionOf(pc).value in sh.entries && SessionOf(pc).value in sh.history
  {
    match pc
    case InAppend(id, stage) => AppendOk(sh.entries[id], sh.history[id], stage)
    case InFinish(id, stage) => FinishOk(sh.entries[id], sh.history[id], stage)
    case SweepProbe(id, _, _, _) => Quiet(sh.entries[id], sh.history[id])
    case _ => true
  }

  /** The thread owns a session nobody else can reach: being created, or being deleted. */
  ghost predicate Private(sh: Shared, t: Tid, id: Id)
    requires id in sh.entries
  {
    id !in sh.registered && OnlyRef(sh.entries[id], t) && sh.entries[id].lock == None
  }

  ghost predicate OnlyRef(e: Entry, t: Tid) {
    forall u :: u in e.refs <==> u == t
  }

  ghost predicate ThreadOk(pc: Pc, sh: Shared, t: Tid) {
    && (HoldsGlobal(pc) <==> sh.globalLock == Some(t))
    && Grounded(pc, sh)
    && (forall id | id in sh.entries ::
          && (sh.entries[id].lock == Some(t) <==> SessionOf(pc) == Some(id))
          && (t in sh.entries[id].refs <==> id in Handles(pc)))
    && StageOk(pc, sh)
    && (pc.Deleting? ==> Private(sh, t, pc.id) && pc.id !in pc.handles)
    && ((pc.WantGlobal? || pc.InGlobal?) && pc.job.Insert? ==> Private(sh, t, pc.job.id))
  }

  ghost predicate SharedOk(sh: Shared) {
    && sh.registered <= sh.entries.Keys <= sh.history.Keys
    && (forall id | id in sh.entries :: sh.entries[id].path == sh.history[id].path)
    && (forall id | id in sh.entries :: LockOk(sh, id, sh.entries[id]))
    && (forall id | id in sh.entries && sh.entries[id].lock == None :: Quiet(sh.entries[id], sh.history[id]))
    && (forall id | id in sh.history :: HistoryOk(sh.history[id]))
  }

  /** Whoever holds a session lock keeps the session alive: by a handle, or by the map lock. */
  ghost predicate LockOk(sh: Shared, id: Id, e: Entry) {
    e.lock.Some? ==>
      e.lock.value in e.refs || (sh.globalLock == e.lock && id in sh.registered)
  }

  /** What stays true of a session's history for ever. */
  ghost predicate HistoryOk(h: History) {
    && h.lateAdds <= 1
    && (h.sealed.Some? ==> h.acked == h.sealed.value > 0)
    && (h.result.Some? ==> h.sealed == h.result && h.published && h.flushed != h.flushFailed)
    && h.acked <= h.written
  }

  /** `t` may take a free lock and release its own. */
  ghost predicate LockMoves(before: Option<Tid>, after: Option<Tid>, t: Tid) {
    after == before || (before == None && after == Some(t)) || (before == Some(t) && after == None)
  }

  /** What a step of `t` may do to one entry it found in the heap. */
  ghost predicate EntryGuarantee(e: Entry, e': Entry, registered: bool, t: Tid) {
    && e'.creature == e.creature && e'.path == e.path
    && (forall u :: u != t ==> (u in e'.refs <==> u in e.refs))
    && (t in e'.refs ==> t in e.refs || registered)
    && (e.cancelled ==> e'.cancelled)
    && LockMoves(e.lock, e'.lock, t)
    && (e'.lock == Some(t) && e.lock != Some(t) ==> t in e.refs || registered)
    && (e.lock != Some(t) ==>
          && e'.writerOpen == e.writerOpen && e'.recordsWritten == e.recordsWritten
          && e'.finished == e.finished && e'.preserve == e.preserve)
  }

  ghost predicate Guarantee(sh: Shared, sh': Shared, t: Tid) {
    && sh.history.Keys <= sh'.history.Keys
    && LockMoves(sh.globalLock, sh'.globalLock, t)
    && (sh.globalLock != Some(t) ==> sh'.registered == sh.registered)
    && (forall id | id in sh.entries && id !in sh'.entries :: id !in sh.registered && OnlyRef(sh.entries[id], t))
    && (forall id | id in sh.entries && id in sh'.entries ::
          && EntryGuarantee(sh.entries[id], sh'.entries[id], id in sh.registered, t)
          && (id in sh'.registered ==> id in sh.registered || t in sh.entries[id].refs))
    && (forall id | id in sh.history && !(id in sh.entries && sh.entries[id].lock == Some(t)) ::
          sh'.history[id] == sh.history[id])
    && (forall id | id in sh'.entries && id !in sh.entries ::
          id !in sh.history && OnlyRef(sh'.entries[id], t) && sh'.entries[id].lock == None)
  }

  /** The obligations of one micro-step. */
  ghost predicate StepOk(sh: Shared, t: Tid, next: Outcome) {
    ThreadOk(next.pc, next.sh, t) && SharedOk(next.sh) && Guarantee(sh, next.sh, t)
  }

  /** Sufficient conditions on a step that changes at most the session `id`. */
  ghost predicate Touches(sh: Shared, t: Tid, pc: Pc, next: Outcome, id: Id)
    requires id in sh.entries && id in sh.history
  {
    var sh' := next.sh;
    id in sh'.entries && id in sh'.history &&
    var e, h, e', h' := sh.entries[id], sh.history[id], sh'.entries[id], sh'.history[id];
    // Nothing else changes.
    && sh'.entries == sh.entries[id := e']
    && (sh'.history == sh.history || sh'.history == sh.history[id := h'])
    && (forall x :: x != id ==> (x in sh'.registered <==> x in sh.registered))
    && (sh.globalLock != Some(t) ==> sh'.registered == sh.registered)
    && LockMoves(sh.globalLock, sh'.globalLock, t)
    && (forall x :: x != id ==> (x in Handles(next.pc) <==> x in Handles(pc)))
    // The session stays consistent, for the others and for whoever takes its lock next.
    && EntryGuarantee(e, e', id in sh.registered, t)
    && (id in sh'.registered ==> id in sh.registered || t in e.refs)
    && (e.lock != Some(t) ==> h' == h)
    && h'.path == h.path && HistoryOk(h')
    && (e'.lock == None ==> Quiet(e', h'))
    && LockOk(sh', id, e')
    // The thread's own knowledge at its next program counter.
    && (HoldsGlobal(next.pc) <==> sh'.globalLock == Some(t))
    && (SessionOf(next.pc) == if e'.lock == Some(t) then Some(id) else None)
    && (e.lock != Some(t) ==> SessionOf(pc) == None)
    && (t in e'.refs <==> id in Handles(next.pc))
    && Grounded(next.pc, sh')
    && StageOk(next.pc, sh')
    && (next.pc.Deleting? ==> Private(sh', t, next.pc.id) && next.pc.id !in next.pc.handles)
    && !((next.pc.WantGlobal? || next.pc.InGlobal?) && next.pc.job.Insert?)
  }

  lemma TouchThread(sh: Shared, t: Tid, pc: Pc, next: Outcome, id: Id)
    requires ThreadOk(pc, sh, t) && SharedOk(sh)
    requires id in sh.entries && id in sh.history && Touches(sh, t, pc, next, id)
    ensures ThreadOk(next.pc, next.sh, t)
  {
    forall x | x in next.sh.entries && x != id
      ensures next.sh.entries[x].lock == Some(t) <==> SessionOf(next.pc) == Some(x)
      ensures t in next.sh.entries[x].refs <==> x in Handles(next.pc)
    {
      assert next.sh.entries[x] == sh.entries[x];
      assert x in Handles(next.pc) <==> x in Handles(pc);
    }
  }

  lemma TouchShared(sh: Shared, t: Tid, pc: Pc, next: Outcome, id: Id)
    requires ThreadOk(pc, sh, t) && SharedOk(sh)
    requires id in sh.entries && id in sh.history && Touches(sh, t, pc, next, id)
    ensures SharedOk(next.sh)
  {
    hide StageOk, BooksBalance, WriterSettled, Guarantee;
  }

  lemma TouchGuarantee(sh: Shared, t: Tid, pc: Pc, next: Outcome, id: Id)
    requires ThreadOk(pc, sh, t) && SharedOk(sh)
    requires id in sh.entries && id in sh.history && Touches(sh, t, pc, next, id)
    ensures Guarantee(sh, next.sh, t)
  {
    hide StageOk, Quiet, HistoryOk;
  }

  lemma TouchOk(sh: Shared, t: Tid, pc: Pc, next: Outcome, id: Id)
    requires ThreadOk(pc, sh, t) && SharedOk(sh)
    requires id in sh.entries && id in sh.history && Touches(sh, t, pc, next, id)
    ensures StepOk(sh, t, next)
  {
    TouchThread(sh, t, pc, next, id);
    TouchShared(sh, t, pc, next, id);
    TouchGuarantee(sh, t, pc, next, id);
  }

  /** Sufficient conditions on a step that changes no session. */
  ghost predicate Passes(sh: Shared, t: Tid, pc: Pc, next: Outcome) {
    var sh' := next.sh;
    && sh'.entries == sh.entries && sh'.history == sh.history && sh'.registered == sh.registered
    && LockMoves(sh.globalLock, sh'.globalLock, t)
    && Handles(next.pc) == Handles(pc)
    && SessionOf(pc) == SessionOf(next.pc) == None
    && (HoldsGlobal(next.pc) <==> sh'.globalLock == Some(t))
    && Grounded(next.pc, sh')
    && (next.pc.Deleting? ==> Private(sh', t, next.pc.id) && next.pc.id !in next.pc.handles)
    && (next.pc.InGlobal? && next.pc.job.Insert? ==> pc == WantGlobal(next.pc.job))
    && !(next.pc.WantGlobal? && next.pc.job.Insert?)
  }

  lemma PassOk(sh: Shared, t: Tid, pc: Pc, next: Outcome)
    requires ThreadOk(pc, sh, t) && SharedOk(sh) && Passes(sh, t, pc, next)
    ensures StepOk(sh, t, next)
  {
  }

  lemma MissingSessionOk(sh: Shared, t: Tid, job: Job)
    requires ThreadOk(InGlobal(job), sh, t) && SharedOk(sh)
    requires job.LookupAppend? || job.LookupFinish? || job.RemoveCancelled?
    requires job.id !in sh.registered
    ensures StepOk(sh, t, JobStep(sh, t, job))
  {
    hide StepOk, Guarantee;
    PassOk(sh, t, InGlobal(job), JobStep(sh, t, job));
  }

  /** Jobs that take a handle out of the map, if the session is still registered. */
  lemma LookupStepOk(sh: Shared, t: Tid, job: Job)
    requires ThreadOk(InGlobal(job), sh, t) && SharedOk(sh) && job.LookupAppend?
    ensures StepOk(sh, t, JobStep(sh, t, job))
  {
    hide StepOk, Guarantee;
    if job.id in sh.registered {
      TouchOk(sh, t, InGlobal(job), JobStep(sh, t, job), job.id);
    } else {
      MissingSessionOk(sh, t, job);
    }
  }

  lemma LookupFinishOk(sh: Shared, t: Tid, job: Job)
    requires ThreadOk(InGlobal(job), sh, t) && SharedOk(sh) && job.LookupFinish?
    ensures StepOk(sh, t, JobStep(sh, t, job))
  {
    hide StepOk, Guarantee;
    if job.id in sh.registered {
      TouchOk(sh, t, InGlobal(job), JobStep(sh, t, job), job.id);
    } else {
      MissingSessionOk(sh, t, job);
    }
  }

  lemma RemoveStepOk(sh: Shared, t: Tid, job: Job)
    requires ThreadOk(InGlobal(job), sh, t) && SharedOk(sh) && job.RemoveCancelled?
    ensures StepOk(sh, t, JobStep(sh, t, job))
  {
    hide StepOk, Guarantee;
    if job.id in sh.registered {
      TouchOk(sh, t, InGlobal(job), JobStep(sh, t, job), job.id);
    } else {
      MissingSessionOk(sh, t, job);
    }
  }

  /** Jobs of a thread that already has a handle. */
  lemma OwnerStepOk(sh: Shared, t: Tid, job: Job)
    requires ThreadOk(InGlobal(job), sh, t) && SharedOk(sh)
    requires job.Insert? || job.RemoveEmpty? || job.RemoveFinished?
    ensures StepOk(sh, t, JobStep(sh, t, job))
  {
    hide StepOk, Guarantee;
    TouchOk(sh, t, InGlobal(job), JobStep(sh, t, job), job.id);
  }

  lemma ScanBeginsOk(sh: Shared, t: Tid, job: Job)
    requires ThreadOk(InGlobal(job), sh, t) && SharedOk(sh) && job.Scan?
    ensures StepOk(sh, t, JobStep(sh, t, job))
  {
    hide StepOk, Guarantee;
    PassOk(sh, t, InGlobal(job), JobStep(sh, t, job));
  }

  lemma ProbeStepOk(pc: Pc, sh: Shared, t: Tid, c: Choice)
    requires pc.SweepProbe?
    requires ThreadOk(pc, sh, t) && SharedOk(sh) && CanStep(pc, sh, c)
    ensures StepOk(sh, t, SweepStep(pc, sh, t, c))
  {
    hide StepOk, Guarantee;
    TouchOk(sh, t, pc, SweepStep(pc, sh, t, c), pc.id);
  }

  lemma ScanStepOk(pc: Pc, sh: Shared, t: Tid, c: Choice)
    requires pc.SweepScan?
    requires ThreadOk(pc, sh, t) && SharedOk(sh) && CanStep(pc, sh, c)
    ensures StepOk(sh, t, SweepStep(pc, sh, t, c))
  {
    hide StepOk, Guarantee;
    var next := SweepStep(pc, sh, t, c);
    if pc.todo == {} || sh.entries[c.id].lock.Some? {
      PassOk(sh, t, pc, next);
    } else {
      TouchOk(sh, t, pc, next, c.id);
    }
  }

  lemma TombstoneStepOk(pc: Pc, sh: Shared, t: Tid, c: Choice)
    requires pc.SweepTombstone?
    requires ThreadOk(pc, sh, t) && SharedOk(sh) && CanStep(pc, sh, c)
    ensures StepOk(sh, t, SweepStep(pc, sh, t, c))
  {
    hide StepOk, Guarantee;
    TouchOk(sh, t, pc, SweepStep(pc, sh, t, c), pc.id);
  }

  lemma EvictStepOk(pc: Pc, sh: Shared, t: Tid, c: Choice)
    requires pc.SweepEvict?
    requires ThreadOk(pc, sh, t) && SharedOk(sh) && CanStep(pc, sh, c)
    ensures StepOk(sh, t, SweepStep(pc, sh, t, c))
  {
    hide StepOk, Guarantee;
    var next := SweepStep(pc, sh, t, c);
    if pc.stale == {} || c.id !in sh.registered {
      PassOk(sh, t, pc, next);
    } else {
      TouchOk(sh, t, pc, next, c.id);
    }
  }

  lemma DropStepOk(pc: Pc, sh: Shared, t: Tid, c: Choice)
    requires pc.Dropping?
    requires ThreadOk(pc, sh, t) && SharedOk(sh) && CanStep(pc, sh, c)
    ensures StepOk(sh, t, DropStep(pc, sh, t, c))
  {
    hide StepOk, Guarantee;
    var next := DropStep(pc, sh, t, c);
    if pc.handles == {} || next.pc.Deleting? {
      PassOk(sh, t, pc, next);
    } else {
      TouchOk(sh, t, pc, next, c.id);
    }
  }

  lemma DeleteStepOk(pc: Pc, sh: Shared, t: Tid, c: Choice)
    requires pc.Deleting?
    requires ThreadOk(pc, sh, t) && SharedOk(sh) && CanStep(pc, sh, c)
    ensures StepOk(sh, t, DeleteStep(pc, sh, c))
  {
    hide BooksBalance, WriterSettled, HistoryOk;
  }

  /** A session that has just been created is private and consistent. */
  lemma CreatedOk(sh: Shared, t: Tid, args: StartArgs, c: Choice)
    requires ThreadOk(StartCreate(args), sh, t) && SharedOk(sh) && CanStep(StartCreate(args), sh, c)
    requires CreateStep(sh, t, args, c).pc != Idle
    ensures ThreadOk(CreateStep(sh, t, args, c).pc, CreateStep(sh, t, args, c).sh, t)
    ensures Guarantee(sh, CreateStep(sh, t, args, c).sh, t)
  {
    hide SharedOk, BooksBalance, HasNonInputNeuron;
    SharedKeys(sh);
  }

  lemma SharedKeys(sh: Shared)
    requires SharedOk(sh)
    ensures sh.registered <= sh.entries.Keys <= sh.history.Keys
  {
  }

  lemma CreatedSharedOk(sh: Shared, t: Tid, args: StartArgs, c: Choice)
    requires SharedOk(sh) && CanStep(StartCreate(args), sh, c)
    requires CreateStep(sh, t, args, c).pc != Idle
    ensures SharedOk(CreateStep(sh, t, args, c).sh)
  {
    hide HasNonInputNeuron;
  }

  lemma CreateStepOk(sh: Shared, t: Tid, args: StartArgs, c: Choice)
    requires ThreadOk(StartCreate(args), sh, t) && SharedOk(sh) && CanStep(StartCreate(args), sh, c)
    ensures StepOk(sh, t, CreateStep(sh, t, args, c))
  {
    var next := CreateStep(sh, t, args, c);
    if next.pc == Idle {
      NotCreatedOk(sh, t, args, c);
    } else {
      hide ThreadOk, SharedOk, Guarantee, CreateStep;
      CreatedOk(sh, t, args, c);
      CreatedSharedOk(sh, t, args, c);
    }
  }

  lemma NotCreatedOk(sh: Shared, t: Tid, args: StartArgs, c: Choice)
    requires ThreadOk(StartCreate(args), sh, t) && SharedOk(sh) && CanStep(StartCreate(args), sh, c)
    requires CreateStep(sh, t, args, c).pc == Idle
    ensures StepOk(sh, t, CreateStep(sh, t, args, c))
  {
    hide StepOk, Guarantee;
    PassOk(sh, t, StartCreate(args), CreateStep(sh, t, args, c));
  }

  /** The changes a lock holder makes to its session, seen from outside. */
  ghost predicate HeldOk(e: Entry, h: History, held: Held, id: Id, t: Tid) {
    && held.e.creature == e.creature && held.e.path == e.path && held.e.refs == e.refs
    && held.e.cancelled == e.cancelled
    && held.h.path == h.path && HistoryOk(held.h)
    && Handles(held.pc) == {id} && !HoldsGlobal(held.pc) && !held.pc.Deleting?
    && !(held.pc.WantGlobal? && held.pc.job.Insert?)
    && if SessionOf(held.pc) == Some(id)
       then held.e.lock == e.lock && HeldStage(held)
       else SessionOf(held.pc) == None && held.e.lock == None && Quiet(held.e, held.h)
  }

  ghost predicate HeldStage(held: Held) {
    && (held.pc.InAppend? ==> AppendOk(held.e, held.h, held.pc.append))
    && (held.pc.InFinish? ==> FinishOk(held.e, held.h, held.pc.finish))
    && !held.pc.SweepProbe?
  }

  lemma WritingStepOk(id: Id, e: Entry, h: History, rest: seq<Batch>, sum: nat, t: Tid, c: Choice)
    requires AppendOk(e, h, Writing(rest, sum)) && HistoryOk(h)
    ensures HeldOk(e, h, AppendStep(id, e, h, Writing(rest, sum), c), id, t)
  {
    hide RecordCount;
  }

  lemma AppendStepOk(id: Id, e: Entry, h: History, stage: AppendStage, t: Tid, c: Choice)
    requires AppendOk(e, h, stage) && HistoryOk(h)
    ensures HeldOk(e, h, AppendStep(id, e, h, stage, c), id, t)
  {
    hide RecordCount;
    if stage.Writing? {
      WritingStepOk(id, e, h, stage.rest, stage.sum, t, c);
    }
  }

  lemma FinishStepOk(id: Id, e: Entry, h: History, stage: FinishStage, t: Tid, renames: bool, c: Choice)
    requires FinishOk(e, h, stage) && HistoryOk(h)
    ensures HeldOk(e, h, FinishStep(id, e, h, t, stage, renames, c), id, t)
  {
  }

  lemma HeldMoveOk(sh: Shared, t: Tid, pc: Pc, id: Id, held: Held, sh': Shared)
    requires ThreadOk(pc, sh, t) && SharedOk(sh) && SessionOf(pc) == Some(id) && !pc.SweepProbe?
    requires HeldOk(sh.entries[id], sh.history[id], held, id, t)
    requires sh' == PutHeld(sh, id, held).(files := sh'.files, finishing := sh'.finishing)
    ensures StepOk(sh, t, Outcome(held.pc, sh'))
  {
    hide StepOk, Guarantee;
    assert Touches(sh, t, pc, Outcome(held.pc, sh'), id);
    TouchOk(sh, t, pc, Outcome(held.pc, sh'), id);
  }

  lemma AppendMoveOk(sh: Shared, t: Tid, id: Id, stage: AppendStage, c: Choice)
    requires ThreadOk(InAppend(id, stage), sh, t) && SharedOk(sh)
    ensures StepOk(sh, t, AppendMove(sh, id, stage, c))
  {
    AppendStepOk(id, sh.entries[id], sh.history[id], stage, t, c);
    var held := AppendStep(id, sh.entries[id], sh.history[id], stage, c);
    HeldMoveOk(sh, t, InAppend(id, stage), id, held, AppendMove(sh, id, stage, c).sh);
  }

  lemma FinishMoveOk(sh: Shared, t: Tid, id: Id, stage: FinishStage, c: Choice)
    requires ThreadOk(InFinish(id, stage), sh, t) && SharedOk(sh)
    ensures StepOk(sh, t, FinishMove(sh, t, id, stage, c))
  {
    var renames := stage.Renaming? && c != IoError && Tmp(sh.entries[id].path) in sh.files;
    FinishStepOk(id, sh.entries[id], sh.history[id], stage, t, renames, c);
    var held := FinishStep(id, sh.entries[id], sh.history[id], t, stage, renames, c);
    HeldMoveOk(sh, t, InFinish(id, stage), id, held, FinishMove(sh, t, id, stage, c).sh);
  }

  /** A call begins, or takes the map lock. */
  lemma BeginStepOk(pc: Pc, sh: Shared, t: Tid, c: Choice)
    requires pc.Idle? || pc.WantGlobal?
    requires ThreadOk(pc, sh, t) && SharedOk(sh) && CanStep(pc, sh, c)
    ensures StepOk(sh, t, Local(pc, sh, t, c))
  {
    hide StepOk, Guarantee;
    PassOk(sh, t, pc, Local(pc, sh, t, c));
  }

  lemma LockStepOk(pc: Pc, sh: Shared, t: Tid, c: Choice)
    requires pc.WantAppend? || pc.WantFinish?
    requires ThreadOk(pc, sh, t) && SharedOk(sh) && CanStep(pc, sh, c)
    ensures StepOk(sh, t, Local(pc, sh, t, c))
  {
    hide StepOk, Guarantee;
    TouchOk(sh, t, pc, Local(pc, sh, t, c), pc.id);
  }

  lemma MarkStepOk(pc: Pc, sh: Shared, t: Tid, c: Choice)
    requires pc.CancelMark?
    requires ThreadOk(pc, sh, t) && SharedOk(sh) && CanStep(pc, sh, c)
    ensures StepOk(sh, t, Local(pc, sh, t, c))
  {
    hide StepOk, Guarantee;
    TouchOk(sh, t, pc, Local(pc, sh, t, c), pc.id);
  }

  lemma LocalOk(pc: Pc, sh: Shared, t: Tid, c: Choice)
    requires ThreadOk(pc, sh, t) && SharedOk(sh) && CanStep(pc, sh, c)
    ensures StepOk(sh, t, Local(pc, sh, t, c))
  {
    hide StepOk, SharedOk, StageOk, JobStep, SweepStep, DropStep, DeleteStep, CreateStep, AppendMove, FinishMove, Begun;
    match pc {
      case InGlobal(job) =>
        if job.Scan? {
          ScanBeginsOk(sh, t, job);
        } else if job.Insert? || job.RemoveEmpty? || job.RemoveFinished? {
          OwnerStepOk(sh, t, job);
        } else if job.RemoveCancelled? {
          RemoveStepOk(sh, t, job);
        } else if job.LookupFinish? {
          LookupFinishOk(sh, t, job);
        } else {
          LookupStepOk(sh, t, job);
        }
      case SweepScan(_, _, _) => ScanStepOk(pc, sh, t, c);
      case SweepProbe(_, _, _, _) => ProbeStepOk(pc, sh, t, c);
      case SweepEvict(_, _, _) => EvictStepOk(pc, sh, t, c);
      case SweepTombstone(_, _, _, _) => TombstoneStepOk(pc, sh, t, c);
      case Dropping(_, _) => DropStepOk(pc, sh, t, c);
      case Deleting(_, _, _) => DeleteStepOk(pc, sh, t, c);
      case StartCreate(args) => CreateStepOk(sh, t, args, c);
      case InAppend(id, stage) => AppendMoveOk(sh, t, id, stage, c);
      case InFinish(id, stage) => FinishMoveOk(sh, t, id, stage, c);
      case Idle => BeginStepOk(pc, sh, t, c);
      case WantGlobal(_) => BeginStepOk(pc, sh, t, c);
      case CancelMark(_) => MarkStepOk(pc, sh, t, c);
      case _ => LockStepOk(pc, sh, t, c);
    }
  }

  /** A handle, or the map lock, keeps a session in the heap through another thread's step. */
  lemma StableGrounded(pc: Pc, sh: Shared, sh': Shared, t: Tid, u: Tid)
    requires ThreadOk(pc, sh, u) && SharedOk(sh) && SharedOk(sh') && Guarantee(sh, sh', t) && u != t
    ensures Grounded(pc, sh')
    ensures forall id | id in Handles(pc) :: id in sh.entries && id in sh'.entries
    ensures SessionOf(pc).Some? ==> SessionOf(pc).value in sh.entries && SessionOf(pc).value in sh'.entries
  {
    forall id | id in Handles(pc) ensures id in sh'.entries {
      assert u in sh.entries[id].refs;
    }
  }

  /** What one thread knows survives a step of another. */
  lemma Stable(pc: Pc, sh: Shared, sh': Shared, t: Tid, u: Tid)
    requires ThreadOk(pc, sh, u) && SharedOk(sh) && SharedOk(sh') && Guarantee(sh, sh', t) && u != t
    ensures ThreadOk(pc, sh', u)
  {
    StableGrounded(pc, sh, sh', t, u);
    forall id | id in sh'.entries
      ensures sh'.entries[id].lock == Some(u) <==> SessionOf(pc) == Some(id)
      ensures u in sh'.entries[id].refs <==> id in Handles(pc)
    {
      if id in sh.entries {
        assert EntryGuarantee(sh.entries[id], sh'.entries[id], id in sh.registered, t);
      }
    }
    StableStage(pc, sh, sh', t, u);
    StablePrivate(pc, sh, sh', t, u);
  }

  lemma StableStage(pc: Pc, sh: Shared, sh': Shared, t: Tid, u: Tid)
    requires ThreadOk(pc, sh, u) && SharedOk(sh) && SharedOk(sh') && Guarantee(sh, sh', t) && u != t
    ensures Grounded(pc, sh') && StageOk(pc, sh')
  {
    StableGrounded(pc, sh, sh', t, u);
    if SessionOf(pc).Some? {
      var id := SessionOf(pc).value;
      assert EntryGuarantee(sh.entries[id], sh'.entries[id], id in sh.registered, t);
    }
  }

  lemma PrivateKept(sh: Shared, sh': Shared, t: Tid, u: Tid, id: Id)
    requires Guarantee(sh, sh', t) && u != t
    requires id in sh.entries && id in sh'.entries && Private(sh, u, id)
    ensures Private(sh', u, id)
  {
    var e, e' := sh.entries[id], sh'.entries[id];
    assert EntryGuarantee(e, e', false, t);
    assert t !in e.refs;
  }

  lemma StablePrivate(pc: Pc, sh: Shared, sh': Shared, t: Tid, u: Tid)
    requires ThreadOk(pc, sh, u) && SharedOk(sh) && SharedOk(sh') && Guarantee(sh, sh', t) && u != t
    ensures Grounded(pc, sh')
    ensures pc.Deleting? ==> Private(sh', u, pc.id) && pc.id !in pc.handles
    ensures (pc.WantGlobal? || pc.InGlobal?) && pc.job.Insert? ==> Private(sh', u, pc.job.id)
  {
    StableGrounded(pc, sh, sh', t, u);
    if pc.Deleting? {
      PrivateKept(sh, sh', t, u, pc.id);
    } else if (pc.WantGlobal? || pc.InGlobal?) && pc.job.Insert? {
      PrivateKept(sh, sh', t, u, pc.job.id);
    }
  }

  ghost predicate Inv(s: State) {
    SharedOk(s.shared) && forall t :: ThreadOk(PcOf(s, t), s.shared, t)
  }

  lemma InitialOk(s: State)
    requires Initial(s)
    ensures Inv(s)
  {
  }

  lemma NextOk(s: State, ev: Event)
    requires Inv(s) && CanStep(PcOf(s, ev.thread), s.shared, ev.choice)
    ensures CanMove(s, ev) && Inv(Next(s, ev))
    ensures Guarantee(s.shared, Next(s, ev).shared, ev.thread)
  {
    var t := ev.thread;
    assert ThreadOk(PcOf(s, t), s.shared, t);
    LocalOk(PcOf(s, t), s.shared, t, ev.choice);
    var s' := Next(s, ev);
    forall u ensures ThreadOk(PcOf(s', u), s'.shared, u) {
      if u != t {
        assert ThreadOk(PcOf(s, u), s.shared, u);
        Stable(PcOf(s, u), s.shared, s'.shared, t, u);
      }
    }
  }
}
