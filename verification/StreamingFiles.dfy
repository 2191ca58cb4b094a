/**
 File ownership, over runs in which the finish calls of one session do not overlap.
 `finish_session` renames by path, so without that assumption a second finish could move
 the file of whichever session uses the path by then.
 */
module StreamingFiles {
  import opened Options
  import opened RecordBatches
  import opened StreamingProtocol
  import opened StreamingInvariants

  /** The session whose finish call the thread is executing. */
  function Finishing(pc: Pc): Option<Id> {
    match pc
    case WantGlobal(job) => JobFinishing(job)
    case InGlobal(job) => JobFinishing(job)
    case WantFinish(id) => Some(id)
    case InFinish(id, _) => Some(id)
    case _ => None
  }

  function JobFinishing(job: Job): Option<Id> {
    if job.LookupFinish? || job.RemoveEmpty? || job.RemoveFinished? then Some(job.id) else None
  }

  /** The rename has happened and the call has not yet taken the session out of the map. */
  predicate PastRename(pc: Pc) {
    || (pc.InFinish? && (pc.finish.SetFinished? || (pc.finish.FinishUnlock? && pc.finish.outcome.Some?)))
    || ((pc.WantGlobal? || pc.InGlobal?) && pc.job.RemoveFinished?)
  }

  predicate Looking(pc: Pc) {
    (pc.WantGlobal? || pc.InGlobal?) && pc.job.LookupFinish?
  }

  ghost predicate Published(sh: Shared, id: Id) {
    id in sh.history && sh.history[id].published
  }

  ghost predicate OwnsTmp(sh: Shared, id: Id)
    requires id in sh.history
  {
    Tmp(sh.history[id].path) in sh.files && sh.files[Tmp(sh.history[id].path)] == Own(id)
  }

  /** What the finishing thread knows about the session's rename. */
  ghost predicate FinishFacts(pc: Pc, sh: Shared, t: Tid, id: Id) {
    && (id, t) in sh.finishing
    && (PastRename(pc) ==> Published(sh, id) && sh.history[id].finisher == t)
    && (!PastRename(pc) ==> (Looking(pc) ==> id in sh.registered ==> !Published(sh, id))
                            && (!Looking(pc) ==> !Published(sh, id)))
  }

  /** Inside the session lock, "finished" and "renamed" differ only between the two statements. */
  ghost predicate FlagFacts(pc: Pc, sh: Shared, id: Id)
    requires id in sh.entries
  {
    sh.entries[id].finished <==> Published(sh, id) && pc != InFinish(id, SetFinished)
  }

  ghost predicate FileThreadOk(pc: Pc, sh: Shared, t: Tid) {
    && (forall id :: (id, t) in sh.finishing ==> Finishing(pc) == Some(id))
    && (Finishing(pc).Some? ==> FinishFacts(pc, sh, t, Finishing(pc).value))
    && (SessionOf(pc).Some? && SessionOf(pc).value in sh.entries ==> FlagFacts(pc, sh, SessionOf(pc).value))
    && ((pc.WantGlobal? || pc.InGlobal?) && pc.job.Insert? ==> !Published(sh, pc.job.id))
  }

  /** The session's recording is still to be published: it is alive, or its finalisation has begun. */
  ghost predicate Claims(sh: Shared, id: Id) {
    id in sh.history && !sh.history[id].published && (id in sh.entries || sh.history[id].sealed.Some?)
  }

  /** Every such session's temporary file exists and is its own. */
  ghost predicate Owned(sh: Shared) {
    forall id | Claims(sh, id) :: OwnsTmp(sh, id)
  }

  ghost predicate FilesOk(sh: Shared) {
    && (forall id, t, u :: (id, t) in sh.finishing && (id, u) in sh.finishing ==> t == u)
    && (forall id | id in sh.registered :: Published(sh, id) ==> (id, sh.history[id].finisher) in sh.finishing)
    && Owned(sh)
    && (forall id | id in sh.entries && sh.entries[id].lock == None ::
          sh.entries[id].finished <==> Published(sh, id))
    && (forall id | id in sh.history && sh.history[id].published :: Final(sh.history[id].path) in sh.files)
  }

  /** What a step of `t` may do to what other threads know about files. */
  ghost predicate FileGuarantee(sh: Shared, sh': Shared, t: Tid) {
    && (forall id, u :: u != t ==> ((id, u) in sh.finishing <==> (id, u) in sh'.finishing))
    && (forall id | id in sh.history && id in sh'.history && (id, t) !in sh.finishing ::
          sh'.history[id].published == sh.history[id].published
          && sh'.history[id].finisher == sh.history[id].finisher)
    && (forall id | id in sh'.registered && id !in sh.registered :: !Published(sh', id))
    && (forall id | id in sh'.history && id !in sh.history :: !Published(sh', id))
  }

  ghost predicate FileStepOk(sh: Shared, t: Tid, next: Outcome) {
    FileThreadOk(next.pc, next.sh, t) && FilesOk(next.sh) && FileGuarantee(sh, next.sh, t)
  }

  ghost predicate FileInv(s: State) {
    FilesOk(s.shared) && forall t :: FileThreadOk(PcOf(s, t), s.shared, t)
  }

  /** No finish call starts on a session that another thread is already finishing. */
  ghost predicate Disciplined(sh: Shared, c: Choice) {
    c.Begin? && c.request.Finish? ==> forall u :: (c.request.id, u) !in sh.finishing
  }

  /** A step that neither moves files nor begins or ends a finish call. */
  ghost predicate LeavesFiles(pc: Pc, sh: Shared, t: Tid, next: Outcome) {
    var sh' := next.sh;
    && sh'.files == sh.files && sh'.finishing == sh.finishing
    && sh'.registered <= sh.registered && sh'.entries.Keys == sh.entries.Keys
    && sh'.history.Keys == sh.history.Keys
    && (forall id | id in sh.history :: SameFileFacts(sh.history[id], sh'.history[id]))
    && (forall id | id in sh.history && sh'.history[id].sealed != sh.history[id].sealed :: id in sh.entries)
    && (forall id | id in sh.entries :: sh'.entries[id].finished == sh.entries[id].finished)
    && (forall id | id in sh.entries && sh.entries[id].lock != sh'.entries[id].lock ::
          FlagFacts(pc, sh, id) && pc != InFinish(id, SetFinished))
    && Finishing(next.pc) == Finishing(pc) && PastRename(next.pc) == PastRename(pc)
    && (Looking(pc) && !Looking(next.pc) ==> Finishing(pc).value in sh.registered)
    && (Looking(next.pc) ==> Looking(pc))
    && (SessionOf(next.pc).Some? ==> SessionOf(next.pc).value in sh.entries)
    && (SessionOf(next.pc).Some? ==> FlagFacts(next.pc, sh, SessionOf(next.pc).value))
    && ((next.pc.WantGlobal? || next.pc.InGlobal?) && next.pc.job.Insert? ==> pc == WantGlobal(next.pc.job))
  }

  ghost predicate SameFileFacts(h: History, h': History) {
    h'.path == h.path && h'.published == h.published && h'.finisher == h.finisher
  }

  ghost predicate Ready(pc: Pc, sh: Shared, t: Tid) {
    ThreadOk(pc, sh, t) && SharedOk(sh) && FileThreadOk(pc, sh, t) && FilesOk(sh)
  }

  lemma LeavesFinishing(pc: Pc, sh: Shared, t: Tid, next: Outcome)
    requires Ready(pc, sh, t) && LeavesFiles(pc, sh, t, next)
    ensures forall id :: (id, t) in next.sh.finishing ==> Finishing(next.pc) == Some(id)
    ensures Finishing(next.pc).Some? ==> FinishFacts(next.pc, next.sh, t, Finishing(next.pc).value)
  {
    hide FilesOk, ThreadOk, SharedOk, FlagFacts, PastRename;
  }

  lemma LeavesFlags(pc: Pc, sh: Shared, t: Tid, next: Outcome)
    requires Ready(pc, sh, t) && LeavesFiles(pc, sh, t, next)
    ensures SessionOf(next.pc).Some? ==> SessionOf(next.pc).value in next.sh.entries
    ensures SessionOf(next.pc).Some? ==> FlagFacts(next.pc, next.sh, SessionOf(next.pc).value)
    ensures (next.pc.WantGlobal? || next.pc.InGlobal?) && next.pc.job.Insert? ==> !Published(next.sh, next.pc.job.id)
  {
    hide FilesOk, StageOk, Quiet, HistoryOk, LockOk, Private, FinishFacts, PastRename, Finishing, Looking;
  }

  lemma LeavesFilesThread(pc: Pc, sh: Shared, t: Tid, next: Outcome)
    requires Ready(pc, sh, t) && LeavesFiles(pc, sh, t, next)
    ensures FileThreadOk(next.pc, next.sh, t)
  {
    hide Ready, LeavesFiles, FinishFacts, FlagFacts;
    LeavesFinishing(pc, sh, t, next);
    LeavesFlags(pc, sh, t, next);
  }

  lemma LeavesOwned(sh: Shared, sh': Shared)
    requires Owned(sh) && sh'.files == sh.files
    requires sh'.entries.Keys == sh.entries.Keys && sh'.history.Keys == sh.history.Keys
    requires forall id | id in sh.history :: SameFileFacts(sh.history[id], sh'.history[id])
    requires forall id | id in sh.history && sh'.history[id].sealed != sh.history[id].sealed :: id in sh.entries
    ensures Owned(sh')
  {
    forall id | Claims(sh', id) ensures OwnsTmp(sh', id) {
      assert Claims(sh, id);
    }
  }

  lemma LeavesUnlocked(pc: Pc, sh: Shared, t: Tid, next: Outcome)
    requires FilesOk(sh) && LeavesFiles(pc, sh, t, next) && sh.entries.Keys <= sh.history.Keys
    ensures forall id | id in next.sh.entries && next.sh.entries[id].lock == None ::
      next.sh.entries[id].finished <==> Published(next.sh, id)
  {
    hide Owned, Looking, Finishing, PastRename;
    forall id | id in next.sh.entries && next.sh.entries[id].lock == None
      ensures next.sh.entries[id].finished <==> Published(next.sh, id)
    {
      assert SameFileFacts(sh.history[id], next.sh.history[id]);
    }
  }

  lemma LeavesFilesShared(pc: Pc, sh: Shared, t: Tid, next: Outcome)
    requires Ready(pc, sh, t) && LeavesFiles(pc, sh, t, next)
    ensures FilesOk(next.sh)
  {
    hide FileThreadOk, ThreadOk, Quiet, HistoryOk, LockOk, Looking, Finishing, PastRename, Owned, FlagFacts;
    LeavesOwned(sh, next.sh);
    LeavesUnlocked(pc, sh, t, next);
  }

  lemma LeavesFilesOk(pc: Pc, sh: Shared, t: Tid, next: Outcome)
    requires Ready(pc, sh, t)
    requires LeavesFiles(pc, sh, t, next)
    ensures FileStepOk(sh, t, next)
  {
    LeavesFilesThread(pc, sh, t, next);
    LeavesFilesShared(pc, sh, t, next);
    hide FileThreadOk, FilesOk, ThreadOk, SharedOk;
  }

  lemma LookupFiles(sh: Shared, t: Tid, job: Job)
    requires Ready(InGlobal(job), sh, t) && job.LookupAppend?
    ensures FileStepOk(sh, t, JobStep(sh, t, job))
  {
    hide FileStepOk, FileThreadOk, FilesOk, StageOk, Quiet, HistoryOk, LockOk, Private;
    LeavesFilesOk(InGlobal(job), sh, t, JobStep(sh, t, job));
  }

  lemma LookupFinishFiles(sh: Shared, t: Tid, job: Job)
    requires Ready(InGlobal(job), sh, t) && job.LookupFinish?
    ensures FileStepOk(sh, t, JobStep(sh, t, job))
  {
    hide FileStepOk, FileThreadOk, FilesOk, StageOk, Quiet, HistoryOk, LockOk, Private;
    if job.id in sh.registered {
      LeavesFilesOk(InGlobal(job), sh, t, JobStep(sh, t, job));
    } else {
      MissedFinishFiles(sh, t, job);
    }
  }

  lemma RemoveFiles(sh: Shared, t: Tid, job: Job)
    requires Ready(InGlobal(job), sh, t)
    requires job.RemoveCancelled? || job.Scan?
    ensures FileStepOk(sh, t, JobStep(sh, t, job))
  {
    hide FileStepOk, FileThreadOk, FilesOk, StageOk, Quiet, HistoryOk, LockOk, Private;
    LeavesFilesOk(InGlobal(job), sh, t, JobStep(sh, t, job));
  }

  lemma MissedFinishFiles(sh: Shared, t: Tid, job: Job)
    requires Ready(InGlobal(job), sh, t) && job.LookupFinish? && job.id !in sh.registered
    ensures FileStepOk(sh, t, JobStep(sh, t, job))
  {
    hide BooksBalance, WriterSettled, HistoryOk, LockOk, Private;
    var after := JobStep(sh, t, job).sh;
    forall x | Claims(after, x) ensures OwnsTmp(after, x) {
      assert Claims(sh, x);
    }
  }

  lemma OwnerFiles(sh: Shared, t: Tid, job: Job)
    requires Ready(InGlobal(job), sh, t)
    requires job.Insert? || job.RemoveEmpty? || job.RemoveFinished?
    ensures FileStepOk(sh, t, JobStep(sh, t, job))
  {
    hide BooksBalance, WriterSettled, HistoryOk, LockOk;
    var after := JobStep(sh, t, job).sh;
    forall x | Claims(after, x) ensures OwnsTmp(after, x) {
      assert Claims(sh, x);
    }
  }

  lemma ScanFiles(pc: Pc, sh: Shared, t: Tid, c: Choice)
    requires pc.SweepScan?
    requires Ready(pc, sh, t)
    requires CanStep(pc, sh, c)
    ensures FileStepOk(sh, t, SweepStep(pc, sh, t, c))
  {
    hide FileStepOk, FileThreadOk, StageOk, Quiet, HistoryOk, LockOk, Private, Owned;
    LeavesFilesOk(pc, sh, t, SweepStep(pc, sh, t, c));
  }

  lemma ProbeFiles(pc: Pc, sh: Shared, t: Tid, c: Choice)
    requires pc.SweepProbe?
    requires Ready(pc, sh, t)
    requires CanStep(pc, sh, c)
    ensures FileStepOk(sh, t, SweepStep(pc, sh, t, c))
  {
    hide FileStepOk, FilesOk, StageOk, Quiet, HistoryOk, LockOk, Private, FinishFacts;
    LeavesFilesOk(pc, sh, t, SweepStep(pc, sh, t, c));
  }

  lemma EvictFiles(pc: Pc, sh: Shared, t: Tid, c: Choice)
    requires pc.SweepEvict?
    requires Ready(pc, sh, t)
    requires CanStep(pc, sh, c)
    ensures FileStepOk(sh, t, SweepStep(pc, sh, t, c))
  {
    hide FileStepOk, FileThreadOk, FilesOk, StageOk, Quiet, HistoryOk, LockOk, Private;
    LeavesFilesOk(pc, sh, t, SweepStep(pc, sh, t, c));
  }

  lemma TombstoneFiles(pc: Pc, sh: Shared, t: Tid, c: Choice)
    requires pc.SweepTombstone?
    requires Ready(pc, sh, t)
    requires CanStep(pc, sh, c)
    ensures FileStepOk(sh, t, SweepStep(pc, sh, t, c))
  {
    hide FileStepOk, FileThreadOk, FilesOk, StageOk, Quiet, HistoryOk, LockOk, Private;
    LeavesFilesOk(pc, sh, t, SweepStep(pc, sh, t, c));
  }

  lemma DropFiles(pc: Pc, sh: Shared, t: Tid, c: Choice)
    requires pc.Dropping?
    requires Ready(pc, sh, t)
    requires CanStep(pc, sh, c)
    ensures FileStepOk(sh, t, DropStep(pc, sh, t, c))
  {
    hide FileStepOk, FilesOk, BooksBalance, WriterSettled, HistoryOk, LockOk, Private, RecordCount;
    LeavesFilesOk(pc, sh, t, DropStep(pc, sh, t, c));
  }

  lemma DeleteFiles(pc: Pc, sh: Shared, t: Tid, c: Choice)
    requires pc.Deleting?
    requires Ready(pc, sh, t)
    ensures FileStepOk(sh, t, DeleteStep(pc, sh, c))
  {
    var next := DeleteStep(pc, sh, c);
    assert Quiet(sh.entries[pc.id], sh.history[pc.id]);
    forall id | Claims(next.sh, id) ensures OwnsTmp(next.sh, id) {
      assert Claims(sh, id);
      assert Claims(sh, pc.id) ==> OwnsTmp(sh, pc.id);
    }
  }

  lemma CreateFiles(sh: Shared, t: Tid, args: StartArgs, c: Choice)
    requires Ready(StartCreate(args), sh, t)
    requires CanStep(StartCreate(args), sh, c)
    ensures FileStepOk(sh, t, CreateStep(sh, t, args, c))
  {
    var next := CreateStep(sh, t, args, c);
    if next.pc == Idle {
      hide FileStepOk, FilesOk, BooksBalance, WriterSettled, HistoryOk, LockOk, Private;
      LeavesFilesOk(StartCreate(args), sh, t, next);
    } else {
      hide FileThreadOk, FilesOk, FileGuarantee, ThreadOk, SharedOk;
      CreatedThread(sh, t, args, c);
      CreatedFiles(sh, t, args, c);
    }
  }

  lemma CreatedThread(sh: Shared, t: Tid, args: StartArgs, c: Choice)
    requires Ready(StartCreate(args), sh, t) && CanStep(StartCreate(args), sh, c)
    requires CreateStep(sh, t, args, c).pc != Idle
    ensures FileThreadOk(CreateStep(sh, t, args, c).pc, CreateStep(sh, t, args, c).sh, t)
    ensures FileGuarantee(sh, CreateStep(sh, t, args, c).sh, t)
  {
    hide FilesOk, BooksBalance, WriterSettled, HistoryOk, LockOk, Private, HasNonInputNeuron;
  }

  lemma CreatedFiles(sh: Shared, t: Tid, args: StartArgs, c: Choice)
    requires Ready(StartCreate(args), sh, t) && CanStep(StartCreate(args), sh, c)
    requires CreateStep(sh, t, args, c).pc != Idle
    ensures FilesOk(CreateStep(sh, t, args, c).sh)
  {
    hide FileThreadOk, BooksBalance, WriterSettled, HistoryOk, LockOk, Private, HasNonInputNeuron;
    var after := CreateStep(sh, t, args, c).sh;
    forall id | Claims(after, id) ensures OwnsTmp(after, id) {
      assert id != c.id ==> Claims(sh, id);
    }
  }

  /** A statement under the session lock that keeps to the session's books. */
  lemma HeldFiles(pc: Pc, sh: Shared, t: Tid, id: Id, held: Held)
    requires Ready(pc, sh, t) && SessionOf(pc) == Some(id) && !pc.SweepProbe? && pc != InFinish(id, SetFinished)
    requires SameFileFacts(sh.history[id], held.h) && held.e.finished == sh.entries[id].finished
    requires Finishing(held.pc) == Finishing(pc) && PastRename(held.pc) == PastRename(pc) && !Looking(held.pc)
    requires SessionOf(held.pc) == None || SessionOf(held.pc) == Some(id)
    requires held.pc != InFinish(id, SetFinished)
    requires !((held.pc.WantGlobal? || held.pc.InGlobal?) && held.pc.job.Insert?)
    ensures FileStepOk(sh, t, Outcome(held.pc, PutHeld(sh, id, held)))
  {
    hide FileStepOk, FilesOk, FileGuarantee, StageOk, BooksBalance, WriterSettled, HistoryOk, LockOk, Private;
    LeavesFilesOk(pc, sh, t, Outcome(held.pc, PutHeld(sh, id, held)));
  }

  lemma AppendFiles(sh: Shared, t: Tid, id: Id, stage: AppendStage, c: Choice)
    requires Ready(InAppend(id, stage), sh, t)
    ensures FileStepOk(sh, t, AppendMove(sh, id, stage, c))
  {
    hide FileStepOk, FileThreadOk, FilesOk, SharedOk, StageOk, RecordCount;
    HeldFiles(InAppend(id, stage), sh, t, id, AppendStep(id, sh.entries[id], sh.history[id], stage, c));
  }

  lemma FailedRenameFiles(sh: Shared, t: Tid, id: Id)
    requires Ready(InFinish(id, Renaming), sh, t)
    ensures FileStepOk(sh, t, FinishMove(sh, t, id, Renaming, IoError))
  {
    hide FileStepOk, FilesOk, BooksBalance, WriterSettled, HistoryOk, LockOk, Private;
    LeavesFilesOk(InFinish(id, Renaming), sh, t, FinishMove(sh, t, id, Renaming, IoError));
  }

  lemma FinisherOwnsTmp(sh: Shared, t: Tid, id: Id)
    requires Ready(InFinish(id, Renaming), sh, t)
    ensures OwnsTmp(sh, id)
  {
    hide BooksBalance, WriterSettled, HistoryOk, Private;
  }

  /** The rename moves the finishing session's own file. */
  lemma RenameFiles(sh: Shared, t: Tid, id: Id, c: Choice)
    requires Ready(InFinish(id, Renaming), sh, t)
    ensures FileStepOk(sh, t, FinishMove(sh, t, id, Renaming, c))
    ensures OwnsTmp(sh, id)
    ensures c != IoError ==> var path := sh.history[id].path;
      FinishMove(sh, t, id, Renaming, c).sh.files == (sh.files - {Tmp(path)})[Final(path) := Own(id)]
  {
    FinisherOwnsTmp(sh, t, id);
    if c == IoError {
      FailedRenameFiles(sh, t, id);
    } else {
      RenamedThread(sh, t, id, c);
      RenamedFiles(sh, t, id, c);
    }
  }

  lemma RenamedThread(sh: Shared, t: Tid, id: Id, c: Choice)
    requires Ready(InFinish(id, Renaming), sh, t) && c != IoError && OwnsTmp(sh, id)
    ensures FileThreadOk(InFinish(id, SetFinished), FinishMove(sh, t, id, Renaming, c).sh, t)
    ensures FileGuarantee(sh, FinishMove(sh, t, id, Renaming, c).sh, t)
    ensures FinishMove(sh, t, id, Renaming, c).pc == InFinish(id, SetFinished)
  {
    hide FilesOk, BooksBalance, WriterSettled, HistoryOk, LockOk, Private;
  }

  lemma RenamedFiles(sh: Shared, t: Tid, id: Id, c: Choice)
    requires Ready(InFinish(id, Renaming), sh, t) && c != IoError && OwnsTmp(sh, id)
    ensures FilesOk(FinishMove(sh, t, id, Renaming, c).sh)
    ensures var path := sh.history[id].path;
      FinishMove(sh, t, id, Renaming, c).sh.files == (sh.files - {Tmp(path)})[Final(path) := Own(id)]
  {
    hide BooksBalance, WriterSettled, HistoryOk, LockOk, Private;
    var next := FinishMove(sh, t, id, Renaming, c);
    forall x | Claims(next.sh, x) ensures OwnsTmp(next.sh, x) {
      assert Claims(sh, x);
    }
  }

  lemma OutcomeOwned(sh: Shared, t: Tid, id: Id, stage: FinishStage, c: Choice)
    requires id in sh.entries && id in sh.history && Owned(sh) && (stage.SetFinished? || stage.FinishUnlock?)
    ensures Owned(FinishMove(sh, t, id, stage, c).sh)
  {
    var after := FinishMove(sh, t, id, stage, c).sh;
    forall x | Claims(after, x) ensures OwnsTmp(after, x) {
      assert Claims(sh, x);
    }
  }

  /** The two statements that settle the outcome of a finish. */
  lemma OutcomeFiles(sh: Shared, t: Tid, id: Id, stage: FinishStage, c: Choice)
    requires Ready(InFinish(id, stage), sh, t)
    requires stage.SetFinished? || (stage.FinishUnlock? && stage.outcome.None?)
    ensures FileStepOk(sh, t, FinishMove(sh, t, id, stage, c))
  {
    hide FilesOk, FileThreadOk, FileGuarantee, Ready, FinishMove;
    OutcomeThread(sh, t, id, stage, c);
    OutcomeShared(sh, t, id, stage, c);
  }

  lemma OutcomeThread(sh: Shared, t: Tid, id: Id, stage: FinishStage, c: Choice)
    requires Ready(InFinish(id, stage), sh, t)
    requires stage.SetFinished? || (stage.FinishUnlock? && stage.outcome.None?)
    ensures FileThreadOk(FinishMove(sh, t, id, stage, c).pc, FinishMove(sh, t, id, stage, c).sh, t)
    ensures FileGuarantee(sh, FinishMove(sh, t, id, stage, c).sh, t)
  {
    hide BooksBalance, WriterSettled, HistoryOk, LockOk, Private, Owned;
  }

  lemma OutcomeShared(sh: Shared, t: Tid, id: Id, stage: FinishStage, c: Choice)
    requires Ready(InFinish(id, stage), sh, t)
    requires stage.SetFinished? || (stage.FinishUnlock? && stage.outcome.None?)
    ensures FilesOk(FinishMove(sh, t, id, stage, c).sh)
  {
    hide BooksBalance, WriterSettled, HistoryOk, LockOk, Private, Owned;
    OutcomeOwned(sh, t, id, stage, c);
  }

  /** The two stages that release the session lock on the way to the map. */
  lemma EmptyUnlockFiles(sh: Shared, t: Tid, id: Id, c: Choice)
    requires Ready(InFinish(id, EmptyUnlock), sh, t)
    ensures FileStepOk(sh, t, FinishMove(sh, t, id, EmptyUnlock, c))
  {
    hide FileStepOk, FileGuarantee, StageOk, FilesOk, BooksBalance, WriterSettled, HistoryOk, LockOk, Private;
    LeavesFilesOk(InFinish(id, EmptyUnlock), sh, t, FinishMove(sh, t, id, EmptyUnlock, c));
  }

  lemma SuccessUnlockFiles(sh: Shared, t: Tid, id: Id, stage: FinishStage, c: Choice)
    requires Ready(InFinish(id, stage), sh, t) && stage.FinishUnlock? && stage.outcome.Some?
    ensures FileStepOk(sh, t, FinishMove(sh, t, id, stage, c))
  {
    hide FileStepOk, FileGuarantee, StageOk, FilesOk, BooksBalance, WriterSettled, HistoryOk, LockOk, Private;
    LeavesFilesOk(InFinish(id, stage), sh, t, FinishMove(sh, t, id, stage, c));
  }

  lemma EarlyFiles(sh: Shared, t: Tid, id: Id, stage: FinishStage, c: Choice)
    requires Ready(InFinish(id, stage), sh, t)
    requires stage.EmptyCheck? || stage.SetPreserve? || stage.TakeWriter? || stage.Flushing?
    ensures FileStepOk(sh, t, FinishMove(sh, t, id, stage, c))
  {
    hide FileStepOk, FileThreadOk, FilesOk, SharedOk, StageOk;
    HeldFiles(InFinish(id, stage), sh, t, id, FinishStep(id, sh.entries[id], sh.history[id], t, stage, false, c));
  }

  lemma FinishFiles(sh: Shared, t: Tid, id: Id, stage: FinishStage, c: Choice)
    requires Ready(InFinish(id, stage), sh, t)
    ensures FileStepOk(sh, t, FinishMove(sh, t, id, stage, c))
  {
    hide FileStepOk, Ready;
    if stage.Renaming? {
      RenameFiles(sh, t, id, c);
    } else if stage.SetFinished? || (stage.FinishUnlock? && stage.outcome.None?) {
      OutcomeFiles(sh, t, id, stage, c);
    } else if stage.EmptyUnlock? {
      EmptyUnlockFiles(sh, t, id, c);
    } else if stage.FinishUnlock? {
      SuccessUnlockFiles(sh, t, id, stage, c);
    } else {
      EarlyFiles(sh, t, id, stage, c);
    }
  }

  lemma BeginFinishFiles(sh: Shared, t: Tid, id: Id)
    requires Ready(Idle, sh, t)
    requires Disciplined(sh, Begin(Finish(id)))
    ensures FileStepOk(sh, t, Begun(sh, t, Finish(id)))
  {
    var after := Begun(sh, t, Finish(id)).sh;
    forall x | Claims(after, x) ensures OwnsTmp(after, x) {
      assert Claims(sh, x);
    }
  }

  lemma IdleFiles(pc: Pc, sh: Shared, t: Tid, c: Choice)
    requires pc.Idle? || pc.WantGlobal?
    requires Ready(pc, sh, t)
    requires CanStep(pc, sh, c) && Disciplined(sh, c)
    ensures FileStepOk(sh, t, Local(pc, sh, t, c))
  {
    hide FileStepOk, FilesOk, BooksBalance, WriterSettled, HistoryOk, LockOk, Private, RecordCount;
    if pc.Idle? && c.request.Finish? {
      BeginFinishFiles(sh, t, c.request.id);
    } else {
      LeavesFilesOk(pc, sh, t, Local(pc, sh, t, c));
    }
  }

  lemma WantFiles(pc: Pc, sh: Shared, t: Tid, c: Choice)
    requires pc.WantAppend? || pc.WantFinish?
    requires Ready(pc, sh, t)
    requires CanStep(pc, sh, c)
    ensures FileStepOk(sh, t, Local(pc, sh, t, c))
  {
    hide FileStepOk, FileThreadOk, StageOk, Quiet, HistoryOk, LockOk, Private, Owned;
    LeavesFilesOk(pc, sh, t, Local(pc, sh, t, c));
  }

  lemma MarkFiles(pc: Pc, sh: Shared, t: Tid, c: Choice)
    requires pc.CancelMark?
    requires Ready(pc, sh, t)
    requires CanStep(pc, sh, c)
    ensures FileStepOk(sh, t, Local(pc, sh, t, c))
  {
    hide FileStepOk, FileThreadOk, FilesOk, StageOk, Quiet, HistoryOk, LockOk, Private;
    LeavesFilesOk(pc, sh, t, Local(pc, sh, t, c));
  }

  lemma LocalFiles(pc: Pc, sh: Shared, t: Tid, c: Choice)
    requires Ready(pc, sh, t)
    requires CanStep(pc, sh, c) && Disciplined(sh, c)
    ensures FileStepOk(sh, t, Local(pc, sh, t, c))
  {
    hide FileStepOk, FileThreadOk, FilesOk, SharedOk, StageOk;
    match pc {
      case InGlobal(job) =>
        if job.Insert? || job.RemoveEmpty? || job.RemoveFinished? {
          OwnerFiles(sh, t, job);
        } else if job.RemoveCancelled? || job.Scan? {
          RemoveFiles(sh, t, job);
        } else if job.LookupFinish? {
          LookupFinishFiles(sh, t, job);
        } else {
          LookupFiles(sh, t, job);
        }
      case SweepScan(_, _, _) => ScanFiles(pc, sh, t, c);
      case SweepProbe(_, _, _, _) => ProbeFiles(pc, sh, t, c);
      case SweepEvict(_, _, _) => EvictFiles(pc, sh, t, c);
      case SweepTombstone(_, _, _, _) => TombstoneFiles(pc, sh, t, c);
      case Dropping(_, _) => DropFiles(pc, sh, t, c);
      case Deleting(_, _, _) => DeleteFiles(pc, sh, t, c);
      case StartCreate(args) => CreateFiles(sh, t, args, c);
      case InAppend(id, stage) => AppendFiles(sh, t, id, stage, c);
      case InFinish(id, stage) => FinishFiles(sh, t, id, stage, c);
      case Idle => IdleFiles(pc, sh, t, c);
      case WantGlobal(_) => IdleFiles(pc, sh, t, c);
      case CancelMark(_) => MarkFiles(pc, sh, t, c);
      case _ => WantFiles(pc, sh, t, c);
    }
  }

  lemma FinishStable(pc: Pc, sh: Shared, sh': Shared, t: Tid, u: Tid)
    requires ThreadOk(pc, sh, u) && SharedOk(sh) && SharedOk(sh') && Guarantee(sh, sh', t) && u != t
    requires FileThreadOk(pc, sh, u) && FilesOk(sh) && FileGuarantee(sh, sh', t)
    ensures forall id :: (id, u) in sh'.finishing ==> Finishing(pc) == Some(id)
    ensures Finishing(pc).Some? ==> FinishFacts(pc, sh', u, Finishing(pc).value)
  {
    hide StageOk, Quiet, HistoryOk, LockOk, FlagFacts, Private, EntryGuarantee;
  }

  lemma FlagsStable(pc: Pc, sh: Shared, sh': Shared, t: Tid, u: Tid)
    requires ThreadOk(pc, sh, u) && SharedOk(sh) && SharedOk(sh') && Guarantee(sh, sh', t) && u != t
    requires FileThreadOk(pc, sh, u) && FilesOk(sh) && FileGuarantee(sh, sh', t)
    ensures SessionOf(pc).Some? && SessionOf(pc).value in sh'.entries ==> FlagFacts(pc, sh', SessionOf(pc).value)
    ensures (pc.WantGlobal? || pc.InGlobal?) && pc.job.Insert? ==> !Published(sh', pc.job.id)
  {
    hide StageOk, Quiet, HistoryOk, LockOk;
    StableGrounded(pc, sh, sh', t, u);
  }

  lemma FileStable(pc: Pc, sh: Shared, sh': Shared, t: Tid, u: Tid)
    requires ThreadOk(pc, sh, u) && SharedOk(sh) && SharedOk(sh') && Guarantee(sh, sh', t) && u != t
    requires FileThreadOk(pc, sh, u) && FilesOk(sh) && FileGuarantee(sh, sh', t)
    ensures FileThreadOk(pc, sh', u)
  {
    FinishStable(pc, sh, sh', t, u);
    FlagsStable(pc, sh, sh', t, u);
    hide ThreadOk, SharedOk, Guarantee, FilesOk, FileGuarantee, FinishFacts, FlagFacts;
  }

  lemma InitialFiles(s: State)
    requires Initial(s)
    ensures FileInv(s)
  {
  }

  lemma NextFiles(s: State, ev: Event)
    requires Inv(s) && FileInv(s) && CanMove(s, ev) && Disciplined(s.shared, ev.choice)
    ensures Inv(Next(s, ev)) && FileInv(Next(s, ev))
    ensures FileGuarantee(s.shared, Next(s, ev).shared, ev.thread)
  {
    NextOk(s, ev);
    var t, s' := ev.thread, Next(s, ev);
    assert ThreadOk(PcOf(s, t), s.shared, t) && FileThreadOk(PcOf(s, t), s.shared, t);
    LocalFiles(PcOf(s, t), s.shared, t, ev.choice);
    forall u ensures FileThreadOk(PcOf(s', u), s'.shared, u) {
      if u != t {
        assert ThreadOk(PcOf(s, u), s.shared, u) && FileThreadOk(PcOf(s, u), s.shared, u);
        FileStable(PcOf(s, u), s.shared, s'.shared, t, u);
      }
    }
  }
}
