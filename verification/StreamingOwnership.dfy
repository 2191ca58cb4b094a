/** When every recording stays where its session put it, over all runs. */
module StreamingOwnership {
  import opened RecordBatches
  import opened StreamingProtocol
  import opened StreamingInvariants
  import opened StreamingFiles
  import opened StreamingGuarantees
  import StreamingFileGuarantees

  /** A file at a temporary name is foreign or that of an unpublished session of the path. */
  ghost predicate TmpsOk(sh: Shared) {
    forall path | Tmp(path) in sh.files && sh.files[Tmp(path)].Own? ::
      var id := sh.files[Tmp(path)].id;
      id in sh.history && sh.history[id].path == path && !sh.history[id].published
  }

  ghost predicate PublishedAreSealed(sh: Shared) {
    forall id | id in sh.history && sh.history[id].published :: sh.history[id].sealed.Some?
  }

  ghost predicate OwnershipOk(sh: Shared) {
    Owned(sh) && TmpsOk(sh) && PublishedAreSealed(sh)
  }

  /** The step renames, by path, the recording of another session that is still to be published. */
  ghost predicate Hijacks(s: State, ev: Event) {
    var (pc, sh) := (PcOf(s, ev.thread), s.shared);
    && pc.InFinish? && pc.finish.Renaming? && ev.choice != IoError && pc.id in sh.entries
    && var tmp := Tmp(sh.entries[pc.id].path);
      tmp in sh.files && sh.files[tmp].Own? && sh.files[tmp].id != pc.id && Claims(sh, sh.files[tmp].id)
  }

  /** The steps that may move a file: a rename, a deletion, a creation. */
  predicate MovesFiles(pc: Pc, c: Choice) {
    || pc.Deleting? || (pc.StartCreate? && c.NewId?)
    || (pc.InFinish? && pc.finish.Renaming? && c != IoError)
  }

  /** The files, and all that ownership depends on, are as before. */
  ghost predicate KeepsFiles(sh: Shared, sh': Shared) {
    && sh'.files == sh.files && sh'.entries.Keys == sh.entries.Keys && sh'.history.Keys == sh.history.Keys
    && forall id | id in sh.history ::
         && sh'.history[id].path == sh.history[id].path && sh'.history[id].published == sh.history[id].published
         && (sh.history[id].sealed.Some? ==> sh'.history[id].sealed.Some?)
         && (sh'.history[id].sealed.Some? ==> sh.history[id].sealed.Some? || id in sh.entries)
  }

  lemma FinishKeepsFiles(sh: Shared, t: Tid, id: Id, stage: FinishStage, c: Choice)
    requires id in sh.entries && id in sh.history && !(stage.Renaming? && c != IoError)
    ensures KeepsFiles(sh, FinishMove(sh, t, id, stage, c).sh)
  {
  }

  lemma AppendKeepsFiles(sh: Shared, id: Id, stage: AppendStage, c: Choice)
    requires id in sh.entries && id in sh.history
    ensures KeepsFiles(sh, AppendMove(sh, id, stage, c).sh)
  {
    hide RecordCount;
  }

  lemma JobKeepsFiles(sh: Shared, t: Tid, job: Job)
    requires Grounded(InGlobal(job), sh)
    ensures KeepsFiles(sh, JobStep(sh, t, job).sh)
  {
  }

  lemma SweepKeepsFiles(pc: Pc, sh: Shared, t: Tid, c: Choice)
    requires pc.SweepScan? || pc.SweepProbe? || pc.SweepEvict? || pc.SweepTombstone?
    requires CanStep(pc, sh, c) && Grounded(pc, sh)
    ensures KeepsFiles(sh, SweepStep(pc, sh, t, c).sh)
  {
  }

  lemma OtherStepsKeepFiles(s: State, ev: Event)
    requires CanMove(s, ev) && !MovesFiles(PcOf(s, ev.thread), ev.choice)
    ensures KeepsFiles(s.shared, Next(s, ev).shared)
  {
    hide HasNonInputNeuron, RecordCount, FinishMove, AppendMove, JobStep, SweepStep;
    var (pc, sh, t) := (PcOf(s, ev.thread), s.shared, ev.thread);
    if pc.InFinish? {
      FinishKeepsFiles(sh, t, pc.id, pc.finish, ev.choice);
    } else if pc.InAppend? {
      AppendKeepsFiles(sh, pc.id, pc.append, ev.choice);
    } else if pc.InGlobal? {
      JobKeepsFiles(sh, t, pc.job);
    } else if pc.SweepScan? || pc.SweepProbe? || pc.SweepEvict? || pc.SweepTombstone? {
      SweepKeepsFiles(pc, sh, t, ev.choice);
    }
  }

  lemma KeptFilesStayOwned(sh: Shared, sh': Shared)
    requires OwnershipOk(sh) && KeepsFiles(sh, sh')
    ensures OwnershipOk(sh')
  {
    forall id | Claims(sh', id) ensures OwnsTmp(sh', id) {
      assert Claims(sh, id);
    }
  }

  lemma CreationKeepsOwnership(s: State, ev: Event)
    requires Inv(s) && CanMove(s, ev) && OwnershipOk(s.shared) && PcOf(s, ev.thread).StartCreate? && ev.choice.NewId?
    ensures OwnershipOk(Next(s, ev).shared)
  {
    hide Inv, HasNonInputNeuron;
    var (sh, sh') := (s.shared, Next(s, ev).shared);
    if sh' != sh {
      forall id | Claims(sh', id) ensures OwnsTmp(sh', id) {
        assert id != ev.choice.id ==> Claims(sh, id);
      }
    }
  }

  /** A session in the heap has its own path in its history. */
  lemma SamePath(s: State, id: Id)
    requires Inv(s) && id in s.shared.entries
    ensures id in s.shared.history && s.shared.history[id].path == s.shared.entries[id].path
  {
  }

  /** A session being deleted is sealed exactly when its file is preserved. */
  lemma DeletedIsQuiet(s: State, t: Tid)
    requires Inv(s) && PcOf(s, t).Deleting?
    ensures var (id, sh) := (PcOf(s, t).id, s.shared);
      && id in sh.entries && id in sh.history && Quiet(sh.entries[id], sh.history[id])
  {
    assert ThreadOk(PcOf(s, t), s.shared, t);
  }

  lemma DeletionKeepsOwnership(s: State, ev: Event)
    requires Inv(s) && CanMove(s, ev) && OwnershipOk(s.shared) && PcOf(s, ev.thread).Deleting?
    ensures OwnershipOk(Next(s, ev).shared)
  {
    hide Inv;
    var (x, sh, sh') := (PcOf(s, ev.thread).id, s.shared, Next(s, ev).shared);
    DeletedIsQuiet(s, ev.thread);
    SamePath(s, x);
    forall id | Claims(sh', id) ensures OwnsTmp(sh', id) {
      assert Claims(sh, id);
      if sh'.files != sh.files {
        assert Claims(sh, x) && OwnsTmp(sh, x);
      }
    }
  }

  lemma RenamingIsSealed(s: State, t: Tid)
    requires Inv(s) && PcOf(s, t).InFinish? && PcOf(s, t).finish.Renaming?
    ensures PcOf(s, t).id in s.shared.history && s.shared.history[PcOf(s, t).id].sealed.Some?
  {
    assert ThreadOk(PcOf(s, t), s.shared, t);
  }

  lemma RenameKeepsOwnership(s: State, ev: Event)
    requires Inv(s) && CanMove(s, ev) && OwnershipOk(s.shared) && !Hijacks(s, ev)
    requires PcOf(s, ev.thread).InFinish? && PcOf(s, ev.thread).finish.Renaming? && ev.choice != IoError
    ensures OwnershipOk(Next(s, ev).shared)
  {
    hide Inv;
    var (x, sh, sh') := (PcOf(s, ev.thread).id, s.shared, Next(s, ev).shared);
    RenamingIsSealed(s, ev.thread);
    SamePath(s, x);
    forall id | Claims(sh', id) ensures OwnsTmp(sh', id) {
      assert Claims(sh, id);
    }
  }

  lemma StepKeepsOwnership(s: State, ev: Event)
    requires Inv(s) && CanMove(s, ev) && OwnershipOk(s.shared) && !Hijacks(s, ev)
    ensures OwnershipOk(Next(s, ev).shared)
  {
    hide Inv, Local, OwnershipOk, KeepsFiles, Hijacks;
    var pc := PcOf(s, ev.thread);
    if !MovesFiles(pc, ev.choice) {
      OtherStepsKeepFiles(s, ev);
      KeptFilesStayOwned(s.shared, Next(s, ev).shared);
    } else if pc.Deleting? {
      DeletionKeepsOwnership(s, ev);
    } else if pc.StartCreate? {
      CreationKeepsOwnership(s, ev);
    } else {
      RenameKeepsOwnership(s, ev);
    }
  }

  /** A hijacked session has lost its file. */
  lemma HijackTakesAFile(s: State, ev: Event)
    requires Inv(s) && CanMove(s, ev) && Hijacks(s, ev) && TmpsOk(s.shared)
    ensures !Owned(Next(s, ev).shared)
  {
    hide Inv;
    var (x, sh, sh') := (PcOf(s, ev.thread).id, s.shared, Next(s, ev).shared);
    SamePath(s, x);
    var victim := sh.files[Tmp(sh.entries[x].path)].id;
    assert Claims(sh', victim) && !OwnsTmp(sh', victim);
  }

  // Whole runs.

  ghost predicate NoHijack(s: State, events: seq<Event>)
    requires ValidRun(s, events)
    decreases |events|
  {
    events == [] || (!Hijacks(s, events[0]) && NoHijack(Next(s, events[0]), events[1..]))
  }

  ghost predicate OwnedThroughout(s: State, events: seq<Event>)
    requires ValidRun(s, events)
    decreases |events|
  {
    Owned(s.shared) && (events == [] || OwnedThroughout(Next(s, events[0]), events[1..]))
  }

  lemma {:induction false} OwnershipAlongRun(s: State, events: seq<Event>)
    requires Inv(s) && OwnershipOk(s.shared) && ValidRun(s, events)
    ensures OwnedThroughout(s, events) <==> NoHijack(s, events)
    ensures NoHijack(s, events) ==> OwnershipOk(RunFrom(s, events).shared)
    decreases |events|
  {
    hide Inv, Local, Owned, TmpsOk, PublishedAreSealed, Hijacks;
    if events != [] {
      NextOk(s, events[0]);
      if Hijacks(s, events[0]) {
        HijackTakesAFile(s, events[0]);
      } else {
        StepKeepsOwnership(s, events[0]);
        OwnershipAlongRun(Next(s, events[0]), events[1..]);
      }
    }
  }

  lemma InitiallyOwned(s: State)
    requires Initial(s)
    ensures OwnershipOk(s.shared)
  {
  }

  /**
   Over any run at all, with any overlap of calls: every session still to be published owns its
   temporary file in every state exactly when no finish call renames another such session's.
   */
  lemma OwnershipHoldsExactlyWithoutHijack(s: State, events: seq<Event>)
    requires Initial(s) && ValidRun(s, events)
    ensures OwnedThroughout(s, events) <==> NoHijack(s, events)
  {
    hide Inv, OwnershipOk, Initial;
    InitialOk(s);
    InitiallyOwned(s);
    OwnershipAlongRun(s, events);
  }

  /** Finish calls that do not overlap hijack nothing. */
  lemma {:induction false} DisciplinedRunsDoNotHijack(s: State, events: seq<Event>)
    requires Inv(s) && FileInv(s) && StreamingFileGuarantees.DisciplinedRun(s, events)
    ensures ValidRun(s, events) && NoHijack(s, events)
    decreases |events|
  {
    hide Inv, FileInv, Local, Hijacks;
    StreamingFileGuarantees.DisciplinedIsValid(s, events);
    if events != [] {
      DisciplinedStepDoesNotHijack(s, events[0]);
      NextFiles(s, events[0]);
      DisciplinedRunsDoNotHijack(Next(s, events[0]), events[1..]);
    }
  }

  lemma DisciplinedStepDoesNotHijack(s: State, ev: Event)
    requires Inv(s) && FileInv(s) && CanMove(s, ev)
    ensures !Hijacks(s, ev)
  {
    var (t, pc) := (ev.thread, PcOf(s, ev.thread));
    if pc.InFinish? && pc.finish.Renaming? {
      assert ThreadOk(pc, s.shared, t) && FileThreadOk(pc, s.shared, t);
      FinisherOwnsTmp(s.shared, t, pc.id);
    }
  }

  // The flag a session carries, and the rename it stands for.

  /** A published session is marked finished, or its publisher is about to mark it. */
  ghost predicate FlagsOk(s: State) {
    forall id | id in s.shared.entries && id in s.shared.history && s.shared.history[id].published ::
      s.shared.entries[id].finished || StreamingFileGuarantees.BetweenRenameAndFlag(s, id)
  }

  ghost predicate Unmarked(sh: Shared, id: Id) {
    id in sh.entries && id in sh.history && sh.history[id].published && !sh.entries[id].finished
  }

  lemma FinishKeepsFlags(sh: Shared, t: Tid, x: Id, stage: FinishStage, c: Choice, id: Id)
    requires x in sh.entries && x in sh.history && Unmarked(FinishMove(sh, t, x, stage, c).sh, id)
    ensures
      || FinishMove(sh, t, x, stage, c).pc == InFinish(id, SetFinished)
      || (Unmarked(sh, id) && !(x == id && stage.SetFinished?))
  {
  }

  lemma AppendKeepsFlags(sh: Shared, x: Id, stage: AppendStage, c: Choice, id: Id)
    requires x in sh.entries && x in sh.history && Unmarked(AppendMove(sh, x, stage, c).sh, id)
    ensures Unmarked(sh, id)
  {
    hide RecordCount;
  }

  lemma JobKeepsFlags(sh: Shared, t: Tid, job: Job, id: Id)
    requires Grounded(InGlobal(job), sh) && Unmarked(JobStep(sh, t, job).sh, id)
    ensures Unmarked(sh, id)
  {
  }

  lemma SweepKeepsFlags(pc: Pc, sh: Shared, t: Tid, c: Choice, id: Id)
    requires pc.SweepScan? || pc.SweepProbe? || pc.SweepEvict? || pc.SweepTombstone?
    requires CanStep(pc, sh, c) && Grounded(pc, sh) && Unmarked(SweepStep(pc, sh, t, c).sh, id)
    ensures Unmarked(sh, id)
  {
  }

  /** A published, unfinished session was so before, unless its publisher has just renamed. */
  lemma FlagStep(s: State, ev: Event, id: Id)
    requires CanMove(s, ev) && Unmarked(Next(s, ev).shared, id)
    ensures
      || PcOf(Next(s, ev), ev.thread) == InFinish(id, SetFinished)
      || (Unmarked(s.shared, id) && PcOf(s, ev.thread) != InFinish(id, SetFinished))
  {
    hide HasNonInputNeuron, RecordCount, FinishMove, AppendMove, JobStep, SweepStep;
    var (pc, sh, t) := (PcOf(s, ev.thread), s.shared, ev.thread);
    if pc.InFinish? {
      FinishKeepsFlags(sh, t, pc.id, pc.finish, ev.choice, id);
    } else if pc.InAppend? {
      AppendKeepsFlags(sh, pc.id, pc.append, ev.choice, id);
    } else if pc.InGlobal? {
      JobKeepsFlags(sh, t, pc.job, id);
    } else if pc.SweepScan? || pc.SweepProbe? || pc.SweepEvict? || pc.SweepTombstone? {
      SweepKeepsFlags(pc, sh, t, ev.choice, id);
    }
  }

  lemma FlagsStay(s: State, ev: Event)
    requires CanMove(s, ev) && FlagsOk(s)
    ensures FlagsOk(Next(s, ev))
  {
    hide Local, CanMove;
    var s' := Next(s, ev);
    forall id | id in s'.shared.entries && id in s'.shared.history && s'.shared.history[id].published
      ensures s'.shared.entries[id].finished || StreamingFileGuarantees.BetweenRenameAndFlag(s', id)
    {
      if !s'.shared.entries[id].finished {
        FlagStep(s, ev, id);
        if PcOf(s', ev.thread) != InFinish(id, SetFinished) {
          var t :| PcOf(s, t) == InFinish(id, SetFinished);
          assert PcOf(s', t) == InFinish(id, SetFinished);
        }
      }
    }
  }

  lemma {:induction false} FlagsAlongRun(s: State, events: seq<Event>)
    requires FlagsOk(s) && ValidRun(s, events)
    ensures FlagsOk(RunFrom(s, events))
    decreases |events|
  {
    hide FlagsOk, Local;
    if events != [] {
      FlagsStay(s, events[0]);
      FlagsAlongRun(Next(s, events[0]), events[1..]);
    }
  }

  /** Without a hijack, every live session not yet marked finished or about to be owns its file. */
  lemma UnfinishedOwnWithoutHijack(s: State, events: seq<Event>, id: Id)
    requires Initial(s) && ValidRun(s, events) && NoHijack(s, events)
    requires var s' := RunFrom(s, events);
      && id in s'.shared.entries && !s'.shared.entries[id].finished
      && !StreamingFileGuarantees.BetweenRenameAndFlag(s', id)
    ensures id in RunFrom(s, events).shared.history && OwnsTmp(RunFrom(s, events).shared, id)
  {
    hide Inv, Local, TmpsOk, PublishedAreSealed, NoHijack, OwnedThroughout;
    InitialOk(s);
    InitiallyOwned(s);
    OwnershipAlongRun(s, events);
    FlagsAlongRun(s, events);
    RunKeepsInv(s, events);
    var s' := RunFrom(s, events);
    SamePath(s', id);
    assert Claims(s'.shared, id);
  }
}
