/** When acknowledged records are kept, over all runs. */
module StreamingRecordKeeping {
  import opened Options
  import opened RecordBatches
  import opened StreamingProtocol
  import opened StreamingInvariants
  import opened StreamingFiles
  import opened StreamingGuarantees
  import opened StreamingFileGuarantees
  import opened StreamingOwnership
  import opened StreamingWatch

  /** Acknowledged records that are neither published nor in the session's own file. */
  ghost predicate Lost(sh: Shared, id: Id) {
    && id in sh.history && sh.history[id].acked > 0
    && !sh.history[id].published && !OwnsTmp(sh, id)
  }

  ghost predicate Sealed(sh: Shared, id: Id) {
    id in sh.history && sh.history[id].sealed.Some?
  }

  ghost predicate HasRecords(sh: Shared, id: Id) {
    id in sh.entries && sh.entries[id].recordsWritten > 0
  }

  /** The session is in the map, or a cancel, a sweep, or a finish that found it empty or published it took it out. */
  ghost predicate Excused(sh: Shared, w: Watch, id: Id) {
    id in sh.registered || w.doomed || w.emptied || Published(sh, id)
  }

  /** What the books of one session say, in terms of what has been seen. */
  ghost predicate RecordsOk(sh: Shared, w: Watch, id: Id) {
    && (HasRecords(sh, id) ==> Excused(sh, w, id))
    && (HasRecords(sh, id) && w.emptied ==> w.overtaken)
    && (id in sh.history && id !in sh.entries && !Sealed(sh, id) && sh.history[id].acked > 0 ==>
          w.doomed || w.overtaken)
    && (Published(sh, id) ==> Sealed(sh, id))
    && (w.emptied ==> id in sh.history)
    && (w.overtaken ==> w.emptied)
  }

  /** What a thread knows about them. */
  ghost predicate RecordThreadOk(pc: Pc, sh: Shared, w: Watch, id: Id) {
    && (Appending(pc, id) ==> Excused(sh, w, id))
    && (FoundEmpty(pc, id) ==> w.emptied)
    && (FoundFinished(pc, id) ==> Published(sh, id))
    && (Inserting(pc, id) ==> !w.emptied)
  }

  ghost predicate RecordInv(s: State, w: Watch, id: Id) {
    && RecordsOk(s.shared, w, id)
    && (forall t :: RecordThreadOk(PcOf(s, t), s.shared, w, id))
    && (w.emptied && id in s.shared.registered ==> exists t :: FoundEmpty(PcOf(s, t), id))
  }

  lemma SettledStays(s: State, ev: Event, id: Id)
    requires Inv(s) && CanMove(s, ev)
    ensures Sealed(s.shared, id) ==> Sealed(Next(s, ev).shared, id)
    ensures Published(s.shared, id) ==> Published(Next(s, ev).shared, id)
  {
    hide Inv, Local, CanMove;
    if id in s.shared.history {
      StepGrowsHistory(s, ev, id);
    }
  }

  /** Once excused, a session stays excused. */
  lemma ExcuseStays(s: State, ev: Event, w: Watch, id: Id)
    requires Inv(s) && CanMove(s, ev) && RecordInv(s, w, id) && Excused(s.shared, w, id)
    ensures Excused(Next(s, ev).shared, SeenBy(w, s, ev, id), id)
  {
    hide Inv, Local, RecordsOk, Published;
    StepSession(PcOf(s, ev.thread), s.shared, ev.thread, ev.choice, id);
    assert RecordThreadOk(PcOf(s, ev.thread), s.shared, w, id);
    SettledStays(s, ev, id);
  }

  /** The thread that has settled a successful finish has published the session. */
  lemma SuccessIsPublished(s: State, t: Tid, id: Id)
    requires Inv(s) && Succeeds(PcOf(s, t), id)
    ensures Published(s.shared, id)
  {
    assert ThreadOk(PcOf(s, t), s.shared, t);
  }

  /** Nobody else can find a session empty that is still to be inserted. */
  lemma InsertingIsPrivate(s: State, t: Tid, u: Tid, id: Id)
    requires Inv(s) && Inserting(PcOf(s, t), id)
    ensures !FindsEmpty(PcOf(s, u), s.shared, id)
  {
    assert ThreadOk(PcOf(s, t), s.shared, t);
    assert ThreadOk(PcOf(s, u), s.shared, u);
  }

  lemma MoverKnowsRecords(s: State, ev: Event, w: Watch, id: Id)
    requires Inv(s) && CanMove(s, ev) && RecordInv(s, w, id)
    ensures RecordThreadOk(PcOf(Next(s, ev), ev.thread), Next(s, ev).shared, SeenBy(w, s, ev, id), id)
  {
    hide Inv, Local, Published, Excused;
    var (t, pc) := (ev.thread, PcOf(s, ev.thread));
    var (s', w') := (Next(s, ev), SeenBy(w, s, ev, id));
    StepThread(pc, s.shared, t, ev.choice, id);
    assert RecordThreadOk(pc, s.shared, w, id);
    if Excused(s.shared, w, id) {
      ExcuseStays(s, ev, w, id);
    } else {
      NotExcusedMeans(s.shared, w, id);
    }
    if Succeeds(pc, id) {
      SuccessIsPublished(s, t, id);
    }
    SettledStays(s, ev, id);
  }

  lemma NotExcusedMeans(sh: Shared, w: Watch, id: Id)
    requires !Excused(sh, w, id)
    ensures id !in sh.registered
  {
  }

  lemma OthersKnowRecords(s: State, ev: Event, w: Watch, id: Id, u: Tid)
    requires Inv(s) && CanMove(s, ev) && RecordInv(s, w, id) && u != ev.thread
    ensures RecordThreadOk(PcOf(Next(s, ev), u), Next(s, ev).shared, SeenBy(w, s, ev, id), id)
  {
    hide Inv, Local, Published, Excused;
    assert RecordThreadOk(PcOf(s, u), s.shared, w, id);
    if Excused(s.shared, w, id) {
      ExcuseStays(s, ev, w, id);
    }
    SettledStays(s, ev, id);
    if Inserting(PcOf(s, u), id) {
      InsertingIsPrivate(s, u, ev.thread, id);
    }
  }

  /** A session that is deleted leaves its acknowledged total behind. */
  lemma DeletedRecords(s: State, t: Tid, id: Id)
    requires Inv(s) && PcOf(s, t).Deleting? && PcOf(s, t).id == id
    ensures id in s.shared.entries && id in s.shared.history && id !in s.shared.registered
    ensures s.shared.entries[id].recordsWritten == s.shared.history[id].acked
  {
    assert ThreadOk(PcOf(s, t), s.shared, t);
  }

  lemma HistoryOfAbsent(s: State, ev: Event, id: Id)
    requires Inv(s) && CanMove(s, ev) && id in s.shared.history
    requires id !in s.shared.entries || PcOf(s, ev.thread).Deleting?
    ensures id in Next(s, ev).shared.history && Next(s, ev).shared.history[id] == s.shared.history[id]
  {
    assert ThreadOk(PcOf(s, ev.thread), s.shared, ev.thread);
    hide Inv, Local;
    OthersKeepHistory(s, ev, id);
  }

  lemma RecordsStay(s: State, ev: Event, w: Watch, id: Id)
    requires Inv(s) && CanMove(s, ev) && RecordInv(s, w, id)
    ensures RecordsOk(Next(s, ev).shared, SeenBy(w, s, ev, id), id)
  {
    hide Inv, Local, Excused;
    var (pc, sh, sh') := (PcOf(s, ev.thread), s.shared, Next(s, ev).shared);
    StepSession(pc, sh, ev.thread, ev.choice, id);
    assert RecordThreadOk(pc, sh, w, id);
    if Excused(sh, w, id) {
      ExcuseStays(s, ev, w, id);
    }
    if id in sh.history && id !in sh'.entries {
      if id in sh.entries {
        DeletedRecords(s, ev.thread, id);
        if HasRecords(sh, id) {
          DeletedExcuse(sh, w, id);
        }
      }
      HistoryOfAbsent(s, ev, id);
    }
    PublishedIsSealed(s, ev, id);
  }

  /** Only a rename publishes, and by then the session is sealed. */
  lemma PublishedIsSealed(s: State, ev: Event, id: Id)
    requires Inv(s) && CanMove(s, ev) && (Published(s.shared, id) ==> Sealed(s.shared, id))
    ensures Published(Next(s, ev).shared, id) ==> Sealed(Next(s, ev).shared, id)
  {
    hide Inv, Local;
    SettledStays(s, ev, id);
    if Published(Next(s, ev).shared, id) && !Published(s.shared, id) {
      PublisherIsRenaming(s, ev, id);
      RenamingIsSealed(s, ev.thread);
    }
  }

  lemma PublisherIsRenaming(s: State, ev: Event, id: Id)
    requires Inv(s) && CanMove(s, ev) && Published(Next(s, ev).shared, id) && !Published(s.shared, id)
    ensures PcOf(s, ev.thread) == InFinish(id, Renaming)
  {
    hide Inv, RecordCount, HasNonInputNeuron;
    var pc := PcOf(s, ev.thread);
    if SessionOf(pc) == Some(id) {
      HolderIsGrounded(s, ev.thread, id);
      HolderPublishes(pc, s.shared, ev.thread, ev.choice, id);
    } else if id in s.shared.history {
      OthersKeepHistory(s, ev, id);
    }
  }

  lemma HolderIsGrounded(s: State, t: Tid, id: Id)
    requires Inv(s) && SessionOf(PcOf(s, t)) == Some(id)
    ensures id in s.shared.entries && id in s.shared.history
  {
    assert ThreadOk(PcOf(s, t), s.shared, t);
  }

  lemma DeletedExcuse(sh: Shared, w: Watch, id: Id)
    requires id !in sh.registered && Excused(sh, w, id)
    ensures w.doomed || w.emptied || Published(sh, id)
  {
  }

  /** A finish that found the session empty stays at work on it until it is out of the map. */
  lemma RemoverStays(s: State, ev: Event, w: Watch, id: Id)
    requires Inv(s) && CanMove(s, ev) && RecordInv(s, w, id)
    requires SeenBy(w, s, ev, id).emptied && id in Next(s, ev).shared.registered
    ensures exists t :: FoundEmpty(PcOf(Next(s, ev), t), id)
  {
    hide Inv, Local, Excused, Sealed, RecordsOk;
    var (t, pc, s') := (ev.thread, PcOf(s, ev.thread), Next(s, ev));
    StepThread(pc, s.shared, t, ev.choice, id);
    StepSession(pc, s.shared, t, ev.choice, id);
    assert RecordThreadOk(pc, s.shared, w, id);
    if w.emptied {
      var u :| FoundEmpty(PcOf(s, u), id);
      assert FoundEmpty(PcOf(s', u), id);
    } else {
      assert FoundEmpty(PcOf(s', t), id);
    }
  }

  lemma StepKeepsRecords(s: State, ev: Event, w: Watch, id: Id)
    requires Inv(s) && CanMove(s, ev) && RecordInv(s, w, id)
    ensures RecordInv(Next(s, ev), SeenBy(w, s, ev, id), id)
  {
    hide Inv, Local, RecordsOk, RecordThreadOk;
    var s' := Next(s, ev);
    RecordsStay(s, ev, w, id);
    forall u ensures RecordThreadOk(PcOf(s', u), s'.shared, SeenBy(w, s, ev, id), id) {
      if u == ev.thread {
        MoverKnowsRecords(s, ev, w, id);
      } else {
        OthersKnowRecords(s, ev, w, id, u);
      }
    }
    if SeenBy(w, s, ev, id).emptied && id in s'.shared.registered {
      RemoverStays(s, ev, w, id);
    }
  }

  lemma {:induction false} RunKeepsRecords(s: State, events: seq<Event>, w: Watch, id: Id)
    requires Inv(s) && ValidRun(s, events) && RecordInv(s, w, id)
    ensures RecordInv(RunFrom(s, events), Watched(w, s, events, id), id)
    decreases |events|
  {
    hide Inv, Local, RecordInv, SeenBy;
    if events != [] {
      NextOk(s, events[0]);
      StepKeepsRecords(s, events[0], w, id);
      RunKeepsRecords(Next(s, events[0]), events[1..], SeenBy(w, s, events[0], id), id);
    }
  }

  lemma InitiallyNoRecords(s: State, id: Id)
    requires Initial(s)
    ensures RecordInv(s, UNSEEN, id)
  {
  }

  /**
   Over every run in which no finish hijacks another session's file, acknowledged records are
   lost only after a cancel or a sweep of the session, or after a finish that found it empty
   and was then overtaken by an append.
   */
  lemma LossNeedsAnOvertakenFinish(s: State, events: seq<Event>, id: Id)
    requires Initial(s) && ValidRun(s, events) && NoHijack(s, events) && Lost(RunFrom(s, events).shared, id)
    ensures Watched(UNSEEN, s, events, id).doomed || Watched(UNSEEN, s, events, id).overtaken
  {
    hide Inv, Local, TmpsOk, PublishedAreSealed, NoHijack, OwnedThroughout;
    hide ValidRun, RunFrom, Watched, Excused, Initial;
    InitialOk(s);
    InitiallyOwned(s);
    InitiallyNoRecords(s, id);
    OwnershipAlongRun(s, events);
    RunKeepsRecords(s, events, UNSEEN, id);
    assert !Claims(RunFrom(s, events).shared, id);
  }

  /**
   Over every run, a live session with records stays in the map, so that a failed finish can be
   retried, until it is cancelled, swept or published, unless a finish once found it empty.
   */
  lemma FailedFinishCanBeRetried(s: State, events: seq<Event>, id: Id)
    requires Initial(s) && ValidRun(s, events)
    requires var w := Watched(UNSEEN, s, events, id); !w.doomed && !w.emptied
    requires var sh := RunFrom(s, events).shared;
      id in sh.entries && sh.entries[id].recordsWritten > 0 && !Published(sh, id)
    ensures id in RunFrom(s, events).shared.registered
  {
    hide Inv, Local, Initial, ValidRun, RunFrom, Watched, RecordThreadOk;
    InitialOk(s);
    InitiallyNoRecords(s, id);
    RunKeepsRecords(s, events, UNSEEN, id);
  }

  // Append calls that do not overlap finish calls.

  /** No append to the session begins during a finish of it, and no finish during an append. */
  ghost predicate Apart(s: State, c: Choice, id: Id) {
    && (c.Begin? && c.request.Append? && c.request.id == id ==> forall u :: Finishing(PcOf(s, u)) != Some(id))
    && (c.Begin? && c.request.Finish? && c.request.id == id ==> forall u :: !AppendCall(PcOf(s, u), id))
  }

  ghost predicate SerialRun(s: State, events: seq<Event>, id: Id)
    requires ValidRun(s, events)
    decreases |events|
  {
    events == [] || (Apart(s, events[0].choice, id) && SerialRun(Next(s, events[0]), events[1..], id))
  }

  ghost predicate NoOverlap(s: State, id: Id) {
    forall t, u :: Finishing(PcOf(s, t)) == Some(id) ==> !AppendCall(PcOf(s, u), id)
  }

  ghost predicate SerialInv(s: State, w: Watch, id: Id) {
    && !w.overtaken && NoOverlap(s, id)
    && (w.emptied ==> forall u :: !Appending(PcOf(s, u), id))
  }

  lemma OverlapStaysAway(s: State, ev: Event, id: Id)
    requires CanMove(s, ev) && Apart(s, ev.choice, id) && NoOverlap(s, id)
    ensures NoOverlap(Next(s, ev), id)
  {
    hide Local, Finishing, AppendCall;
    StepThread(PcOf(s, ev.thread), s.shared, ev.thread, ev.choice, id);
    var s' := Next(s, ev);
    forall t, u | Finishing(PcOf(s', t)) == Some(id) ensures !AppendCall(PcOf(s', u), id) {
      assert t != ev.thread ==> PcOf(s', t) == PcOf(s, t);
      assert u != ev.thread ==> PcOf(s', u) == PcOf(s, u);
      if t == u { OneCall(PcOf(s', t), id); }
    }
  }

  lemma OneCall(pc: Pc, id: Id)
    ensures Finishing(pc) == Some(id) ==> !AppendCall(pc, id)
  {
  }

  /** After a finish has found the session empty, no append gets hold of it. */
  lemma NobodyAppends(s: State, ev: Event, w: Watch, id: Id, u: Tid)
    requires CanMove(s, ev) && RecordInv(s, w, id) && SerialInv(s, w, id) && SeenBy(w, s, ev, id).emptied
    ensures !Appending(PcOf(Next(s, ev), u), id)
  {
    hide Local, RecordsOk, RecordThreadOk, NoOverlap;
    var (t, pc) := (ev.thread, PcOf(s, ev.thread));
    StepThread(pc, s.shared, t, ev.choice, id);
    assert u != t ==> PcOf(Next(s, ev), u) == PcOf(s, u);
    if !w.emptied {
      FinishKeepsAppendsAway(s, t, u, id);
    } else if id in s.shared.registered {
      var v :| FoundEmpty(PcOf(s, v), id);
      FinishKeepsAppendsAway(s, v, u, id);
    }
  }

  lemma FinishKeepsAppendsAway(s: State, t: Tid, u: Tid, id: Id)
    requires NoOverlap(s, id) && (FoundEmpty(PcOf(s, t), id) || PcOf(s, t) == InFinish(id, EmptyCheck))
    ensures !AppendCall(PcOf(s, u), id)
  {
    assert Finishing(PcOf(s, t)) == Some(id);
  }

  lemma SerialStep(s: State, ev: Event, w: Watch, id: Id)
    requires CanMove(s, ev) && RecordInv(s, w, id) && SerialInv(s, w, id) && Apart(s, ev.choice, id)
    ensures SerialInv(Next(s, ev), SeenBy(w, s, ev, id), id)
  {
    hide Local, RecordInv, Apart, NoOverlap;
    OverlapStaysAway(s, ev, id);
    forall u | SeenBy(w, s, ev, id).emptied ensures !Appending(PcOf(Next(s, ev), u), id) {
      NobodyAppends(s, ev, w, id, u);
    }
  }

  lemma {:induction false} SerialAlongRun(s: State, events: seq<Event>, w: Watch, id: Id)
    requires Inv(s) && ValidRun(s, events) && RecordInv(s, w, id) && SerialInv(s, w, id) && SerialRun(s, events, id)
    ensures !Watched(w, s, events, id).overtaken
    decreases |events|
  {
    if events != [] {
      hide Inv, Local, RecordInv, SeenBy, Apart, NoOverlap;
      NextOk(s, events[0]);
      StepKeepsRecords(s, events[0], w, id);
      SerialStep(s, events[0], w, id);
      SerialAlongRun(Next(s, events[0]), events[1..], SeenBy(w, s, events[0], id), id);
    }
  }

  lemma InitiallySerial(s: State, id: Id)
    requires Initial(s)
    ensures SerialInv(s, UNSEEN, id)
  {
  }

  /**
   A caller that lets no append to a session overlap a finish of it, and no two finishes of one
   session overlap, loses nothing: in every state the acknowledged records are published or in
   the session's own file, unless the session was cancelled or swept.
   */
  lemma SerialCallersLoseNothing(s: State, events: seq<Event>, id: Id)
    requires Initial(s) && DisciplinedRun(s, events) && ValidRun(s, events) && SerialRun(s, events, id)
    requires !Watched(UNSEEN, s, events, id).doomed
    requires var sh := RunFrom(s, events).shared; id in sh.history && sh.history[id].acked > 0
    ensures var sh := RunFrom(s, events).shared; sh.history[id].published || OwnsTmp(sh, id)
  {
    hide Inv, FileInv, Local, NoHijack, RecordInv, SerialInv, OwnershipOk, Initial, Watched, SerialRun;
    InitialOk(s);
    InitialFiles(s);
    InitiallyNoRecords(s, id);
    InitiallySerial(s, id);
    DisciplinedRunsDoNotHijack(s, events);
    SerialAlongRun(s, events, UNSEEN, id);
    if Lost(RunFrom(s, events).shared, id) {
      LossNeedsAnOvertakenFinish(s, events, id);
    }
  }

  // The other half: what an overtaken finish leaves once all calls have returned.

  /** A session outside the map is kept in the heap by some call. */
  ghost predicate Referenced(sh: Shared, id: Id) {
    id in sh.entries && id !in sh.registered ==> sh.entries[id].refs != {}
  }

  ghost predicate HandlesAreRefs(pc: Pc, sh: Shared, t: Tid) {
    forall x | x in sh.entries :: t in sh.entries[x].refs <==> x in Handles(pc)
  }

  lemma JobReferences(sh: Shared, t: Tid, job: Job, id: Id)
    requires Grounded(InGlobal(job), sh) && HandlesAreRefs(InGlobal(job), sh, t) && Referenced(sh, id)
    ensures Referenced(JobStep(sh, t, job).sh, id)
  {
    var after := JobStep(sh, t, job).sh;
    assert id in after.entries && id !in after.registered ==>
      t in after.entries[id].refs || after.entries[id] == sh.entries[id];
  }

  lemma SweepReferences(pc: Pc, sh: Shared, t: Tid, c: Choice, id: Id)
    requires pc.SweepScan? || pc.SweepProbe? || pc.SweepEvict? || pc.SweepTombstone?
    requires CanStep(pc, sh, c) && Grounded(pc, sh) && Referenced(sh, id)
    ensures Referenced(SweepStep(pc, sh, t, c).sh, id)
  {
    var after := SweepStep(pc, sh, t, c).sh;
    assert id in after.entries && id !in after.registered ==>
      t in after.entries[id].refs || (id !in sh.registered && after.entries[id].refs == sh.entries[id].refs);
  }

  lemma DropReferences(pc: Pc, sh: Shared, t: Tid, c: Choice, id: Id)
    requires pc.Dropping? && CanStep(pc, sh, c) && Grounded(pc, sh) && Referenced(sh, id)
    requires HandlesAreRefs(pc, sh, t)
    ensures Referenced(DropStep(pc, sh, t, c).sh, id)
  {
    if pc.handles != {} && c.id == id && !(id !in sh.registered && sh.entries[id].refs == {t}) {
      var refs := sh.entries[id].refs;
      assert refs - {t} == {} ==> refs == {t};
    }
  }

  lemma StepReferences(pc: Pc, sh: Shared, t: Tid, c: Choice, id: Id)
    requires CanStep(pc, sh, c) && Grounded(pc, sh) && HandlesAreRefs(pc, sh, t) && Referenced(sh, id)
    ensures Referenced(Local(pc, sh, t, c).sh, id)
  {
    hide HasNonInputNeuron, RecordCount, JobStep, SweepStep, DropStep;
    if pc.InGlobal? {
      JobReferences(sh, t, pc.job, id);
    } else if pc.SweepScan? || pc.SweepProbe? || pc.SweepEvict? || pc.SweepTombstone? {
      SweepReferences(pc, sh, t, c, id);
    } else if pc.Dropping? {
      DropReferences(pc, sh, t, c, id);
    } else if pc.StartCreate? {
      CreateReferences(sh, t, pc.args, c, id);
    }
  }

  lemma CreateReferences(sh: Shared, t: Tid, args: StartArgs, c: Choice, id: Id)
    requires CanStep(StartCreate(args), sh, c) && Referenced(sh, id)
    ensures Referenced(CreateStep(sh, t, args, c).sh, id)
  {
    hide HasNonInputNeuron;
    var after := CreateStep(sh, t, args, c).sh;
    assert id in after.entries ==>
      (id in sh.entries && after.entries[id] == sh.entries[id]) || t in after.entries[id].refs;
  }

  /** Only a finish that found records seals a session. */
  lemma SealStep(s: State, ev: Event, id: Id)
    requires Inv(s) && CanMove(s, ev) && id in s.shared.history
    requires !Sealed(s.shared, id) && Sealed(Next(s, ev).shared, id)
    ensures PcOf(s, ev.thread) == InFinish(id, SetPreserve)
  {
    hide Inv;
    if SessionOf(PcOf(s, ev.thread)) != Some(id) {
      OthersKeepHistory(s, ev, id);
    }
  }

  /** A file is its session's own from the start or not at all. */
  lemma NoNewTmp(s: State, ev: Event, id: Id)
    requires Inv(s) && CanMove(s, ev) && id in s.shared.history && !OwnsTmp(s.shared, id)
    ensures id in Next(s, ev).shared.history && !OwnsTmp(Next(s, ev).shared, id)
  {
    hide Inv, HasNonInputNeuron;
    StepGrowsHistory(s, ev, id);
    if !MovesFiles(PcOf(s, ev.thread), ev.choice) {
      hide Local;
      OtherStepsKeepFiles(s, ev);
    }
  }

  /** Only the session's own deletion or rename takes its file away. */
  lemma OwnTmpStays(s: State, ev: Event, id: Id)
    requires Inv(s) && FileInv(s) && OwnershipOk(s.shared) && CanMove(s, ev)
    requires id in s.shared.history && OwnsTmp(s.shared, id) && id !in s.shared.entries
    ensures id in Next(s, ev).shared.history && OwnsTmp(Next(s, ev).shared, id)
  {
    hide Inv, FileInv, HasNonInputNeuron;
    var (pc, sh, t) := (PcOf(s, ev.thread), s.shared, ev.thread);
    StepGrowsHistory(s, ev, id);
    if !MovesFiles(pc, ev.choice) {
      hide Local;
      OtherStepsKeepFiles(s, ev);
    } else if pc.Deleting? {
      DeletedIsQuiet(s, t);
      SamePath(s, pc.id);
      assert Sealed(sh, pc.id) || Claims(sh, pc.id);
    } else if pc.InFinish? {
      RenamerOwnsTmp(s, t);
      SamePath(s, pc.id);
    }
  }

  lemma RenamerOwnsTmp(s: State, t: Tid)
    requires Inv(s) && FileInv(s) && PcOf(s, t).InFinish? && PcOf(s, t).finish.Renaming?
    ensures PcOf(s, t).id in s.shared.entries && PcOf(s, t).id in s.shared.history && OwnsTmp(s.shared, PcOf(s, t).id)
  {
    assert ThreadOk(PcOf(s, t), s.shared, t) && FileThreadOk(PcOf(s, t), s.shared, t);
    FinisherOwnsTmp(s.shared, t, PcOf(s, t).id);
  }

  /** A dropped, unsealed session leaves no file unless the deletion failed. */
  lemma DeletionLeaves(s: State, ev: Event, id: Id)
    requires Inv(s) && OwnershipOk(s.shared) && CanMove(s, ev)
    requires PcOf(s, ev.thread).Deleting? && PcOf(s, ev.thread).id == id
    ensures var sh' := Next(s, ev).shared;
      && id in sh'.history && id !in sh'.entries
      && (!Sealed(sh', id) ==> (OwnsTmp(sh', id) <==> ev.choice == IoError))
  {
    hide Inv;
    DeletedIsQuiet(s, ev.thread);
    SamePath(s, id);
    assert Sealed(s.shared, id) || Claims(s.shared, id);
  }

  /** A thread finishing the session has found it empty, or will not find it in the map. */
  ghost predicate FinishIsOver(pc: Pc, sh: Shared, id: Id) {
    Finishing(pc) == Some(id) ==> FoundEmpty(pc, id) || (Looking(pc) && id !in sh.registered)
  }

  /** What is left of the session, in terms of what has been seen. */
  ghost predicate Leftovers(s: State, w: Watch, id: Id) {
    var sh := s.shared;
    && Referenced(sh, id)
    && (w.overtaken ==> HasRecords(sh, id) || (id in sh.history && sh.history[id].acked > 0))
    && (id in sh.history && id !in sh.entries && !Sealed(sh, id) && !w.spared ==> !OwnsTmp(sh, id))
    && (w.spared ==> id in sh.history && id !in sh.entries && (Sealed(sh, id) || OwnsTmp(sh, id)))
    && (w.emptied ==> !Sealed(sh, id) && forall t :: FinishIsOver(PcOf(s, t), sh, id))
  }

  lemma CountStays(s: State, ev: Event, w: Watch, id: Id)
    requires Inv(s) && CanMove(s, ev) && Leftovers(s, w, id) && SeenBy(w, s, ev, id).overtaken
    ensures var sh' := Next(s, ev).shared; HasRecords(sh', id) || (id in sh'.history && sh'.history[id].acked > 0)
  {
    assert ThreadOk(PcOf(s, ev.thread), s.shared, ev.thread);
    hide Inv, Local, ThreadOk;
    StepSession(PcOf(s, ev.thread), s.shared, ev.thread, ev.choice, id);
    if PcOf(s, ev.thread).Deleting? && PcOf(s, ev.thread).id == id {
      DeletedRecords(s, ev.thread, id);
    }
    if id in s.shared.history {
      StepGrowsHistory(s, ev, id);
    }
  }

  lemma FileLeftovers(s: State, ev: Event, w: Watch, id: Id)
    requires Inv(s) && FileInv(s) && OwnershipOk(s.shared) && CanMove(s, ev) && Leftovers(s, w, id)
    ensures var (sh', w') := (Next(s, ev).shared, SeenBy(w, s, ev, id));
      && (id in sh'.history && id !in sh'.entries && !Sealed(sh', id) && !w'.spared ==> !OwnsTmp(sh', id))
      && (w'.spared ==> id in sh'.history && id !in sh'.entries && (Sealed(sh', id) || OwnsTmp(sh', id)))
  {
    hide Inv, FileInv, OwnershipOk, Local, OwnsTmp, Referenced, HasRecords, FinishIsOver;
    var (pc, sh) := (PcOf(s, ev.thread), s.shared);
    StepSession(pc, sh, ev.thread, ev.choice, id);
    if pc.Deleting? && pc.id == id {
      DeletionLeaves(s, ev, id);
    } else if id in sh.history && id !in sh.entries {
      AbsentLeftovers(s, ev, id);
    }
  }

  lemma AbsentLeftovers(s: State, ev: Event, id: Id)
    requires Inv(s) && FileInv(s) && OwnershipOk(s.shared) && CanMove(s, ev)
    requires id in s.shared.history && id !in s.shared.entries
    ensures id in Next(s, ev).shared.history
    ensures Sealed(Next(s, ev).shared, id) == Sealed(s.shared, id)
    ensures OwnsTmp(Next(s, ev).shared, id) == OwnsTmp(s.shared, id)
  {
    hide Inv, FileInv, OwnershipOk, Local, OwnsTmp;
    HistoryOfAbsent(s, ev, id);
    if OwnsTmp(s.shared, id) {
      OwnTmpStays(s, ev, id);
    } else {
      NoNewTmp(s, ev, id);
    }
  }

  /** Where a finish goes on from the places at which it is over. */
  lemma OverStaysOver(pc: Pc, sh: Shared, t: Tid, c: Choice, id: Id)
    requires CanStep(pc, sh, c) && Grounded(pc, sh)
    requires FinishIsOver(pc, sh, id) && (pc.Idle? && c.Begin? && c.request == Finish(id) ==> id !in sh.registered)
    requires id !in Local(pc, sh, t, c).sh.registered || id in sh.registered
    ensures FinishIsOver(Local(pc, sh, t, c).pc, Local(pc, sh, t, c).sh, id)
  {
    if Finishing(pc) != Some(id) && !pc.Idle? {
      hide Local;
      StepThread(pc, sh, t, c, id);
    } else {
      hide HasNonInputNeuron, SweepStep, DropStep, DeleteStep, CreateStep, AppendMove;
    }
  }

  /** The finish that finds the session empty is the only one under way. */
  lemma OnlyFinisher(s: State, t: Tid, u: Tid, id: Id)
    requires FileInv(s) && Finishing(PcOf(s, t)) == Some(id) && Finishing(PcOf(s, u)) == Some(id)
    ensures t == u && (id, t) in s.shared.finishing
  {
    assert FileThreadOk(PcOf(s, t), s.shared, t) && FileThreadOk(PcOf(s, u), s.shared, u);
  }

  lemma EmptyIsNotSealed(s: State, t: Tid, id: Id)
    requires Inv(s) && FindsEmpty(PcOf(s, t), s.shared, id)
    ensures !Sealed(s.shared, id)
  {
    assert ThreadOk(PcOf(s, t), s.shared, t);
  }

  lemma NewlyEmptied(s: State, ev: Event, id: Id, u: Tid)
    requires Inv(s) && FileInv(s) && CanMove(s, ev) && FindsEmpty(PcOf(s, ev.thread), s.shared, id)
    ensures FinishIsOver(PcOf(Next(s, ev), u), Next(s, ev).shared, id)
  {
    hide Inv, FileInv, Local;
    StepThread(PcOf(s, ev.thread), s.shared, ev.thread, ev.choice, id);
    if u != ev.thread && Finishing(PcOf(s, u)) == Some(id) {
      OnlyFinisher(s, ev.thread, u, id);
    }
  }

  /** While a finish that found the session empty is under way, a disciplined caller begins no other. */
  lemma NoFinishBegins(s: State, ev: Event, w: Watch, id: Id)
    requires FileInv(s) && RecordInv(s, w, id) && w.emptied && id in s.shared.registered
    requires Disciplined(s.shared, ev.choice)
    ensures !(ev.choice.Begin? && ev.choice.request == Finish(id))
  {
    hide FileInv;
    var v :| FoundEmpty(PcOf(s, v), id);
    OnlyFinisher(s, v, v, id);
  }

  lemma AlreadyEmptied(s: State, ev: Event, w: Watch, id: Id, u: Tid)
    requires Inv(s) && FileInv(s) && CanMove(s, ev) && RecordInv(s, w, id) && w.emptied
    requires Disciplined(s.shared, ev.choice) && FinishIsOver(PcOf(s, u), s.shared, id)
    ensures FinishIsOver(PcOf(Next(s, ev), u), Next(s, ev).shared, id)
  {
    hide Inv, FileInv, Local, RecordsOk, Excused, Sealed;
    StepSession(PcOf(s, ev.thread), s.shared, ev.thread, ev.choice, id);
    assert RecordThreadOk(PcOf(s, ev.thread), s.shared, w, id);
    if u == ev.thread {
      if id in s.shared.registered {
        NoFinishBegins(s, ev, w, id);
      }
      OverStaysOver(PcOf(s, u), s.shared, u, ev.choice, id);
    }
  }

  lemma EmptiedLeftovers(s: State, ev: Event, w: Watch, id: Id)
    requires Inv(s) && FileInv(s) && CanMove(s, ev) && RecordInv(s, w, id) && Leftovers(s, w, id)
    requires Disciplined(s.shared, ev.choice) && SeenBy(w, s, ev, id).emptied
    ensures !Sealed(Next(s, ev).shared, id)
    ensures forall u :: FinishIsOver(PcOf(Next(s, ev), u), Next(s, ev).shared, id)
  {
    hide Inv, FileInv, Local, Disciplined, RecordThreadOk, Excused, Sealed, OwnsTmp, Referenced, HasRecords;
    var s' := Next(s, ev);
    forall u ensures FinishIsOver(PcOf(s', u), s'.shared, id) {
      if w.emptied {
        AlreadyEmptied(s, ev, w, id, u);
      } else {
        NewlyEmptied(s, ev, id, u);
      }
    }
    if w.emptied {
      assert FinishIsOver(PcOf(s, ev.thread), s.shared, id);
    } else {
      EmptyIsNotSealed(s, ev.thread, id);
      FindingIsKnown(s, ev.thread, id);
    }
    NotSealedNow(s, ev, id);
  }

  lemma NotSealedNow(s: State, ev: Event, id: Id)
    requires Inv(s) && CanMove(s, ev) && id in s.shared.history && !Sealed(s.shared, id)
    requires FinishIsOver(PcOf(s, ev.thread), s.shared, id) || FindsEmpty(PcOf(s, ev.thread), s.shared, id)
    ensures !Sealed(Next(s, ev).shared, id)
  {
    hide Inv, Local, Sealed;
    if Sealed(Next(s, ev).shared, id) {
      SealStep(s, ev, id);
    }
  }

  lemma FindingIsKnown(s: State, t: Tid, id: Id)
    requires Inv(s) && FindsEmpty(PcOf(s, t), s.shared, id)
    ensures id in s.shared.history
  {
  }

  lemma HandlesMatch(s: State, t: Tid)
    requires Inv(s)
    ensures HandlesAreRefs(PcOf(s, t), s.shared, t)
  {
    assert ThreadOk(PcOf(s, t), s.shared, t);
  }

  lemma LeftoversStay(s: State, ev: Event, w: Watch, id: Id)
    requires Inv(s) && FileInv(s) && OwnershipOk(s.shared) && RecordInv(s, w, id) && Leftovers(s, w, id)
    requires CanMove(s, ev) && Disciplined(s.shared, ev.choice)
    ensures Leftovers(Next(s, ev), SeenBy(w, s, ev, id), id)
  {
    var w' := SeenBy(w, s, ev, id);
    hide Inv, FileInv, OwnershipOk, RecordInv, Local, Disciplined, Seen;
    hide Sealed, OwnsTmp, Referenced, HasRecords, FinishIsOver;
    HandlesMatch(s, ev.thread);
    StepReferences(PcOf(s, ev.thread), s.shared, ev.thread, ev.choice, id);
    FileLeftovers(s, ev, w, id);
    if w'.overtaken {
      CountStays(s, ev, w, id);
    }
    if w'.emptied {
      EmptiedLeftovers(s, ev, w, id);
    }
  }

  lemma {:induction false} LeftoversAlongRun(s: State, events: seq<Event>, w: Watch, id: Id)
    requires Inv(s) && FileInv(s) && OwnershipOk(s.shared) && RecordInv(s, w, id) && Leftovers(s, w, id)
    requires DisciplinedRun(s, events) && ValidRun(s, events)
    ensures var (s', w') := (RunFrom(s, events), Watched(w, s, events, id));
      Inv(s') && OwnershipOk(s'.shared) && RecordInv(s', w', id) && Leftovers(s', w', id)
    decreases |events|
  {
    hide Inv, FileInv, OwnershipOk, RecordInv, Leftovers, Local, Disciplined, SeenBy;
    if events != [] {
      NextFiles(s, events[0]);
      DisciplinedStepDoesNotHijack(s, events[0]);
      StepKeepsOwnership(s, events[0]);
      StepKeepsRecords(s, events[0], w, id);
      LeftoversStay(s, events[0], w, id);
      LeftoversAlongRun(Next(s, events[0]), events[1..], SeenBy(w, s, events[0], id), id);
    }
  }

  lemma InitiallyNothingLeft(s: State, id: Id)
    requires Initial(s)
    ensures Leftovers(s, UNSEEN, id)
  {
  }

  /** Every call has returned. */
  ghost predicate Quiescent(s: State) {
    forall t :: PcOf(s, t) == Idle
  }

  lemma NoReferences(s: State, id: Id)
    requires Inv(s) && Quiescent(s) && id in s.shared.entries
    ensures s.shared.entries[id].refs == {}
  {
    forall t ensures t !in s.shared.entries[id].refs {
      assert ThreadOk(PcOf(s, t), s.shared, t);
    }
  }

  /** Then a session outside the map is gone. */
  lemma QuiescentSessionIsGone(s: State, id: Id)
    requires Inv(s) && Quiescent(s) && Referenced(s.shared, id) && id !in s.shared.registered
    ensures id !in s.shared.entries
  {
    hide Inv;
    if id in s.shared.entries {
      NoReferences(s, id);
    }
  }

  lemma OvertakenIsLost(s: State, w: Watch, id: Id)
    requires Inv(s) && OwnershipOk(s.shared) && RecordInv(s, w, id) && Leftovers(s, w, id) && Quiescent(s)
    requires w.overtaken && !w.spared
    ensures Lost(s.shared, id)
  {
    hide Inv, Owned, TmpsOk, RecordThreadOk, Excused, FinishIsOver;
    assert forall t :: !FoundEmpty(PcOf(s, t), id);
    QuiescentSessionIsGone(s, id);
  }

  /** An overtaken session whose deletion failed still has its file. */
  lemma SparedIsNotLost(s: State, w: Watch, id: Id)
    requires RecordInv(s, w, id) && Leftovers(s, w, id) && w.overtaken && Lost(s.shared, id)
    ensures !w.spared
  {
    hide RecordThreadOk, Referenced, FinishIsOver, HasRecords, Sealed, OwnsTmp;
  }

  /**
   Once every call has returned, a session that was neither cancelled nor swept has lost its
   acknowledged records exactly when a finish that found it empty was overtaken by an append,
   unless the operating system refused the deletion.
   */
  lemma LostExactlyWhenOvertaken(s: State, events: seq<Event>, id: Id)
    requires Initial(s) && DisciplinedRun(s, events) && ValidRun(s, events) && Quiescent(RunFrom(s, events))
    requires !Watched(UNSEEN, s, events, id).doomed
    ensures var w := Watched(UNSEEN, s, events, id); Lost(RunFrom(s, events).shared, id) <==> w.overtaken && !w.spared
  {
    hide Inv, FileInv, Local, RecordThreadOk, Initial, Watched, Excused, Referenced, FinishIsOver, HasRecords, NoHijack;
    InitialOk(s);
    InitialFiles(s);
    InitiallyOwned(s);
    InitiallyNoRecords(s, id);
    InitiallyNothingLeft(s, id);
    LeftoversAlongRun(s, events, UNSEEN, id);
    DisciplinedRunsDoNotHijack(s, events);
    var (s', w) := (RunFrom(s, events), Watched(UNSEEN, s, events, id));
    if Lost(s'.shared, id) {
      LossNeedsAnOvertakenFinish(s, events, id);
      SparedIsNotLost(s', w, id);
    } else if w.overtaken && !w.spared {
      OvertakenIsLost(s', w, id);
    }
  }

  // Runs in which no session is doomed.

  /** Nobody calls cancel, and no sweep finds a session stale. */
  predicate Unprovoked(events: seq<Event>) {
    forall ev | ev in events :: ev.choice != IsStale && !(ev.choice.Begin? && ev.choice.request.Cancel?)
  }

  predicate Harmless(pc: Pc) {
    && !((pc.WantGlobal? || pc.InGlobal?) && pc.job.RemoveCancelled?)
    && (pc.SweepScan? || pc.SweepProbe? || pc.SweepEvict? || pc.SweepTombstone? ==> pc.stale == {})
  }

  lemma StepIsHarmless(pc: Pc, sh: Shared, t: Tid, c: Choice)
    requires CanStep(pc, sh, c) && Grounded(pc, sh) && Harmless(pc)
    requires c != IsStale && !(c.Begin? && c.request.Cancel?)
    ensures Harmless(Local(pc, sh, t, c).pc)
  {
    hide RecordCount, HasNonInputNeuron;
  }

  lemma {:induction false} UnprovokedDoomsNobody(s: State, events: seq<Event>, w: Watch, id: Id)
    requires ValidRun(s, events) && Unprovoked(events) && !w.doomed && forall t :: Harmless(PcOf(s, t))
    ensures !Watched(w, s, events, id).doomed
    decreases |events|
  {
    hide Local, Harmless;
    if events != [] {
      var (ev, s') := (events[0], Next(s, events[0]));
      assert ev in events;
      StepIsHarmless(PcOf(s, ev.thread), s.shared, ev.thread, ev.choice);
      HarmlessDoomsNobody(PcOf(s, ev.thread), s.shared, ev.choice, id);
      forall t ensures Harmless(PcOf(s', t)) {
        assert t != ev.thread ==> PcOf(s', t) == PcOf(s, t);
      }
      UnprovokedDoomsNobody(s', events[1..], SeenBy(w, s, ev, id), id);
    }
  }

  lemma HarmlessDoomsNobody(pc: Pc, sh: Shared, c: Choice, id: Id)
    requires CanStep(pc, sh, c) && Harmless(pc)
    ensures !Dooms(pc, sh, c, id)
  {
  }

  /** With a single session there is nobody to hijack. */
  lemma {:induction false} SingleSessionIsNotHijacked(s: State, events: seq<Event>, id: Id)
    requires Inv(s) && ValidRun(s, events) && RunFrom(s, events).shared.history.Keys <= {id}
    ensures s.shared.history.Keys <= {id} && NoHijack(s, events)
    decreases |events|
  {
    hide Inv, Local;
    if events != [] {
      NextOk(s, events[0]);
      SingleSessionIsNotHijacked(Next(s, events[0]), events[1..], id);
      HistoriesStay(s, events[0]);
      EntriesHaveHistories(s);
    }
  }

  lemma HistoriesStay(s: State, ev: Event)
    requires Inv(s) && CanMove(s, ev)
    ensures s.shared.history.Keys <= Next(s, ev).shared.history.Keys
  {
    hide Inv, Local;
    NextOk(s, ev);
  }

  lemma EntriesHaveHistories(s: State)
    requires Inv(s)
    ensures s.shared.entries.Keys <= s.shared.history.Keys
  {
  }
}
