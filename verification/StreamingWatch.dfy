/**
 Watching a run for one session: what it shows of cancels, sweeps, finishes and appends, and
 what any one step may do to the session and to the calls about it.
 */
module StreamingWatch {
  import opened Options
  import opened RecordBatches
  import opened StreamingProtocol
  import opened StreamingFiles

  // What a step may show of the session.

  /** A cancel or the sweep takes the session out of the map. */
  ghost predicate Dooms(pc: Pc, sh: Shared, c: Choice, id: Id) {
    id in sh.registered && (pc == InGlobal(RemoveCancelled(id)) || (pc.SweepEvict? && c == Pick(id)))
  }

  /** A finish finds that the session has no records. */
  ghost predicate FindsEmpty(pc: Pc, sh: Shared, id: Id) {
    pc == InFinish(id, EmptyCheck) && id in sh.entries && sh.entries[id].recordsWritten == 0
  }

  /** An append that has passed its final check adds its records. */
  predicate AddsRecords(pc: Pc, id: Id) {
    pc.InAppend? && pc.id == id && pc.append.Adding? && pc.append.sum > 0
  }

  function AddedCount(pc: Pc, id: Id): nat {
    if AddsRecords(pc, id) then pc.append.sum else 0
  }

  /** The operating system refuses to delete the file of the dropped session. */
  predicate DeleteFails(pc: Pc, c: Choice, id: Id) {
    pc.Deleting? && pc.id == id && c == IoError
  }

  /**
   What has been seen: a cancel or sweep of the session; a finish that found it empty; records
   added after that; a failed deletion of its file.
   */
  datatype Watch = Watch(doomed: bool, emptied: bool, overtaken: bool, spared: bool)

  const UNSEEN: Watch := Watch(false, false, false, false)

  ghost function Seen(w: Watch, pc: Pc, sh: Shared, c: Choice, id: Id): Watch {
    Watch(
      w.doomed || Dooms(pc, sh, c, id),
      w.emptied || FindsEmpty(pc, sh, id),
      w.overtaken || (w.emptied && AddsRecords(pc, id)),
      w.spared || DeleteFails(pc, c, id))
  }

  ghost function SeenBy(w: Watch, s: State, ev: Event, id: Id): Watch {
    Seen(w, PcOf(s, ev.thread), s.shared, ev.choice, id)
  }

  ghost function Watched(w: Watch, s: State, events: seq<Event>, id: Id): Watch
    requires ValidRun(s, events)
    decreases |events|
  {
    if events == [] then w else Watched(SeenBy(w, s, events[0], id), Next(s, events[0]), events[1..], id)
  }

  // What one step may do to the session.

  predicate Appending(pc: Pc, id: Id) {
    (pc.WantAppend? || pc.InAppend?) && pc.id == id
  }

  /** The thread is executing an append call to the session. */
  predicate AppendCall(pc: Pc, id: Id) {
    Appending(pc, id) || ((pc.WantGlobal? || pc.InGlobal?) && pc.job.LookupAppend? && pc.job.id == id)
  }

  /** A finish that found the session empty and has yet to take it out of the map. */
  predicate FoundEmpty(pc: Pc, id: Id) {
    pc == InFinish(id, EmptyUnlock) || pc == WantGlobal(RemoveEmpty(id)) || pc == InGlobal(RemoveEmpty(id))
  }

  predicate FoundFinished(pc: Pc, id: Id) {
    pc == WantGlobal(RemoveFinished(id)) || pc == InGlobal(RemoveFinished(id))
  }

  /** A finish that has renamed and marked the session, and has yet to release its lock. */
  predicate Succeeds(pc: Pc, id: Id) {
    pc.InFinish? && pc.id == id && pc.finish.FinishUnlock? && pc.finish.outcome.Some?
  }

  predicate Inserting(pc: Pc, id: Id) {
    pc == WantGlobal(Insert(id)) || pc == InGlobal(Insert(id))
  }

  /** How the session is registered, created and dropped, and its records counted. */
  ghost predicate SessionEffects(pc: Pc, sh: Shared, c: Choice, sh': Shared, id: Id) {
    && (id in sh.registered && id !in sh'.registered ==>
          || pc == InGlobal(RemoveEmpty(id)) || pc == InGlobal(RemoveFinished(id)) || Dooms(pc, sh, c, id))
    && (id !in sh.registered && id in sh'.registered ==> pc == InGlobal(Insert(id)))
    && (id in sh.entries && id !in sh'.entries ==> pc.Deleting? && pc.id == id)
    && (id in sh'.entries && id !in sh.entries ==> id !in sh.history && sh'.entries[id].recordsWritten == 0)
    && (id in sh.entries && id in sh'.entries ==>
          sh'.entries[id].recordsWritten == sh.entries[id].recordsWritten + AddedCount(pc, id))
    && (id in sh.history ==> id in sh'.history)
    && (id in sh'.history && id !in sh.history ==> id in sh'.entries)
  }

  /** Where the thread can be next, as far as the session is concerned. */
  ghost predicate ThreadEffects(pc: Pc, sh: Shared, c: Choice, pc': Pc, sh': Shared, id: Id) {
    && (Appending(pc', id) ==> Appending(pc, id) || (AppendCall(pc, id) && id in sh.registered))
    && (AppendCall(pc', id) ==> AppendCall(pc, id) || (pc.Idle? && c.Begin? && c.request.Append? && c.request.id == id))
    && (Finishing(pc') == Some(id) ==>
          Finishing(pc) == Some(id) || (pc.Idle? && c.Begin? && c.request.Finish? && c.request.id == id))
    && (FoundEmpty(pc', id) ==> FoundEmpty(pc, id) || FindsEmpty(pc, sh, id))
    && (FindsEmpty(pc, sh, id) ==> FoundEmpty(pc', id))
    && (FoundEmpty(pc, id) ==> FoundEmpty(pc', id) || id !in sh'.registered)
    && (FoundFinished(pc', id) ==> FoundFinished(pc, id) || Succeeds(pc, id))
    && (Inserting(pc', id) ==> Inserting(pc, id) || id !in sh.history)
  }

  lemma FinishSession(sh: Shared, t: Tid, x: Id, stage: FinishStage, c: Choice, id: Id)
    requires x in sh.entries && x in sh.history
    ensures SessionEffects(InFinish(x, stage), sh, c, FinishMove(sh, t, x, stage, c).sh, id)
  {
  }

  lemma AppendSession(sh: Shared, x: Id, stage: AppendStage, c: Choice, id: Id)
    requires x in sh.entries && x in sh.history
    ensures SessionEffects(InAppend(x, stage), sh, c, AppendMove(sh, x, stage, c).sh, id)
  {
    hide RecordCount;
  }

  lemma JobSession(sh: Shared, t: Tid, job: Job, c: Choice, id: Id)
    requires Grounded(InGlobal(job), sh)
    ensures SessionEffects(InGlobal(job), sh, c, JobStep(sh, t, job).sh, id)
  {
  }

  lemma SweepSession(pc: Pc, sh: Shared, t: Tid, c: Choice, id: Id)
    requires pc.SweepScan? || pc.SweepProbe? || pc.SweepEvict? || pc.SweepTombstone?
    requires CanStep(pc, sh, c) && Grounded(pc, sh)
    ensures SessionEffects(pc, sh, c, SweepStep(pc, sh, t, c).sh, id)
  {
  }

  lemma DropSession(pc: Pc, sh: Shared, t: Tid, c: Choice, id: Id)
    requires pc.Dropping? && CanStep(pc, sh, c) && Grounded(pc, sh)
    ensures SessionEffects(pc, sh, c, DropStep(pc, sh, t, c).sh, id)
  {
  }

  lemma StepSession(pc: Pc, sh: Shared, t: Tid, c: Choice, id: Id)
    requires CanStep(pc, sh, c) && Grounded(pc, sh)
    ensures SessionEffects(pc, sh, c, Local(pc, sh, t, c).sh, id)
  {
    hide HasNonInputNeuron, RecordCount, FinishMove, AppendMove, JobStep, SweepStep, DropStep;
    if pc.InFinish? {
      FinishSession(sh, t, pc.id, pc.finish, c, id);
    } else if pc.InAppend? {
      AppendSession(sh, pc.id, pc.append, c, id);
    } else if pc.InGlobal? {
      JobSession(sh, t, pc.job, c, id);
    } else if pc.SweepScan? || pc.SweepProbe? || pc.SweepEvict? || pc.SweepTombstone? {
      SweepSession(pc, sh, t, c, id);
    } else if pc.Dropping? {
      DropSession(pc, sh, t, c, id);
    }
  }

  lemma FinishThread(sh: Shared, t: Tid, x: Id, stage: FinishStage, c: Choice, id: Id)
    requires x in sh.entries && x in sh.history
    ensures var next := FinishMove(sh, t, x, stage, c); ThreadEffects(InFinish(x, stage), sh, c, next.pc, next.sh, id)
  {
  }

  lemma AppendThread(sh: Shared, x: Id, stage: AppendStage, c: Choice, id: Id)
    requires x in sh.entries && x in sh.history
    ensures ThreadEffects(InAppend(x, stage), sh, c, AppendMove(sh, x, stage, c).pc, AppendMove(sh, x, stage, c).sh, id)
  {
    hide RecordCount;
  }

  lemma JobThread(sh: Shared, t: Tid, job: Job, c: Choice, id: Id)
    requires Grounded(InGlobal(job), sh)
    ensures ThreadEffects(InGlobal(job), sh, c, JobStep(sh, t, job).pc, JobStep(sh, t, job).sh, id)
  {
  }

  lemma SweepThread(pc: Pc, sh: Shared, t: Tid, c: Choice, id: Id)
    requires pc.SweepScan? || pc.SweepProbe? || pc.SweepEvict? || pc.SweepTombstone?
    requires CanStep(pc, sh, c) && Grounded(pc, sh)
    ensures ThreadEffects(pc, sh, c, SweepStep(pc, sh, t, c).pc, SweepStep(pc, sh, t, c).sh, id)
  {
  }

  lemma DropThread(pc: Pc, sh: Shared, t: Tid, c: Choice, id: Id)
    requires pc.Dropping? && CanStep(pc, sh, c) && Grounded(pc, sh)
    ensures ThreadEffects(pc, sh, c, DropStep(pc, sh, t, c).pc, DropStep(pc, sh, t, c).sh, id)
  {
  }

  lemma StepThread(pc: Pc, sh: Shared, t: Tid, c: Choice, id: Id)
    requires CanStep(pc, sh, c) && Grounded(pc, sh)
    ensures ThreadEffects(pc, sh, c, Local(pc, sh, t, c).pc, Local(pc, sh, t, c).sh, id)
  {
    hide HasNonInputNeuron, RecordCount, FinishMove, AppendMove, JobStep, SweepStep, DropStep;
    if pc.InFinish? {
      FinishThread(sh, t, pc.id, pc.finish, c, id);
    } else if pc.InAppend? {
      AppendThread(sh, pc.id, pc.append, c, id);
    } else if pc.InGlobal? {
      JobThread(sh, t, pc.job, c, id);
    } else if pc.SweepScan? || pc.SweepProbe? || pc.SweepEvict? || pc.SweepTombstone? {
      SweepThread(pc, sh, t, c, id);
    } else if pc.Dropping? {
      DropThread(pc, sh, t, c, id);
    }
  }
}
