/** Where a recording is at every moment of a run with non-overlapping finishes. */
module StreamingFileGuarantees {
  import opened Options
  import opened RecordBatches
  import opened StreamingProtocol
  import opened StreamingInvariants
  import opened StreamingFiles
  import StreamingGuarantees

  ghost predicate DisciplinedRun(s: State, events: seq<Event>)
    decreases |events|
  {
    events == [] ||
    (CanMove(s, events[0]) && Disciplined(s.shared, events[0].choice)
     && DisciplinedRun(Next(s, events[0]), events[1..]))
  }

  lemma {:induction false} DisciplinedIsValid(s: State, events: seq<Event>)
    requires DisciplinedRun(s, events)
    ensures ValidRun(s, events)
    decreases |events|
  {
    if events != [] {
      DisciplinedIsValid(Next(s, events[0]), events[1..]);
    }
  }

  ghost predicate ReachableDisciplined(s: State) {
    exists s0, events ::
      Initial(s0) && DisciplinedRun(s0, events) && ValidRun(s0, events) && s == RunFrom(s0, events)
  }

  lemma {:induction false} RunKeepsFiles(s: State, events: seq<Event>)
    requires Inv(s) && FileInv(s) && DisciplinedRun(s, events)
    ensures ValidRun(s, events)
    ensures Inv(RunFrom(s, events)) && FileInv(RunFrom(s, events))
    decreases |events|
  {
    DisciplinedIsValid(s, events);
    if events != [] {
      NextFiles(s, events[0]);
      RunKeepsFiles(Next(s, events[0]), events[1..]);
    }
  }

  lemma ReachableFiles(s: State)
    requires ReachableDisciplined(s)
    ensures Inv(s) && FileInv(s)
  {
    var s0, events :|
      Initial(s0) && DisciplinedRun(s0, events) && ValidRun(s0, events) && s == RunFrom(s0, events);
    InitialOk(s0);
    InitialFiles(s0);
    RunKeepsFiles(s0, events);
  }

  /** The one instant at which a live session is renamed but not yet marked finished. */
  ghost predicate BetweenRenameAndFlag(s: State, id: Id) {
    exists t :: PcOf(s, t) == InFinish(id, SetFinished)
  }

  /**
   While an unfinished session is alive its temporary file exists and is its own, so no two
   of them share a path.
   */
  lemma UnfinishedSessionsOwnTheirFiles(s: State, id: Id, other: Id)
    requires ReachableDisciplined(s)
    requires id in s.shared.entries && !s.shared.entries[id].finished && !BetweenRenameAndFlag(s, id)
    requires other in s.shared.entries && !s.shared.entries[other].finished && !BetweenRenameAndFlag(s, other)
    ensures Tmp(s.shared.entries[id].path) in s.shared.files
    ensures s.shared.files[Tmp(s.shared.entries[id].path)] == Own(id)
    ensures id != other ==> s.shared.entries[id].path != s.shared.entries[other].path
  {
    ReachableFiles(s);
    UnfinishedIsUnpublished(s, id);
    UnfinishedIsUnpublished(s, other);
    assert OwnsTmp(s.shared, id) && OwnsTmp(s.shared, other);
  }

  lemma UnfinishedIsUnpublished(s: State, id: Id)
    requires Inv(s) && FileInv(s)
    requires id in s.shared.entries && !s.shared.entries[id].finished && !BetweenRenameAndFlag(s, id)
    ensures id in s.shared.history && !s.shared.history[id].published
  {
    var e := s.shared.entries[id];
    if e.lock.Some? {
      assert ThreadOk(PcOf(s, e.lock.value), s.shared, e.lock.value);
      assert FileThreadOk(PcOf(s, e.lock.value), s.shared, e.lock.value);
    }
  }

  // Start calls.

  /**
   A start creates its session exactly if the creature has a neuron that is not an input, no
   file is at the temporary name, and the system creates one: empty, live, not yet in the map.
   */
  lemma StartCreatesExactly(s: State, ev: Event)
    requires CanMove(s, ev) && PcOf(s, ev.thread).StartCreate?
    ensures var (args, sh, sh') := (PcOf(s, ev.thread).args, s.shared, Next(s, ev).shared);
      var ns := args.creature.neurons;
      if ev.choice.NewId? && (exists i :: 0 <= i < |ns| && ns[i].neuronType != "input") && Tmp(args.path) !in sh.files
      then
        var id := ev.choice.id;
        && id !in sh.history && sh'.history.Keys == sh.history.Keys + {id} && sh'.entries.Keys == sh.entries.Keys + {id}
        && sh'.files == sh.files[Tmp(args.path) := Own(id)] && sh'.registered == sh.registered
        && PcOf(Next(s, ev), ev.thread) == WantGlobal(Insert(id))
        && var e := sh'.entries[id];
          && e.path == args.path && e.creature == args.creature && e.recordsWritten == 0
          && e.writerOpen && !e.cancelled && !e.finished && !e.preserve
      else sh' == sh && PcOf(Next(s, ev), ev.thread) == Idle
  {
  }

  // A start call at a path that is taken.

  /** The arguments of the start call that the thread is executing. */
  function Starting(pc: Pc): Option<StartArgs> {
    match pc
    case WantGlobal(job) => if job.Scan? then job.start else None
    case InGlobal(job) => if job.Scan? then job.start else None
    case SweepScan(_, _, start) => start
    case SweepProbe(_, _, _, start) => start
    case SweepEvict(_, _, start) => start
    case SweepTombstone(_, _, _, start) => start
    case Dropping(_, start) => start
    case Deleting(_, _, start) => start
    case StartCreate(args) => Some(args)
    case _ => None
  }

  /** In every state of the run some file is at the path's temporary name. */
  ghost predicate Occupied(s: State, events: seq<Event>, path: Path)
    requires ValidRun(s, events)
    decreases |events|
  {
    Tmp(path) in s.shared.files && (events == [] || Occupied(Next(s, events[0]), events[1..], path))
  }

  /** The thread begins no call in the run. */
  predicate BeginsNothing(events: seq<Event>, t: Tid) {
    forall ev | ev in events && ev.thread == t :: !ev.choice.Begin?
  }

  /** What one step leaves: no new session, the file at the path as it was. */
  ghost predicate StartsNothing(sh: Shared, sh': Shared, path: Path) {
    && sh'.history.Keys == sh.history.Keys && sh'.entries.Keys <= sh.entries.Keys
    && sh'.registered <= sh.registered
    && Tmp(path) in sh.files && Tmp(path) in sh'.files && sh'.files[Tmp(path)] == sh.files[Tmp(path)]
  }

  /** Every step of `t` in the run starts nothing. */
  ghost predicate Refused(s: State, events: seq<Event>, t: Tid, path: Path)
    requires ValidRun(s, events)
    decreases |events|
  {
    events == [] ||
    (var s' := Next(s, events[0]);
     && (events[0].thread == t ==> StartsNothing(s.shared, s'.shared, path))
     && Refused(s', events[1..], t, path))
  }

  lemma StartStep(s: State, ev: Event, args: StartArgs)
    requires CanMove(s, ev) && Starting(PcOf(s, ev.thread)) == Some(args)
    requires Tmp(args.path) in s.shared.files && Tmp(args.path) in Next(s, ev).shared.files
    ensures StartsNothing(s.shared, Next(s, ev).shared, args.path)
    ensures PcOf(Next(s, ev), ev.thread) == Idle || Starting(PcOf(Next(s, ev), ev.thread)) == Some(args)
  {
    hide HasNonInputNeuron;
  }

  /**
   A start call whose temporary file exists throughout, whoever left it, fails without a
   trace: from any point of the call to its end, and through the sweep it makes first, none of
   its steps registers or creates a session or touches that file.
   */
  lemma {:induction false} StartOnOccupiedPathLeavesNothing(s: State, events: seq<Event>, t: Tid, args: StartArgs)
    requires ValidRun(s, events) && Occupied(s, events, args.path) && BeginsNothing(events, t)
    requires PcOf(s, t) == Idle || Starting(PcOf(s, t)) == Some(args)
    ensures Refused(s, events, t, args.path)
    ensures PcOf(RunFrom(s, events), t) == Idle || Starting(PcOf(RunFrom(s, events), t)) == Some(args)
    decreases |events|
  {
    hide Starting, StartsNothing, Local;
    if events != [] {
      var ev := events[0];
      assert ev in events;
      if ev.thread == t {
        StartStep(s, ev, args);
      }
      StartOnOccupiedPathLeavesNothing(Next(s, ev), events[1..], t, args);
    }
  }

  /**
   Once finalisation has begun with records, no later step deletes the recording: it stays
   at its temporary name, even if the session is dropped, until it is renamed; and from then
   on the final name holds the file of a session published there.
   */
  lemma SealedRecordingIsKept(s: State, events: seq<Event>, id: Id)
    requires ReachableDisciplined(s) && DisciplinedRun(s, events)
    requires id in s.shared.history && s.shared.history[id].sealed.Some?
    ensures ValidRun(s, events)
    ensures var sh' := RunFrom(s, events).shared;
      && id in sh'.history && sh'.history[id].path == s.shared.history[id].path
      && (if sh'.history[id].published then FinalOk(sh', s.shared.history[id].path)
          else Tmp(s.shared.history[id].path) in sh'.files
               && sh'.files[Tmp(s.shared.history[id].path)] == Own(id))
  {
    hide FinalOk;
    ReachableFiles(s);
    ReachableFinals(s);
    RunKeepsFiles(s, events);
    RunKeepsFinals(s, events);
    StreamingGuarantees.RunGrowsHistory(s, events, id);
    var sh' := RunFrom(s, events).shared;
    if !sh'.history[id].published {
      assert OwnsTmp(sh', id);
    }
  }

  // Whose file is at a final name.

  /** The step renames a recording to the final name of the path. */
  ghost predicate Publishes(s: State, ev: Event, path: Path) {
    var pc := PcOf(s, ev.thread);
    pc.InFinish? && pc.finish.Renaming? && ev.choice != IoError
    && pc.id in s.shared.entries && s.shared.entries[pc.id].path == path
  }

  ghost predicate FinalOk(sh: Shared, path: Path) {
    && Final(path) in sh.files && sh.files[Final(path)].Own?
    && Published(sh, sh.files[Final(path)].id) && sh.history[sh.files[Final(path)].id].path == path
  }

  /** At the path of each published session is the file of a session published there. */
  ghost predicate FinalsOk(sh: Shared) {
    forall id | id in sh.history && sh.history[id].published :: FinalOk(sh, sh.history[id].path)
  }

  lemma OnlyPublishingMovesFinals(s: State, ev: Event, path: Path)
    requires CanMove(s, ev) && !Publishes(s, ev, path)
    ensures Final(path) in Next(s, ev).shared.files <==> Final(path) in s.shared.files
    ensures Final(path) in s.shared.files ==>
      Next(s, ev).shared.files[Final(path)] == s.shared.files[Final(path)]
  {
    hide HasNonInputNeuron, RecordCount;
  }

  lemma HolderPublishes(pc: Pc, sh: Shared, t: Tid, c: Choice, id: Id)
    requires CanStep(pc, sh, c) && Grounded(pc, sh) && SessionOf(pc) == Some(id) && id in sh.entries && id in sh.history
    requires Published(Local(pc, sh, t, c).sh, id) && !Published(sh, id)
    ensures pc == InFinish(id, Renaming) && c != IoError
  {
    hide RecordCount;
  }

  lemma OnlyRenamePublishes(s: State, ev: Event, id: Id)
    requires Inv(s) && FileInv(s) && CanMove(s, ev) && Disciplined(s.shared, ev.choice)
    requires Published(Next(s, ev).shared, id) && !Published(s.shared, id)
    ensures PcOf(s, ev.thread) == InFinish(id, Renaming) && ev.choice != IoError
  {
    hide Local, SharedOk, FilesOk, StageOk, FileThreadOk, CanStep;
    var t := ev.thread;
    assert ThreadOk(PcOf(s, t), s.shared, t);
    NextFiles(s, ev);
    if SessionOf(PcOf(s, t)) == Some(id) {
      HolderPublishes(PcOf(s, t), s.shared, t, ev.choice, id);
    } else if id in s.shared.history {
      StreamingGuarantees.OthersKeepHistory(s, ev, id);
    }
  }

  lemma PublishingIsOwn(s: State, ev: Event, path: Path)
    requires Inv(s) && FileInv(s) && CanMove(s, ev) && Publishes(s, ev, path)
    ensures Published(Next(s, ev).shared, PcOf(s, ev.thread).id)
    ensures FinalOk(Next(s, ev).shared, path) && Next(s, ev).shared.files[Final(path)] == Own(PcOf(s, ev.thread).id)
  {
    var (t, id) := (ev.thread, PcOf(s, ev.thread).id);
    assert ThreadOk(PcOf(s, t), s.shared, t) && FileThreadOk(PcOf(s, t), s.shared, t);
    RenameFiles(s.shared, t, id, ev.choice);
    hide FileInv, Inv, FilesOk, SharedOk, StageOk, FileThreadOk, ThreadOk;
  }

  lemma NextFinals(s: State, ev: Event)
    requires Inv(s) && FileInv(s) && FinalsOk(s.shared) && CanMove(s, ev) && Disciplined(s.shared, ev.choice)
    ensures FinalsOk(Next(s, ev).shared)
  {
    hide Inv, FileInv, Local, Publishes;
    var s' := Next(s, ev);
    forall id | id in s'.shared.history && s'.shared.history[id].published
      ensures FinalOk(s'.shared, s'.shared.history[id].path)
    {
      var path := s'.shared.history[id].path;
      if Publishes(s, ev, path) {
        PublishingIsOwn(s, ev, path);
      } else {
        NotPublishedNow(s, ev, id);
        OnlyPublishingMovesFinals(s, ev, path);
        StreamingGuarantees.StepGrowsHistory(s, ev, s.shared.files[Final(path)].id);
      }
    }
  }

  lemma NotPublishedNow(s: State, ev: Event, id: Id)
    requires Inv(s) && FileInv(s) && CanMove(s, ev) && Disciplined(s.shared, ev.choice)
    requires Published(Next(s, ev).shared, id) && !Publishes(s, ev, Next(s, ev).shared.history[id].path)
    ensures Published(s.shared, id) && s.shared.history[id].path == Next(s, ev).shared.history[id].path
  {
    hide Local;
    if !Published(s.shared, id) {
      OnlyRenamePublishes(s, ev, id);
      assert ThreadOk(PcOf(s, ev.thread), s.shared, ev.thread);
    }
    StreamingGuarantees.StepGrowsHistory(s, ev, id);
  }

  lemma {:induction false} RunKeepsFinals(s: State, events: seq<Event>)
    requires Inv(s) && FileInv(s) && FinalsOk(s.shared) && DisciplinedRun(s, events)
    ensures ValidRun(s, events) && FinalsOk(RunFrom(s, events).shared)
    decreases |events|
  {
    hide Inv, FileInv, FinalsOk, Local;
    DisciplinedIsValid(s, events);
    if events != [] {
      NextFiles(s, events[0]);
      NextFinals(s, events[0]);
      RunKeepsFinals(Next(s, events[0]), events[1..]);
    }
  }

  lemma ReachableFinals(s: State)
    requires ReachableDisciplined(s)
    ensures FinalsOk(s.shared)
  {
    hide Inv, FileInv;
    var s0, events :|
      Initial(s0) && DisciplinedRun(s0, events) && ValidRun(s0, events) && s == RunFrom(s0, events);
    InitialOk(s0);
    InitialFiles(s0);
    RunKeepsFinals(s0, events);
  }

  /**
   A successful finish published the session: at its final name is a file of a session
   published there. The file is complete if and only if the one flush did not fail: a finish
   retried after a failed flush also returns Ok, and publishes a file whose writer was never
   closed.
   */
  lemma PublishedRecording(s: State, id: Id)
    requires ReachableDisciplined(s)
    requires id in s.shared.history && s.shared.history[id].result.Some?
    ensures var (h, files) := (s.shared.history[id], s.shared.files);
      && h.published && Final(h.path) in files && files[Final(h.path)].Own?
      && (var owner := files[Final(h.path)].id; Published(s.shared, owner) && s.shared.history[owner].path == h.path)
      && h.result.value <= h.written && (h.flushed <==> !h.flushFailed)
  {
    hide FileInv;
    ReachableFiles(s);
    ReachableFinals(s);
    assert HistoryOk(s.shared.history[id]);
    assert FinalOk(s.shared, s.shared.history[id].path);
  }

  /** Nobody renames a recording to this final name in the run. */
  ghost predicate NothingPublished(s: State, events: seq<Event>, path: Path)
    requires ValidRun(s, events)
    decreases |events|
  {
    events == [] ||
    (!Publishes(s, events[0], path) && NothingPublished(Next(s, events[0]), events[1..], path))
  }

  lemma {:induction false} FinalStays(s: State, events: seq<Event>, path: Path)
    requires ValidRun(s, events) && NothingPublished(s, events, path) && Final(path) in s.shared.files
    ensures Final(path) in RunFrom(s, events).shared.files
    ensures RunFrom(s, events).shared.files[Final(path)] == s.shared.files[Final(path)]
    decreases |events|
  {
    hide Publishes, Local;
    if events != [] {
      OnlyPublishingMovesFinals(s, events[0], path);
      FinalStays(Next(s, events[0]), events[1..], path);
    }
  }

  /** What a finish publishes is its own session's file, and stays at the final name until a later publish there. */
  lemma PublishedUntilReplaced(s: State, ev: Event, events: seq<Event>, id: Id)
    requires ReachableDisciplined(s) && CanMove(s, ev)
    requires PcOf(s, ev.thread) == InFinish(id, Renaming) && ev.choice == Go
    requires ValidRun(Next(s, ev), events) && id in s.shared.history
    requires NothingPublished(Next(s, ev), events, s.shared.history[id].path)
    ensures var (path, files) := (s.shared.history[id].path, RunFrom(Next(s, ev), events).shared.files);
      Final(path) in files && files[Final(path)] == Own(id)
  {
    hide ReachableDisciplined, Local, NothingPublished;
    RenameMovesOwnFile(s, ev, id);
    FinalStays(Next(s, ev), events, s.shared.history[id].path);
  }

  /** The rename step itself: the file moved is the session's own, and only it moves. */
  lemma RenameMovesOwnFile(s: State, ev: Event, id: Id)
    requires ReachableDisciplined(s) && PcOf(s, ev.thread) == InFinish(id, Renaming) && ev.choice == Go
    ensures CanMove(s, ev) && id in s.shared.history && OwnsTmp(s.shared, id)
    ensures var path := s.shared.history[id].path;
      && Next(s, ev).shared.files == (s.shared.files - {Tmp(path)})[Final(path) := Own(id)]
      && PcOf(Next(s, ev), ev.thread) == InFinish(id, SetFinished)
  {
    ReachableFiles(s);
    assert ThreadOk(PcOf(s, ev.thread), s.shared, ev.thread);
    assert FileThreadOk(PcOf(s, ev.thread), s.shared, ev.thread);
    RenameFiles(s.shared, ev.thread, id, ev.choice);
  }
}
