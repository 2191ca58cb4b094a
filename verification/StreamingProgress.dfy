/** Locks are never held while waiting, so every call gets through. */
module StreamingProgress {
  import opened Options
  import opened StreamingProtocol
  import opened StreamingInvariants
  import opened StreamingGuarantees

  /** The session whose lock the thread is about to take. */
  function WantedSession(pc: Pc): Option<Id> {
    if pc.WantAppend? || pc.WantFinish? then Some(pc.id) else None
  }

  predicate Waits(pc: Pc) {
    pc.WantGlobal? || WantedSession(pc).Some?
  }

  ghost predicate CanStepNow(s: State, t: Tid) {
    exists c :: CanStep(PcOf(s, t), s.shared, c)
  }

  lemma RunningThreadsCanStep(s: State, t: Tid)
    requires !Waits(PcOf(s, t))
    ensures CanStepNow(s, t)
  {
    var pc := PcOf(s, t);
    var c :=
      match pc
      case Idle => Begin(Sweep)
      case SweepScan(todo, _, _) => PickAny(todo)
      case SweepEvict(stale, _, _) => PickAny(stale)
      case Dropping(handles, _) => PickAny(handles)
      case StartCreate(_) => IoError
      case _ => Go;
    assert CanStep(pc, s.shared, c);
  }

  ghost function PickAny(ids: set<Id>): (c: Choice)
    ensures if ids == {} then c == Go else c.Pick? && c.id in ids
  {
    if exists x :: x in ids then var x :| x in ids; Pick(x) else Go
  }

  /** The holder of any lock, global or per-session, is never waiting for one. */
  lemma LockHoldersNeverWait(s: State, t: Tid)
    requires Reachable(s)
    requires s.shared.globalLock == Some(t)
          || exists id :: id in s.shared.entries && s.shared.entries[id].lock == Some(t)
    ensures !Waits(PcOf(s, t)) && CanStepNow(s, t)
  {
    ReachableInv(s);
    assert ThreadOk(PcOf(s, t), s.shared, t);
    RunningThreadsCanStep(s, t);
  }

  /**
   A call that cannot move waits for exactly one other thread, which can move itself. That
   thread is inside writer I/O only if both calls are about the same session.
   */
  lemma BlockedByOneRunningThread(s: State, t: Tid) returns (holder: Tid)
    requires Reachable(s) && PcOf(s, t) != Idle && !CanStepNow(s, t)
    ensures holder != t && PcOf(s, holder) != Idle && CanStepNow(s, holder)
    ensures PcOf(s, t).WantGlobal? ==> s.shared.globalLock == Some(holder) && !InWriterIo(PcOf(s, holder))
    ensures !PcOf(s, t).WantGlobal? ==>
      WantedSession(PcOf(s, t)).Some? && SessionOf(PcOf(s, holder)) == WantedSession(PcOf(s, t))
  {
    ReachableInv(s);
    var pc, sh := PcOf(s, t), s.shared;
    assert ThreadOk(pc, sh, t);
    if !Waits(pc) {
      RunningThreadsCanStep(s, t);
    }
    assert !CanStep(pc, sh, Go);
    holder := if pc.WantGlobal? then sh.globalLock.value else sh.entries[pc.id].lock.value;
    assert ThreadOk(PcOf(s, holder), sh, holder);
    RunningThreadsCanStep(s, holder);
  }

  /** While any call is in progress, some call in progress can move: there is no deadlock. */
  lemma NoDeadlock(s: State, t: Tid)
    requires Reachable(s) && PcOf(s, t) != Idle
    ensures exists u :: PcOf(s, u) != Idle && CanStepNow(s, u)
  {
    if !CanStepNow(s, t) {
      var holder := BlockedByOneRunningThread(s, t);
    }
  }

  /** The stretch of its call a thread is in; later stretches have smaller numbers. */
  function Phase(pc: Pc): nat {
    match pc
    case Idle => 0
    case Dropping(_, start) => if start.Some? then 6 else 1
    case Deleting(_, _, start) => if start.Some? then 6 else 1
    case CancelMark(_) => 2
    case InGlobal(job) => JobPhase(job)
    case WantGlobal(job) => JobPhase(job) + 1
    case StartCreate(_) => 5
    case InAppend(_, _) => 5
    case InFinish(_, _) => 5
    case WantAppend(_, _) => 6
    case WantFinish(_) => 6
    case SweepEvict(_, _, _) => 9
    case SweepTombstone(_, _, _, _) => 9
    case SweepScan(_, _, _) => 10
    case SweepProbe(_, _, _, _) => 10
  }

  function JobPhase(job: Job): nat {
    match job
    case Scan(_) => 11
    case LookupAppend(_, _) => 7
    case LookupFinish(_) => 7
    case _ => 3
  }

  /** How many steps at most the thread stays in its stretch. */
  function Work(pc: Pc): nat {
    match pc
    case Dropping(handles, _) => 2 * |handles|
    case Deleting(_, handles, _) => 2 * |handles| + 1
    case SweepEvict(stale, _, _) => 2 * |stale|
    case SweepTombstone(_, stale, _, _) => 2 * |stale| + 1
    case SweepScan(todo, _, _) => 2 * |todo|
    case SweepProbe(_, todo, _, _) => 2 * |todo| + 1
    case InAppend(_, stage) => AppendWork(stage)
    case InFinish(_, stage) => FinishWork(stage)
    case _ => 0
  }

  function AppendWork(stage: AppendStage): nat {
    match stage
    case FirstCheck(batches) => |batches| + 4
    case Writing(rest, _) => |rest| + 3
    case LastCheck(_) => 2
    case Adding(_) => 1
    case AppendUnlock(_) => 0
  }

  function FinishWork(stage: FinishStage): nat {
    match stage
    case EmptyCheck => 6
    case SetPreserve => 5
    case TakeWriter => 4
    case Flushing => 3
    case Renaming => 2
    case SetFinished => 1
    case _ => 0
  }

  /**
   Every step of a call brings it nearer its end, whatever the other threads did in between:
   each call returns after finitely many of its own steps, and so releases every lock.
   */
  lemma EveryStepAdvancesItsCall(s: State, ev: Event)
    requires CanMove(s, ev) && PcOf(s, ev.thread) != Idle
    ensures var before, after := PcOf(s, ev.thread), PcOf(Next(s, ev), ev.thread);
      Phase(after) < Phase(before) || (Phase(after) == Phase(before) && Work(after) < Work(before))
  {
    var pc := PcOf(s, ev.thread);
    match pc {
      case InGlobal(job) => JobAdvances(s.shared, ev.thread, job);
      case Dropping(_, _) => DropAdvances(pc, s.shared, ev.thread, ev.choice);
      case InFinish(id, stage) => FinishAdvances(s.shared, ev.thread, id, stage, ev.choice);
      case InAppend(id, stage) => AppendAdvances(s.shared, id, stage, ev.choice);
      case Idle => assert false;
      case WantGlobal(_) =>
      case Deleting(_, _, _) =>
      case StartCreate(_) =>
      case WantAppend(_, _) =>
      case WantFinish(_) =>
      case CancelMark(_) =>
      case SweepEvict(_, _, _) => EvictAdvances(pc, s.shared, ev.thread, ev.choice);
      case SweepTombstone(_, _, _, _) => EvictAdvances(pc, s.shared, ev.thread, ev.choice);
      case _ => ScanAdvances(pc, s.shared, ev.thread, ev.choice);
    }
  }

  lemma JobAdvances(sh: Shared, t: Tid, job: Job)
    requires Grounded(InGlobal(job), sh)
    ensures Phase(JobStep(sh, t, job).pc) < JobPhase(job)
  {
  }

  lemma DropAdvances(pc: Pc, sh: Shared, t: Tid, c: Choice)
    requires pc.Dropping? && CanStep(pc, sh, c) && Grounded(pc, sh)
    ensures var after := DropStep(pc, sh, t, c).pc;
      Phase(after) < Phase(pc) || (Phase(after) == Phase(pc) && Work(after) < Work(pc))
  {
  }

  lemma ScanAdvances(pc: Pc, sh: Shared, t: Tid, c: Choice)
    requires pc.SweepScan? || pc.SweepProbe?
    requires CanStep(pc, sh, c) && Grounded(pc, sh)
    ensures var after := SweepStep(pc, sh, t, c).pc;
      Phase(after) < 10 || (Phase(after) == 10 && Work(after) < Work(pc))
  {
  }

  lemma EvictAdvances(pc: Pc, sh: Shared, t: Tid, c: Choice)
    requires pc.SweepEvict? || pc.SweepTombstone?
    requires CanStep(pc, sh, c) && Grounded(pc, sh)
    ensures var after := SweepStep(pc, sh, t, c).pc;
      Phase(after) < 9 || (Phase(after) == 9 && Work(after) < Work(pc))
  {
  }

  lemma AppendAdvances(sh: Shared, id: Id, stage: AppendStage, c: Choice)
    requires id in sh.entries && id in sh.history
    ensures var after := AppendMove(sh, id, stage, c).pc;
      Phase(after) < 5 || (Phase(after) == 5 && Work(after) < AppendWork(stage))
  {
  }

  lemma FinishAdvances(sh: Shared, t: Tid, id: Id, stage: FinishStage, c: Choice)
    requires id in sh.entries && id in sh.history
    ensures var after := FinishMove(sh, t, id, stage, c).pc;
      Phase(after) < 5 || (Phase(after) == 5 && Work(after) < FinishWork(stage))
  {
  }

  /** The holder of the lock that the thread waits for. */
  ghost function Blocker(s: State, t: Tid): Option<Tid> {
    var pc := PcOf(s, t);
    if pc.WantGlobal? then s.shared.globalLock
    else if WantedSession(pc).Some? && pc.id in s.shared.entries then s.shared.entries[pc.id].lock
    else None
  }

  /** The blocker is another thread at work, in writer I/O only for the session waited for. */
  lemma BlockerIsAtWork(s: State, t: Tid)
    requires Inv(s) && Blocker(s, t).Some?
    ensures var b := Blocker(s, t).value;
      && b != t && PcOf(s, b) != Idle && !Waits(PcOf(s, b))
      && (InWriterIo(PcOf(s, b)) ==> SessionOf(PcOf(s, b)) == WantedSession(PcOf(s, t)))
  {
    assert ThreadOk(PcOf(s, t), s.shared, t);
    assert ThreadOk(PcOf(s, Blocker(s, t).value), s.shared, Blocker(s, t).value);
  }

  lemma UnblockedCanStep(s: State, t: Tid)
    requires Inv(s) && Blocker(s, t).None?
    ensures CanStepNow(s, t)
  {
    assert ThreadOk(PcOf(s, t), s.shared, t);
    if !Waits(PcOf(s, t)) {
      RunningThreadsCanStep(s, t);
    } else {
      assert CanStep(PcOf(s, t), s.shared, Go);
    }
  }

  /** While the blocker moves, the waiting thread stays put and nobody else takes the lock. */
  lemma BlockerKeepsOrFrees(s: State, t: Tid, ev: Event)
    requires Inv(s) && CanMove(s, ev) && Blocker(s, t) == Some(ev.thread) && ev.thread != t
    ensures PcOf(Next(s, ev), t) == PcOf(s, t)
    ensures Blocker(Next(s, ev), t).None? || Blocker(Next(s, ev), t) == Some(ev.thread)
  {
    hide Local, SharedOk, StageOk;
    NextOk(s, ev);
    assert ThreadOk(PcOf(s, t), s.shared, t);
  }

  /**
   The steps of a run in which `t` gets on: nobody begins another call, and another thread is
   inside writer I/O only for the session that `t` is waiting for.
   */
  ghost predicate Undisturbed(s: State, events: seq<Event>, t: Tid)
    requires ValidRun(s, events)
    decreases |events|
  {
    events == [] ||
    (var pc := PcOf(s, events[0].thread);
     && pc != Idle
     && (events[0].thread == t || !InWriterIo(pc) || SessionOf(pc) == WantedSession(PcOf(s, t)))
     && Undisturbed(Next(s, events[0]), events[1..], t))
  }

  lemma PrependStep(s: State, ev: Event, events: seq<Event>, t: Tid)
    requires CanMove(s, ev) && ValidRun(Next(s, ev), events) && Undisturbed(Next(s, ev), events, t)
    requires PcOf(s, ev.thread) != Idle
    requires ev.thread == t || !InWriterIo(PcOf(s, ev.thread))
          || SessionOf(PcOf(s, ev.thread)) == WantedSession(PcOf(s, t))
    ensures ValidRun(s, [ev] + events) && Undisturbed(s, [ev] + events, t)
    ensures RunFrom(s, [ev] + events) == RunFrom(Next(s, ev), events)
  {
    hide Local;
    assert ([ev] + events)[1..] == events;
  }

  /**
   From every reachable state every call can run to its end, by its own steps and those of the
   threads whose locks it meets, whatever other sessions' writers are doing.
   */
  lemma CallCanComplete(s: State, t: Tid) returns (events: seq<Event>)
    requires Reachable(s)
    ensures ValidRun(s, events) && Undisturbed(s, events, t) && PcOf(RunFrom(s, events), t) == Idle
  {
    ReachableInv(s);
    events := RunsToIdle(s, t);
  }

  lemma {:induction false} RunsToIdle(s: State, t: Tid) returns (events: seq<Event>)
    requires Inv(s)
    ensures ValidRun(s, events) && Undisturbed(s, events, t) && PcOf(RunFrom(s, events), t) == Idle
    decreases
      Phase(PcOf(s, t)), Work(PcOf(s, t)),
      if Blocker(s, t).Some? then Phase(PcOf(s, Blocker(s, t).value)) + 1 else 0,
      if Blocker(s, t).Some? then Work(PcOf(s, Blocker(s, t).value)) else 0
  {
    hide Inv, Local, Blocker, InWriterIo, WantedSession, Waits, Work, Grounded, CanStep;
    if PcOf(s, t) == Idle { return []; }
    var mover := if Blocker(s, t).Some? then Blocker(s, t).value else t;
    if Blocker(s, t).None? {
      UnblockedCanStep(s, t);
    } else {
      BlockerIsAtWork(s, t);
      RunningThreadsCanStep(s, mover);
    }
    var c :| CanStep(PcOf(s, mover), s.shared, c);
    var ev := Event(mover, c);
    NextOk(s, ev);
    EveryStepAdvancesItsCall(s, ev);
    if mover != t {
      BlockerKeepsOrFrees(s, t, ev);
    }
    var rest := RunsToIdle(Next(s, ev), t);
    PrependStep(s, ev, rest, t);
    events := [ev] + rest;
  }
}
