/**
 The streaming session protocol as a machine of threads taking micro-steps.

 A thread's program counter says which source statement it is about to execute. Every
 source of nondeterminism (which call starts, I/O outcomes, session age, iteration order,
 the random session id) is a `Choice`, so `Next` is a function and a run is a list of events.
 */
module StreamingProtocol {
  import opened Options
  import opened RecordBatches

  type Id = int
  type Tid = int
  type Path = string

  /** The two names a recording can have on disk. */
  datatype Name = Tmp(path: Path) | Final(path: Path)

  /** A file is identified by the session that created it; other files are foreign. */
  datatype FileRef = Own(id: Id) | Foreign

  /**
   An `Arc<SessionEntry>`: its tombstone, its mutex and the `RecordingSession` inside.
   `refs` are the threads keeping a clone of the `Arc`; the map's own clone is `registered`.
   */
  datatype Entry = Entry(
    creature: Creature,
    path: Path,
    refs: set<Tid>,
    cancelled: bool,
    lock: Option<Tid>,
    writerOpen: bool,
    recordsWritten: nat,
    finished: bool,
    preserve: bool)

  /**
   What has happened to a session so far. It outlives the entry and no step reads it.
   `acked`: total of the counts returned by successful appends. `lateAdds`: batches added after the
   tombstone was set. `written`: records that reached its file. `flushed`/`flushFailed`:
   outcome of the one flush. `sealed`: records_written when finalisation first began.
   `published`/`finisher`: its file was renamed, and by whom. `result`: what a successful
   finish returned.
   */
  datatype History = History(
    path: Path,
    acked: nat,
    lateAdds: nat,
    written: nat,
    flushed: bool,
    flushFailed: bool,
    sealed: Option<nat>,
    published: bool,
    finisher: Tid,
    result: Option<nat>)

  datatype StartArgs = StartArgs(creature: Creature, path: Path)

  datatype Request =
    | Start(args: StartArgs)
    | Append(id: Id, batches: seq<Batch>)
    | Finish(id: Id)
    | Cancel(id: Id)
    | Sweep

  /** Critical sections of the global map lock. */
  datatype Job =
    | LookupAppend(id: Id, batches: seq<Batch>)
    | LookupFinish(id: Id)
    | Insert(id: Id)
    | RemoveCancelled(id: Id)
    | RemoveEmpty(id: Id)
    | RemoveFinished(id: Id)
    | Scan(start: Option<StartArgs>)

  datatype AppendStage =
    | FirstCheck(batches: seq<Batch>)
    | Writing(rest: seq<Batch>, sum: nat)
    | LastCheck(sum: nat)
    | Adding(sum: nat)
    | AppendUnlock(outcome: Option<nat>)

  datatype FinishStage =
    | EmptyCheck
    | EmptyUnlock
    | SetPreserve
    | TakeWriter
    | Flushing
    | Renaming
    | SetFinished
    | FinishUnlock(outcome: Option<nat>)

  datatype Pc =
    | Idle
    | WantGlobal(job: Job)
    | InGlobal(job: Job)
    | SweepScan(todo: set<Id>, stale: set<Id>, start: Option<StartArgs>)
    | SweepProbe(id: Id, todo: set<Id>, stale: set<Id>, start: Option<StartArgs>)
    | SweepEvict(stale: set<Id>, evicted: set<Id>, start: Option<StartArgs>)
    | SweepTombstone(id: Id, stale: set<Id>, evicted: set<Id>, start: Option<StartArgs>)
    | Dropping(handles: set<Id>, start: Option<StartArgs>)
    | Deleting(id: Id, handles: set<Id>, start: Option<StartArgs>)
    | StartCreate(args: StartArgs)
    | WantAppend(id: Id, batches: seq<Batch>)
    | InAppend(id: Id, append: AppendStage)
    | WantFinish(id: Id)
    | InFinish(id: Id, finish: FinishStage)
    | CancelMark(id: Id)

  /** `finishing`: the finish calls under way, as (session, thread); no step reads it. */
  datatype Shared = Shared(
    registered: set<Id>,
    entries: map<Id, Entry>,
    files: map<Name, FileRef>,
    globalLock: Option<Tid>,
    history: map<Id, History>,
    finishing: set<(Id, Tid)>)

  datatype State = State(threads: map<Tid, Pc>, shared: Shared)

  /** What one micro-step leaves: the thread's next counter and the shared state. */
  datatype Outcome = Outcome(pc: Pc, sh: Shared)

  datatype Choice =
    | Begin(request: Request)
    | Go
    | IoError
    | PartialWrite(count: nat)
    | Pick(id: Id)
    | NewId(id: Id)
    | IsStale

  datatype Event = Event(thread: Tid, choice: Choice)

  /** The `Arc` clones a thread keeps alive. */
  function Handles(pc: Pc): set<Id> {
    match pc
    case WantGlobal(job) => JobHandles(job)
    case InGlobal(job) => JobHandles(job)
    case SweepEvict(_, evicted, _) => evicted
    case SweepTombstone(id, _, evicted, _) => evicted + {id}
    case Dropping(handles, _) => handles
    case Deleting(id, handles, _) => handles + {id}
    case WantAppend(id, _) => {id}
    case InAppend(id, _) => {id}
    case WantFinish(id) => {id}
    case InFinish(id, _) => {id}
    case CancelMark(id) => {id}
    case _ => {}
  }

  function JobHandles(job: Job): set<Id> {
    match job
    case Insert(id) => {id}
    case RemoveEmpty(id) => {id}
    case RemoveFinished(id) => {id}
    case _ => {}
  }

  predicate HoldsGlobal(pc: Pc) {
    pc.InGlobal? || pc.SweepScan? || pc.SweepProbe? || pc.SweepEvict? || pc.SweepTombstone?
  }

  /** The session whose lock the thread holds. */
  function SessionOf(pc: Pc): Option<Id> {
    if pc.InAppend? || pc.InFinish? || pc.SweepProbe? then Some(pc.id) else None
  }

  /** The thread is inside writer I/O: a Parquet write, a flush or a rename. */
  predicate InWriterIo(pc: Pc) {
    || (pc.InAppend? && pc.append.Writing?)
    || (pc.InFinish? && (pc.finish.Flushing? || pc.finish.Renaming?))
  }

  /** The choice `c` is possible at `pc`: the lock it needs is free, its pick is legal. */
  predicate CanStep(pc: Pc, sh: Shared, c: Choice) {
    match pc
    case Idle => c.Begin?
    case WantGlobal(_) => c == Go && sh.globalLock == None
    case InGlobal(_) => c == Go
    case SweepScan(todo, _, _) => if todo == {} then c == Go else c.Pick? && c.id in todo
    case SweepProbe(_, _, _, _) => c == Go || c == IsStale
    case SweepEvict(stale, _, _) => if stale == {} then c == Go else c.Pick? && c.id in stale
    case SweepTombstone(_, _, _, _) => c == Go
    case Dropping(handles, _) => if handles == {} then c == Go else c.Pick? && c.id in handles
    case Deleting(_, _, _) => c == Go || c == IoError
    case StartCreate(_) => c == IoError || (c.NewId? && c.id !in sh.history)
    case WantAppend(id, _) => c == Go && id in sh.entries && sh.entries[id].lock == None
    case WantFinish(id) => c == Go && id in sh.entries && sh.entries[id].lock == None
    case InAppend(_, stage) => c == Go || (stage.Writing? && c.PartialWrite?)
    case InFinish(_, stage) => c == Go || ((stage.Flushing? || stage.Renaming?) && c == IoError)
    case CancelMark(_) => c == Go
  }

  /** Every session the thread is about to touch exists: true in all reachable states. */
  predicate Grounded(pc: Pc, sh: Shared) {
    && sh.registered <= sh.entries.Keys <= sh.history.Keys
    && Handles(pc) <= sh.entries.Keys
    && (pc.SweepScan? || pc.SweepProbe? ==> pc.todo <= sh.registered)
    && (pc.SweepProbe? ==> pc.id in sh.registered)
  }

  function PutEntry(sh: Shared, id: Id, e: Entry): Shared {
    sh.(entries := sh.entries[id := e])
  }

  function PutHistory(sh: Shared, id: Id, h: History): Shared {
    sh.(history := sh.history[id := h])
  }

  function Begun(sh: Shared, t: Tid, request: Request): Outcome {
    match request
    case Start(args) => Outcome(WantGlobal(Scan(Some(args))), sh)
    case Append(id, batches) => Outcome(WantGlobal(LookupAppend(id, batches)), sh)
    case Finish(id) => Outcome(WantGlobal(LookupFinish(id)), sh.(finishing := sh.finishing + {(id, t)}))
    case Cancel(id) => Outcome(WantGlobal(RemoveCancelled(id)), sh)
    case Sweep => Outcome(WantGlobal(Scan(None)), sh)
  }

  /** A critical section of the global map lock; all but the scan release it at once. */
  function JobStep(sh: Shared, t: Tid, job: Job): Outcome
    requires Grounded(InGlobal(job), sh)
  {
    var free := sh.(globalLock := None);
    match job
    case LookupAppend(id, batches) =>
      if id in sh.registered
      then Outcome(WantAppend(id, batches), PutEntry(free, id, AddRef(sh.entries[id], t)))
      else Outcome(Idle, free)
    case LookupFinish(id) =>
      if id in sh.registered
      then Outcome(WantFinish(id), PutEntry(free, id, AddRef(sh.entries[id], t)))
      else Outcome(Idle, free.(finishing := sh.finishing - {(id, t)}))
    case Insert(id) =>
      Outcome(Idle, PutEntry(free, id, DropRef(sh.entries[id], t)).(registered := sh.registered + {id}))
    case RemoveCancelled(id) =>
      if id in sh.registered
      then Outcome(CancelMark(id),
                   PutEntry(free, id, AddRef(sh.entries[id], t)).(registered := sh.registered - {id}))
      else Outcome(Idle, free)
    case RemoveEmpty(id) =>
      Outcome(Dropping({id}, None),
              free.(registered := sh.registered - {id}, finishing := sh.finishing - {(id, t)}))
    case RemoveFinished(id) =>
      Outcome(Dropping({id}, None),
              free.(registered := sh.registered - {id}, finishing := sh.finishing - {(id, t)}))
    case Scan(start) =>
      Outcome(SweepScan(sh.registered, {}, start), sh)
  }

  function AddRef(e: Entry, t: Tid): Entry {
    e.(refs := e.refs + {t})
  }

  function DropRef(e: Entry, t: Tid): Entry {
    e.(refs := e.refs - {t})
  }

  /** One statement of the stale-session sweep, under the global lock. */
  function SweepStep(pc: Pc, sh: Shared, t: Tid, c: Choice): Outcome
    requires pc.SweepScan? || pc.SweepProbe? || pc.SweepEvict? || pc.SweepTombstone?
    requires CanStep(pc, sh, c) && Grounded(pc, sh)
  {
    match pc
    case SweepScan(todo, stale, start) =>
      if todo == {} then Outcome(SweepEvict(stale, {}, start), sh)
      else if sh.entries[c.id].lock.Some? then Outcome(SweepScan(todo - {c.id}, stale, start), sh)
      else Outcome(SweepProbe(c.id, todo - {c.id}, stale, start),
                   PutEntry(sh, c.id, sh.entries[c.id].(lock := Some(t))))
    case SweepProbe(id, todo, stale, start) =>
      Outcome(SweepScan(todo, if c == IsStale then stale + {id} else stale, start),
              PutEntry(sh, id, sh.entries[id].(lock := None)))
    case SweepEvict(stale, evicted, start) =>
      if stale == {} then Outcome(Dropping(evicted, start), sh.(globalLock := None))
      else if c.id in sh.registered
      then Outcome(SweepTombstone(c.id, stale - {c.id}, evicted, start),
                   PutEntry(sh, c.id, AddRef(sh.entries[c.id], t)).(registered := sh.registered - {c.id}))
      else Outcome(SweepEvict(stale - {c.id}, evicted, start), sh)
    case SweepTombstone(id, stale, evicted, start) =>
      Outcome(SweepEvict(stale, evicted + {id}, start),
              PutEntry(sh, id, sh.entries[id].(cancelled := true)))
  }

  /** Release a handle; the last one goes on to run `RecordingSession::drop`. */
  function DropStep(pc: Pc, sh: Shared, t: Tid, c: Choice): Outcome
    requires pc.Dropping? && CanStep(pc, sh, c) && Grounded(pc, sh)
  {
    if pc.handles == {} then
      Outcome(if pc.start.Some? then StartCreate(pc.start.value) else Idle, sh)
    else if c.id !in sh.registered && sh.entries[c.id].refs == {t} then
      Outcome(Deleting(c.id, pc.handles - {c.id}, pc.start), sh)
    else
      Outcome(Dropping(pc.handles - {c.id}, pc.start), PutEntry(sh, c.id, DropRef(sh.entries[c.id], t)))
  }

  /** `RecordingSession::drop`: only an unfinished, unsealed recording is deleted. */
  function DeleteStep(pc: Pc, sh: Shared, c: Choice): Outcome
    requires pc.Deleting? && Grounded(pc, sh)
  {
    var e := sh.entries[pc.id];
    var kept := sh.(entries := sh.entries - {pc.id});
    Outcome(Dropping(pc.handles, pc.start),
            if e.finished || e.preserve || c == IoError then kept
            else kept.(files := sh.files - {Tmp(e.path)}))
  }

  /** The step of `start_session` that creates the temporary file and the session. */
  function CreateStep(sh: Shared, t: Tid, args: StartArgs, c: Choice): Outcome
  {
    if !c.NewId? || !HasNonInputNeuron(args.creature) || Tmp(args.path) in sh.files then Outcome(Idle, sh)
    else
      var e := Entry(args.creature, args.path, {t}, false, None, true, 0, false, false);
      var h := History(args.path, 0, 0, 0, false, false, None, false, t, None);
      Outcome(WantGlobal(Insert(c.id)),
              PutHistory(PutEntry(sh, c.id, e), c.id, h).(files := sh.files[Tmp(args.path) := Own(c.id)]))
  }

  /** What a statement executed under the session lock leaves of the session. */
  datatype Held = Held(pc: Pc, e: Entry, h: History)

  /** One statement of `append_to_handle`, under the session lock. */
  function AppendStep(id: Id, e: Entry, h: History, stage: AppendStage, c: Choice): Held {
    match stage
    case FirstCheck(batches) =>
      Held(InAppend(id, if e.cancelled then AppendUnlock(None) else Writing(batches, 0)), e, h)
    case Writing(rest, sum) =>
      if rest == [] then Held(InAppend(id, LastCheck(sum)), e, h)
      else
        var n := RecordCount(e.creature, rest[0]);
        if n == 0 then Held(InAppend(id, Writing(rest[1..], sum)), e, h)
        else if !e.writerOpen then Held(InAppend(id, AppendUnlock(None)), e, h)
        else if c.PartialWrite? then
          Held(InAppend(id, AppendUnlock(None)), e, h.(written := h.written + c.count))
        else
          Held(InAppend(id, Writing(rest[1..], sum + n)), e, h.(written := h.written + n))
    case LastCheck(sum) =>
      Held(InAppend(id, if e.cancelled then AppendUnlock(None) else Adding(sum)), e, h)
    case Adding(sum) =>
      Held(InAppend(id, AppendUnlock(Some(sum))), e.(recordsWritten := e.recordsWritten + sum),
           if e.cancelled then h.(lateAdds := h.lateAdds + 1) else h)
    case AppendUnlock(outcome) =>
      Held(Dropping({id}, None), e.(lock := None),
           if outcome.Some? then h.(acked := h.acked + outcome.value) else h)
  }

  /** One statement of `finish_session`, under the session lock; `renames`: the rename succeeds. */
  function FinishStep(id: Id, e: Entry, h: History, t: Tid, stage: FinishStage, renames: bool, c: Choice): Held {
    match stage
    case EmptyCheck =>
      Held(InFinish(id, if e.recordsWritten == 0 then EmptyUnlock else SetPreserve), e, h)
    case EmptyUnlock =>
      Held(WantGlobal(RemoveEmpty(id)), e.(lock := None), h)
    case SetPreserve =>
      Held(InFinish(id, TakeWriter), e.(preserve := true),
           if h.sealed.None? then h.(sealed := Some(e.recordsWritten)) else h)
    case TakeWriter =>
      Held(InFinish(id, if e.writerOpen then Flushing else Renaming), e.(writerOpen := false), h)
    case Flushing =>
      if c == IoError then Held(InFinish(id, FinishUnlock(None)), e, h.(flushFailed := true))
      else Held(InFinish(id, Renaming), e, h.(flushed := true))
    case Renaming =>
      if renames then Held(InFinish(id, SetFinished), e, h.(published := true, finisher := t))
      else Held(InFinish(id, FinishUnlock(None)), e, h)
    case SetFinished =>
      Held(InFinish(id, FinishUnlock(Some(e.recordsWritten))), e.(finished := true), h)
    case FinishUnlock(outcome) =>
      if outcome.Some?
      then Held(WantGlobal(RemoveFinished(id)), e.(lock := None), h.(result := outcome))
      else Held(Dropping({id}, None), e.(lock := None), h)
  }

  /** `fs::rename` moves whatever file is at the temporary name over the final name. */
  function Renamed(files: map<Name, FileRef>, path: Path): map<Name, FileRef> {
    if Tmp(path) in files then (files - {Tmp(path)})[Final(path) := files[Tmp(path)]] else files
  }

  function PutHeld(sh: Shared, id: Id, held: Held): Shared {
    sh.(entries := sh.entries[id := held.e], history := sh.history[id := held.h])
  }

  function AppendMove(sh: Shared, id: Id, stage: AppendStage, c: Choice): Outcome
    requires id in sh.entries && id in sh.history
  {
    var held := AppendStep(id, sh.entries[id], sh.history[id], stage, c);
    Outcome(held.pc, PutHeld(sh, id, held))
  }

  function FinishMove(sh: Shared, t: Tid, id: Id, stage: FinishStage, c: Choice): Outcome
    requires id in sh.entries && id in sh.history
  {
    var path := sh.entries[id].path;
    var renames := stage.Renaming? && c != IoError && Tmp(path) in sh.files;
    var held := FinishStep(id, sh.entries[id], sh.history[id], t, stage, renames, c);
    Outcome(held.pc,
            PutHeld(sh, id, held).(
              files := if renames then Renamed(sh.files, path) else sh.files,
              finishing := if held.pc.Dropping? then sh.finishing - {(id, t)} else sh.finishing))
  }

  /** The micro-step of thread `t` at `pc`. */
  function Local(pc: Pc, sh: Shared, t: Tid, c: Choice): Outcome
    requires CanStep(pc, sh, c) && Grounded(pc, sh)
  {
    match pc
    case Idle => Begun(sh, t, c.request)
    case WantGlobal(job) => Outcome(InGlobal(job), sh.(globalLock := Some(t)))
    case InGlobal(job) => JobStep(sh, t, job)
    case SweepScan(_, _, _) => SweepStep(pc, sh, t, c)
    case SweepProbe(_, _, _, _) => SweepStep(pc, sh, t, c)
    case SweepEvict(_, _, _) => SweepStep(pc, sh, t, c)
    case SweepTombstone(_, _, _, _) => SweepStep(pc, sh, t, c)
    case Dropping(_, _) => DropStep(pc, sh, t, c)
    case Deleting(_, _, _) => DeleteStep(pc, sh, c)
    case StartCreate(args) => CreateStep(sh, t, args, c)
    case WantAppend(id, batches) =>
      Outcome(InAppend(id, FirstCheck(batches)), PutEntry(sh, id, sh.entries[id].(lock := Some(t))))
    case InAppend(id, stage) => AppendMove(sh, id, stage, c)
    case WantFinish(id) =>
      Outcome(InFinish(id, EmptyCheck), PutEntry(sh, id, sh.entries[id].(lock := Some(t))))
    case InFinish(id, stage) => FinishMove(sh, t, id, stage, c)
    case CancelMark(id) =>
      Outcome(Dropping({id}, None), PutEntry(sh, id, sh.entries[id].(cancelled := true)))
  }

  function PcOf(s: State, t: Tid): Pc {
    if t in s.threads then s.threads[t] else Idle
  }

  predicate CanMove(s: State, ev: Event) {
    CanStep(PcOf(s, ev.thread), s.shared, ev.choice) && Grounded(PcOf(s, ev.thread), s.shared)
  }

  function Next(s: State, ev: Event): State
    requires CanMove(s, ev)
  {
    var next := Local(PcOf(s, ev.thread), s.shared, ev.thread, ev.choice);
    State(s.threads[ev.thread := next.pc], next.sh)
  }

  /** No session, no running call; any foreign files may already be on disk. */
  ghost predicate Initial(s: State) {
    && s.threads == map[]
    && s.shared.registered == {} && s.shared.entries == map[] && s.shared.history == map[]
    && s.shared.globalLock == None && s.shared.finishing == {}
    && forall n | n in s.shared.files :: s.shared.files[n] == Foreign
  }

  ghost predicate ValidRun(s: State, events: seq<Event>)
    decreases |events|
  {
    events == [] || (CanMove(s, events[0]) && ValidRun(Next(s, events[0]), events[1..]))
  }

  ghost function RunFrom(s: State, events: seq<Event>): State
    requires ValidRun(s, events)
    decreases |events|
  {
    if events == [] then s else RunFrom(Next(s, events[0]), events[1..])
  }
}
