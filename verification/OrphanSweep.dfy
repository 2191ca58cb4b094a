/** Sweepers, cleaning owners and sessions acting on discovery directories in any interleaving. */
module OrphanSweep {
  import opened DiscoveryCleanup

  type Path = string

  /**
   A directory at a path. `id` tells apart directories that share a path over time; `born` and
   `modified` are clock times; `bornStep` and the lock entries are the step numbers at which
   the directory and each present lock file were written.
   */
  datatype Dir = Dir(id: nat, kind: Kind, born: nat, bornStep: nat, modified: nat, locks: map<LockName, nat>)

  /** A sweep with its age floor, or an owner removing its own directory. */
  datatype Role = Sweeper(scanStarted: nat) | Owner

  /**
   Where an actor is. `ageStep` and `ageTime` are the step and the clock at the passed age check,
   and `clear` the step at which the re-check found each lock absent.
   */
  datatype Pc = Between | At(path: Path, stage: Stage, ageStep: nat, ageTime: nat, clear: map<LockName, nat>)

  datatype Actor = Actor(role: Role, pc: Pc, tally: Tally)

  /** A directory that an actor removed, with what the actor had checked. */
  datatype Removal =
    Removal(path: Path, dir: Dir, actor: nat, ageStep: nat, ageTime: nat, clear: map<LockName, nat>)

  /** `used` holds every path ever created, `reused` those that were created again. */
  datatype State = State(
    now: nat,
    step: nat,
    nextId: nat,
    dirs: map<Path, Dir>,
    used: set<Path>,
    reused: set<Path>,
    actors: seq<Actor>,
    removals: seq<Removal>)

  datatype Action =
    | Tick
    | Create(path: Path, kind: Kind)
    | WriteLock(path: Path, lock: LockName)
    | ReleaseLock(path: Path, lock: LockName)
    | Touch(path: Path)
    | Begin(actor: nat, path: Path)
    | Call(actor: nat, reply: Reply)

  /** What reading the metadata of a path says. */
  function Looked(dirs: map<Path, Dir>, path: Path): Reply {
    if path in dirs then Found(Info(dirs[path].kind, dirs[path].modified)) else NotFound
  }

  /** The replies the file system may give; any call may fail for its own reasons. */
  predicate CanReply(dirs: map<Path, Dir>, path: Path, stage: Stage, reply: Reply) {
    reply.Unreadable? ||
    match stage
    case ReadEntry => true
    case ReadType => true
    case CheckPath => true
    case CheckIsDir => reply.Found? ==> path in dirs
    case Probe(lock) => reply.Found? <==> path in dirs && lock in dirs[path].locks
    case Recheck(lock) => reply.Found? <==> path in dirs && lock in dirs[path].locks
    case CheckAge => reply == Looked(dirs, path)
    case ReadMetadata => reply == Looked(dirs, path)
    case RemoveTree => reply.Found? <==> path in dirs
    case Done(_) => false
  }

  predicate CanAct(s: State, action: Action) {
    match action
    case Tick => true
    case Create(path, _) => path !in s.dirs
    case WriteLock(path, _) => path in s.dirs
    case ReleaseLock(path, _) => path in s.dirs
    case Touch(path) => path in s.dirs
    case Begin(a, _) => a < |s.actors| && s.actors[a].pc.Between?
    case Call(a, reply) =>
      a < |s.actors| && s.actors[a].pc.At?
      && CanReply(s.dirs, s.actors[a].pc.path, s.actors[a].pc.stage, reply)
  }

  function WithDir(s: State, path: Path, dir: Dir): State {
    s.(step := s.step + 1, dirs := s.dirs[path := dir])
  }

  function FloorOf(role: Role): nat {
    if role.Sweeper? then role.scanStarted else 0
  }

  /** The actor after a call: on to the next stage, or done with the entry and counted. */
  function ActorAfter(actor: Actor, step: nat, now: nat, reply: Reply): Actor
    requires actor.pc.At?
  {
    var pc := actor.pc;
    var next := Decide(pc.stage, reply, FloorOf(actor.role), actor.role.Sweeper?);
    if next.Done? then actor.(pc := Between, tally := Counted(actor.tally, next.outcome))
    else actor.(pc := At(pc.path, next,
      if pc.stage.CheckAge? then step else pc.ageStep,
      if pc.stage.CheckAge? then now else pc.ageTime,
      if pc.stage.Recheck? then pc.clear[pc.stage.again := step] else pc.clear))
  }

  /** What is recorded when the actor at `pc` deletes the directory at its path. */
  function RemovalAt(s: State, a: nat, pc: Pc): Removal
    requires pc.At? && pc.path in s.dirs
  {
    Removal(pc.path, s.dirs[pc.path], a, pc.ageStep, pc.ageTime, pc.clear)
  }

  function AfterCall(s: State, a: nat, reply: Reply): State
    requires CanAct(s, Call(a, reply))
  {
    var pc := s.actors[a].pc;
    var moved := s.(step := s.step + 1, actors := s.actors[a := ActorAfter(s.actors[a], s.step, s.now, reply)]);
    if pc.stage.RemoveTree? && reply.Found? then
      moved.(dirs := s.dirs - {pc.path},
        removals := s.removals + [RemovalAt(s, a, pc)])
    else moved
  }

  function Next(s: State, action: Action): State
    requires CanAct(s, action)
  {
    match action
    case Tick => s.(now := s.now + 1, step := s.step + 1)
    case Create(path, kind) =>
      WithDir(s, path, Dir(s.nextId, kind, s.now, s.step, s.now, map[]))
        .(nextId := s.nextId + 1, used := s.used + {path},
          reused := if path in s.used then s.reused + {path} else s.reused)
    case WriteLock(path, lock) =>
      WithDir(s, path, s.dirs[path].(modified := s.now, locks := s.dirs[path].locks[lock := s.step]))
    case ReleaseLock(path, lock) =>
      WithDir(s, path, s.dirs[path].(modified := s.now, locks := s.dirs[path].locks - {lock}))
    case Touch(path) => WithDir(s, path, s.dirs[path].(modified := s.now))
    case Begin(a, path) =>
      var actor := s.actors[a];
      s.(step := s.step + 1, actors := s.actors[a := actor.(
        pc := At(path, if actor.role.Sweeper? then ReadEntry else CheckPath, 0, 0, map[]),
        tally := actor.tally.(entries := actor.tally.entries + 1))])
    case Call(a, reply) => AfterCall(s, a, reply)
  }

  // What every reachable state satisfies.

  predicate DirsOk(s: State) {
    && (forall p | p in s.dirs ::
         s.dirs[p].id < s.nextId && s.dirs[p].born <= s.dirs[p].modified <= s.now
         && s.dirs[p].bornStep < s.step && p in s.used)
    && (forall p, q | p in s.dirs && q in s.dirs && p != q :: s.dirs[p].id != s.dirs[q].id)
  }

  /** Every directory was removed at most once, and what was removed is gone. */
  predicate RemovedOnce(s: State) {
    && (forall i | 0 <= i < |s.removals| :: s.removals[i].dir.id < s.nextId)
    && (forall i, j | 0 <= i < j < |s.removals| :: s.removals[i].dir.id != s.removals[j].dir.id)
    && (forall i, p | 0 <= i < |s.removals| && p in s.dirs :: s.removals[i].dir.id != s.dirs[p].id)
  }

  predicate PastAge(stage: Stage) {
    stage.CheckPath? || stage.ReadMetadata? || stage.Recheck? || stage.RemoveTree?
  }

  /** The re-check of this lock has been passed. */
  predicate PastRecheck(stage: Stage, lock: LockName) {
    stage.RemoveTree? || (stage == Recheck(HostDiscoveryLock) && lock == DiscoveryLock)
  }

  /** Created after the age check and no earlier on the clock, or else before the scan. */
  predicate OldEnough(dir: Dir, scanStarted: nat, ageStep: nat, ageTime: nat) {
    if dir.bornStep > ageStep then dir.born >= ageTime else dir.born < scanStarted
  }

  /** Whatever lock the directory holds was written after the last look at it. */
  predicate LockedLater(dir: Dir, clear: map<LockName, nat>, lock: LockName) {
    lock in dir.locks ==> lock in clear && dir.locks[lock] > clear[lock]
  }

  /** What a sweeper in the middle of an entry may rely on, whatever the others do. */
  predicate SweeperOk(s: State, scanStarted: nat, pc: Pc)
    requires pc.At?
  {
    && (PastAge(pc.stage) ==>
         && pc.ageStep < s.step && pc.ageTime <= s.now && pc.path in s.used
         && (pc.path in s.dirs ==>
              && OldEnough(s.dirs[pc.path], scanStarted, pc.ageStep, pc.ageTime)
              && (pc.path !in s.reused ==> s.dirs[pc.path].bornStep <= pc.ageStep)))
    && (forall lock | PastRecheck(pc.stage, lock) ::
         && lock in pc.clear && pc.clear[lock] < s.step
         && (pc.path in s.dirs ==> LockedLater(s.dirs[pc.path], pc.clear, lock)))
  }

  predicate ActorOk(s: State, actor: Actor) {
    && (actor.role.Sweeper? && actor.pc.At? ==> SweeperOk(s, actor.role.scanStarted, actor.pc))
    && (actor.pc.At? ==> !actor.pc.stage.Done?)
    && actor.tally.entries == Settled(actor.tally) + if actor.pc.At? then 1 else 0
  }

  /** What holds of every directory that a sweeper removed. */
  predicate RemovalOk(r: Removal, role: Role, reused: set<Path>) {
    role.Sweeper? ==>
      && OldEnough(r.dir, role.scanStarted, r.ageStep, r.ageTime)
      && (r.path !in reused ==> r.dir.bornStep <= r.ageStep)
      && LockedLater(r.dir, r.clear, DiscoveryLock) && LockedLater(r.dir, r.clear, HostDiscoveryLock)
  }

  function RemovedBy(removals: seq<Removal>, a: nat): nat {
    if removals == [] then 0
    else RemovedBy(removals[..|removals| - 1], a) + if removals[|removals| - 1].actor == a then 1 else 0
  }

  predicate Inv(s: State) {
    && DirsOk(s) && RemovedOnce(s)
    && (forall a | 0 <= a < |s.actors| :: ActorOk(s, s.actors[a]))
    && (forall i | 0 <= i < |s.removals| :: s.removals[i].actor < |s.actors|
         && RemovalOk(s.removals[i], s.actors[s.removals[i].actor].role, s.reused))
    && (forall a | 0 <= a < |s.actors| :: RemovedBy(s.removals, a) == s.actors[a].tally.removed)
  }

  /** How a step may change the directory that others see at a path. */
  predicate PathEvolves(s: State, s': State, path: Path) {
    path in s'.dirs ==>
      || (path in s.dirs && s'.dirs[path].born == s.dirs[path].born && s'.dirs[path].bornStep == s.dirs[path].bornStep
          && forall lock | lock in s'.dirs[path].locks ::
               s'.dirs[path].locks[lock] == s.step
               || (lock in s.dirs[path].locks && s'.dirs[path].locks[lock] == s.dirs[path].locks[lock]))
      || (s'.dirs[path].bornStep == s.step && s'.dirs[path].born == s.now && s'.dirs[path].locks == map[]
          && (path in s.used ==> path in s'.reused))
  }

  predicate Evolves(s: State, s': State) {
    && s'.step == s.step + 1 && s'.now >= s.now && s.used <= s'.used && s.reused <= s'.reused
    && forall path | path in s'.dirs :: PathEvolves(s, s', path)
  }

  lemma StepEvolves(s: State, action: Action)
    requires CanAct(s, action)
    ensures Evolves(s, Next(s, action))
  {
  }

  /** No step of anyone else disturbs what a sweeper relies on. */
  lemma SweeperIsStable(s: State, s': State, scanStarted: nat, pc: Pc)
    requires pc.At? && SweeperOk(s, scanStarted, pc) && Evolves(s, s')
    ensures SweeperOk(s', scanStarted, pc)
  {
    if pc.path in s'.dirs {
      assert PathEvolves(s, s', pc.path);
    }
  }

  lemma DirsStay(s: State, action: Action)
    requires CanAct(s, action) && DirsOk(s)
    ensures DirsOk(Next(s, action))
  {
    hide Decide, Counted, ActorAfter, CanReply;
  }

  lemma RemovedOnceStays(s: State, action: Action)
    requires CanAct(s, action) && DirsOk(s) && RemovedOnce(s)
    ensures RemovedOnce(Next(s, action))
  {
    hide Decide, Counted, ActorAfter;
    OnlyDeletionRemoves(s, action);
  }

  /** A sweeper that goes on to the next stage may rely on what its call has shown. */
  lemma SweeperAdvances(s: State, a: nat, reply: Reply)
    requires CanAct(s, Call(a, reply)) && DirsOk(s) && ActorOk(s, s.actors[a]) && s.actors[a].role.Sweeper?
    requires ActorAfter(s.actors[a], s.step, s.now, reply).pc.At?
    ensures SweeperOk(Next(s, Call(a, reply)), s.actors[a].role.scanStarted,
                      ActorAfter(s.actors[a], s.step, s.now, reply).pc)
  {
    hide Counted, Settled;
    var pc := s.actors[a].pc;
    var after := Next(s, Call(a, reply));
    assert after.dirs == s.dirs;
    StepEvolves(s, Call(a, reply));
    SweeperIsStable(s, after, s.actors[a].role.scanStarted, pc);
  }

  lemma ActorStays(s: State, action: Action, b: nat)
    requires CanAct(s, action) && DirsOk(s) && b < |s.actors| && ActorOk(s, s.actors[b])
    ensures ActorOk(Next(s, action), Next(s, action).actors[b])
  {
    hide SweeperOk, CanReply;
    var s' := Next(s, action);
    StepEvolves(s, action);
    if s'.actors[b] == s.actors[b] {
      if s.actors[b].role.Sweeper? && s.actors[b].pc.At? {
        SweeperIsStable(s, s', s.actors[b].role.scanStarted, s.actors[b].pc);
      }
    } else if action.Call? {
      var actor := ActorAfter(s.actors[b], s.step, s.now, action.reply);
      if actor.pc.At? && actor.role.Sweeper? {
        SweeperAdvances(s, b, action.reply);
      }
      StagesAreReached(s.actors[b], s.step, s.now, action.reply);
    } else {
      BeginIsOk(s, action);
    }
  }

  lemma StagesAreReached(actor: Actor, step: nat, now: nat, reply: Reply)
    requires actor.pc.At? && actor.tally.entries == Settled(actor.tally) + 1
    ensures var after := ActorAfter(actor, step, now, reply);
      && (after.pc.At? ==> !after.pc.stage.Done?)
      && after.role == actor.role
      && after.tally.entries == Settled(after.tally) + (if after.pc.At? then 1 else 0)
      && after.tally.removed == actor.tally.removed
           + (if Decide(actor.pc.stage, reply, FloorOf(actor.role), actor.role.Sweeper?) == Done(Removed) then 1 else 0)
  {
    hide Decide;
  }

  lemma BeginIsOk(s: State, action: Action)
    requires CanAct(s, action) && action.Begin? && ActorOk(s, s.actors[action.actor])
    ensures ActorOk(Next(s, action), Next(s, action).actors[action.actor])
  {
  }

  /** The call that deletes a tree; every other step leaves the removals alone. */
  predicate Deletes(s: State, action: Action)
    requires CanAct(s, action)
  {
    action.Call? && s.actors[action.actor].pc.stage.RemoveTree? && action.reply.Found?
  }

  lemma OnlyDeletionRemoves(s: State, action: Action)
    requires CanAct(s, action)
    ensures |Next(s, action).actors| == |s.actors| && s.reused <= Next(s, action).reused
    ensures forall a | 0 <= a < |s.actors| :: Next(s, action).actors[a].role == s.actors[a].role
    ensures Next(s, action).removals == s.removals +
      if Deletes(s, action) then
        var pc := s.actors[action.actor].pc;
        [RemovalAt(s, action.actor, pc)]
      else []
  {
    hide Decide, Counted;
  }

  /** The new removal, if any, is one the sweeper was entitled to. */
  lemma DeletionIsOk(s: State, action: Action)
    requires CanAct(s, action) && Deletes(s, action) && DirsOk(s) && ActorOk(s, s.actors[action.actor])
    ensures var pc := s.actors[action.actor].pc;
      RemovalOk(RemovalAt(s, action.actor, pc), s.actors[action.actor].role, s.reused)
  {
    var pc := s.actors[action.actor].pc;
    if s.actors[action.actor].role.Sweeper? {
      assert PastRecheck(pc.stage, DiscoveryLock) && PastRecheck(pc.stage, HostDiscoveryLock);
    }
  }

  lemma RemovalsStay(s: State, action: Action, i: nat)
    requires CanAct(s, action) && Inv(s) && i < |Next(s, action).removals|
    ensures var s' := Next(s, action);
      s'.removals[i].actor < |s'.actors| && RemovalOk(s'.removals[i], s'.actors[s'.removals[i].actor].role, s'.reused)
  {
    hide Next, DirsOk, RemovedOnce, ActorOk, OldEnough, LockedLater;
    OnlyDeletionRemoves(s, action);
    if i < |s.removals| {
      assert RemovalOk(s.removals[i], s.actors[s.removals[i].actor].role, s.reused);
    } else {
      assert ActorOk(s, s.actors[action.actor]);
      DeletionIsOk(s, action);
      DeletionReusesNothing(s, action);
    }
  }

  lemma DeletionReusesNothing(s: State, action: Action)
    requires CanAct(s, action) && Deletes(s, action)
    ensures Next(s, action).reused == s.reused
  {
  }

  lemma RemovedByAppend(removals: seq<Removal>, r: Removal, a: nat)
    ensures RemovedBy(removals + [r], a) == RemovedBy(removals, a) + if r.actor == a then 1 else 0
  {
    assert (removals + [r])[..|removals + [r]| - 1] == removals;
  }

  lemma CountsStay(s: State, action: Action, a: nat)
    requires CanAct(s, action) && a < |s.actors| && ActorOk(s, s.actors[a])
    requires RemovedBy(s.removals, a) == s.actors[a].tally.removed
    ensures RemovedBy(Next(s, action).removals, a) == Next(s, action).actors[a].tally.removed
  {
    hide RemovedBy;
    OnlyDeletionRemoves(s, action);
    if Deletes(s, action) {
      var pc := s.actors[action.actor].pc;
      RemovedByAppend(s.removals, RemovalAt(s, action.actor, pc), a);
    } else {
      assert s.removals + [] == s.removals;
    }
    if action.Call? && action.actor == a {
      StagesAreReached(s.actors[a], s.step, s.now, action.reply);
      OnlyRemovalCounts(s.actors[a].pc.stage, action.reply, FloorOf(s.actors[a].role), s.actors[a].role.Sweeper?);
    }
  }

  lemma OnlyRemovalCounts(stage: Stage, reply: Reply, floor: nat, recheck: bool)
    requires !stage.Done?
    ensures Decide(stage, reply, floor, recheck) == Done(Removed) <==> stage.RemoveTree? && reply.Found?
  {
  }

  lemma StepKeepsInv(s: State, action: Action)
    requires CanAct(s, action) && Inv(s)
    ensures Inv(Next(s, action))
  {
    hide Next, DirsOk, RemovedOnce, ActorOk, RemovalOk, RemovedBy;
    var s' := Next(s, action);
    DirsStay(s, action);
    RemovedOnceStays(s, action);
    OnlyDeletionRemoves(s, action);
    forall a | 0 <= a < |s'.actors|
      ensures ActorOk(s', s'.actors[a]) && RemovedBy(s'.removals, a) == s'.actors[a].tally.removed
    {
      ActorStays(s, action, a);
      CountsStay(s, action, a);
    }
    forall i | 0 <= i < |s'.removals|
      ensures s'.removals[i].actor < |s'.actors|
        && RemovalOk(s'.removals[i], s'.actors[s'.removals[i].actor].role, s'.reused)
    {
      RemovalsStay(s, action, i);
    }
  }

  // Whole runs.

  /** Directories that exist before anyone acts, and actors that have not started. */
  predicate Initial(s: State) {
    && DirsOk(s) && s.removals == [] && s.reused == {}
    && forall a | 0 <= a < |s.actors| :: s.actors[a].pc.Between? && s.actors[a].tally == NO_ENTRIES
  }

  predicate ValidRun(s: State, run: seq<Action>)
    decreases |run|
  {
    run == [] || (CanAct(s, run[0]) && ValidRun(Next(s, run[0]), run[1..]))
  }

  function AfterRun(s: State, run: seq<Action>): State
    requires ValidRun(s, run)
    decreases |run|
  {
    if run == [] then s else AfterRun(Next(s, run[0]), run[1..])
  }

  lemma {:induction false} RunKeepsInv(s: State, run: seq<Action>)
    requires Inv(s) && ValidRun(s, run)
    ensures Inv(AfterRun(s, run))
    decreases |run|
  {
    if run != [] {
      hide Inv, CanAct, Next;
      StepKeepsInv(s, run[0]);
      RunKeepsInv(Next(s, run[0]), run[1..]);
    }
  }

  // One entry, from its beginning to its outcome, while others act.

  predicate BeginsNothing(run: seq<Action>, a: nat) {
    forall i | 0 <= i < |run| :: !(run[i].Begin? && run[i].actor == a)
  }

  /** In the run every call of the actor gets the reply listed for its stage. */
  predicate Answered(s: State, run: seq<Action>, a: nat, replies: Replies)
    requires ValidRun(s, run)
    decreases |run|
  {
    run == [] ||
    ((run[0].Call? && run[0].actor == a ==> run[0].reply == replies(s.actors[a].pc.stage))
     && Answered(Next(s, run[0]), run[1..], a, replies))
  }

  lemma OthersLeaveActor(s: State, action: Action, a: nat)
    requires CanAct(s, action) && a < |s.actors|
    ensures |Next(s, action).actors| == |s.actors|
    ensures !(action.Call? && action.actor == a) && !(action.Begin? && action.actor == a) ==>
      Next(s, action).actors[a] == s.actors[a]
    ensures action.Call? && action.actor == a ==>
      Next(s, action).actors[a] == ActorAfter(s.actors[a], s.step, s.now, action.reply)
  {
    hide ActorAfter, CanReply;
  }

  lemma {:induction false} IdleStays(s: State, run: seq<Action>, a: nat)
    requires ValidRun(s, run) && a < |s.actors| && s.actors[a].pc.Between? && BeginsNothing(run, a)
    ensures |AfterRun(s, run).actors| == |s.actors| && AfterRun(s, run).actors[a] == s.actors[a]
    decreases |run|
  {
    if run != [] {
      hide Next, ActorAfter;
      OthersLeaveActor(s, run[0], a);
      IdleStays(Next(s, run[0]), run[1..], a);
    }
  }

  lemma {:induction false} StagesEndAsReplied(s: State, run: seq<Action>, a: nat, replies: Replies)
    requires ValidRun(s, run) && a < |s.actors| && s.actors[a].pc.At? && !s.actors[a].pc.stage.Done?
    requires Answered(s, run, a, replies) && BeginsNothing(run, a)
    ensures |AfterRun(s, run).actors| == |s.actors|
    ensures var (role, end) := (s.actors[a].role, AfterRun(s, run).actors[a]);
      var outcome := OutcomeFrom(s.actors[a].pc.stage, replies, FloorOf(role), role.Sweeper?);
      end.pc.Between? ==> end.tally == Counted(s.actors[a].tally, outcome)
    decreases |run|
  {
    hide Decide, Counted, CanAct, Next, NextStage;
    if run != [] {
      var s' := Next(s, run[0]);
      OthersLeaveActor(s, run[0], a);
      if s'.actors[a].pc.Between? {
        IdleStays(s', run[1..], a);
      } else {
        StagesEndAsReplied(s', run[1..], a, replies);
      }
    }
  }

  /**
   Whatever the others do meanwhile, an entry ends as its replies decide: a sweeper's as in the
   sweep of a single entry, an owner's without any look at locks or age.
   */
  lemma EntryEndsAsReplied(s: State, path: Path, run: seq<Action>, a: nat, replies: Replies)
    requires CanAct(s, Begin(a, path)) && ValidRun(Next(s, Begin(a, path)), run)
    requires Answered(Next(s, Begin(a, path)), run, a, replies) && BeginsNothing(run, a)
    ensures |AfterRun(Next(s, Begin(a, path)), run).actors| == |s.actors|
    ensures var (before, end) := (s.actors[a], AfterRun(Next(s, Begin(a, path)), run).actors[a]);
      var outcome := match before.role
        case Sweeper(scanStarted) => SweepOutcome(replies, scanStarted)
        case Owner => OutcomeFrom(CheckPath, replies, 0, false);
      end.pc.Between? ==> end.tally == Counted(before.tally.(entries := before.tally.entries + 1), outcome)
  {
    hide AfterRun, Decide, Counted;
    StagesEndAsReplied(Next(s, Begin(a, path)), run, a, replies);
  }

  lemma ReachableInv(s: State, run: seq<Action>)
    requires Initial(s) && ValidRun(s, run)
    ensures Inv(AfterRun(s, run))
  {
    hide AfterRun, ValidRun, Inv, Initial;
    InitialInv(s);
    RunKeepsInv(s, run);
  }

  lemma InitialInv(s: State)
    requires Initial(s)
    ensures Inv(s)
  {
    hide DirsOk, RemovedOnce, ActorOk, RemovalOk, RemovedBy;
    NothingRemoved(s);
    forall a | 0 <= a < |s.actors|
      ensures ActorOk(s, s.actors[a]) && RemovedBy(s.removals, a) == s.actors[a].tally.removed
    {
      NothingTallied(s.actors[a].tally);
      NotStarted(s, s.actors[a]);
      NoneRemoved(s.removals, a);
    }
  }

  lemma NothingRemoved(s: State)
    requires s.removals == []
    ensures RemovedOnce(s)
  {
  }

  lemma NotStarted(s: State, actor: Actor)
    requires actor.pc.Between? && actor.tally.entries == Settled(actor.tally)
    ensures ActorOk(s, actor)
  {
    hide SweeperOk;
  }

  lemma NothingTallied(t: Tally)
    requires t == NO_ENTRIES
    ensures t.entries == Settled(t) && t.removed == 0
  {
  }

  lemma NoneRemoved(removals: seq<Removal>, a: nat)
    requires removals == []
    ensures RemovedBy(removals, a) == 0
  {
  }

  /**
   Whatever a sweeper removes, in any interleaving: a directory created before its scan began,
   or one created at the same path after its age check; and any lock it held then was written
   after the sweeper's last look at that lock name. A sweep whose age floor has passed by its
   age check removes a directory created since the floor exactly when it was created after that
   check.
   */
  lemma SweepersRemoveOnlyAbandoned(s: State, run: seq<Action>, i: nat)
    requires Initial(s) && ValidRun(s, run) && i < |AfterRun(s, run).removals|
    ensures var (now, r) := (AfterRun(s, run), AfterRun(s, run).removals[i]);
      r.actor < |now.actors| &&
      (now.actors[r.actor].role.Sweeper? ==>
        var floor := now.actors[r.actor].role.scanStarted;
        && (r.dir.born >= floor ==> r.dir.bornStep > r.ageStep)
        && (floor <= r.ageTime ==> (r.dir.born >= floor <==> r.dir.bornStep > r.ageStep))
        && forall lock | lock in r.dir.locks :: lock in r.clear && r.dir.locks[lock] > r.clear[lock])
  {
    hide AfterRun, ValidRun, DirsOk, RemovedOnce, ActorOk, RemovedBy;
    ReachableInv(s, run);
    var (now, r) := (AfterRun(s, run), AfterRun(s, run).removals[i]);
    assert RemovalOk(r, now.actors[r.actor].role, now.reused);
    forall lock | now.actors[r.actor].role.Sweeper? && lock in r.dir.locks
      ensures lock in r.clear && r.dir.locks[lock] > r.clear[lock]
    {
      assert lock == DiscoveryLock || lock == HostDiscoveryLock;
      assert LockedLater(r.dir, r.clear, lock);
    }
  }

  /** At a path that was never created a second time, nothing created since the scan began is removed. */
  lemma FreshPathsAreNeverSwept(s: State, run: seq<Action>, i: nat)
    requires Initial(s) && ValidRun(s, run) && i < |AfterRun(s, run).removals|
    requires AfterRun(s, run).removals[i].path !in AfterRun(s, run).reused
    ensures var (now, r) := (AfterRun(s, run), AfterRun(s, run).removals[i]);
      r.actor < |now.actors| &&
      (now.actors[r.actor].role.Sweeper? ==> r.dir.born < now.actors[r.actor].role.scanStarted)
  {
    hide AfterRun, ValidRun, DirsOk, RemovedOnce, ActorOk, RemovedBy, LockedLater;
    ReachableInv(s, run);
    var (now, r) := (AfterRun(s, run), AfterRun(s, run).removals[i]);
    assert RemovalOk(r, now.actors[r.actor].role, now.reused);
  }

  /**
   No directory is removed by two actors, and each actor counts every entry once: the entries
   of finished work equal removed, already gone, claimed, failed and skipped together, and
   `removed` is the number of directories this actor made disappear.
   */
  lemma EveryEntryIsAccounted(s: State, run: seq<Action>, a: nat)
    requires Initial(s) && ValidRun(s, run) && a < |AfterRun(s, run).actors|
    ensures var now := AfterRun(s, run);
      && (forall i, j | 0 <= i < j < |now.removals| :: now.removals[i].dir.id != now.removals[j].dir.id)
      && now.actors[a].tally.removed == RemovedBy(now.removals, a)
      && (now.actors[a].pc.Between? ==> Balanced(now.actors[a].tally))
      && (now.actors[a].pc.At? ==> now.actors[a].tally.entries == Settled(now.actors[a].tally) + 1)
  {
    hide AfterRun, ValidRun, DirsOk, RemovalOk, RemovedBy, SweeperOk;
    ReachableInv(s, run);
    assert ActorOk(AfterRun(s, run), AfterRun(s, run).actors[a]);
  }

  // Re-using a path between the age check and the removal defeats the age floor.

  lemma {:induction false} RunsCompose(s: State, first: seq<Action>, second: seq<Action>)
    requires ValidRun(s, first) && ValidRun(AfterRun(s, first), second)
    ensures ValidRun(s, first + second) && AfterRun(s, first + second) == AfterRun(AfterRun(s, first), second)
    decreases |first|
  {
    hide CanAct, Next;
    if first == [] {
      assert first + second == second;
    } else {
      RunsCompose(Next(s, first[0]), first[1..], second);
      assert (first + second)[1..] == first[1..] + second;
    }
  }

  const OLD_DIRECTORY: Reply := Found(Info(Directory, 0))

  /** An abandoned directory, a sweep that starts at time five, and an owner of the directory. */
  function BeforeSweep(): State {
    State(5, 1, 1, map["d" := Dir(0, Directory, 0, 0, 0, map[])], {"d"}, {},
      [Actor(Sweeper(5), Between, NO_ENTRIES), Actor(Owner, Between, NO_ENTRIES)], [])
  }

  function UpToAgeCheck(): seq<Action> {
    [Begin(0, "d"), Call(0, OLD_DIRECTORY), Call(0, OLD_DIRECTORY), Call(0, OLD_DIRECTORY),
     Call(0, NotFound), Call(0, NotFound), Call(0, OLD_DIRECTORY)]
  }

  function AgeChecked(): State {
    BeforeSweep().(step := 8, actors := [
      Actor(Sweeper(5), At("d", CheckPath, 7, 5, map[]), NO_ENTRIES.(entries := 1)),
      Actor(Owner, Between, NO_ENTRIES)])
  }

  function Replacing(): seq<Action> {
    [Begin(1, "d"), Call(1, OLD_DIRECTORY), Call(1, OLD_DIRECTORY), Call(1, OLD_DIRECTORY), Create("d", Directory)]
  }

  function Replaced(): State {
    AgeChecked().(step := 13, nextId := 2, reused := {"d"},
      dirs := map["d" := Dir(1, Directory, 5, 12, 5, map[])],
      actors := [AgeChecked().actors[0], Actor(Owner, Between, Tally(1, 0, 1, 0, 0, 0))],
      removals := [Removal("d", Dir(0, Directory, 0, 0, 0, map[]), 1, 0, 0, map[])])
  }

  function Finishing(): seq<Action> {
    [Call(0, OLD_DIRECTORY), Call(0, Found(Info(Directory, 5))), Call(0, NotFound), Call(0, NotFound),
     Call(0, Found(Info(Directory, 5)))]
  }

  lemma Unroll(s: State, run: seq<Action>)
    requires run != [] && CanAct(s, run[0]) && ValidRun(Next(s, run[0]), run[1..])
    ensures ValidRun(s, run) && AfterRun(s, run) == AfterRun(Next(s, run[0]), run[1..])
  {
    hide CanAct, Next;
  }

  lemma NoActions(s: State)
    ensures ValidRun(s, []) && AfterRun(s, []) == s
  {
  }

  lemma SweepPassesAgeCheck()
    ensures ValidRun(BeforeSweep(), UpToAgeCheck()) && AfterRun(BeforeSweep(), UpToAgeCheck()) == AgeChecked()
  {
    hide ValidRun, AfterRun;
    var run := UpToAgeCheck();
    var s1 := Next(BeforeSweep(), run[0]);
    var s2 := Next(s1, run[1]);
    var s3 := Next(s2, run[2]);
    var s4 := Next(s3, run[3]);
    var s5 := Next(s4, run[4]);
    var s6 := Next(s5, run[5]);
    assert Next(s6, run[6]) == AgeChecked();
    NoActions(AgeChecked());
    assert run[6..][1..] == [];
    Unroll(s6, run[6..]);
    Unroll(s5, run[5..]);
    Unroll(s4, run[4..]);
    Unroll(s3, run[3..]);
    Unroll(s2, run[2..]);
    Unroll(s1, run[1..]);
    Unroll(BeforeSweep(), run);
  }

  lemma DirectoryIsReplaced()
    ensures ValidRun(AgeChecked(), Replacing()) && AfterRun(AgeChecked(), Replacing()) == Replaced()
  {
    hide ValidRun, AfterRun;
    var run := Replacing();
    var s1 := Next(AgeChecked(), run[0]);
    var s2 := Next(s1, run[1]);
    var s3 := Next(s2, run[2]);
    var s4 := Next(s3, run[3]);
    assert Next(s4, run[4]) == Replaced();
    NoActions(Replaced());
    assert run[4..][1..] == [];
    Unroll(s4, run[4..]);
    Unroll(s3, run[3..]);
    Unroll(s2, run[2..]);
    Unroll(s1, run[1..]);
    Unroll(AgeChecked(), run);
  }

  lemma ReplacementIsRemoved()
    ensures ValidRun(Replaced(), Finishing())
    ensures |AfterRun(Replaced(), Finishing()).removals| == 2
    ensures var r := AfterRun(Replaced(), Finishing()).removals[1];
      r.actor == 0 && r.dir.born == 5 && r.ageTime == 5
    ensures var actors := AfterRun(Replaced(), Finishing()).actors;
      |actors| > 0 && actors[0] == Actor(Sweeper(5), Between, Tally(1, 0, 1, 0, 0, 0))
  {
    hide ValidRun, AfterRun;
    var run := Finishing();
    var s1 := Next(Replaced(), run[0]);
    var s2 := Next(s1, run[1]);
    var s3 := Next(s2, run[2]);
    var s4 := Next(s3, run[3]);
    var s5 := Next(s4, run[4]);
    NoActions(s5);
    assert run[4..][1..] == [];
    Unroll(s4, run[4..]);
    Unroll(s3, run[3..]);
    Unroll(s2, run[2..]);
    Unroll(s1, run[1..]);
    Unroll(Replaced(), run);
  }

  /**
   The documented promise that a directory created after the scan began is left alone fails
   when its path was used before: the sweep that started at time five removes a directory
   created at time five, after an age check made at that time.
   */
  lemma PathReuseDefeatsTheAgeFloor() returns (s: State, run: seq<Action>)
    ensures Initial(s) && ValidRun(s, run)
    ensures var now := AfterRun(s, run);
      && |now.removals| == 2 && now.removals[1].actor == 0 && |now.actors| > 0
      && now.actors[0].role == Sweeper(now.removals[1].dir.born)
      && now.removals[1].ageTime == now.removals[1].dir.born
  {
    hide Next, CanAct, UpToAgeCheck, Replacing, Finishing, AgeChecked, Replaced;
    s := BeforeSweep();
    run := UpToAgeCheck() + Replacing() + Finishing();
    SweepPassesAgeCheck();
    DirectoryIsReplaced();
    ReplacementIsRemoved();
    RunsCompose(s, UpToAgeCheck(), Replacing());
    RunsCompose(s, UpToAgeCheck() + Replacing(), Finishing());
  }
}
