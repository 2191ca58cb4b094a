/** Deciding, from the replies of the file system, what becomes of a directory entry. */
module DiscoveryCleanup {

  datatype LockName = DiscoveryLock | HostDiscoveryLock

  datatype Kind = Directory | Symlink | OtherFile

  /** What a call says about a path that exists. */
  datatype Info = Info(kind: Kind, modified: nat)

  /** `Unreadable` is every error but `NotFound`. */
  datatype Reply = Found(info: Info) | NotFound | Unreadable

  datatype Outcome = Skipped | Removed | AlreadyGone | Claimed | Failed

  /** The calls made for one entry, in order. */
  datatype Stage =
    | ReadEntry
    | ReadType
    | CheckIsDir
    | Probe(lock: LockName)
    | CheckAge
    | CheckPath
    | ReadMetadata
    | Recheck(again: LockName)
    | RemoveTree
    | Done(outcome: Outcome)

  /** Where to go on from a stage; an owner's cleanup does not look at the locks again. */
  function NextStage(stage: Stage, recheck: bool): Stage {
    match stage
    case ReadEntry => ReadType
    case ReadType => CheckIsDir
    case CheckIsDir => Probe(DiscoveryLock)
    case Probe(lock) => if lock == DiscoveryLock then Probe(HostDiscoveryLock) else CheckAge
    case CheckAge => CheckPath
    case CheckPath => ReadMetadata
    case ReadMetadata => if recheck then Recheck(DiscoveryLock) else RemoveTree
    case Recheck(lock) => if lock == DiscoveryLock then Recheck(HostDiscoveryLock) else RemoveTree
    case RemoveTree => Done(Removed)
    case Done(_) => stage
  }

  /** The verdict of one stage on the reply it got: a final outcome, or the next stage. */
  function Decide(stage: Stage, reply: Reply, scanStarted: nat, recheck: bool): Stage {
    match stage
    case ReadEntry => if reply.Found? then NextStage(stage, recheck) else Done(Failed)
    case ReadType =>
      if !reply.Found? then Done(Failed)
      else if reply.info.kind == Symlink then Done(Skipped)
      else NextStage(stage, recheck)
    case CheckIsDir =>
      if reply.Found? && reply.info.kind == Directory then NextStage(stage, recheck) else Done(Skipped)
    case Probe(_) => if reply.NotFound? then NextStage(stage, recheck) else Done(Skipped)
    case CheckAge =>
      if !reply.Found? then Done(Failed)
      else if reply.info.modified >= scanStarted then Done(Claimed)
      else NextStage(stage, recheck)
    case CheckPath => if reply.Found? then NextStage(stage, recheck) else Done(Failed)
    case ReadMetadata =>
      if reply.NotFound? then Done(AlreadyGone)
      else if reply.Found? && reply.info.kind == Directory then NextStage(stage, recheck)
      else Done(Failed)
    case Recheck(_) => if reply.NotFound? then NextStage(stage, recheck) else Done(Claimed)
    case RemoveTree =>
      if reply.Found? then Done(Removed) else if reply.NotFound? then Done(AlreadyGone) else Done(Failed)
    case Done(_) => stage
  }

  function Rank(stage: Stage): nat {
    match stage
    case ReadEntry => 11
    case ReadType => 10
    case CheckIsDir => 9
    case Probe(lock) => if lock == DiscoveryLock then 8 else 7
    case CheckAge => 6
    case CheckPath => 5
    case ReadMetadata => 4
    case Recheck(lock) => if lock == DiscoveryLock then 3 else 2
    case RemoveTree => 1
    case Done(_) => 0
  }

  /** The replies an entry would get, stage by stage; only those it reaches are used. */
  type Replies = Stage -> Reply

  /** The outcome of an entry, taking the stages one at a time. */
  function OutcomeFrom(stage: Stage, replies: Replies, scanStarted: nat, recheck: bool): Outcome
    decreases Rank(stage)
  {
    if stage.Done? then stage.outcome
    else OutcomeFrom(Decide(stage, replies(stage), scanStarted, recheck), replies, scanStarted, recheck)
  }

  function SweepOutcome(replies: Replies, scanStarted: nat): Outcome {
    OutcomeFrom(ReadEntry, replies, scanStarted, true)
  }

  /** No lock file under either name; a probe that cannot tell counts as a lock. */
  method IsDirectoryOrphaned(first: Reply, second: Reply) returns (orphaned: bool)
    ensures orphaned <==> first.NotFound? && second.NotFound?
  {
    if !first.NotFound? { return false; }
    orphaned := second.NotFound?;
  }

  /** Removes a directory after its last guards; `recheck` looks at both locks again first. */
  method RemoveDiscoveryDir(replies: Replies, recheck: bool) returns (outcome: Outcome)
    ensures forall scanStarted :: outcome == OutcomeFrom(CheckPath, replies, scanStarted, recheck)
  {
    if !replies(CheckPath).Found? { return Failed; }
    match replies(ReadMetadata) {
      case NotFound => return AlreadyGone;
      case Unreadable => return Failed;
      case Found(info) =>
        if info.kind != Directory { return Failed; }
    }
    if recheck {
      var orphaned := IsDirectoryOrphaned(replies(Recheck(DiscoveryLock)), replies(Recheck(HostDiscoveryLock)));
      if !orphaned { return Claimed; }
    }
    match replies(RemoveTree) {
      case Found(_) => outcome := Removed;
      case NotFound => outcome := AlreadyGone;
      case Unreadable => outcome := Failed;
    }
  }

  /** The counts a sweep reports, with the entries it passed over. */
  datatype Tally = Tally(entries: nat, skipped: nat, removed: nat, alreadyGone: nat, claimed: nat, errors: nat)

  const NO_ENTRIES: Tally := Tally(0, 0, 0, 0, 0, 0)

  function Counted(t: Tally, outcome: Outcome): Tally {
    match outcome
    case Skipped => t.(skipped := t.skipped + 1)
    case Removed => t.(removed := t.removed + 1)
    case AlreadyGone => t.(alreadyGone := t.alreadyGone + 1)
    case Claimed => t.(claimed := t.claimed + 1)
    case Failed => t.(errors := t.errors + 1)
  }

  function Settled(t: Tally): nat {
    t.skipped + t.removed + t.alreadyGone + t.claimed + t.errors
  }

  predicate Balanced(t: Tally) {
    t.entries == Settled(t)
  }

  function CountUnder(t: Tally, outcome: Outcome): nat {
    match outcome
    case Skipped => t.skipped
    case Removed => t.removed
    case AlreadyGone => t.alreadyGone
    case Claimed => t.claimed
    case Failed => t.errors
  }

  function CountOutcome(entries: seq<Replies>, scanStarted: nat, outcome: Outcome): nat {
    if entries == [] then 0
    else
      CountOutcome(entries[..|entries| - 1], scanStarted, outcome)
      + if SweepOutcome(entries[|entries| - 1], scanStarted) == outcome then 1 else 0
  }

  function Tallied(entries: seq<Replies>, scanStarted: nat): Tally {
    if entries == [] then NO_ENTRIES
    else
      var before := Tallied(entries[..|entries| - 1], scanStarted);
      Counted(before.(entries := before.entries + 1), SweepOutcome(entries[|entries| - 1], scanStarted))
  }

  lemma NothingCounted(outcome: Outcome)
    ensures Balanced(NO_ENTRIES) && CountUnder(NO_ENTRIES, outcome) == 0
  {
  }

  lemma CountedOnce(t: Tally, counted: Outcome, outcome: Outcome)
    requires Balanced(t)
    ensures var after := Counted(t.(entries := t.entries + 1), counted);
      && Balanced(after) && after.entries == t.entries + 1
      && CountUnder(after, outcome) == CountUnder(t, outcome) + if counted == outcome then 1 else 0
  {
  }

  /**
   Every entry is counted once, under exactly the outcome its replies determine, so the counts
   add up to the number of entries.
   */
  lemma {:induction false} TallyIsComplete(entries: seq<Replies>, scanStarted: nat, outcome: Outcome)
    ensures Balanced(Tallied(entries, scanStarted)) && Tallied(entries, scanStarted).entries == |entries|
    ensures CountUnder(Tallied(entries, scanStarted), outcome) == CountOutcome(entries, scanStarted, outcome)
    decreases |entries|
  {
    hide SweepOutcome, Counted, CountUnder, Balanced;
    if entries != [] {
      var before := entries[..|entries| - 1];
      TallyIsComplete(before, scanStarted, outcome);
      CountedOnce(Tallied(before, scanStarted), SweepOutcome(entries[|entries| - 1], scanStarted), outcome);
    } else {
      NothingCounted(outcome);
    }
  }

  /** The sweep's loop over the entries of the base directory. */
  method CleanOrphanedDiscoveryDirsSince(entries: seq<Replies>, scanStarted: nat) returns (result: Tally)
    ensures result == Tallied(entries, scanStarted)
    ensures Balanced(result) && result.entries == |entries|
  {
    hide SweepOutcome;
    result := NO_ENTRIES;
    for i := 0 to |entries|
      invariant result == Tallied(entries[..i], scanStarted)
    {
      assert entries[..i + 1][..i] == entries[..i];
      var outcome := SweepEntry(entries[i], scanStarted);
      result := Counted(result.(entries := result.entries + 1), outcome);
    }
    assert entries[..|entries|] == entries;
    TallyIsComplete(entries, scanStarted, Removed);
  }

  /** The guards of one entry, in the order the loop applies them. */
  method SweepEntry(replies: Replies, scanStarted: nat) returns (outcome: Outcome)
    ensures outcome == SweepOutcome(replies, scanStarted)
  {
    if !replies(ReadEntry).Found? { return Failed; }
    match replies(ReadType) {
      case NotFound => return Failed;
      case Unreadable => return Failed;
      case Found(info) =>
        if info.kind == Symlink { return Skipped; }
    }
    var isDir := replies(CheckIsDir);
    if !(isDir.Found? && isDir.info.kind == Directory) { return Skipped; }
    var orphaned := IsDirectoryOrphaned(replies(Probe(DiscoveryLock)), replies(Probe(HostDiscoveryLock)));
    if !orphaned { return Skipped; }
    match replies(CheckAge) {
      case NotFound => return Failed;
      case Unreadable => return Failed;
      case Found(info) =>
        if info.modified >= scanStarted { return Claimed; }
    }
    outcome := RemoveDiscoveryDir(replies, true);
  }

  /** What must have been seen for an entry to be removed. */
  lemma RemovedOnlyBehindEveryGuard(replies: Replies, scanStarted: nat)
    ensures SweepOutcome(replies, scanStarted) == Removed <==>
      && replies(ReadEntry).Found?
      && replies(ReadType).Found? && replies(ReadType).info.kind != Symlink
      && replies(CheckIsDir).Found? && replies(CheckIsDir).info.kind == Directory
      && replies(Probe(DiscoveryLock)).NotFound? && replies(Probe(HostDiscoveryLock)).NotFound?
      && replies(CheckAge).Found? && replies(CheckAge).info.modified < scanStarted
      && replies(CheckPath).Found?
      && replies(ReadMetadata).Found? && replies(ReadMetadata).info.kind == Directory
      && replies(Recheck(DiscoveryLock)).NotFound? && replies(Recheck(HostDiscoveryLock)).NotFound?
      && replies(RemoveTree).Found?
  {
    var start := Decide(ReadEntry, replies(ReadEntry), scanStarted, true);
    var age := Decide(CheckAge, replies(CheckAge), scanStarted, true);
    assert start == ReadType || start == Done(Failed);
    assert age == CheckPath || age.Done?;
  }

  // Which replies lead to the other outcomes.

  /** The entry and its type could be read. */
  predicate TypeKnown(replies: Replies) {
    replies(ReadEntry).Found? && replies(ReadType).Found?
  }

  /** A directory, not a link to one, with no lock under either name at the first look. */
  predicate Abandoned(replies: Replies) {
    && TypeKnown(replies) && replies(ReadType).info.kind != Symlink
    && replies(CheckIsDir).Found? && replies(CheckIsDir).info.kind == Directory
    && replies(Probe(DiscoveryLock)) == NotFound == replies(Probe(HostDiscoveryLock))
  }

  /** Abandoned, and last modified before the scan began. */
  predicate Stale(replies: Replies, scanStarted: nat) {
    Abandoned(replies) && replies(CheckAge).Found? && replies(CheckAge).info.modified < scanStarted
  }

  /** The path was accepted and its own metadata says it is a directory. */
  predicate StillADirectory(replies: Replies) {
    && replies(CheckPath).Found?
    && replies(ReadMetadata).Found? && replies(ReadMetadata).info.kind == Directory
  }

  predicate StillUnlocked(replies: Replies) {
    replies(Recheck(DiscoveryLock)) == NotFound == replies(Recheck(HostDiscoveryLock))
  }

  /** What is not an abandoned directory is passed over, unless its type could not be read. */
  lemma SkippedMeans(replies: Replies, scanStarted: nat)
    ensures SweepOutcome(replies, scanStarted) == Skipped <==> TypeKnown(replies) && !Abandoned(replies)
  {
    SweepReachesCleanup(replies, scanStarted);
    OutcomesOfCleanup(replies, scanStarted, true);
  }

  /** A young directory, or one with a lock at the second look, belongs to someone. */
  lemma ClaimedMeans(replies: Replies, scanStarted: nat)
    ensures SweepOutcome(replies, scanStarted) == Claimed <==>
      || (Abandoned(replies) && replies(CheckAge).Found? && replies(CheckAge).info.modified >= scanStarted)
      || (Stale(replies, scanStarted) && StillADirectory(replies) && !StillUnlocked(replies))
  {
    SweepReachesCleanup(replies, scanStarted);
    OutcomesOfCleanup(replies, scanStarted, true);
  }

  /** A directory that somebody else removed was not found at its path or when it was to go. */
  lemma AlreadyGoneMeans(replies: Replies, scanStarted: nat)
    ensures SweepOutcome(replies, scanStarted) == AlreadyGone <==>
      && Stale(replies, scanStarted) && replies(CheckPath).Found?
      && (replies(ReadMetadata) == NotFound
          || (StillADirectory(replies) && StillUnlocked(replies) && replies(RemoveTree) == NotFound))
  {
    SweepReachesCleanup(replies, scanStarted);
    OutcomesOfCleanup(replies, scanStarted, true);
  }

  /** Every other error is a failure, and so is a path that is refused or not a directory any more. */
  lemma FailedMeans(replies: Replies, scanStarted: nat)
    ensures SweepOutcome(replies, scanStarted) == Failed <==>
      || !TypeKnown(replies)
      || (Abandoned(replies) && !replies(CheckAge).Found?)
      || (Stale(replies, scanStarted)
          && (!replies(CheckPath).Found?
              || (replies(ReadMetadata) != NotFound && !StillADirectory(replies))
              || (StillADirectory(replies) && StillUnlocked(replies) && replies(RemoveTree) == Unreadable)))
  {
    SweepReachesCleanup(replies, scanStarted);
    OutcomesOfCleanup(replies, scanStarted, true);
  }

  /** The guards of the scan, before the cleanup proper. */
  lemma SweepReachesCleanup(replies: Replies, scanStarted: nat)
    ensures SweepOutcome(replies, scanStarted) ==
      if !TypeKnown(replies) then Failed
      else if !Abandoned(replies) then Skipped
      else if !replies(CheckAge).Found? then Failed
      else if !Stale(replies, scanStarted) then Claimed
      else OutcomeFrom(CheckPath, replies, scanStarted, true)
  {
    var start := Decide(ReadEntry, replies(ReadEntry), scanStarted, true);
    assert start == ReadType || start == Done(Failed);
  }

  /** The cleanup of one directory, by the sweep or, without a second look at the locks, by its owner. */
  lemma OutcomesOfCleanup(replies: Replies, scanStarted: nat, recheck: bool)
    ensures OutcomeFrom(CheckPath, replies, scanStarted, recheck) ==
      if !replies(CheckPath).Found? then Failed
      else if replies(ReadMetadata) == NotFound then AlreadyGone
      else if !StillADirectory(replies) then Failed
      else if recheck && !StillUnlocked(replies) then Claimed
      else match replies(RemoveTree)
        case Found(_) => Removed
        case NotFound => AlreadyGone
        case Unreadable => Failed
  {
    var age := Decide(CheckPath, replies(CheckPath), scanStarted, recheck);
    assert age == ReadMetadata || age == Done(Failed);
  }
}
