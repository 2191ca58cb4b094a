/** What the protocol promises its callers, over every run. */
module StreamingGuarantees {
  import opened Options
  import opened RecordBatches
  import opened StreamingProtocol
  import opened StreamingInvariants

  /** Some run from a fresh process leads to `s`. */
  ghost predicate Reachable(s: State) {
    exists s0, events :: Initial(s0) && ValidRun(s0, events) && s == RunFrom(s0, events)
  }

  lemma {:induction false} RunKeepsInv(s: State, events: seq<Event>)
    requires Inv(s) && ValidRun(s, events)
    ensures Inv(RunFrom(s, events))
    decreases |events|
  {
    if events != [] {
      NextOk(s, events[0]);
      RunKeepsInv(Next(s, events[0]), events[1..]);
    }
  }

  lemma ReachableInv(s: State)
    requires Reachable(s)
    ensures Inv(s)
  {
    var s0, events :| Initial(s0) && ValidRun(s0, events) && s == RunFrom(s0, events);
    InitialOk(s0);
    RunKeepsInv(s0, events);
  }

  /**
   Whenever a session's lock is free, records_written is the total of the counts that
   appends to it were acknowledged for, and all those records reached its file.
   */
  lemma RecordsWrittenIsAcknowledged(s: State, id: Id)
    requires Reachable(s) && id in s.shared.entries && s.shared.entries[id].lock == None
    ensures id in s.shared.history
    ensures s.shared.entries[id].recordsWritten == s.shared.history[id].acked <= s.shared.history[id].written
  {
    ReachableInv(s);
  }

  /** Any write may fail part-way: whatever reached the file, the append then returns an error and counts nothing. */
  lemma FailedWriteIsNotCounted(s: State, t: Tid, count: nat)
    requires Reachable(s) && PcOf(s, t).InAppend? && PcOf(s, t).append.Writing? && PcOf(s, t).append.rest != []
    requires PcOf(s, t).id in s.shared.entries && s.shared.entries[PcOf(s, t).id].writerOpen
    requires RecordCount(s.shared.entries[PcOf(s, t).id].creature, PcOf(s, t).append.rest[0]) > 0
    ensures CanMove(s, Event(t, PartialWrite(count)))
    ensures var (id, s') := (PcOf(s, t).id, Next(s, Event(t, PartialWrite(count))));
      && PcOf(s', t) == InAppend(id, AppendUnlock(None))
      && id in s.shared.history && id in s'.shared.history && id in s'.shared.entries
      && s'.shared.entries[id] == s.shared.entries[id]
      && s'.shared.history[id] == s.shared.history[id].(written := s.shared.history[id].written + count)
  {
    hide RecordCount;
    ReachableInv(s);
    assert ThreadOk(PcOf(s, t), s.shared, t);
  }

  /** How a session's history may develop. */
  ghost predicate HistoryGrows(h: History, h': History) {
    && h'.path == h.path
    && h.acked <= h'.acked && h.lateAdds <= h'.lateAdds && h.written <= h'.written
    && (h.sealed.Some? ==> h'.sealed == h.sealed)
    && (h.result.Some? ==> h'.result == h.result)
    && (h.published ==> h'.published)
    && (h.flushed ==> h'.flushed) && (h.flushFailed ==> h'.flushFailed)
  }

  lemma AppendGrowsHistory(id: Id, e: Entry, h: History, stage: AppendStage, c: Choice)
    requires AppendOk(e, h, stage)
    ensures HistoryGrows(h, AppendStep(id, e, h, stage, c).h)
  {
    hide RecordCount;
  }

  lemma FinishGrowsHistory(id: Id, e: Entry, h: History, t: Tid, stage: FinishStage, renames: bool, c: Choice)
    requires FinishOk(e, h, stage) && HistoryOk(h)
    ensures HistoryGrows(h, FinishStep(id, e, h, t, stage, renames, c).h)
  {
  }

  /** Only the holder of the session lock adds to the history. */
  lemma OthersKeepHistory(s: State, ev: Event, id: Id)
    requires Inv(s) && CanMove(s, ev) && id in s.shared.history
    requires SessionOf(PcOf(s, ev.thread)) != Some(id)
    ensures id in Next(s, ev).shared.history && Next(s, ev).shared.history[id] == s.shared.history[id]
  {
    hide Local, SharedOk, StageOk;
    NextOk(s, ev);
    assert ThreadOk(PcOf(s, ev.thread), s.shared, ev.thread);
  }

  lemma StepGrowsHistory(s: State, ev: Event, id: Id)
    requires Inv(s) && CanMove(s, ev) && id in s.shared.history
    ensures id in Next(s, ev).shared.history
    ensures HistoryGrows(s.shared.history[id], Next(s, ev).shared.history[id])
  {
    var pc, sh := PcOf(s, ev.thread), s.shared;
    if SessionOf(pc) != Some(id) {
      OthersKeepHistory(s, ev, id);
    } else {
      hide AppendStep, FinishStep, Guarantee;
      assert ThreadOk(pc, sh, ev.thread);
      HolderGrowsHistory(pc, sh, ev.thread, ev.choice, id);
    }
  }

  lemma HolderGrowsHistory(pc: Pc, sh: Shared, t: Tid, c: Choice, id: Id)
    requires ThreadOk(pc, sh, t) && SharedOk(sh) && CanStep(pc, sh, c) && SessionOf(pc) == Some(id)
    requires id in sh.history
    ensures id in Local(pc, sh, t, c).sh.history
    ensures HistoryGrows(sh.history[id], Local(pc, sh, t, c).sh.history[id])
  {
    hide AppendStep, FinishStep, AppendOk, FinishOk, Quiet, HistoryOk;
    if pc.InAppend? {
      AppendGrowsHistory(id, sh.entries[id], sh.history[id], pc.append, c);
    } else if pc.InFinish? {
      var renames := pc.finish.Renaming? && c != IoError && Tmp(sh.entries[id].path) in sh.files;
      assert HistoryOk(sh.history[id]);
      FinishGrowsHistory(id, sh.entries[id], sh.history[id], t, pc.finish, renames, c);
    }
  }

  lemma {:induction false} RunGrowsHistory(s: State, events: seq<Event>, id: Id)
    requires Inv(s) && ValidRun(s, events) && id in s.shared.history
    ensures id in RunFrom(s, events).shared.history
    ensures HistoryGrows(s.shared.history[id], RunFrom(s, events).shared.history[id])
    decreases |events|
  {
    if events != [] {
      StepGrowsHistory(s, events[0], id);
      NextOk(s, events[0]);
      RunGrowsHistory(Next(s, events[0]), events[1..], id);
    }
  }

  /**
   A finish that returned Ok returned exactly the acknowledged total, and whatever happens
   afterwards, through failed renames and retries, that total never grows again.
   */
  lemma FinishReturnsAcknowledgedTotal(s: State, events: seq<Event>, id: Id)
    requires Reachable(s) && ValidRun(s, events)
    requires id in s.shared.history && s.shared.history[id].result.Some?
    ensures id in RunFrom(s, events).shared.history
    ensures s.shared.history[id].result.value
         == s.shared.history[id].acked
         == RunFrom(s, events).shared.history[id].acked
  {
    SealedSessionsAcknowledgeNothing(s, events, id);
  }

  /**
   Once a finish attempt has found records, no append is acknowledged for a positive count,
   whether or not that attempt or any retry succeeds.
   */
  lemma SealedSessionsAcknowledgeNothing(s: State, events: seq<Event>, id: Id)
    requires Reachable(s) && ValidRun(s, events)
    requires id in s.shared.history
    requires s.shared.history[id].sealed.Some? || s.shared.history[id].result.Some?
    ensures id in RunFrom(s, events).shared.history
    ensures s.shared.history[id].sealed == Some(s.shared.history[id].acked)
    ensures s.shared.history[id].result.Some? ==> s.shared.history[id].result == s.shared.history[id].sealed
    ensures RunFrom(s, events).shared.history[id].acked == s.shared.history[id].acked > 0
  {
    ReachableInv(s);
    assert HistoryOk(s.shared.history[id]);
    RunKeepsInv(s, events);
    RunGrowsHistory(s, events, id);
    assert HistoryOk(RunFrom(s, events).shared.history[id]);
  }

  /** At most one batch is ever added to a session after its tombstone was set. */
  lemma AtMostOneLateBatch(s: State, id: Id)
    requires Reachable(s) && id in s.shared.history
    ensures s.shared.history[id].lateAdds <= 1
  {
    ReachableInv(s);
    assert HistoryOk(s.shared.history[id]);
  }

  /** No append to `id` has passed its final tombstone check without having added its batch. */
  ghost predicate NoneAdding(s: State, id: Id) {
    forall t :: !(PcOf(s, t).InAppend? && PcOf(s, t).id == id && PcOf(s, t).append.Adding?)
  }

  /** `id` is cancelled, nobody is past the final check, and `total` records are counted. */
  ghost predicate Frozen(s: State, id: Id, total: nat) {
    && id in s.shared.history
    && NoneAdding(s, id)
    && (id in s.shared.entries ==> s.shared.entries[id].cancelled && s.shared.entries[id].recordsWritten == total)
    && s.shared.history[id].acked <= total
  }

  lemma FrozenAppendStep(id: Id, e: Entry, h: History, stage: AppendStage, c: Choice)
    requires AppendOk(e, h, stage) && e.cancelled && !stage.Adding?
    ensures var held := AppendStep(id, e, h, stage, c);
      && !(held.pc.InAppend? && held.pc.append.Adding?)
      && held.e.cancelled && held.e.recordsWritten == e.recordsWritten
      && held.h.acked <= e.recordsWritten && held.h.lateAdds == h.lateAdds
  {
  }

  lemma FrozenFinishStep(id: Id, e: Entry, h: History, t: Tid, stage: FinishStage, renames: bool, c: Choice)
    requires FinishOk(e, h, stage) && e.cancelled
    ensures var held := FinishStep(id, e, h, t, stage, renames, c);
      && !held.pc.InAppend?
      && held.e.cancelled && held.e.recordsWritten == e.recordsWritten
      && held.h.acked <= e.recordsWritten && held.h.lateAdds == h.lateAdds
  {
  }

  /** The session's books and tombstone are as before, or the session is gone. */
  ghost predicate BooksKept(sh: Shared, sh': Shared, id: Id, total: nat)
    requires id in sh.history
  {
    && id in sh'.history && sh'.history[id] == sh.history[id]
    && (id in sh'.entries ==>
          id in sh.entries && sh'.entries[id].cancelled && sh'.entries[id].recordsWritten == total)
  }

  lemma FrozenProbe(s: State, ev: Event, id: Id, total: nat)
    requires Inv(s) && CanMove(s, ev) && Frozen(s, id, total) && PcOf(s, ev.thread).SweepProbe?
    ensures BooksKept(s.shared, Next(s, ev).shared, id, total)
  {
    hide Inv, NoneAdding;
  }

  lemma FrozenOutside(s: State, ev: Event, id: Id, total: nat)
    requires Inv(s) && CanMove(s, ev) && Frozen(s, id, total) && SessionOf(PcOf(s, ev.thread)) != Some(id)
    ensures BooksKept(s.shared, Next(s, ev).shared, id, total)
  {
    hide Local, SharedOk, StageOk, NoneAdding;
    NextOk(s, ev);
    assert ThreadOk(PcOf(s, ev.thread), s.shared, ev.thread);
  }

  lemma NobodyElseAdds(pc: Pc, sh: Shared, t: Tid, c: Choice, id: Id)
    requires CanStep(pc, sh, c) && Grounded(pc, sh) && (SessionOf(pc) != Some(id) || pc.SweepProbe?)
    ensures var next := Local(pc, sh, t, c).pc; !(next.InAppend? && next.append.Adding? && next.id == id)
  {
    hide HasNonInputNeuron, RecordCount;
  }

  /** A step of a thread outside the session cannot touch its books. */
  lemma FrozenElsewhere(s: State, ev: Event, id: Id, total: nat)
    requires Inv(s) && CanMove(s, ev) && Frozen(s, id, total)
    requires SessionOf(PcOf(s, ev.thread)) != Some(id) || PcOf(s, ev.thread).SweepProbe?
    ensures BooksKept(s.shared, Next(s, ev).shared, id, total)
    ensures !(PcOf(Next(s, ev), ev.thread).InAppend? && PcOf(Next(s, ev), ev.thread).append.Adding?
              && PcOf(Next(s, ev), ev.thread).id == id)
  {
    hide Local, Inv, BooksKept, Grounded;
    NobodyElseAdds(PcOf(s, ev.thread), s.shared, ev.thread, ev.choice, id);
    if PcOf(s, ev.thread).SweepProbe? {
      FrozenProbe(s, ev, id, total);
    } else {
      FrozenOutside(s, ev, id, total);
    }
  }

  lemma FrozenStep(s: State, ev: Event, id: Id, total: nat)
    requires Inv(s) && CanMove(s, ev) && Frozen(s, id, total)
    ensures Frozen(Next(s, ev), id, total)
    ensures Next(s, ev).shared.history[id].lateAdds == s.shared.history[id].lateAdds
  {
    var t, pc, s' := ev.thread, PcOf(s, ev.thread), Next(s, ev);
    assert ThreadOk(pc, s.shared, t);
    if SessionOf(pc) != Some(id) || pc.SweepProbe? {
      FrozenElsewhere(s, ev, id, total);
    } else {
      var e, h := s.shared.entries[id], s.shared.history[id];
      assert !(pc.InAppend? && pc.append.Adding?);
      if pc.InAppend? {
        FrozenAppendStep(id, e, h, pc.append, ev.choice);
      } else {
        var renames := pc.finish.Renaming? && ev.choice != IoError && Tmp(e.path) in s.shared.files;
        FrozenFinishStep(id, e, h, t, pc.finish, renames, ev.choice);
      }
    }
    assert !(PcOf(s', t).InAppend? && PcOf(s', t).append.Adding? && PcOf(s', t).id == id);
    forall u ensures !(PcOf(s', u).InAppend? && PcOf(s', u).id == id && PcOf(s', u).append.Adding?) {
      if u != t {
        assert PcOf(s', u) == PcOf(s, u);
      }
    }
  }

  lemma {:induction false} FrozenRun(s: State, events: seq<Event>, id: Id, total: nat)
    requires Inv(s) && ValidRun(s, events) && Frozen(s, id, total)
    ensures Frozen(RunFrom(s, events), id, total)
    ensures RunFrom(s, events).shared.history[id].lateAdds == s.shared.history[id].lateAdds
    decreases |events|
  {
    if events != [] {
      FrozenStep(s, events[0], id, total);
      NextOk(s, events[0]);
      FrozenRun(Next(s, events[0]), events[1..], id, total);
    }
  }

  /**
   After cancel or the sweep has set the tombstone, no batch is added in any continuation,
   except by an append that had already passed its final check; and acknowledgements never
   exceed the records counted at that moment.
   */
  lemma TombstoneStopsAppends(s: State, events: seq<Event>, id: Id)
    requires Reachable(s) && ValidRun(s, events)
    requires id in s.shared.entries && s.shared.entries[id].cancelled && NoneAdding(s, id)
    ensures var s' := RunFrom(s, events);
      && id in s'.shared.history && id in s.shared.history
      && s'.shared.history[id].lateAdds == s.shared.history[id].lateAdds
      && s'.shared.history[id].acked <= s.shared.entries[id].recordsWritten
      && (id in s'.shared.entries ==> s'.shared.entries[id].recordsWritten == s.shared.entries[id].recordsWritten)
  {
    ReachableInv(s);
    FrozenNow(s, id);
    FrozenRun(s, events, id, s.shared.entries[id].recordsWritten);
  }

  lemma FrozenNow(s: State, id: Id)
    requires Inv(s) && id in s.shared.entries && s.shared.entries[id].cancelled && NoneAdding(s, id)
    ensures Frozen(s, id, s.shared.entries[id].recordsWritten)
  {
    var e := s.shared.entries[id];
    if e.lock.Some? {
      assert ThreadOk(PcOf(s, e.lock.value), s.shared, e.lock.value);
    }
  }
}
