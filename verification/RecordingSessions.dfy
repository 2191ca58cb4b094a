/**
 The session object itself: what append, finish and drop do to its fields between taking and
 releasing the session lock, and how the micro-steps of the protocol add up to the same.
 */
module RecordingSessions {
  import opened Options
  import opened RecordBatches
  import opened StreamingProtocol
  import StreamingProgress

  datatype AppendResult = Appended(count: nat) | CancelledError | WriterConsumed | WriteFailed

  datatype FinishResult = Finished(count: nat) | NoRecords | FlushError | RenameError

  /** The outcome of the writer for each batch: `Some(n)` fails after `n` of its records. */
  type WriterIo = nat -> Option<nat>

  /** What writing some batches leaves: the records that reached the file, and the outcome. */
  datatype Written = Written(records: seq<Record>, result: AppendResult)

  function Prefix<T>(s: seq<T>, n: nat): seq<T> {
    if n <= |s| then s[..n] else s
  }

  /** Writing the batches from number `k` on; an empty batch never touches the writer. */
  function WrittenFrom(creature: Creature, open: bool, batches: seq<Batch>, k: nat, io: WriterIo): Written
    requires k <= |batches|
    decreases |batches| - k
  {
    if k == |batches| then Written([], Appended(0))
    else
      var records := BatchRecords(creature, batches[k]);
      if records == [] then WrittenFrom(creature, open, batches, k + 1, io)
      else if !open then Written([], WriterConsumed)
      else if io(k).Some? then Written(Prefix(records, io(k).value), WriteFailed)
      else
        var rest := WrittenFrom(creature, open, batches, k + 1, io);
        Written(records + rest.records,
          if rest.result.Appended? then Appended(|records| + rest.result.count) else rest.result)
  }

  /** The batch has records, and the writer is gone or fails on it. */
  predicate BatchFails(creature: Creature, open: bool, batch: Batch, outcome: Option<nat>) {
    !Unrecorded(creature, batch) && (!open || outcome.Some?)
  }

  /**
   What writing the batches from `k` on left, when batch `stop` was the first to fail: the
   records of the batches before it, then, if its write failed, the first of its own.
   */
  ghost predicate WrittenUpTo(creature: Creature, open: bool, batches: seq<Batch>, k: nat, io: WriterIo,
                              stop: nat, n: nat, w: Written)
  {
    && k <= stop <= |batches| && n <= |w.records|
    && (forall j | k <= j < stop :: !BatchFails(creature, open, batches[j], io(j)))
    && RecordsOfAll(creature, batches[k..stop], w.records[..n])
    && if stop == |batches| then w.result == Appended(n) && n == |w.records|
       else if !open then
         BatchFails(creature, open, batches[stop], io(stop)) && w.result == WriterConsumed && n == |w.records|
       else
         && BatchFails(creature, open, batches[stop], io(stop)) && w.result == WriteFailed
         && exists whole :: RecordsOf(creature, batches[stop], whole) && w.records[n..] == Prefix(whole, io(stop).value)
  }

  /** Writing goes on to the first batch that fails, and leaves exactly what came before. */
  lemma {:induction false} WrittenStops(creature: Creature, open: bool, batches: seq<Batch>, k: nat, io: WriterIo)
    returns (stop: nat, n: nat)
    requires k <= |batches|
    ensures WrittenUpTo(creature, open, batches, k, io, stop, n, WrittenFrom(creature, open, batches, k, io))
    decreases |batches| - k
  {
    hide BatchRecords, Unrecorded, RecordsOf;
    if k == |batches| {
      stop, n := k, 0;
    } else {
      var records := BatchRecords(creature, batches[k]);
      BatchRecordsMean(creature, batches[k]);
      UnrecordedMeans(creature, batches[k]);
      if BatchFails(creature, open, batches[k], io(k)) {
        stop, n := k, 0;
        var w := WrittenFrom(creature, open, batches, k, io);
        assert batches[k..k] == [] && w.records[0..] == w.records;
      } else {
        stop, n := WrittenStops(creature, open, batches, k + 1, io);
        WrittenBefore(creature, open, batches, k, io, stop, n);
        n := |records| + n;
      }
    }
  }

  lemma WrittenBefore(creature: Creature, open: bool, batches: seq<Batch>, k: nat, io: WriterIo, stop: nat, n: nat)
    requires k < |batches| && !BatchFails(creature, open, batches[k], io(k))
    requires WrittenUpTo(creature, open, batches, k + 1, io, stop, n, WrittenFrom(creature, open, batches, k + 1, io))
    ensures WrittenUpTo(creature, open, batches, k, io, stop, |BatchRecords(creature, batches[k])| + n,
                        WrittenFrom(creature, open, batches, k, io))
  {
    hide BatchRecords, Unrecorded, RecordsOf;
    var records := BatchRecords(creature, batches[k]);
    var (rest, w) := (WrittenFrom(creature, open, batches, k + 1, io), WrittenFrom(creature, open, batches, k, io));
    BatchRecordsMean(creature, batches[k]);
    UnrecordedMeans(creature, batches[k]);
    assert w.records == records + rest.records;
    var m := |records| + n;
    assert w.records[..m] == records + rest.records[..n] && w.records[m..] == rest.records[n..];
    var (part, bs) := (w.records[..m], batches[k..stop]);
    assert bs[0] == batches[k] && bs[1..] == batches[k + 1..stop];
    assert part[..|records|] == records && part[|records|..] == rest.records[..n];
  }

  /** Writing succeeds exactly if no batch fails, and has then written the records of all batches. */
  lemma WrittenMeans(creature: Creature, open: bool, batches: seq<Batch>, io: WriterIo)
    ensures var w := WrittenFrom(creature, open, batches, 0, io);
      && (w.result.Appended? <==> forall k | 0 <= k < |batches| :: !BatchFails(creature, open, batches[k], io(k)))
      && (w.result.Appended? ==> w.result.count == |w.records| && RecordsOfAll(creature, batches, w.records))
  {
    hide WrittenFrom, RecordsOfAll, BatchFails, RecordsOf;
    var stop, n := WrittenStops(creature, open, batches, 0, io);
    var w := WrittenFrom(creature, open, batches, 0, io);
    assert batches[0..|batches|] == batches && w.records[..|w.records|] == w.records;
  }

  lemma NeuronRecordsStep(creature: Creature, obsIndex: nat, data: seq<NeuronData>, i: nat)
    requires i < |data|
    ensures NeuronRecords(creature, obsIndex, data[i..]) ==
      (if IsRecorded(creature, data[i])
       then [Record(obsIndex, FromNeuron(data[i].neuronUuid), data[i].payload)] else [])
      + NeuronRecords(creature, obsIndex, data[i + 1..])
  {
    hide IsRecorded;
    assert data[i..][1..] == data[i + 1..];
  }

  lemma NoNeuronRecords(creature: Creature, obsIndex: nat)
    ensures NeuronRecords(creature, obsIndex, []) == []
  {
  }

  /** Builds one batch's records: the known, non-input neurons, then every input. */
  method BuildBatch(creature: Creature, batch: Batch) returns (records: seq<Record>)
    ensures records == BatchRecords(creature, batch) && RecordsOf(creature, batch, records)
  {
    hide RecordsOf, NeuronRecords;
    BatchRecordsMean(creature, batch);
    records := [];
    for i := 0 to |batch.neuronData|
      invariant NeuronRecords(creature, batch.obsIndex, batch.neuronData)
        == records + NeuronRecords(creature, batch.obsIndex, batch.neuronData[i..])
    {
      var data := batch.neuronData[i];
      NeuronRecordsStep(creature, batch.obsIndex, batch.neuronData, i);
      var neuron := FindNeuron(creature.neurons, data.neuronUuid);
      if neuron.None? { continue; }
      if neuron.value.neuronType == "input" { continue; }
      records := records + [Record(batch.obsIndex, FromNeuron(data.neuronUuid), data.payload)];
    }
    NoNeuronRecords(creature, batch.obsIndex);
    assert batch.neuronData[|batch.neuronData|..] == [];
    assert batch.neuronData[0..] == batch.neuronData;
    ghost var neuronRecords := records;
    assert neuronRecords == NeuronRecords(creature, batch.obsIndex, batch.neuronData);
    for i := 0 to |batch.inputs|
      invariant |records| == |neuronRecords| + i && records[..|neuronRecords|] == neuronRecords
      invariant forall k | 0 <= k < i ::
        records[|neuronRecords| + k] == Record(batch.obsIndex, FromInput(k), batch.inputs[k])
    {
      records := records + [Record(batch.obsIndex, FromInput(i), batch.inputs[i])];
    }
    assert records == BatchRecords(creature, batch);
  }

  /** The fields that decide a session's fate. */
  datatype Fields = Fields(writerOpen: bool, recordsWritten: nat, finished: bool, preserve: bool)

  /** `finish_session` under the session lock, for a given outcome of the flush and the rename. */
  function FinishOutcome(f: Fields, flushes: bool, renames: bool): (Fields, FinishResult) {
    if f.recordsWritten == 0 then (f, NoRecords)
    else
      var sealed := f.(preserve := true, writerOpen := false);
      if f.writerOpen && !flushes then (sealed, FlushError)
      else if !renames then (sealed, RenameError)
      else (sealed.(finished := true), Finished(f.recordsWritten))
  }

  predicate DropDeletes(f: Fields) {
    !f.finished && !f.preserve
  }

  class RecordingSession {
    const creature: Creature
    /** The records in the temporary file. */
    var contents: seq<Record>
    var writerOpen: bool
    var recordsWritten: nat
    var finished: bool
    var preserveTmpOnDrop: bool

    function View(): Fields
      reads this
    {
      Fields(writerOpen, recordsWritten, finished, preserveTmpOnDrop)
    }

    constructor (creature: Creature)
      ensures this.creature == creature && contents == [] && View() == Fields(true, 0, false, false)
    {
      this.creature := creature;
      contents, writerOpen, recordsWritten, finished, preserveTmpOnDrop := [], true, 0, false, false;
    }

    /**
     Appends the batches. The tombstone is read at the start and again at the end, and may have
     been set in between; nothing is acknowledged unless both reads find it clear.
     */
    method Append(batches: seq<Batch>, cancelledAtStart: bool, cancelledAtEnd: bool, io: WriterIo)
      returns (r: AppendResult)
      modifies this`contents, this`recordsWritten
      ensures var w := WrittenFrom(creature, writerOpen, batches, 0, io);
        && contents == old(contents) + (if cancelledAtStart then [] else w.records)
        && r == (if cancelledAtStart then CancelledError
                 else if w.result.Appended? && cancelledAtEnd then CancelledError
                 else w.result)
        && recordsWritten == old(recordsWritten) + (if r.Appended? then r.count else 0)
      ensures old(contents) <= contents
      ensures r.Appended? ==>
        && r.count == |contents| - |old(contents)|
        && RecordsOfAll(creature, batches, contents[|old(contents)|..])
      ensures r.Appended? <==>
        && !cancelledAtStart && !cancelledAtEnd
        && forall k | 0 <= k < |batches| :: !BatchFails(creature, writerOpen, batches[k], io(k))
    {
      hide BatchRecords, RecordsOfAll, BatchFails, RecordsOf;
      WrittenMeans(creature, writerOpen, batches, io);
      if cancelledAtStart { return CancelledError; }
      var recordsInBatch: nat := 0;
      ghost var before := contents;
      ghost var whole := WrittenFrom(creature, writerOpen, batches, 0, io);
      for k := 0 to |batches|
        invariant recordsWritten == old(recordsWritten)
        invariant var rest := WrittenFrom(creature, writerOpen, batches, k, io);
          && before + whole.records == contents + rest.records
          && (rest.result.Appended? ==> whole.result == Appended(recordsInBatch + rest.result.count))
          && (!rest.result.Appended? ==> whole.result == rest.result)
      {
        var records := BuildBatch(creature, batches[k]);
        if records == [] { continue; }
        if !writerOpen { return WriterConsumed; }
        if io(k).Some? {
          contents := contents + Prefix(records, io(k).value);
          return WriteFailed;
        }
        ghost var rest := WrittenFrom(creature, writerOpen, batches, k + 1, io);
        assert contents + (records + rest.records) == (contents + records) + rest.records;
        contents := contents + records;
        recordsInBatch := recordsInBatch + |records|;
      }
      assert contents + [] == contents;
      assert contents[|before|..] == whole.records;
      if cancelledAtEnd { return CancelledError; }
      recordsWritten := recordsWritten + recordsInBatch;
      r := Appended(recordsInBatch);
    }

    /**
     Flushes once, renames, and only then counts as finished. A session without records is left
     as it was; any other keeps its file from now on, so a failure may be retried.
     */
    method Finish(flushes: bool, renames: bool) returns (r: FinishResult)
      modifies this`writerOpen, this`finished, this`preserveTmpOnDrop
      ensures (View(), r) == FinishOutcome(old(View()), flushes, renames)
      ensures r.NoRecords? <==> recordsWritten == 0
      ensures r.NoRecords? ==> View() == old(View())
      ensures !r.NoRecords? ==> preserveTmpOnDrop && !writerOpen
      ensures r.Finished? <==> recordsWritten > 0 && renames && (old(writerOpen) ==> flushes)
      ensures r.Finished? ==> finished && r.count == recordsWritten
      ensures !r.Finished? ==> finished == old(finished)
    {
      if recordsWritten == 0 { return NoRecords; }
      preserveTmpOnDrop := true;
      if writerOpen {
        writerOpen := false;
        if !flushes { return FlushError; }
      }
      if !renames { return RenameError; }
      finished := true;
      r := Finished(recordsWritten);
    }

    /** Whether dropping the session deletes its temporary file. */
    method Drop() returns (deletes: bool)
      ensures deletes <==> DropDeletes(View())
    {
      if finished { return false; }
      if preserveTmpOnDrop { return false; }
      deletes := true;
    }
  }

  /** An append that succeeds wrote every record of every batch, and its count says so. */
  lemma {:induction false} SuccessWritesEverything(
    creature: Creature, open: bool, batches: seq<Batch>, k: nat, io: WriterIo)
    requires k <= |batches| && WrittenFrom(creature, open, batches, k, io).result.Appended?
    ensures WrittenFrom(creature, open, batches, k, io)
         == Written(AllRecords(creature, batches[k..]), Appended(TotalCount(creature, batches[k..])))
    decreases |batches| - k
  {
    hide BatchRecords;
    if k < |batches| {
      SuccessWritesEverything(creature, open, batches, k + 1, io);
      assert batches[k..][1..] == batches[k + 1..];
    }
  }

  // A session's whole life: appends and finish calls in any order, with any outcomes.

  datatype Operation = Add(count: nat) | Try(flushes: bool, renames: bool)

  const NEW_SESSION: Fields := Fields(true, 0, false, false)

  /** The fields after the operations; records cannot be added once the writer is gone. */
  function AfterAll(ops: seq<Operation>): Fields {
    if ops == [] then NEW_SESSION
    else
      var before := AfterAll(ops[..|ops| - 1]);
      match ops[|ops| - 1]
      case Add(count) =>
        if before.writerOpen then before.(recordsWritten := before.recordsWritten + count) else before
      case Try(flushes, renames) => FinishOutcome(before, flushes, renames).0
  }

  /** All the records that successful appends would have added. */
  function Total(ops: seq<Operation>): nat {
    if ops == [] then 0
    else Total(ops[..|ops| - 1]) + if ops[|ops| - 1].Add? then ops[|ops| - 1].count else 0
  }

  /** The total when a finish call first found records. */
  function SealedTotal(ops: seq<Operation>): Option<nat> {
    if ops == [] then None
    else
      var (init, last) := (ops[..|ops| - 1], ops[|ops| - 1]);
      if SealedTotal(init).Some? then SealedTotal(init)
      else if last.Try? && Total(init) > 0 then Some(Total(init))
      else None
  }

  /** Until a finish finds records the session only counts; from then on its count is fixed. */
  lemma {:induction false} LifeOfASession(ops: seq<Operation>)
    ensures var f := AfterAll(ops);
      match SealedTotal(ops)
      case None => f == NEW_SESSION.(recordsWritten := Total(ops))
      case Some(n) => n > 0 && f == Fields(false, n, f.finished, true)
  {
    if ops != [] {
      LifeOfASession(ops[..|ops| - 1]);
    }
  }

  /**
   However often finalisation failed before, for whatever reasons and whatever was appended in
   between, a retry never flushes again: it succeeds exactly when its rename does, and reports
   the total at the first attempt.
   */
  lemma RetriesReportTheSameTotal(ops: seq<Operation>, flushes: bool, renames: bool)
    requires SealedTotal(ops).Some?
    ensures FinishOutcome(AfterAll(ops), flushes, renames).1
         == if renames then Finished(SealedTotal(ops).value) else RenameError
  {
    hide AfterAll, SealedTotal;
    LifeOfASession(ops);
  }

  /** Dropping a session deletes its file exactly when no finish call ever found records in it. */
  lemma DropDeletesOnlyUnsealed(ops: seq<Operation>)
    ensures DropDeletes(AfterAll(ops)) <==> SealedTotal(ops).None?
  {
    hide AfterAll, SealedTotal;
    LifeOfASession(ops);
  }

  // The micro-steps of the protocol, taken one after the other, are these operations.

  function FieldsOf(e: Entry): Fields {
    Fields(e.writerOpen, e.recordsWritten, e.finished, e.preserve)
  }

  /** The micro-steps of an append from batch `k` on, up to its last check or its failure. */
  function WritingSteps(id: Id, e: Entry, h: History, batches: seq<Batch>, k: nat, sum: nat, io: WriterIo): Held
    requires k <= |batches|
    decreases |batches| - k
  {
    var choice := if k < |batches| && io(k).Some?
      then PartialWrite(|Prefix(BatchRecords(e.creature, batches[k]), io(k).value)|) else Go;
    var held := AppendStep(id, e, h, Writing(batches[k..], sum), choice);
    if k < |batches| && held.pc.InAppend? && held.pc.append.Writing?
    then WritingSteps(id, held.e, held.h, batches, k + 1, held.pc.append.sum, io)
    else held
  }

  /** Step by step an append writes what the operation writes, and fails when it fails. */
  lemma {:induction false} WritingStepsAgree(
    id: Id, e: Entry, h: History, batches: seq<Batch>, k: nat, sum: nat, io: WriterIo)
    requires k <= |batches|
    ensures var held := WritingSteps(id, e, h, batches, k, sum, io);
      var w := WrittenFrom(e.creature, e.writerOpen, batches, k, io);
      && held.e == e && held.h == h.(written := h.written + |w.records|)
      && held.pc == InAppend(id,
           if w.result.Appended? then LastCheck(sum + w.result.count) else AppendUnlock(None))
    decreases |batches| - k
  {
    hide BatchRecords;
    hide WrittenFrom, WritingSteps;
    WritingUnfold(id, e, h, batches, k, sum, io);
    WrittenUnfold(e.creature, e.writerOpen, batches, k, io);
    if k < |batches| {
      var n := RecordCount(e.creature, batches[k]);
      if n == 0 {
        WritingStepsAgree(id, e, h, batches, k + 1, sum, io);
      } else if e.writerOpen && io(k).None? {
        WritingStepsAgree(id, e, h.(written := h.written + n), batches, k + 1, sum + n, io);
      }
    }
  }

  lemma WritingUnfold(id: Id, e: Entry, h: History, batches: seq<Batch>, k: nat, sum: nat, io: WriterIo)
    requires k <= |batches|
    ensures var held := WritingSteps(id, e, h, batches, k, sum, io);
      if k == |batches| then held == Held(InAppend(id, LastCheck(sum)), e, h)
      else
        var n := RecordCount(e.creature, batches[k]);
        if n == 0 then held == WritingSteps(id, e, h, batches, k + 1, sum, io)
        else if !e.writerOpen then held == Held(InAppend(id, AppendUnlock(None)), e, h)
        else if io(k).Some? then
          held == Held(InAppend(id, AppendUnlock(None)), e,
            h.(written := h.written + |Prefix(BatchRecords(e.creature, batches[k]), io(k).value)|))
        else held == WritingSteps(id, e, h.(written := h.written + n), batches, k + 1, sum + n, io)
  {
    hide BatchRecords;
    if k < |batches| {
      assert batches[k..][1..] == batches[k + 1..];
    }
  }

  lemma WrittenUnfold(creature: Creature, open: bool, batches: seq<Batch>, k: nat, io: WriterIo)
    requires k <= |batches|
    ensures var w := WrittenFrom(creature, open, batches, k, io);
      if k == |batches| then w == Written([], Appended(0))
      else
        var records := BatchRecords(creature, batches[k]);
        if records == [] then w == WrittenFrom(creature, open, batches, k + 1, io)
        else if !open then w == Written([], WriterConsumed)
        else if io(k).Some? then w == Written(Prefix(records, io(k).value), WriteFailed)
        else
          var rest := WrittenFrom(creature, open, batches, k + 1, io);
          && |w.records| == |records| + |rest.records|
          && w.result == (if rest.result.Appended? then Appended(|records| + rest.result.count) else rest.result)
  {
    hide BatchRecords;
  }

  /** The micro-steps of a finish, up to the release of the session lock. */
  function FinishSteps(id: Id, e: Entry, h: History, t: Tid, stage: FinishStage, flushes: bool, renames: bool): Held
    decreases StreamingProgress.FinishWork(stage)
  {
    if StreamingProgress.FinishWork(stage) == 0 then Held(InFinish(id, stage), e, h)
    else
      var choice := if (stage.Flushing? && !flushes) || (stage.Renaming? && !renames) then IoError else Go;
      var held := FinishStep(id, e, h, t, stage, renames, choice);
      FinishSteps(id, held.e, held.h, t, held.pc.finish, flushes, renames)
  }

  /** Step by step a finish leaves the fields, and reports the result, of the operation. */
  lemma FinishStepsAgree(id: Id, e: Entry, h: History, t: Tid, flushes: bool, renames: bool)
    ensures var (held, (after, r)) := (FinishSteps(id, e, h, t, EmptyCheck, flushes, renames),
                                       FinishOutcome(FieldsOf(e), flushes, renames));
      && FieldsOf(held.e) == after
      && held.pc == InFinish(id,
           match r
           case NoRecords => EmptyUnlock
           case Finished(n) => FinishUnlock(Some(n))
           case FlushError => FinishUnlock(None)
           case RenameError => FinishUnlock(None))
      && held.h.published == (h.published || r.Finished?)
      && held.h.sealed == (if r.NoRecords? || h.sealed.Some? then h.sealed else Some(e.recordsWritten))
  {
    var s1 := FinishStep(id, e, h, t, EmptyCheck, renames, Go);
    if e.recordsWritten > 0 {
      FinishAfterSealing(id, s1.e, s1.h, t, flushes, renames);
    }
  }

  lemma FinishAfterSealing(id: Id, e: Entry, h: History, t: Tid, flushes: bool, renames: bool)
    requires e.recordsWritten > 0
    ensures var (held, (after, r)) := (FinishSteps(id, e, h, t, SetPreserve, flushes, renames),
                                       FinishOutcome(FieldsOf(e), flushes, renames));
      && FieldsOf(held.e) == after
      && held.pc == InFinish(id, FinishUnlock(if r.Finished? then Some(r.count) else None))
      && held.h.published == (h.published || r.Finished?)
      && held.h.sealed == (if h.sealed.Some? then h.sealed else Some(e.recordsWritten))
  {
    hide FinishSteps;
    var s2 := FinishStep(id, e, h, t, SetPreserve, renames, Go);
    FinishStepsUnfold(id, e, h, t, SetPreserve, flushes, renames);
    FinishStepsUnfold(id, s2.e, s2.h, t, TakeWriter, flushes, renames);
    var s3 := FinishStep(id, s2.e, s2.h, t, TakeWriter, renames, Go);
    if e.writerOpen {
      FlushingSteps(id, s3.e, s3.h, t, flushes, renames);
    } else {
      RenamingSteps(id, s3.e, s3.h, t, flushes, renames);
    }
  }

  lemma FinishStepsUnfold(id: Id, e: Entry, h: History, t: Tid, stage: FinishStage, flushes: bool, renames: bool)
    requires StreamingProgress.FinishWork(stage) > 0
    ensures var choice := if (stage.Flushing? && !flushes) || (stage.Renaming? && !renames) then IoError else Go;
      var held := FinishStep(id, e, h, t, stage, renames, choice);
      FinishSteps(id, e, h, t, stage, flushes, renames)
        == FinishSteps(id, held.e, held.h, t, held.pc.finish, flushes, renames)
  {
  }

  lemma FlushingSteps(id: Id, e: Entry, h: History, t: Tid, flushes: bool, renames: bool)
    ensures var held := FinishSteps(id, e, h, t, Flushing, flushes, renames);
      && held.e == (if flushes && renames then e.(finished := true) else e)
      && held.pc == InFinish(id, FinishUnlock(if flushes && renames then Some(e.recordsWritten) else None))
      && held.h == (if !flushes then h.(flushFailed := true)
                    else if renames then h.(flushed := true, published := true, finisher := t)
                    else h.(flushed := true))
  {
    hide FinishSteps;
    FinishStepsUnfold(id, e, h, t, Flushing, flushes, renames);
    if flushes {
      RenamingSteps(id, e, h.(flushed := true), t, flushes, renames);
    } else {
      Unlocking(id, e, h.(flushFailed := true), t, None, flushes, renames);
    }
  }

  lemma Unlocking(id: Id, e: Entry, h: History, t: Tid, outcome: Option<nat>, flushes: bool, renames: bool)
    ensures FinishSteps(id, e, h, t, FinishUnlock(outcome), flushes, renames)
         == Held(InFinish(id, FinishUnlock(outcome)), e, h)
  {
  }

  lemma RenamingSteps(id: Id, e: Entry, h: History, t: Tid, flushes: bool, renames: bool)
    ensures var held := FinishSteps(id, e, h, t, Renaming, flushes, renames);
      && held.e == (if renames then e.(finished := true) else e)
      && held.pc == InFinish(id, FinishUnlock(if renames then Some(e.recordsWritten) else None))
      && held.h == (if renames then h.(published := true, finisher := t) else h)
  {
  }

  /** Running the destructor removes the temporary file exactly when the drop deletes and can. */
  lemma DropStepAgrees(pc: Pc, sh: Shared, choice: Choice)
    requires pc.Deleting? && Grounded(pc, sh) && CanStep(pc, sh, choice)
    ensures var (e, after) := (sh.entries[pc.id], DeleteStep(pc, sh, choice).sh);
      && pc.id !in after.entries
      && after.files == (if DropDeletes(FieldsOf(e)) && choice == Go then sh.files - {Tmp(e.path)} else sh.files)
  {
  }
}
