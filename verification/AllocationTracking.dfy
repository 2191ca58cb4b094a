/** The byte counter of the tracking allocator under any interleaving of its callers. */
module AllocationTracking {
  const USIZE_RANGE: nat := 0x1_0000_0000_0000_0000

  type Address = int

  /**
   Where a thread is in an allocator call: the system allocator has done its part, and the
   counter has not been adjusted yet.
   */
  datatype Pc =
    | Idle
    | Allocated(block: Address, size: nat)
    | Freed(size: nat)
    | Resized(block: Address, oldSize: nat, newSize: nat)

  /** `live` holds the blocks that the system allocator has handed out, with their sizes. */
  datatype State = State(live: map<Address, nat>, threads: seq<Pc>, counter: nat)

  /** The outcome of the system allocator, or the counter update that finishes a call. */
  datatype Step =
    | SystemAlloc(block: Address, size: nat)
    | SystemAllocFails
    | SystemDealloc(block: Address)
    | SystemRealloc(block: Address, newBlock: Address, newSize: nat)
    | SystemReallocFails(block: Address)
    | AdjustCounter

  /** `fetch_add` and `fetch_sub` wrap around. */
  function Added(counter: nat, n: nat): nat {
    (counter + n) % USIZE_RANGE
  }

  function Subtracted(counter: nat, n: nat): nat {
    (counter - n) % USIZE_RANGE
  }

  function Adjusted(counter: nat, oldSize: nat, newSize: nat): nat {
    if newSize >= oldSize then Added(counter, newSize - oldSize) else Subtracted(counter, oldSize - newSize)
  }

  /** A block is in use by a call that has not returned yet, so nobody else can pass it in. */
  predicate Busy(threads: seq<Pc>, block: Address) {
    exists i :: 0 <= i < |threads| && Holds(threads[i], block)
  }

  predicate Holds(pc: Pc, block: Address) {
    (pc.Allocated? || pc.Resized?) && pc.block == block
  }

  /** Callers pass only live blocks of their own; the system allocator hands out unused ones. */
  predicate CanStep(s: State, t: nat, step: Step) {
    t < |s.threads| &&
    match step
    case SystemAlloc(block, _) => s.threads[t].Idle? && block !in s.live
    case SystemAllocFails => s.threads[t].Idle?
    case SystemDealloc(block) => s.threads[t].Idle? && block in s.live && !Busy(s.threads, block)
    case SystemRealloc(block, newBlock, _) =>
      s.threads[t].Idle? && block in s.live && !Busy(s.threads, block)
      && (newBlock == block || newBlock !in s.live)
    case SystemReallocFails(block) => s.threads[t].Idle? && block in s.live && !Busy(s.threads, block)
    case AdjustCounter => !s.threads[t].Idle?
  }

  function CounterAfter(counter: nat, pc: Pc): nat {
    match pc
    case Idle => counter
    case Allocated(_, size) => Added(counter, size)
    case Freed(size) => Subtracted(counter, size)
    case Resized(_, oldSize, newSize) => Adjusted(counter, oldSize, newSize)
  }

  function Next(s: State, t: nat, step: Step): State
    requires CanStep(s, t, step)
  {
    match step
    case SystemAlloc(block, size) =>
      State(s.live[block := size], s.threads[t := Allocated(block, size)], s.counter)
    case SystemAllocFails => s
    case SystemDealloc(block) =>
      State(s.live - {block}, s.threads[t := Freed(s.live[block])], s.counter)
    case SystemRealloc(block, newBlock, newSize) =>
      State((s.live - {block})[newBlock := newSize],
        s.threads[t := Resized(newBlock, s.live[block], newSize)], s.counter)
    case SystemReallocFails(_) => s
    case AdjustCounter => State(s.live, s.threads[t := Idle], CounterAfter(s.counter, s.threads[t]))
  }

  // Bytes.

  ghost function Bytes(live: map<Address, nat>): nat
    decreases |live|
  {
    if forall block :: block !in live then 0
    else
      var block :| block in live;
      live[block] + Bytes(live - {block})
  }

  lemma {:induction false} BytesWithout(live: map<Address, nat>, block: Address)
    requires block in live
    ensures Bytes(live) == live[block] + Bytes(live - {block})
    decreases |live|
  {
    var chosen :| chosen in live && Bytes(live) == live[chosen] + Bytes(live - {chosen});
    if chosen != block {
      BytesWithout(live - {chosen}, block);
      BytesWithout(live - {block}, chosen);
      assert live - {chosen} - {block} == live - {block} - {chosen};
    }
  }

  lemma BytesWith(live: map<Address, nat>, block: Address, size: nat)
    requires block !in live
    ensures Bytes(live[block := size]) == Bytes(live) + size
  {
    BytesWithout(live[block := size], block);
    assert live[block := size] - {block} == live;
  }

  /** What the counter still owes to the live bytes because of a call in flight. */
  function Owed(pc: Pc): int {
    match pc
    case Idle => 0
    case Allocated(_, size) => 0 - size as int
    case Freed(size) => size
    case Resized(_, oldSize, newSize) => oldSize - newSize
  }

  function TotalOwed(threads: seq<Pc>): int {
    if threads == [] then 0 else TotalOwed(threads[..|threads| - 1]) + Owed(threads[|threads| - 1])
  }

  lemma {:induction false} OwedAfter(threads: seq<Pc>, t: nat, pc: Pc)
    requires t < |threads|
    ensures TotalOwed(threads[t := pc]) == TotalOwed(threads) - Owed(threads[t]) + Owed(pc)
  {
    var n := |threads| - 1;
    if t == n {
      assert threads[t := pc][..n] == threads[..n];
    } else {
      OwedAfter(threads[..n], t, pc);
      assert threads[t := pc][..n] == threads[..n][t := pc];
    }
  }

  /** The bytes added to the counter and not yet subtracted. */
  ghost function Accounted(s: State): int {
    Bytes(s.live) + TotalOwed(s.threads)
  }

  /** Each call in flight holds a live block of the recorded size, and no block is held twice. */
  predicate Owned(live: map<Address, nat>, threads: seq<Pc>) {
    && (forall i | 0 <= i < |threads| :: threads[i].Allocated? ==>
         threads[i].block in live && live[threads[i].block] == threads[i].size)
    && (forall i | 0 <= i < |threads| :: threads[i].Resized? ==>
         threads[i].block in live && live[threads[i].block] == threads[i].newSize)
    && (forall i, j | 0 <= i < j < |threads| ::
         (threads[i].Allocated? || threads[i].Resized?) && (threads[j].Allocated? || threads[j].Resized?)
         ==> threads[i].block != threads[j].block)
  }

  ghost predicate Inv(s: State) {
    Owned(s.live, s.threads) && s.counter == Accounted(s) % USIZE_RANGE
  }

  lemma {:induction false} NeverNegative(live: map<Address, nat>, threads: seq<Pc>)
    requires Owned(live, threads)
    ensures Bytes(live) + TotalOwed(threads) >= 0
    ensures forall i | 0 <= i < |threads| && Owed(threads[i]) > 0 ::
      Bytes(live) + TotalOwed(threads) >= Owed(threads[i])
  {
    if threads != [] {
      var (before, last) := (threads[..|threads| - 1], threads[|threads| - 1]);
      if last.Allocated? || last.Resized? {
        BytesWithout(live, last.block);
        NeverNegative(live - {last.block}, before);
      } else {
        NeverNegative(live, before);
      }
    }
  }

  lemma WrapAdds(total: int, n: nat)
    ensures Added(total % USIZE_RANGE, n) == (total + n) % USIZE_RANGE
    ensures Subtracted(total % USIZE_RANGE, n) == (total - n) % USIZE_RANGE
  {
  }

  lemma CounterFollows(total: int, pc: Pc)
    ensures CounterAfter(total % USIZE_RANGE, pc) == (total - Owed(pc)) % USIZE_RANGE
  {
    hide Added, Subtracted;
    match pc
    case Idle =>
    case Allocated(_, size) => WrapAdds(total, size);
    case Freed(size) => WrapAdds(total, size);
    case Resized(_, oldSize, newSize) =>
      if newSize >= oldSize {
        WrapAdds(total, newSize - oldSize);
      } else {
        WrapAdds(total, oldSize - newSize);
      }
  }

  /** Only the counter updates change what is accounted for, each by its own amount. */
  lemma StepAccounts(s: State, t: nat, step: Step)
    requires CanStep(s, t, step) && Owned(s.live, s.threads)
    ensures Accounted(Next(s, t, step)) == Accounted(s) - if step.AdjustCounter? then Owed(s.threads[t]) else 0
  {
    hide Owned, TotalOwed;
    match step
    case SystemAlloc(block, size) =>
      BytesWith(s.live, block, size);
      OwedAfter(s.threads, t, Allocated(block, size));
    case SystemAllocFails =>
    case SystemDealloc(block) =>
      BytesWithout(s.live, block);
      OwedAfter(s.threads, t, Freed(s.live[block]));
    case SystemRealloc(block, newBlock, newSize) =>
      BytesWithout(s.live, block);
      BytesWith(s.live - {block}, newBlock, newSize);
      OwedAfter(s.threads, t, Resized(newBlock, s.live[block], newSize));
    case SystemReallocFails(_) =>
    case AdjustCounter =>
      OwedAfter(s.threads, t, Idle);
  }

  lemma StepKeepsOwned(s: State, t: nat, step: Step)
    requires CanStep(s, t, step) && Owned(s.live, s.threads)
    ensures Owned(Next(s, t, step).live, Next(s, t, step).threads)
  {
    forall i, block |
      0 <= i < |s.threads| && !Busy(s.threads, block) && (s.threads[i].Allocated? || s.threads[i].Resized?)
      ensures s.threads[i].block != block
    {
      assert !Holds(s.threads[i], block);
    }
  }

  lemma StepKeepsInv(s: State, t: nat, step: Step)
    requires CanStep(s, t, step) && Inv(s)
    ensures Inv(Next(s, t, step))
  {
    hide Owned, Bytes, TotalOwed;
    StepKeepsOwned(s, t, step);
    StepAccounts(s, t, step);
    if step.AdjustCounter? {
      CounterFollows(Accounted(s), s.threads[t]);
    }
  }

  // Whole runs.

  predicate Initial(s: State) {
    s.live == map[] && s.counter == 0 && forall i | 0 <= i < |s.threads| :: s.threads[i].Idle?
  }

  ghost predicate ValidRun(s: State, run: seq<(nat, Step)>)
    decreases |run|
  {
    run == [] || (CanStep(s, run[0].0, run[0].1) && ValidRun(Next(s, run[0].0, run[0].1), run[1..]))
  }

  ghost function AfterRun(s: State, run: seq<(nat, Step)>): State
    requires ValidRun(s, run)
    decreases |run|
  {
    if run == [] then s else AfterRun(Next(s, run[0].0, run[0].1), run[1..])
  }

  lemma {:induction false} RunKeepsInv(s: State, run: seq<(nat, Step)>)
    requires Inv(s) && ValidRun(s, run)
    ensures Inv(AfterRun(s, run))
    decreases |run|
  {
    if run != [] {
      hide Inv, CanStep, Next;
      StepKeepsInv(s, run[0].0, run[0].1);
      RunKeepsInv(Next(s, run[0].0, run[0].1), run[1..]);
    }
  }

  lemma {:induction false} NothingOwed(threads: seq<Pc>)
    requires forall i | 0 <= i < |threads| :: threads[i].Idle?
    ensures TotalOwed(threads) == 0
  {
    if threads != [] {
      NothingOwed(threads[..|threads| - 1]);
    }
  }

  lemma InitialInv(s: State)
    requires Initial(s)
    ensures Inv(s)
  {
    NothingOwed(s.threads);
  }

  lemma InvMeans(s: State)
    requires Inv(s)
    ensures Owned(s.live, s.threads) && s.counter == Accounted(s) % USIZE_RANGE
  {
  }

  /**
   In every interleaving the counter is the number of bytes added and not yet subtracted,
   modulo the word size. That number is never negative, and equals the live bytes whenever no
   call is in flight.
   */
  lemma CounterIsAccounted(s: State, run: seq<(nat, Step)>)
    requires Initial(s) && ValidRun(s, run)
    ensures var now := AfterRun(s, run);
      && Accounted(now) >= 0
      && now.counter == Accounted(now) % USIZE_RANGE
      && (Accounted(now) < USIZE_RANGE ==> now.counter == Accounted(now))
      && ((forall i | 0 <= i < |now.threads| :: now.threads[i].Idle?) ==> Accounted(now) == Bytes(now.live))
  {
    hide AfterRun, ValidRun, Owned, Inv;
    InitialInv(s);
    RunKeepsInv(s, run);
    var now := AfterRun(s, run);
    InvMeans(now);
    NeverNegative(now.live, now.threads);
    if forall i | 0 <= i < |now.threads| :: now.threads[i].Idle? {
      NothingOwed(now.threads);
    }
  }

  /** As long as the accounted bytes fit in a word, no subtraction ever takes the counter below zero. */
  lemma SubtractionNeverUnderflows(s: State, run: seq<(nat, Step)>, t: nat)
    requires Initial(s) && ValidRun(s, run)
    requires t < |AfterRun(s, run).threads| && Accounted(AfterRun(s, run)) < USIZE_RANGE
    ensures Owed(AfterRun(s, run).threads[t]) <= AfterRun(s, run).counter
  {
    hide AfterRun, ValidRun, Owned, Inv;
    CounterIsAccounted(s, run);
    InitialInv(s);
    RunKeepsInv(s, run);
    InvMeans(AfterRun(s, run));
    NeverNegative(AfterRun(s, run).live, AfterRun(s, run).threads);
  }

  /** The allocator object: each method ends with the counter update of the machine above. */
  class TrackingAlloc {
    var counter: nat

    constructor ()
      ensures counter == 0
    {
      counter := 0;
    }

    /** `ptr` is what the system allocator returned, null on failure. */
    method Alloc(size: nat, ptr: Address)
      modifies this
      ensures counter == if ptr != 0 then CounterAfter(old(counter), Allocated(ptr, size)) else old(counter)
    {
      if ptr != 0 {
        counter := Added(counter, size);
      }
    }

    method Dealloc(size: nat)
      modifies this
      ensures counter == CounterAfter(old(counter), Freed(size))
    {
      counter := Subtracted(counter, size);
    }

    method Realloc(oldSize: nat, newSize: nat, newPtr: Address)
      modifies this
      ensures counter ==
        if newPtr != 0 then CounterAfter(old(counter), Resized(newPtr, oldSize, newSize)) else old(counter)
    {
      if newPtr != 0 {
        if newSize >= oldSize {
          counter := Added(counter, newSize - oldSize);
        } else {
          counter := Subtracted(counter, oldSize - newSize);
        }
      }
    }
  }
}
