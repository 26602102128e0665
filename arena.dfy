/**
 * A value-level model of the buffer-ownership allocator that the message
 * builder of src/main.cc installs under FlatBuffers (FlatBufferBuilder::Allocator).
 *
 * Addresses are natural numbers and 0 plays the part of nullptr. Besides the
 * allocator's three real fields the state carries three sets the program does
 * not store but which give its guarantees a meaning:
 *   - live: the regions this allocator obtained from malloc and has not freed;
 *   - held: the blocks FlatBuffers received from allocate and has not yet
 *     passed back to deallocate (FlatBuffers' side of the contract: it only
 *     deallocates what it holds, each block once);
 *   - exported: every region ever handed out by GetAndKeepBuf.
 * The class Builder.Allocator is proved against the functions of this module.
 */
module Arena {

  /** An address; Null is nullptr. */
  type Ptr = nat
  const Null: Ptr := 0

  /** The deno_buf record: the whole raw allocation plus the slice of interest. */
  datatype DenoBuf = DenoBuf(allocPtr: Ptr, allocLen: nat, dataPtr: Ptr, dataLen: nat)

  /** The data slice lies inside the allocation it came from. */
  predicate SliceContained(b: DenoBuf)
  {
    b.allocPtr <= b.dataPtr && b.dataPtr + b.dataLen <= b.allocPtr + b.allocLen
  }

  /** keep, last and lastLen are keep_alloc_ptr_, last_alloc_ptr_ and last_alloc_len_. */
  datatype State = State(keep: Ptr, last: Ptr, lastLen: nat,
                         live: set<Ptr>, held: set<Ptr>, exported: set<Ptr>)

  /**
   * Why an operation cannot go on. The first four are the assertions of
   * GetAndKeepBuf in the order the source checks them; InvalidFree is a call
   * of deallocate with a block FlatBuffers does not hold (one it never got,
   * or one it already gave back); MallocNotFresh marks a trace in which
   * malloc returned an address that is still live, which no execution does.
   */
  datatype Fault =
    | NotAllocated
    | AlreadyKept
    | DataBeforeAllocation
    | DataPastAllocation
    | InvalidFree
    | MallocNotFresh

  datatype Result<T> = Ok(value: T) | Err(fault: Fault)

  /** The allocator as the builder's constructor leaves it: all fields null. */
  function Init(): State
  {
    State(Null, Null, 0, {}, {}, {})
  }

  /**
   * The invariant every reachable state keeps: held blocks are live, the
   * tracked allocation and the kept pointer are held, the kept pointer is the
   * only exported block FlatBuffers still holds, and no exported region has
   * been freed.
   */
  predicate Valid(s: State)
  {
    && Null !in s.live
    && s.held <= s.live
    && (s.last != Null ==> s.last in s.held)
    && (s.last == Null ==> s.lastLen == 0)
    && (s.keep != Null ==> s.keep in s.held && s.keep in s.exported)
    && (forall x :: x in s.exported && x in s.held ==> x == s.keep)
    && s.exported <= s.live
  }

  /** malloc's contract as modelled: it fails (returns null) or returns a region that is not live. */
  predicate MallocFresh(s: State, block: Ptr)
  {
    block == Null || block !in s.live
  }

  /**
   * allocate(size), where `block` is the value malloc(size) returned. The
   * result pairs the new state with the pointer returned to the builder.
   */
  function Allocate(s: State, size: nat, block: Ptr): (r: (State, Ptr))
    requires MallocFresh(s, block)
    ensures r.1 == block
    ensures block == Null ==> r.0 == s
    ensures block != Null ==>
      && block !in s.live && r.0.live == s.live + {block} && r.0.held == s.held + {block}
      && r.0.last == block && r.0.lastLen == size
    ensures r.0.keep == s.keep && r.0.exported == s.exported
    ensures Valid(s) ==> Valid(r.0)
  {
    if block == Null then (s, Null)
    else (s.(last := block, lastLen := size, live := s.live + {block}, held := s.held + {block}), block)
  }

  /** FlatBuffers' precondition for deallocate: null, or a block it holds. */
  predicate Releasable(s: State, ptr: Ptr)
  {
    ptr == Null || ptr in s.held
  }

  /**
   * deallocate(ptr, size); the size argument is unused by the source. The
   * block is no longer held; it is freed unless it is the kept pointer.
   */
  function Deallocate(s: State, ptr: Ptr): (r: Result<State>)
    ensures r.Ok? <==> Releasable(s, ptr)
    ensures r.Ok? ==>
      && r.value.held == s.held - {ptr}
      && r.value.exported == s.exported
      && (ptr == s.last ==> r.value.last == Null && r.value.lastLen == 0)
      && (ptr != s.last ==> r.value.last == s.last && r.value.lastLen == s.lastLen)
      && (ptr == s.keep ==> r.value.keep == Null && r.value.live == s.live)
      && (ptr != s.keep ==> r.value.keep == s.keep && r.value.live == s.live - {ptr})
    ensures r.Ok? && Valid(s) ==> Valid(r.value) && s.exported <= r.value.live
    ensures r.Ok? && Valid(s) && ptr != s.keep ==> ptr !in s.exported
  {
    if !Releasable(s, ptr) then Err(InvalidFree)
    else
      var s1 := if ptr == s.last then s.(last := Null, lastLen := 0) else s;
      var s2 := s1.(held := s1.held - {ptr});
      if ptr == s.keep then Ok(s2.(keep := Null))
      else Ok(s2.(live := s2.live - {ptr}))
  }

  /** The four assertions that guard GetAndKeepBuf. */
  predicate ExportAllowed(s: State, dataPtr: Ptr, dataLen: nat)
  {
    && s.last != Null
    && s.keep == Null
    && dataPtr >= s.last
    && dataPtr + dataLen <= s.last + s.lastLen
  }

  /**
   * GetAndKeepBuf(data_ptr, data_len). The four checks are C assert()s: in a
   * debug build a failed one aborts the process, and in a build with NDEBUG
   * they are not evaluated. The model takes them as always checked; a failed
   * one is the Err naming the first assertion that fails.
   */
  function GetAndKeepBuf(s: State, dataPtr: Ptr, dataLen: nat): (r: Result<(State, DenoBuf)>)
    ensures r.Ok? <==> ExportAllowed(s, dataPtr, dataLen)
    ensures r.Ok? ==>
      && r.value.1.allocPtr == s.last && r.value.1.allocLen == s.lastLen
      && r.value.1.dataPtr == dataPtr && r.value.1.dataLen == dataLen
      && SliceContained(r.value.1)
      && r.value.0.keep == r.value.0.last == s.last && r.value.0.lastLen == s.lastLen
      && r.value.0.live == s.live && r.value.0.held == s.held
      && r.value.0.exported == s.exported + {s.last}
    ensures r.Ok? && Valid(s) ==> Valid(r.value.0)
    ensures r.Ok? ==> forall p, l :: !ExportAllowed(r.value.0, p, l)
  {
    if s.last == Null then Err(NotAllocated)
    else if s.keep != Null then Err(AlreadyKept)
    else if dataPtr < s.last then Err(DataBeforeAllocation)
    else if dataPtr + dataLen > s.last + s.lastLen then Err(DataPastAllocation)
    else Ok((s.(keep := s.last, exported := s.exported + {s.last}),
             DenoBuf(s.last, s.lastLen, dataPtr, dataLen)))
  }

  /** The calls FlatBuffers (and ExportBuf) make on the allocator. */
  datatype Op =
    | AllocateCall(size: nat, block: Ptr)
    | DeallocateCall(ptr: Ptr)
    | ExportCall(dataPtr: Ptr, dataLen: nat)

  function Step(s: State, op: Op): Result<State>
  {
    match op
    case AllocateCall(size, block) =>
      if MallocFresh(s, block) then Ok(Allocate(s, size, block).0) else Err(MallocNotFresh)
    case DeallocateCall(ptr) => Deallocate(s, ptr)
    case ExportCall(p, l) =>
      match GetAndKeepBuf(s, p, l)
      case Ok(res) => Ok(res.0)
      case Err(f) => Err(f)
  }

  /** Runs a sequence of calls, stopping at the first fault. */
  function Run(s: State, ops: seq<Op>): Result<State>
    decreases |ops|
  {
    if ops == [] then Ok(s)
    else
      match Step(s, ops[0])
      case Err(f) => Err(f)
      case Ok(s') => Run(s', ops[1..])
  }

  lemma StepKeepsExported(s: State, op: Op)
    requires Valid(s) && Step(s, op).Ok?
    ensures Valid(Step(s, op).value)
    ensures s.exported <= Step(s, op).value.exported
    ensures Step(s, op).value.exported <= Step(s, op).value.live
  {
  }

  /**
   * Over any run of calls the invariant holds throughout, nothing once
   * exported stops being exported, and no exported region is ever freed by
   * the allocator.
   */
  lemma {:induction false} RunKeepsExportedLive(s: State, ops: seq<Op>)
    requires Valid(s) && Run(s, ops).Ok?
    ensures Valid(Run(s, ops).value)
    ensures s.exported <= Run(s, ops).value.exported
    ensures s.exported <= Run(s, ops).value.live
    decreases |ops|
  {
    if ops != [] {
      StepKeepsExported(s, ops[0]);
      RunKeepsExportedLive(Step(s, ops[0]).value, ops[1..]);
    }
  }

  /**
   * Once a buffer is kept, no export succeeds until the kept pointer is
   * deallocated: a run that never deallocates it keeps the same kept pointer
   * throughout, so the assertion that nothing is kept can never hold again.
   * The next export still fails, either on that assertion or on an earlier
   * one (for instance the assertion that an allocation is tracked, when the
   * last allocation was released in between), or the run faults before it.
   */
  lemma {:induction false} SecondExportRejected(s: State, ops: seq<Op>, dataPtr: Ptr, dataLen: nat)
    requires s.keep != Null
    requires forall i :: 0 <= i < |ops| ==> ops[i] != DeallocateCall(s.keep)
    ensures Run(s, ops).Ok? ==> Run(s, ops).value.keep == s.keep
    ensures Run(s, ops + [ExportCall(dataPtr, dataLen)]).Err?
    decreases |ops|
  {
    var e := ExportCall(dataPtr, dataLen);
    if ops == [] {
      assert Run(s, [e]) == Step(s, e);
    } else {
      assert (ops + [e])[0] == ops[0];
      assert (ops + [e])[1..] == ops[1..] + [e];
      match Step(s, ops[0])
      case Err(_) =>
      case Ok(s') =>
        assert Run(s, ops + [e]) == Run(s', ops[1..] + [e]);
        assert s'.keep == s.keep;
        forall i | 0 <= i < |ops[1..]| ensures ops[1..][i] != DeallocateCall(s'.keep) {
          assert ops[1..][i] == ops[i + 1];
        }
        SecondExportRejected(s', ops[1..], dataPtr, dataLen);
    }
  }

  /**
   * Releasing the kept pointer does not free it and clears keep_alloc_ptr_.
   * The guard then no longer covers that address: a second release of it
   * would reach free(), and it is a call FlatBuffers may not make, because
   * the block is no longer held.
   */
  lemma ReleaseKeptThenAgain(s: State)
    requires Valid(s) && s.keep != Null
    ensures Deallocate(s, s.keep).Ok?
    ensures Deallocate(s, s.keep).value.live == s.live
    ensures Deallocate(s, s.keep).value.keep == Null
    ensures s.keep !in Deallocate(s, s.keep).value.held
    ensures Deallocate(Deallocate(s, s.keep).value, s.keep) == Err(InvalidFree)
  {
  }

  /**
   * No double free: a block deallocate frees was held, was never exported,
   * is no longer held afterwards, and so cannot be deallocated again.
   */
  lemma FreedRegionNotFreedAgain(s: State, ptr: Ptr)
    requires Valid(s) && ptr != Null && Deallocate(s, ptr).Ok?
    requires ptr !in Deallocate(s, ptr).value.live
    ensures ptr in s.held && ptr !in s.exported
    ensures ptr !in Deallocate(s, ptr).value.held
    ensures Deallocate(Deallocate(s, ptr).value, ptr) == Err(InvalidFree)
  {
  }

  /** A run extended by one call ends where that call takes the run's final state. */
  lemma {:induction false} RunSnoc(s: State, ops: seq<Op>, op: Op)
    requires Run(s, ops).Ok?
    ensures Run(s, ops + [op]) == Step(Run(s, ops).value, op)
    decreases |ops|
  {
    if ops == [] {
      assert Run(s, [op]) == Step(s, op);
    } else {
      assert (ops + [op])[0] == ops[0];
      assert (ops + [op])[1..] == ops[1..] + [op];
      RunSnoc(Step(s, ops[0]).value, ops[1..], op);
    }
  }

  /**
   * The builder's reset deallocates the exported buffer; after that a fresh
   * allocation can be exported again.
   */
  lemma {:induction false} ExportAgainAfterReset(s: State, size: nat, block: Ptr)
    requires Valid(s) && s.keep != Null && s.keep == s.last
    requires block != Null && block !in s.live
    ensures Run(s, [DeallocateCall(s.keep), AllocateCall(size, block), ExportCall(block, size)]).Ok?
  {
    var ops := [DeallocateCall(s.keep), AllocateCall(size, block), ExportCall(block, size)];
    var s1 := Deallocate(s, s.keep).value;
    assert s1.keep == Null && s1.live == s.live;
    assert Step(s, ops[0]) == Ok(s1);
    assert MallocFresh(s1, block);
    var s2 := Allocate(s1, size, block).0;
    assert Step(s1, ops[1]) == Ok(s2);
    assert ExportAllowed(s2, block, size);
    var s3 := GetAndKeepBuf(s2, block, size).value.0;
    assert Step(s2, ops[2]) == Ok(s3);
    assert Run(s2, ops[2..]) == Run(s3, ops[3..]);
    assert Run(s1, ops[1..]) == Run(s2, ops[2..]);
    assert Run(s, ops) == Run(s1, ops[1..]);
  }

  /**
   * The export guard only remembers the kept pointer. If the builder keeps
   * growing after an export, it deallocates the kept buffer while copying into
   * the larger one, and a second export from the same builder, with no reset
   * in between, passes every assertion.
   */
  lemma ExportAgainAfterGrowth()
    ensures Run(Init(), [AllocateCall(1024, 1), ExportCall(1, 16),
                         AllocateCall(2048, 4096), DeallocateCall(1),
                         ExportCall(4096, 32)]).Ok?
  {
    var ops := [AllocateCall(1024, 1), ExportCall(1, 16),
                AllocateCall(2048, 4096), DeallocateCall(1), ExportCall(4096, 32)];
    var s1 := Allocate(Init(), 1024, 1).0;
    var s2 := GetAndKeepBuf(s1, 1, 16).value.0;
    var s3 := Allocate(s2, 2048, 4096).0;
    var s4 := Deallocate(s3, 1).value;
    assert Run(Init(), ops) == Run(s1, ops[1..]);
    assert Run(s1, ops[1..]) == Run(s2, ops[2..]);
    assert Run(s2, ops[2..]) == Run(s3, ops[3..]);
    assert Run(s3, ops[3..]) == Run(s4, ops[4..]);
    assert ExportAllowed(s4, 4096, 32);
  }
}
