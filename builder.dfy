/**
 * The allocator object and the builder wrapper of src/main.cc, with the
 * fields the source mutates. Every method is proved to move the object's
 * state exactly as the corresponding function of module Arena says, and each
 * object records the calls made on it: its state is always the result of
 * Arena.Run on that history, so the lemmas about runs (exported regions are
 * never freed, at most one export until the kept pointer is released) apply
 * to these objects.
 */
module Builder {
  import opened Arena

  class Allocator {
    var keepAllocPtr: Ptr
    var lastAllocPtr: Ptr
    var lastAllocLen: nat

    /** Regions obtained from malloc through this allocator and not freed by it. */
    ghost var live: set<Ptr>
    /** Blocks FlatBuffers received from Allocate and has not passed to Deallocate. */
    ghost var held: set<Ptr>
    /** Regions handed out by GetAndKeepBuf. */
    ghost var exported: set<Ptr>
    /** Every call made on this allocator so far, oldest first. */
    ghost var calls: seq<Op>

    ghost function State(): Arena.State
      reads this
    {
      Arena.State(keepAllocPtr, lastAllocPtr, lastAllocLen, live, held, exported)
    }

    /**
     * The state keeps the invariant of Arena and is exactly where Arena.Run
     * takes the initial state on the calls made so far, so every lemma about
     * runs applies to this object.
     */
    ghost predicate Valid()
      reads this
    {
      && Arena.Valid(State())
      && Run(Init(), calls) == Ok(State())
    }

    constructor ()
      ensures Valid() && State() == Init() && calls == []
    {
      keepAllocPtr, lastAllocPtr, lastAllocLen := Null, Null, 0;
      live, held, exported := {}, {}, {};
      calls := [];
    }

    /** allocate(size); `block` is the value malloc(size) returned (Null when it failed). */
    method Allocate(size: nat, block: Ptr) returns (ptr: Ptr)
      requires Valid() && MallocFresh(State(), block)
      modifies this
      ensures Valid() && calls == old(calls) + [AllocateCall(size, block)]
      ensures (State(), ptr) == Arena.Allocate(old(State()), size, block)
      ensures ptr == block
      ensures ptr == Null ==> State() == old(State())
      ensures ptr != Null ==>
        && ptr !in old(live) && live == old(live) + {ptr} && held == old(held) + {ptr}
        && lastAllocPtr == ptr && lastAllocLen == size
      ensures keepAllocPtr == old(keepAllocPtr) && exported == old(exported)
    {
      RunSnoc(Init(), calls, AllocateCall(size, block));
      calls := calls + [AllocateCall(size, block)];
      ptr := block;
      if ptr == Null {
        return;
      }
      live, held := live + {ptr}, held + {ptr};
      lastAllocPtr := ptr;
      lastAllocLen := size;
    }

    /**
     * deallocate(ptr, size); the size argument is unused, as in the source.
     * FlatBuffers passes null or a block it holds.
     */
    method Deallocate(ptr: Ptr, size: nat)
      requires Valid() && Releasable(State(), ptr)
      modifies this
      ensures Valid() && calls == old(calls) + [DeallocateCall(ptr)]
      ensures Arena.Deallocate(old(State()), ptr) == Ok(State())
      ensures held == old(held) - {ptr}
      ensures ptr == old(lastAllocPtr) ==> lastAllocPtr == Null && lastAllocLen == 0
      ensures ptr != old(lastAllocPtr) ==> lastAllocPtr == old(lastAllocPtr) && lastAllocLen == old(lastAllocLen)
      ensures ptr == old(keepAllocPtr) ==> keepAllocPtr == Null && live == old(live)
      ensures ptr != old(keepAllocPtr) ==> keepAllocPtr == old(keepAllocPtr) && live == old(live) - {ptr}
      ensures old(exported) <= live && exported == old(exported)
    {
      RunSnoc(Init(), calls, DeallocateCall(ptr));
      calls := calls + [DeallocateCall(ptr)];
      held := held - {ptr};
      if ptr == lastAllocPtr {
        lastAllocPtr := Null;
        lastAllocLen := 0;
      }
      if ptr == keepAllocPtr {
        // The region was exported: it is not freed, and a later export is possible again.
        keepAllocPtr := Null;
        return;
      }
      live := live - {ptr};  // free(ptr)
    }

    /** GetAndKeepBuf(data_ptr, data_len): the four assertions are the preconditions. */
    method GetAndKeepBuf(dataPtr: Ptr, dataLen: nat) returns (buf: DenoBuf)
      requires Valid()
      requires lastAllocPtr != Null
      requires keepAllocPtr == Null
      requires dataPtr >= lastAllocPtr
      requires dataPtr + dataLen <= lastAllocPtr + lastAllocLen
      modifies this
      ensures Valid() && calls == old(calls) + [ExportCall(dataPtr, dataLen)]
      ensures Arena.GetAndKeepBuf(old(State()), dataPtr, dataLen) == Ok((State(), buf))
      ensures keepAllocPtr == lastAllocPtr == old(lastAllocPtr) && lastAllocLen == old(lastAllocLen)
      ensures buf == DenoBuf(old(lastAllocPtr), old(lastAllocLen), dataPtr, dataLen)
      ensures SliceContained(buf)
      ensures live == old(live) && held == old(held)
      ensures exported == old(exported) + {old(lastAllocPtr)}
      ensures forall p, l :: !ExportAllowed(State(), p, l)
    {
      RunSnoc(Init(), calls, ExportCall(dataPtr, dataLen));
      calls := calls + [ExportCall(dataPtr, dataLen)];
      keepAllocPtr := lastAllocPtr;
      exported := exported + {lastAllocPtr};
      buf := DenoBuf(lastAllocPtr, lastAllocLen, dataPtr, dataLen);
    }
  }

  /**
   * The wrapper around flatbuffers::FlatBufferBuilder. Only the part this
   * model covers is kept: the builder owns one Allocator, and ExportBuf hands
   * the finished buffer out through it. The builder's own buffer pointer and
   * size (GetBufferPointer, GetSize) come in as arguments.
   */
  class FlatBufferBuilder {
    /** The initial buffer size the builder asks FlatBuffers for. */
    static const DefaultInitialSize: nat := 1024

    const allocator: Allocator

    constructor ()
      ensures fresh(allocator) && allocator.Valid() && allocator.State() == Init() && allocator.calls == []
    {
      allocator := new Allocator();
    }

    /**
     * ExportBuf(): the caller receives a deno_buf and becomes the owner of its
     * allocation. A second export before the kept pointer is released fails
     * the precondition.
     */
    method ExportBuf(dataPtr: Ptr, dataLen: nat) returns (buf: DenoBuf)
      requires allocator.Valid()
      requires ExportAllowed(allocator.State(), dataPtr, dataLen)
      modifies allocator
      ensures allocator.Valid() && allocator.calls == old(allocator.calls) + [ExportCall(dataPtr, dataLen)]
      ensures Arena.GetAndKeepBuf(old(allocator.State()), dataPtr, dataLen) == Ok((allocator.State(), buf))
      ensures buf.allocPtr == old(allocator.lastAllocPtr) && buf.allocLen == old(allocator.lastAllocLen)
      ensures buf.dataPtr == dataPtr && buf.dataLen == dataLen && SliceContained(buf)
      ensures forall p, l :: !ExportAllowed(allocator.State(), p, l)
    {
      buf := allocator.GetAndKeepBuf(dataPtr, dataLen);
    }
  }

  /**
   * The life of one builder as FlatBuffers drives it: a first allocation, a
   * larger one when the first is outgrown (followed by releasing the small
   * one), the export of the finished message, and the reset or destruction
   * that releases the exported buffer. The small buffer is freed; the
   * exported one stays live for its new owner, and the builder can export
   * again.
   */
  method BuildGrowExportReset(first: Ptr, second: Ptr, offset: nat, len: nat)
    returns (b: FlatBufferBuilder, buf: DenoBuf)
    requires first != Null && second != Null && first != second
    requires offset + len <= 2 * FlatBufferBuilder.DefaultInitialSize
    ensures fresh(b) && fresh(b.allocator) && b.allocator.Valid()
    ensures buf == DenoBuf(second, 2 * FlatBufferBuilder.DefaultInitialSize, second + offset, len)
    ensures first !in b.allocator.live && second in b.allocator.live
    ensures b.allocator.keepAllocPtr == Null && b.allocator.lastAllocPtr == Null
    ensures b.allocator.held == {} && b.allocator.exported == {second}
  {
    b := new FlatBufferBuilder();
    var p := b.allocator.Allocate(FlatBufferBuilder.DefaultInitialSize, first);
    p := b.allocator.Allocate(2 * FlatBufferBuilder.DefaultInitialSize, second);
    b.allocator.Deallocate(first, FlatBufferBuilder.DefaultInitialSize);
    buf := b.ExportBuf(second + offset, len);
    b.allocator.Deallocate(second, 2 * FlatBufferBuilder.DefaultInitialSize);
  }
}
