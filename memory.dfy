// The arena allocator of src/memory.h and src/memory.cpp.
//
// An arena owns one byte region (`buffer`, `capacity` bytes) and a
// high-water mark `bytes_allocated`. Pointers into the region are modelled
// as byte offsets from the arena's base, `None` standing for a null pointer.
// The model follows the code as written: `arena_push` hands out the base of
// the region, whatever the high-water mark is, and `arena_pop` compares the
// popped slice's start with the arena's end. The unsigned 64-bit sum and
// difference on `bytes_allocated` wrap around modulo 2^64.
//
// The value-level step functions (PushStep, PopStep, ...) say what each
// operation does to an arena's state; the class Arena carries the state in
// place and its methods are proved against those functions. The functions
// named Intended... describe the bump allocator the code evidently intends
// (`arena_pop` speaks of popping "the most recent" allocation); they are the
// corrected versions of the discrepancies listed in README.md.

module Memory {

  import opened NumTypes
  import opened Wrappers

  /** A saved high-water mark; a default Mark has position 0. */
  datatype Mark = Mark(position: u64)

  const DEFAULT_MARK: Mark := Mark(0)

  /**
   * An allocation handle: the arena it came from, its start as an offset
   * from that arena's base (None: a null pointer), and its size in bytes.
   */
  datatype Slice = Slice(parent: Arena?, buffer: Option<nat>, size: u64)
  {
    /** `is_valid`: the start pointer is not null. */
    predicate IsValid()
      ensures this == DEFAULT_SLICE ==> !IsValid()
    {
      buffer.Some?
    }

    /**
     * `operator[]`: the offset, in the parent's region, of byte `idx`.
     * Indexing needs `idx < size`; dereferencing a null start is undefined.
     */
    function At(idx: u64): (offset: nat)
      requires idx < size
      requires IsValid()
      ensures buffer.value <= offset < buffer.value + size
      ensures offset - buffer.value == idx
    {
      buffer.value + idx
    }
  }

  /** `Slice {}`: no parent, a null start and size 0. */
  const DEFAULT_SLICE: Slice := Slice(null, None, 0)

  /** The fields of an Arena; `hasBuffer` says whether `buffer` is non-null. */
  datatype ArenaState = ArenaState(hasBuffer: bool, capacity: u64, bytesAllocated: u64)

  const DEFAULT_ARENA_STATE: ArenaState := ArenaState(false, 0, 0)

  /** `arena_allocate`: a fresh region whose pointer is non-null when the heap granted it. */
  function AllocateStep(capacity: u64, heapGranted: bool): ArenaState
  {
    ArenaState(heapGranted, capacity, 0)
  }

  /** `arena_free`: releases the region but leaves `buffer` as it was. */
  function FreeStep(st: ArenaState): ArenaState
    requires st.hasBuffer
  {
    st.(capacity := 0, bytesAllocated := 0)
  }

  /** `arena_mark` */
  function MarkOf(st: ArenaState): Mark
  {
    Mark(st.bytesAllocated)
  }

  /** `arena_clear_to_mark`: no check that the mark belongs to this arena. */
  function ClearStep(st: ArenaState, m: Mark): ArenaState
  {
    st.(bytesAllocated := m.position)
  }

  /** The arena's base pointer as an offset: 0, or null when `buffer` is null. */
  function Base(st: ArenaState): Option<nat>
  {
    if st.hasBuffer then Some(0) else None
  }

  /** The guard of `arena_push` passes: the wrapped sum does not exceed the capacity. */
  predicate PushFits(st: ArenaState, numBytes: u64)
  {
    WrapAdd64(st.bytesAllocated, numBytes) <= st.capacity
  }

  /** What `arena_push` leaves in the arena and returns. */
  datatype Pushed = Pushed(after: ArenaState, slice: Slice)

  /** `arena_push` on arena `self` whose fields are `st`. */
  function PushStep(self: Arena, st: ArenaState, numBytes: u64): Pushed
  {
    if !PushFits(st, numBytes) then
      Pushed(st, DEFAULT_SLICE)
    else
      Pushed(st.(bytesAllocated := WrapAdd64(st.bytesAllocated, numBytes)),
             Slice(self, Base(st), numBytes))
  }

  /**
   * `arena->buffer + arena->bytes_allocated == p`. With a null `buffer` the
   * sum is a null pointer only when `bytes_allocated` is 0; otherwise it is
   * taken to point at no slice of this arena.
   */
  predicate IsEnd(st: ArenaState, p: Option<nat>)
    ensures IsEnd(st, p) ==> (p.Some? <==> st.hasBuffer)
    ensures IsEnd(st, p) && p.Some? ==> p.value == st.bytesAllocated
    ensures st.hasBuffer ==> (IsEnd(st, p) <==> p == Some(st.bytesAllocated))
  {
    if st.hasBuffer then p == Some(st.bytesAllocated)
    else p.None? && st.bytesAllocated == 0
  }

  /** `arena_pop` on arena `self` whose fields are `st`. */
  function PopStep(self: Arena, st: ArenaState, allocation: Slice): ArenaState
  {
    if self != allocation.parent then st
    else if !IsEnd(st, allocation.buffer) then st
    else st.(bytesAllocated := WrapSub64(st.bytesAllocated, allocation.size))
  }

  /** The state after pushing each of `sizes` in turn. */
  function PushAll(self: Arena, st: ArenaState, sizes: seq<u64>): ArenaState
    decreases |sizes|
  {
    if sizes == [] then st
    else PushAll(self, PushStep(self, st, sizes[0]).after, sizes[1..])
  }

  /** The slices returned by pushing each of `sizes` in turn. */
  function PushedSlices(self: Arena, st: ArenaState, sizes: seq<u64>): (r: seq<Slice>)
    ensures |r| == |sizes|
    decreases |sizes|
  {
    if sizes == [] then []
    else
      var p := PushStep(self, st, sizes[0]);
      [p.slice] + PushedSlices(self, p.after, sizes[1..])
  }

  /**
   * Each slice a sequence of pushes returns is either the default slice (a
   * rejected push) or a slice of the requested size at the arena's base.
   */
  lemma {:induction false} PushedSlicesShape(self: Arena, st: ArenaState, sizes: seq<u64>)
    ensures forall k :: 0 <= k < |sizes| ==>
              PushedSlices(self, st, sizes)[k] == DEFAULT_SLICE
              || PushedSlices(self, st, sizes)[k] == Slice(self, Base(st), sizes[k])
    decreases |sizes|
  {
    if sizes != [] {
      var p := PushStep(self, st, sizes[0]);
      PushedSlicesShape(self, p.after, sizes[1..]);
      assert Base(p.after) == Base(st);
    }
  }

  function Sum(sizes: seq<u64>): nat
  {
    if sizes == [] then 0 else sizes[0] + Sum(sizes[1..])
  }

  /** An arena whose fields are updated in place through a pointer. */
  class Arena {
    var hasBuffer: bool
    var capacity: u64
    var bytesAllocated: u64

    function State(): ArenaState
      reads this
    {
      ArenaState(hasBuffer, capacity, bytesAllocated)
    }

    /** `Arena {}`: a null buffer, no capacity, nothing allocated. */
    constructor Default()
      ensures State() == DEFAULT_ARENA_STATE
    {
      hasBuffer, capacity, bytesAllocated := false, 0, 0;
    }

    /** `arena_allocate`; whether the heap granted the region is a parameter. */
    constructor Allocate(requested: u64, heapGranted: bool)
      ensures State() == AllocateStep(requested, heapGranted)
      ensures capacity == requested && bytesAllocated == 0
    {
      hasBuffer := heapGranted;
      capacity := requested;
      bytesAllocated := 0;
    }

    method Free()
      requires hasBuffer
      modifies this
      ensures State() == FreeStep(old(State()))
      ensures hasBuffer && capacity == 0 && bytesAllocated == 0
    {
      bytesAllocated := 0;
      capacity := 0;
    }

    /** `arena_mark`: reads the high-water mark and changes nothing. */
    function CurrentMark(): (m: Mark)
      reads this
      ensures m == MarkOf(State())
    {
      Mark(bytesAllocated)
    }

    method ClearToMark(m: Mark)
      modifies this
      ensures State() == ClearStep(old(State()), m)
      ensures bytesAllocated == m.position
      ensures hasBuffer == old(hasBuffer) && capacity == old(capacity)
    {
      bytesAllocated := m.position;
    }

    /**
     * `arena_push`. The failed-capacity assertion does not stop the call: it
     * returns the default slice and changes nothing.
     */
    method Push(numBytes: u64) returns (result: Slice)
      modifies this
      ensures Pushed(State(), result) == PushStep(this, old(State()), numBytes)
    {
      var sum := WrapAdd64(bytesAllocated, numBytes);
      if sum > capacity {
        return DEFAULT_SLICE;
      }
      bytesAllocated := sum;
      result := Slice(this, if hasBuffer then Some(0) else None, numBytes);
    }

    /**
     * `arena_pop`. Both failed assertions return normally with the arena
     * unchanged.
     */
    method Pop(allocation: Slice)
      modifies this
      ensures State() == PopStep(this, old(State()), allocation)
    {
      if this != allocation.parent {
        return;
      }
      var endMatches := if hasBuffer then allocation.buffer == Some(bytesAllocated)
                        else allocation.buffer.None? && bytesAllocated == 0;
      if !endMatches {
        return;
      }
      bytesAllocated := WrapSub64(bytesAllocated, allocation.size);
    }
  }

  /**
   * The scoped-reset discipline: take a mark, push each of `sizes`, and
   * clear back to the mark on the way out.
   */
  method ScopedPushes(arena: Arena, sizes: seq<u64>) returns (slices: seq<Slice>)
    modifies arena
    ensures arena.State() == old(arena.State())
    ensures slices == PushedSlices(arena, old(arena.State()), sizes)
  {
    var m := arena.CurrentMark();
    ghost var start := arena.State();
    slices := [];
    var i := 0;
    while i < |sizes|
      invariant 0 <= i <= |sizes|
      invariant PushAll(arena, start, sizes[..i]) == arena.State()
      invariant slices + PushedSlices(arena, arena.State(), sizes[i..]) == PushedSlices(arena, start, sizes)
    {
      PushAllSnoc(arena, start, sizes[..i], sizes[i]);
      assert sizes[..i + 1] == sizes[..i] + [sizes[i]];
      assert sizes[i..][1..] == sizes[i + 1..];
      var s := arena.Push(sizes[i]);
      slices := slices + [s];
      i := i + 1;
    }
    assert sizes[..i] == sizes;
    ScopedResetRestores(arena, start, sizes);
    arena.ClearToMark(m);
  }

  /**
   * The two allocators the program hands around: `bump` for long-lived
   * memory and `tmp_bump` for memory that lives less than a frame.
   */
  datatype Context = Context(bump: Arena?, tmpBump: Arena?)

  const PROGRAM_ARENA_BYTES: u64 := 1024 * 1024 * 10
  const TEMPORARY_ARENA_BYTES: u64 := 1024 * 1024

  /**
   * The start of `main`: a 10 MiB arena for program-lifetime allocations and
   * a separate 1 MiB arena for temporary ones, wired into a Context.
   */
  method SetUpContext(bumpGranted: bool, tmpGranted: bool) returns (ctx: Context)
    ensures ctx.bump != null && ctx.tmpBump != null && ctx.bump != ctx.tmpBump
    ensures fresh(ctx.bump) && fresh(ctx.tmpBump)
    ensures ctx.bump.State() == AllocateStep(PROGRAM_ARENA_BYTES, bumpGranted)
    ensures ctx.tmpBump.State() == AllocateStep(TEMPORARY_ARENA_BYTES, tmpGranted)
  {
    var programLifetime := new Arena.Allocate(PROGRAM_ARENA_BYTES, bumpGranted);
    var temporaryLifetime := new Arena.Allocate(TEMPORARY_ARENA_BYTES, tmpGranted);
    ctx := Context(programLifetime, temporaryLifetime);
  }

  /**
   * A scope that draws scratch memory from `tmp_bump` and clears it on exit
   * leaves both arenas as they were.
   */
  method ScratchScope(ctx: Context, sizes: seq<u64>)
    requires ctx.bump != null && ctx.tmpBump != null && ctx.bump != ctx.tmpBump
    modifies ctx.tmpBump
    ensures ctx.tmpBump.State() == old(ctx.tmpBump.State())
    ensures ctx.bump.State() == old(ctx.bump.State())
  {
    var slices := ScopedPushes(ctx.tmpBump, sizes);
  }

  // ---------------------------------------------------------------------
  // Defaults and validity

  /** A default Slice, the one a rejected push returns, is not valid. */
  lemma DefaultSliceInvalid()
    ensures !DEFAULT_SLICE.IsValid() && DEFAULT_SLICE.size == 0 && DEFAULT_SLICE.parent == null
  {
  }

  /** A default Mark sits at position 0, the high-water mark of a fresh arena. */
  lemma DefaultMarkIsFreshArenaMark(capacity: u64, heapGranted: bool)
    ensures DEFAULT_MARK.position == 0
    ensures MarkOf(AllocateStep(capacity, heapGranted)) == DEFAULT_MARK
  {
  }

  // ---------------------------------------------------------------------
  // Allocate and free

  /** `arena_allocate` yields the requested capacity and nothing allocated. */
  lemma AllocateFresh(capacity: u64, heapGranted: bool)
    ensures AllocateStep(capacity, heapGranted).capacity == capacity
    ensures AllocateStep(capacity, heapGranted).bytesAllocated == 0
    ensures AllocateStep(capacity, heapGranted).hasBuffer == heapGranted
  {
  }

  /**
   * `arena_free` zeroes capacity and high-water mark but keeps the (now
   * dangling) buffer pointer: the arena still passes `arena_free`'s own
   * check, and a later push of 0 bytes succeeds with a non-null start.
   */
  lemma FreeKeepsBuffer(self: Arena, st: ArenaState)
    requires st.hasBuffer
    ensures FreeStep(st).capacity == 0 && FreeStep(st).bytesAllocated == 0
    ensures FreeStep(st).hasBuffer
    ensures PushStep(self, FreeStep(st), 0).slice.IsValid()
    ensures !PushStep(self, FreeStep(st), 1).slice.IsValid()
  {
  }

  // ---------------------------------------------------------------------
  // Mark and clear

  /** Clearing to the arena's own current mark changes nothing. */
  lemma ClearToCurrentMarkIsNoOp(st: ArenaState)
    ensures ClearStep(st, MarkOf(st)) == st
  {
  }

  /** After clearing, taking a mark gives back the mark cleared to. */
  lemma MarkAfterClear(st: ArenaState, m: Mark)
    ensures MarkOf(ClearStep(st, m)) == m
    ensures ClearStep(st, m).capacity == st.capacity
    ensures ClearStep(st, m).hasBuffer == st.hasBuffer
  {
  }

  // ---------------------------------------------------------------------
  // Push

  /** A push whose wrapped sum exceeds the capacity returns an invalid slice and changes nothing. */
  lemma PushRejected(self: Arena, st: ArenaState, numBytes: u64)
    requires WrapAdd64(st.bytesAllocated, numBytes) > st.capacity
    ensures PushStep(self, st, numBytes).after == st
    ensures PushStep(self, st, numBytes).slice == DEFAULT_SLICE
    ensures !PushStep(self, st, numBytes).slice.IsValid()
  {
  }

  /** Pushing more than the capacity into an empty arena is rejected. */
  lemma PushBeyondCapacityOnEmpty(self: Arena, st: ArenaState)
    requires st.bytesAllocated == 0 && st.capacity + 1 < U64_LIMIT
    ensures PushStep(self, st, st.capacity + 1).after == st
    ensures !PushStep(self, st, st.capacity + 1).slice.IsValid()
  {
  }

  /**
   * A push that fits without wrapping raises the high-water mark by exactly
   * `numBytes`, stays within the capacity, and returns a slice of this
   * arena of that size starting at the arena's base.
   */
  lemma PushAccepted(self: Arena, st: ArenaState, numBytes: u64)
    requires st.bytesAllocated + numBytes <= st.capacity
    ensures PushStep(self, st, numBytes).after.bytesAllocated == st.bytesAllocated + numBytes
    ensures PushStep(self, st, numBytes).after.bytesAllocated <= st.capacity
    ensures PushStep(self, st, numBytes).after.capacity == st.capacity
    ensures PushStep(self, st, numBytes).after.hasBuffer == st.hasBuffer
    ensures PushStep(self, st, numBytes).slice == Slice(self, Base(st), numBytes)
    ensures PushStep(self, st, numBytes).slice.IsValid() <==> st.hasBuffer
  {
  }

  /** Whatever happens, a push leaves `bytes_allocated <= capacity` if it held before. */
  lemma PushKeepsWithinCapacity(self: Arena, st: ArenaState, numBytes: u64)
    requires st.bytesAllocated <= st.capacity
    ensures PushStep(self, st, numBytes).after.bytesAllocated <= st.capacity
    ensures PushStep(self, st, numBytes).after.capacity == st.capacity
  {
  }

  /**
   * Every accepted push returns the arena's base, whatever the high-water
   * mark was: two successive pushes that both fit share their start, so
   * two non-empty allocations overlap.
   */
  lemma PushesShareStart(self: Arena, st: ArenaState, n1: u64, n2: u64)
    requires st.hasBuffer
    requires st.bytesAllocated + n1 + n2 <= st.capacity
    ensures var p1 := PushStep(self, st, n1);
            var p2 := PushStep(self, p1.after, n2);
            p1.slice.buffer == p2.slice.buffer == Some(0)
            && (n1 > 0 && n2 > 0 ==> p1.slice.At(0) == p2.slice.At(0))
  {
  }

  /**
   * A push whose sum wraps around 2^64 passes the guard: in a 16-byte arena
   * holding 8 bytes, pushing 2^64 - 4 bytes succeeds, lowers the mark to 4
   * and returns a slice far larger than the arena.
   */
  lemma WrappingPushSucceeds(self: Arena)
    ensures var st := ArenaState(true, 16, 8);
            var p := PushStep(self, st, U64_LIMIT - 4);
            p.slice.IsValid() && p.slice.size > st.capacity
            && p.after.bytesAllocated == 4 < st.bytesAllocated
  {
  }

  // ---------------------------------------------------------------------
  // Pop

  /** Popping a slice of another arena changes nothing. */
  lemma PopForeignIsNoOp(self: Arena, st: ArenaState, allocation: Slice)
    requires allocation.parent != self
    ensures PopStep(self, st, allocation) == st
  {
  }

  /** Popping a slice that does not start at the arena's end changes nothing. */
  lemma PopNotAtEndIsNoOp(self: Arena, st: ArenaState, allocation: Slice)
    requires !IsEnd(st, allocation.buffer)
    ensures PopStep(self, st, allocation) == st
  {
  }

  /** Otherwise pop lowers the mark by the slice's size (modulo 2^64). */
  lemma PopAtEnd(self: Arena, st: ArenaState, allocation: Slice)
    requires allocation.parent == self && IsEnd(st, allocation.buffer)
    ensures PopStep(self, st, allocation).bytesAllocated
            == WrapSub64(st.bytesAllocated, allocation.size)
    ensures allocation.size <= st.bytesAllocated ==>
              PopStep(self, st, allocation).bytesAllocated == st.bytesAllocated - allocation.size
    ensures PopStep(self, st, allocation).capacity == st.capacity
  {
  }

  /**
   * Popping the slice a non-empty, non-wrapping push just returned takes
   * the "not the most recent" branch: the push is not undone.
   */
  lemma PopOfPushFails(self: Arena, st: ArenaState, numBytes: u64)
    requires numBytes > 0 && st.bytesAllocated + numBytes <= st.capacity
    ensures var p := PushStep(self, st, numBytes);
            PopStep(self, p.after, p.slice) == p.after
            && p.after.bytesAllocated == st.bytesAllocated + numBytes
  {
  }

  /**
   * Pop can take the mark below zero: push 5 bytes into an empty 16-byte
   * arena, clear back to the initial mark, then pop the slice. Its start
   * equals the arena's end, so 5 is subtracted from 0 and the mark wraps
   * far past the capacity.
   */
  lemma PopCanUnderflow(self: Arena)
    ensures var st := ArenaState(true, 16, 0);
            var p := PushStep(self, st, 5);
            var cleared := ClearStep(p.after, MarkOf(st));
            var popped := PopStep(self, cleared, p.slice);
            popped.bytesAllocated == U64_LIMIT - 5 && popped.bytesAllocated > popped.capacity
  {
  }

  // ---------------------------------------------------------------------
  // Sequences of pushes and the scoped reset

  /** Pushing `sizes + [n]` is pushing `sizes`, then `n`. */
  lemma {:induction false} PushAllSnoc(self: Arena, st: ArenaState, sizes: seq<u64>, n: u64)
    ensures PushAll(self, st, sizes + [n]) == PushStep(self, PushAll(self, st, sizes), n).after
    decreases |sizes|
  {
    if sizes != [] {
      assert (sizes + [n])[1..] == sizes[1..] + [n];
      PushAllSnoc(self, PushStep(self, st, sizes[0]).after, sizes[1..], n);
    }
  }

  /** Pushes never change the buffer pointer or the capacity. */
  lemma {:induction false} PushAllKeepsRegion(self: Arena, st: ArenaState, sizes: seq<u64>)
    ensures PushAll(self, st, sizes).hasBuffer == st.hasBuffer
    ensures PushAll(self, st, sizes).capacity == st.capacity
    decreases |sizes|
  {
    if sizes != [] {
      PushAllKeepsRegion(self, PushStep(self, st, sizes[0]).after, sizes[1..]);
    }
  }

  /**
   * Mark, any pushes (accepted or not), then clear to the mark: the arena
   * is back exactly where it was when marked.
   */
  lemma {:induction false} ScopedResetRestores(self: Arena, st: ArenaState, sizes: seq<u64>)
    ensures ClearStep(PushAll(self, st, sizes), MarkOf(st)) == st
  {
    PushAllKeepsRegion(self, st, sizes);
  }

  /**
   * While the total stays within the capacity, every push is accepted, the
   * mark after them is the mark before plus their total, and every slice
   * returned starts at the arena's base.
   */
  lemma {:induction false} PushAllAccumulates(self: Arena, st: ArenaState, sizes: seq<u64>)
    requires st.bytesAllocated + Sum(sizes) <= st.capacity
    ensures PushAll(self, st, sizes) == st.(bytesAllocated := st.bytesAllocated + Sum(sizes))
    ensures forall k :: 0 <= k < |sizes| ==>
              PushedSlices(self, st, sizes)[k] == Slice(self, Base(st), sizes[k])
    decreases |sizes|
  {
    if sizes != [] {
      var p := PushStep(self, st, sizes[0]);
      assert p.after == st.(bytesAllocated := st.bytesAllocated + sizes[0]);
      PushAllAccumulates(self, p.after, sizes[1..]);
      assert Base(p.after) == Base(st);
    }
  }

  // ---------------------------------------------------------------------
  // The bump allocator the code evidently intends (corrected push and pop)

  /**
   * Push as intended: reject when `numBytes` exceeds the room left (no
   * wrap-around), otherwise return the region that starts at the old mark.
   */
  function IntendedPushStep(self: Arena, st: ArenaState, numBytes: u64): Pushed
    requires st.bytesAllocated <= st.capacity
  {
    if numBytes > st.capacity - st.bytesAllocated then
      Pushed(st, DEFAULT_SLICE)
    else
      Pushed(st.(bytesAllocated := st.bytesAllocated + numBytes),
             Slice(self, if st.hasBuffer then Some(st.bytesAllocated) else None, numBytes))
  }

  /** Pop as intended: only the slice that ends at the arena's end is popped. */
  function IntendedPopStep(self: Arena, st: ArenaState, allocation: Slice): ArenaState
    requires st.hasBuffer
  {
    if self != allocation.parent then st
    else if allocation.buffer.None? then st
    else if allocation.buffer.value + allocation.size != st.bytesAllocated then st
    else st.(bytesAllocated := st.bytesAllocated - allocation.size)
  }

  /**
   * An accepted intended push stays inside the region and raises the mark
   * by exactly the request; a rejected one changes nothing and returns an
   * invalid slice.
   */
  lemma IntendedPushStaysInBounds(self: Arena, st: ArenaState, numBytes: u64)
    requires st.hasBuffer && st.bytesAllocated <= st.capacity
    ensures var p := IntendedPushStep(self, st, numBytes);
            if st.bytesAllocated + numBytes <= st.capacity then
              p.slice.IsValid()
              && p.slice.buffer.value + p.slice.size <= st.capacity
              && p.after.bytesAllocated == st.bytesAllocated + numBytes
            else
              p.after == st && !p.slice.IsValid()
  {
  }

  /** Two successive intended pushes return adjacent, disjoint regions. */
  lemma IntendedPushesAreDisjoint(self: Arena, st: ArenaState, n1: u64, n2: u64)
    requires st.hasBuffer
    requires st.bytesAllocated + n1 + n2 <= st.capacity
    ensures var p1 := IntendedPushStep(self, st, n1);
            var p2 := IntendedPushStep(self, p1.after, n2);
            p1.slice.buffer.value + p1.slice.size == p2.slice.buffer.value
            && p1.slice.buffer.value == st.bytesAllocated
  {
  }

  /** Popping the slice an intended push just returned undoes the push. */
  lemma IntendedPopUndoesPush(self: Arena, st: ArenaState, numBytes: u64)
    requires st.hasBuffer && st.bytesAllocated + numBytes <= st.capacity
    ensures var p := IntendedPushStep(self, st, numBytes);
            IntendedPopStep(self, p.after, p.slice) == st
  {
  }

  /** An intended pop never takes the mark below zero or above where it was. */
  lemma IntendedPopKeepsBound(self: Arena, st: ArenaState, allocation: Slice)
    requires st.hasBuffer && st.bytesAllocated <= st.capacity
    ensures IntendedPopStep(self, st, allocation).bytesAllocated <= st.bytesAllocated
    ensures IntendedPopStep(self, st, allocation).capacity == st.capacity
  {
  }
}
