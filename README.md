# editor core: arena allocator, Array<T>, matrix helpers and renderer selection rules

This project models the core of a small C++ Vulkan editor. It proves properties of that model.

- **Arena allocator** (`src/memory.h`, `src/memory.cpp`), in `memory.dfy`, module `Memory`.
  - An `Arena` owns one heap region and a high-water mark `bytes_allocated`.
  - `arena_push` hands out `Slice`s, and `arena_pop` gives back the most recent one.
  - `arena_mark` and `arena_clear_to_mark` save and restore the mark.
  - The class `Memory.Arena` holds the three fields and is updated in place. Each method is proved equal to a step function on an `ArenaState` value (`PushStep`, `PopStep`, `ClearStep`, ...), and the lemmas are about those functions.
  - Pointers into a region are byte offsets from its base. `None` is the null pointer.
  - `main` sets up two arenas, 10 MiB for program-lifetime data and 1 MiB for temporary data, in a `Context`. This is `SetUpContext`.
  - The scoped-reset pattern is mark, pushes, then clear. It is `ScopedPushes`.
- **`Array<T>`** (`src/array.h`), in `array.dfy`, module `Containers`. A fixed-capacity array with `data`, `size` (capacity) and `count` (elements in use). It is a class whose storage is a Dafny `array`.
- **Math helpers** (`src/mathlib.h`), in `mathlib.dfy`, module `MathLib`:
  - `clamp` and the `Vec3` clamp;
  - the column-major layout of `Matrix4` and its constructor;
  - `operator()`, `transpose` and `mat4_eq`.
- **Selection rules of `src/main.cpp`**, in `selection.dfy`, module `Selection`:
  - the graphics queue family;
  - the memory type for an allocation;
  - the physical device;
  - the swapchain format and the depth format;
  - the swapchain image count;
  - the frame slot of each frame.
- **Shared definitions**, in `base.dfy`: fixed-width integer types with explicit wrap-around (`NumTypes`) and `Option` (`Wrappers`).

The model follows the code as written:
- `ASSERT` and `ASSERT_FAILED_MSG` report a failure and return (`src/core.h:85-87`). So when the code returns after a failed check, the model has a branch that returns the same value.
- A few `ASSERT`s state what a function requires of its caller. In the model these are preconditions: the one in `arena_free` (a non-null buffer), every `ASSERT` in `array.h`, and the index check of `Slice::operator[]`. The model does not cover calls that break them.
- `arena_push` and `arena_pop` behave differently from the bump allocator the code evidently intends. The failure message of `arena_pop` calls the popped slice "the most recent" allocation, and the arena hands out memory in order up to its high-water mark.
  - A bump allocator returns the region that starts at the old high-water mark. `arena_push` returns the region's base instead.
  - It pops the slice whose *end* is the arena's end. `arena_pop` compares the slice's *start* with the arena's end.
  - The model follows the code. The members named `Intended...` describe the evident intent; they are the corrected versions of the Findings below.

## Model

| member | source | states |
|---|---|---|
| NumTypes.WrapAdd64 | src/memory.cpp:32 | unsigned 64-bit addition: the exact sum below 2^64, the sum minus 2^64 above |
| NumTypes.WrapSub64 | src/memory.cpp:63 | unsigned 64-bit subtraction: the exact difference when it is not negative, otherwise the difference plus 2^64 |
| NumTypes.TruncU32 | src/main.cpp:782 | storing a value in a u32 keeps it when it fits and drops 2^32 when it is in the next range |
| Memory.Slice.IsValid | src/memory.h:34-37 | `is_valid`: a slice is valid when its start is not null; the default slice is not valid |
| Memory.Slice.At | src/memory.h:28-32 | byte `idx` of a slice lies inside the slice, at distance `idx` from its start |
| Memory.Arena.Default | src/memory.h:4-9 | a default arena has a null buffer, capacity 0 and nothing allocated |
| Memory.Arena.Allocate | src/memory.cpp:3-10 | the new arena has the requested capacity and mark 0; its buffer is non-null exactly when the heap granted it |
| Memory.Arena.Free | src/memory.cpp:12-18 | needs a non-null buffer; capacity and mark become 0 and the buffer pointer is kept |
| Memory.Arena.CurrentMark | src/memory.cpp:20-23 | the mark is the current high-water mark, read without change |
| Memory.Arena.ClearToMark | src/memory.cpp:25-28 | the high-water mark becomes the mark's position; buffer and capacity do not change |
| Memory.Arena.Push | src/memory.cpp:30-45 | the new state and the returned slice are those of PushStep: an over-capacity request (wrapped sum) changes nothing and returns the default slice; otherwise the mark grows by the request and the slice starts at the arena's base |
| Memory.Arena.Pop | src/memory.cpp:47-64 | the new state is that of PopStep: unchanged for another arena's slice or a slice not starting at the arena's end, otherwise the mark drops by the slice's size modulo 2^64 |
| Memory.IsEnd | src/memory.cpp:57 | the end pointer `buffer + bytes_allocated`: for an arena with a buffer it is exactly the offset of the high-water mark; a matching pointer is non-null exactly when the arena has a buffer |
| Memory.PushedSlices | src/memory.cpp:30-45 | pushing a list of sizes gives one slice per size |
| Memory.PushedSlicesShape | src/memory.cpp:30-45 | each slice a sequence of pushes returns is the default slice (rejected push) or a slice of the requested size at the arena's base |
| Memory.ScopedPushes | src/memory.cpp:20-45 | mark, push each size, clear to the mark: the arena ends exactly as it began and the slices are those the pushes return |
| Memory.SetUpContext | src/main.cpp:715-722 | two distinct fresh arenas: 10 MiB for the program-lifetime allocator and 1 MiB for the temporary one |
| Memory.ScratchScope | src/context.h:5-16 | a scratch scope on `tmp_bump` leaves both `tmp_bump` and `bump` as they were |
| Memory.DefaultSliceInvalid | src/memory.h:22-37 | the default slice, the one a rejected push returns, is not valid, has size 0 and no parent |
| Memory.DefaultMarkIsFreshArenaMark | src/memory.h:14-17 | a default mark is position 0, the mark of a freshly allocated arena |
| Memory.AllocateFresh | src/memory.cpp:3-10 | allocation sets the capacity to the request and the mark to 0, and the buffer is non-null exactly when granted |
| Memory.FreeKeepsBuffer | src/memory.cpp:12-18 | after free, capacity and mark are 0 but the buffer stays non-null, so a push of 0 bytes still returns a valid slice into the released region and a push of 1 byte is rejected |
| Memory.ClearToCurrentMarkIsNoOp | src/memory.cpp:20-28 | clearing to the current mark changes nothing |
| Memory.MarkAfterClear | src/memory.cpp:20-28 | after clearing to a mark, the current mark is that mark; buffer and capacity are unchanged |
| Memory.PushRejected | src/memory.cpp:32-36 | when the wrapped sum exceeds the capacity, the arena is unchanged and the result is the invalid default slice |
| Memory.PushBeyondCapacityOnEmpty | src/memory.cpp:32-36 | an empty arena rejects a request one byte larger than its capacity |
| Memory.PushAccepted | src/memory.cpp:38-44 | a request that fits raises the mark by exactly the request, keeps it within capacity and returns a slice of the requested size at the base, valid exactly when the buffer is non-null |
| Memory.PushKeepsWithinCapacity | src/memory.cpp:32-38 | a push never takes the mark above the capacity and never changes the capacity |
| Memory.PushesShareStart | src/memory.cpp:41 | two successive accepted pushes return the same start, so their first bytes coincide (finding) |
| Memory.WrappingPushSucceeds | src/memory.cpp:32 | a request whose sum wraps past 2^64 passes the guard, returns a slice larger than the arena and lowers the mark (finding) |
| Memory.PopForeignIsNoOp | src/memory.cpp:51-55 | popping a slice whose parent is another arena changes nothing |
| Memory.PopNotAtEndIsNoOp | src/memory.cpp:57-61 | popping a slice whose start is not the arena's end changes nothing |
| Memory.PopAtEnd | src/memory.cpp:57-63 | otherwise the mark drops by the slice's size, modulo 2^64, exactly so when the size does not exceed the mark; capacity is unchanged |
| Memory.PopOfPushFails | src/memory.cpp:57 | popping the slice a non-empty push has just returned leaves the push in place (finding) |
| Memory.PopCanUnderflow | src/memory.cpp:63 | push 5 bytes, clear to the initial mark, pop: the mark wraps to 2^64 - 5, above the capacity (finding) |
| Memory.PushAllSnoc | src/memory.cpp:30-45 | pushing a list and then one more size is the same as pushing the extended list |
| Memory.PushAllKeepsRegion | src/memory.cpp:30-45 | any sequence of pushes keeps the buffer and the capacity |
| Memory.ScopedResetRestores | src/memory.cpp:20-28 | clearing to a mark taken before any sequence of pushes restores the arena exactly |
| Memory.PushAllAccumulates | src/memory.cpp:38-43 | pushes whose total fits raise the mark by their sum, and every slice they return starts at the base |
| Memory.IntendedPushStaysInBounds | src/memory.cpp:30-45 | corrected push: an accepted request yields a valid slice inside the region and raises the mark by the request; a rejected one changes nothing |
| Memory.IntendedPushesAreDisjoint | src/memory.cpp:41 | corrected push: successive slices are adjacent and disjoint, the first starting at the old mark |
| Memory.IntendedPopUndoesPush | src/memory.cpp:57-63 | corrected pop: popping the slice just pushed restores the arena |
| Memory.IntendedPopKeepsBound | src/memory.cpp:63 | corrected pop: the mark never rises and the capacity is unchanged |
| Containers.Array.constructor | src/array.h:5-10 | a new array has a null pointer, size 0 and no elements |
| Containers.Array.Alloc | src/array.h:19-28 | needs a null pointer and size 0; gives fresh storage of `n` elements with none in use |
| Containers.Array.Add | src/array.h:31-38 | needs storage and room; the contents become the old contents followed by `val`, and no other slot changes |
| Containers.Array.AddN | src/array.h:42-50 | needs storage and room for `n`; the contents become the old contents followed by the first `n` values, and no slot outside those `n` changes |
| Containers.Array.SetCount | src/array.h:52-59 | needs storage and `c <= size`; exactly the first `c` stored elements are in use, a prefix of the old contents when shrinking |
| Containers.Array.Free | src/array.h:61-67 | size and count become 0 and the pointer is kept, so the array can be allocated again only if the pointer was already null |
| Containers.Array.Get | src/array.h:12-16 | needs `idx < count`; returns element `idx` of the contents |
| Containers.Array.Set | src/array.h:12-16 | needs `idx < count`; exactly storage slot `idx` changes, so the contents change at `idx` only |
| Containers.Array.IsEmpty | src/array.h:69-73 | `array_empty` holds exactly when no element is in use |
| Containers.FreeThenAllocForbidden | src/array.h:61-67 | an array that was allocated and then freed no longer meets `array_alloc`'s requirement |
| Containers.FillToCapacity | src/array.h:31-38 | four adds fill an array of size 4, and its contents are the four values in order |
| MathLib.Clamp | src/mathlib.h:30-35 | with `min <= max` the result lies in `[min, max]`; a value already inside is returned unchanged; the result is one of the three arguments |
| MathLib.ClampVec3 | src/mathlib.h:131-137 | each component is clamped on its own, so all three lie within the bounds, and an in-bounds vector is unchanged |
| MathLib.IndexBijection | src/mathlib.h:337-345 | `4 * col + row` maps the 4x4 positions one-to-one onto the 16 slots of `m` |
| MathLib.IndexInjective | src/mathlib.h:297-307 | distinct (row, col) positions use distinct slots of the union |
| MathLib.Matrix4.At | src/mathlib.h:337-345 | `operator()` reads one of the 16 stored entries (which slot is given by IndexBijection) |
| MathLib.Make | src/mathlib.h:311-335 | the constructor's parameter `mRC` is the entry at row R, column C |
| MathLib.TransposedAt | src/mathlib.h:543-557 | entry (i, j) of the transpose is entry (j, i) of the input |
| MathLib.TransposeInvolution | src/mathlib.h:543-557 | transposing twice gives the original matrix |
| MathLib.TransposeKeepsDiagonal | src/mathlib.h:543-557 | the diagonal is unchanged by transposition |
| MathLib.Transpose | src/mathlib.h:543-557 | the in-place swap loop over a copy yields entry (i, j) = input (j, i) for every position, and equals the transpose |
| MathLib.Mat4Eq | src/mathlib.h:368-378 | true exactly when every entry agrees, which is exactly when the matrices are equal |
| MathLib.EntrywiseEqual | src/mathlib.h:368-378 | matrices that agree at all 16 positions are equal |
| Selection.FirstGraphicsFamily | src/main.cpp:103-111 | the index found is the first family with the graphics or compute bit; none is found only when no family has either |
| Selection.GfxFamilyIndex | src/main.cpp:93-112 | returns the first graphics or compute family, or `VK_QUEUE_FAMILY_IGNORED` exactly when there is none |
| Selection.FindMemIdx | src/main.cpp:571-588 | returns the first memory type allowed by the type bits and having every requested property; empty exactly when no type qualifies |
| Selection.SameNoCase | src/main.cpp:174-181 | `are_strings_same_nocase`: equal strings compare equal, and strings that compare equal have the same length |
| Selection.SameNoCaseIsEquivalence | src/main.cpp:174-181 | the case-insensitive comparison is symmetric and transitive |
| Selection.SameNoCaseIgnoresLetterCase | src/main.cpp:174-181 | a string compares equal to any copy with some lower-case ASCII letters in upper case |
| Selection.HasAllExts | src/main.cpp:236-257 | true exactly when every desired extension is available, compared case-insensitively |
| Selection.ChoosePhysicalDevice | src/main.cpp:197-276 | the first eligible discrete GPU when there is one, otherwise the first eligible device, and none exactly when no device is eligible |
| Selection.SwapchainFormat | src/main.cpp:369-404 | RGBA8 when the surface reports only UNDEFINED; otherwise the last 8-bit RGBA/BGRA sRGB entry; otherwise the first entry's format |
| Selection.DepthFormat | src/main.cpp:672-684 | the first of D24S8, D32S8 and D32 whose optimal-tiling features allow a depth-stencil attachment; UNDEFINED exactly when none does |
| Selection.SurfaceCount | src/main.cpp:782-783 | the image count is always `maxImageCount`, whatever the minimum (finding) |
| Selection.SurfaceCountUnlimitedIsZero | src/main.cpp:783 | a surface with no upper limit (`maxImageCount` 0) and a minimum of 2 gets 0 images (finding) |
| Selection.IntendedSurfaceCountInRange | src/main.cpp:782-783 | corrected count: never below the minimum, never above a non-zero maximum, and the minimum plus MAX_FRAMES_IN_FLIGHT whenever that fits |
| Selection.CRem | src/main.cpp:1056 | C's `%`: for a non-negative dividend and positive divisor the result is in `[0, b)` and agrees with the mathematical remainder; a negative dividend gives a result in `(-b, 0]` |
| Selection.FrameIdx | src/main.cpp:1056 | for a non-negative frame counter the slot is 0 or 1 |
| Selection.FrameIdxAlternates | src/main.cpp:1056 | consecutive frames use opposite slots |
| Selection.FrameSlots | src/main.cpp:1048-1267 | a counter from 0, incremented once per frame, assigns slots 0, 1, 0, 1, ... |

## Left out

- Heap allocation: `malloc`, `free`, `new[]` and `delete[]` are not modelled as byte storage. The arena's region is a non-null flag plus a capacity, and whether `malloc` succeeds is a parameter of `Arena.Allocate`. Reading or writing the bytes of a slice is not modelled.
- Memory.Slice.At: adds `is_valid()` as a precondition. `operator[]` dereferences `buffer` without that check, and a null start is undefined behaviour.
- Memory.IsEnd: with a null buffer and a non-zero mark, `buffer + bytes_allocated` is pointer arithmetic on null. It is taken to match no slice.
- Containers.Array.AddN: requires the mathematical `count + n <= size`. In the source the u32 sum `count + n` can wrap and pass the `ASSERT`. `memcpy_s` then refuses the copy, because the 64-bit byte count `sizeof(T) * n` exceeds the room left. `count` still grows by `n` modulo 2^32. The model does not cover this path. It models the copy as `n` elements, not as bytes.
- Memory.Arena.Free and Containers.Array.Free: freeing twice is a double free in the source. The model lets it happen: `Arena.Free`'s requirement, a non-null buffer, still holds after a free, and `Array.Free` has no requirement on `data`. What happens to the heap is not modelled.
- Containers.Array.Add: `count < size` and a non-null pointer are preconditions, because a failed `ASSERT` here leads to an out-of-bounds write.
- Floating point: `clamp` is modelled over integers, since it only compares and returns an argument. Matrix entries are an abstract type with equality, so NaN, whose comparison is not reflexive, is not covered by `Mat4Eq`.
- The rest of `mathlib.h` (vector and matrix arithmetic, projections, trigonometry) is float computation. It is not part of this model.
- Vulkan calls are inputs to the model. These are the enumeration of devices, queue families, extensions, memory types, surface formats, format properties and surface capabilities, plus presentation support. Logging, `VK_CHECK` and the object creation around the selection rules are not modelled.
- Selection.SwapchainFormat: requires a non-empty format list. The source reads `fmts[0]` unconditionally, which is undefined for an empty list.
- Selection.FindMemIdx: the device's memory types are given as a list of at most 32 property flags. `1 << i` is taken as the 32-bit mask of bit `i`.
- Selection.FrameSlots: the number of frames before the window closes is a parameter. Everything else in the frame loop is left out.
- `ARENA_DEFER_CLEAR`, `arena_push_array`, `arena_push_array_with_count` and `FixedArray` are used by the core but defined in no file given here. They are not part of this model. Their pattern is modelled generically, as `ScopedPushes` and `ScratchScope`.
- The platform layer, the shader compiler, the timer and window handling are not part of the core.

## Findings

| source | as written | input that shows it | evidently intended | confidence | as-written member | corrected member |
|---|---|---|---|---|---|---|
| src/memory.cpp:41 | every push returns `arena->buffer`, the region's base | two pushes of 1 byte into an empty 16-byte arena both start at offset 0 | return `buffer + old bytes_allocated`, so slices are disjoint | high, not executed | Memory.PushesShareStart | Memory.IntendedPushesAreDisjoint |
| src/memory.cpp:57 | pop accepts a slice whose start equals the arena's end | push 4 bytes into an empty arena, then pop that slice: its start 0 is not the end 4, so the pop is refused | accept the slice whose end (`buffer + size`) is the arena's end | high, not executed | Memory.PopOfPushFails | Memory.IntendedPopUndoesPush |
| src/memory.cpp:32 | the guard `bytes_allocated + num_bytes > capacity` wraps around 2^64 | capacity 16, mark 8, push 2^64 - 4: the sum wraps to 4 and the push succeeds | compare `num_bytes` with the room left, `capacity - bytes_allocated` | medium, not executed | Memory.WrappingPushSucceeds | Memory.IntendedPushStaysInBounds |
| src/memory.cpp:63 | `bytes_allocated -= size` with no lower bound | push 5 bytes into an empty arena, clear to the initial mark, pop the slice: the mark becomes 2^64 - 5 | only pop a slice that lies below the mark | medium, not executed | Memory.PopCanUnderflow | Memory.IntendedPopKeepsBound |
| src/main.cpp:783 | `clamp(surface_count, maxImageCount, maxImageCount)` | `minImageCount` 2, `maxImageCount` 0 (no limit): the count becomes 0 | clamp to `[minImageCount, maxImageCount]`, with 0 meaning no upper limit | high, not executed | Selection.SurfaceCountUnlimitedIsZero | Selection.IntendedSurfaceCountInRange |
