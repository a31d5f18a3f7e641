// The fixed-capacity heap container `Array<T>` of src/array.h.
//
// `data` points at heap storage for `size` elements, of which the first
// `count` are in use. The ASSERTs of array.h state what each function
// requires of its caller, and each is a precondition here. `array_free`
// releases the storage without resetting `data`, so the pointer stays
// non-null (and dangling) afterwards.

module Containers {

  import opened NumTypes

  class Array<T(0)> {
    var data: array?<T>
    var size: u32
    var count: u32

    /** `count <= size`, and live storage holds exactly `size` elements. */
    ghost predicate Valid()
      reads this
    {
      count <= size && (size > 0 ==> data != null && data.Length == size)
    }

    /** The elements in use. */
    ghost function Contents(): (s: seq<T>)
      reads this, data
      requires Valid()
      ensures |s| == count
    {
      if data == null then [] else data[..count]
    }

    /** What `array_alloc` demands of the array it fills. */
    predicate CanAlloc()
      reads this
    {
      data == null && size == 0
    }

    /** `Array<T> {}`: a null pointer, no storage and nothing in use. */
    constructor ()
      ensures data == null && size == 0 && count == 0
      ensures Valid() && CanAlloc() && Contents() == []
    {
      data := null;
      size := 0;
      count := 0;
    }

    /** `array_alloc`: storage for `n` elements, none of them in use. */
    method Alloc(n: u32)
      requires CanAlloc()
      modifies this
      ensures fresh(data) && data.Length == n && size == n && count == 0
      ensures Valid() && Contents() == []
    {
      data := new T[n];
      size := n;
      count := 0;
    }

    /** `array_add`: stores `val` at the old `count` and counts it. */
    method Add(val: T)
      requires Valid() && data != null && count < size
      modifies this`count, data
      ensures Valid() && size == old(size) && count == old(count) + 1
      ensures data[old(count)] == val
      ensures forall i :: 0 <= i < data.Length && i != old(count) ==> data[i] == old(data[i])
      ensures Contents() == old(Contents()) + [val]
    {
      data[count] := val;
      count := count + 1;
    }

    /**
     * `array_add_n`: copies the first `n` of `vals` to the slots after the
     * elements in use and counts them.
     */
    method AddN(vals: seq<T>, n: u32)
      requires Valid() && data != null
      requires n <= |vals| && count + n <= size
      modifies this`count, data
      ensures Valid() && size == old(size) && count == old(count) + n
      ensures forall i :: 0 <= i < n ==> data[old(count) + i] == vals[i]
      ensures forall i :: 0 <= i < data.Length && !(old(count) <= i < old(count) + n) ==>
                data[i] == old(data[i])
      ensures Contents() == old(Contents()) + vals[..n]
    {
      var k: u32 := 0;
      while k < n
        invariant 0 <= k <= n
        invariant count == old(count) && size == old(size) && Valid()
        invariant forall i :: 0 <= i < k ==> data[count + i] == vals[i]
        invariant forall i :: 0 <= i < data.Length && !(count <= i < count + k) ==>
                    data[i] == old(data[i])
      {
        data[count + k] := vals[k];
        k := k + 1;
      }
      ghost var before := old(Contents());
      count := count + n;
      assert data[..count] == before + vals[..n];
    }

    /**
     * `array_set_count`: declares the first `c` slots in use; the stored
     * elements themselves do not change.
     */
    method SetCount(c: u32)
      requires Valid() && data != null && c <= size
      modifies this`count
      ensures Valid() && count == c && size == old(size)
      ensures Contents() == data[..c]
      ensures c <= old(count) ==> Contents() == old(Contents())[..c]
    {
      count := c;
    }

    /**
     * `array_free`: no elements and no capacity any more, but `data` keeps
     * its (dangling) value, so the array no longer meets `array_alloc`'s
     * requirement unless the pointer was already null.
     */
    method Free()
      requires Valid()
      modifies this
      ensures data == old(data) && size == 0 && count == 0
      ensures Valid() && Contents() == []
      ensures CanAlloc() <==> old(data) == null
    {
      size := 0;
      count := 0;
    }

    /** `operator[]` read: element `idx` of those in use. */
    method Get(idx: u64) returns (x: T)
      requires Valid() && idx < count
      ensures x == Contents()[idx]
    {
      x := data[idx];
    }

    /** `operator[]` write through the returned reference. */
    method Set(idx: u64, x: T)
      requires Valid() && idx < count
      modifies data
      ensures Valid() && Contents() == old(Contents())[idx := x]
      ensures data[..] == old(data[..])[idx := x]
    {
      data[idx] := x;
    }

    /** `array_empty`: holds exactly when no element is in use. */
    predicate IsEmpty()
      reads this, data
      ensures Valid() ==> (IsEmpty() <==> Contents() == [])
    {
      count == 0
    }
  }

  /**
   * A freed array that had storage cannot be allocated again: `array_free`
   * leaves `data` non-null, which `array_alloc` asserts against.
   */
  method FreeThenAllocForbidden<T(0)>(a: Array<T>, n: u32)
    requires a.Valid() && a.CanAlloc()
    modifies a
    ensures a.data != null && !a.CanAlloc()
  {
    a.Alloc(n);
    a.Free();
  }

  /**
   * An array of capacity 4 takes exactly four `array_add` calls; after them
   * it is full, so a fifth breaks `array_add`'s requirement, and the four
   * elements are the ones added, in order.
   */
  method FillToCapacity<T(0)>(a: Array<T>, v0: T, v1: T, v2: T, v3: T)
    requires a.CanAlloc()
    modifies a
    ensures a.Valid() && a.count == a.size == 4
    ensures a.Contents() == [v0, v1, v2, v3]
  {
    a.Alloc(4);
    a.Add(v0);
    a.Add(v1);
    a.Add(v2);
    a.Add(v3);
  }
}
