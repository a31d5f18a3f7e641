// The non-floating-point helpers of src/mathlib.h: `clamp`, the column-major
// layout of Matrix4 with its constructor and `operator()`, `transpose` and
// `mat4_eq`.
//
// `clamp` only compares its arguments and returns one of them, so it is
// modelled over integers. Matrix entries are of an abstract type with
// equality; no arithmetic on them is involved.

module MathLib {

  import opened NumTypes

  /** `clamp(v, min, max)`: `min` when `v < min`, else `max` when `v > max`, else `v`. */
  function Clamp(v: int, lo: int, hi: int): (r: int)
    ensures lo <= hi ==> lo <= r <= hi
    ensures lo <= v <= hi ==> r == v
    ensures lo == hi ==> r == lo
    ensures r == v || r == lo || r == hi
  {
    if v < lo then lo
    else if v > hi then hi
    else v
  }

  datatype Vec3 = Vec3(x: int, y: int, z: int)

  /** The Vec3 `clamp`: every component clamped to the same bounds on its own. */
  function ClampVec3(v: Vec3, lo: int, hi: int): (r: Vec3)
    ensures lo <= hi ==> lo <= r.x <= hi && lo <= r.y <= hi && lo <= r.z <= hi
    ensures lo <= v.x <= hi && lo <= v.y <= hi && lo <= v.z <= hi ==> r == v
    ensures r.x == Clamp(v.x, lo, hi) && r.y == Clamp(v.y, lo, hi) && r.z == Clamp(v.z, lo, hi)
  {
    Vec3(Clamp(v.x, lo, hi), Clamp(v.y, lo, hi), Clamp(v.z, lo, hi))
  }

  /** Where `operator()(row, col)` finds its entry in `m[16]`: column-major order. */
  function Index(row: nat, col: nat): nat
  {
    4 * col + row
  }

  /** The row and column whose entry `m[k]` holds. */
  function RowOf(k: nat): nat { k % 4 }
  function ColOf(k: nat): nat { k / 4 }

  /**
   * For rows and columns below 4 the index map is a bijection onto 0..15,
   * with RowOf and ColOf as its inverse.
   */
  lemma IndexBijection(row: nat, col: nat, k: nat)
    ensures row < 4 && col < 4 ==>
              Index(row, col) < 16 && RowOf(Index(row, col)) == row && ColOf(Index(row, col)) == col
    ensures k < 16 ==> RowOf(k) < 4 && ColOf(k) < 4 && Index(RowOf(k), ColOf(k)) == k
  {
  }

  /** Two positions within the matrix share an index only if they are the same position. */
  lemma IndexInjective(r1: nat, c1: nat, r2: nat, c2: nat)
    requires r1 < 4 && c1 < 4 && r2 < 4 && c2 < 4
    requires Index(r1, c1) == Index(r2, c2)
    ensures r1 == r2 && c1 == c2
  {
    IndexBijection(r1, c1, 0);
    IndexBijection(r2, c2, 0);
  }

  /** A Matrix4 is the union's array `m[16]`. */
  datatype Matrix4<T> = Matrix4(m: seq<T>)
  {
    predicate Wf()
    {
      |m| == 16
    }

    /** `operator()(row, col)`; there is no bounds check, so the index must stay in `m`. */
    function At(row: u32, col: u32): (x: T)
      requires Wf() && Index(row, col) < 16
      ensures x in m
    {
      m[Index(row, col)]
    }
  }

  /**
   * The Matrix4 constructor. `args` are its sixteen parameters in the order
   * of the call, one row after the other (`m00, m01, m02, m03, m10, ...`);
   * each is stored in its named field of the column-major union.
   */
  method Make<T>(args: seq<T>) returns (mat: Matrix4<T>)
    requires |args| == 16
    ensures mat.Wf()
    ensures forall row: u32, col: u32 :: row < 4 && col < 4 ==> mat.At(row, col) == args[4 * row + col]
  {
    var m: seq<T> := seq(16, _ => args[0]);
    // m00, m10, m20, m30
    m := m[0 := args[0]];
    m := m[1 := args[4]];
    m := m[2 := args[8]];
    m := m[3 := args[12]];
    // m01, m11, m21, m31
    m := m[4 := args[1]];
    m := m[5 := args[5]];
    m := m[6 := args[9]];
    m := m[7 := args[13]];
    // m02, m12, m22, m32
    m := m[8 := args[2]];
    m := m[9 := args[6]];
    m := m[10 := args[10]];
    m := m[11 := args[14]];
    // m03, m13, m23, m33
    m := m[12 := args[3]];
    m := m[13 := args[7]];
    m := m[14 := args[11]];
    m := m[15 := args[15]];
    mat := Matrix4(m);
    assert mat.m == [args[0], args[4], args[8], args[12], args[1], args[5], args[9], args[13],
                     args[2], args[6], args[10], args[14], args[3], args[7], args[11], args[15]];
    forall row: u32, col: u32 | row < 4 && col < 4
      ensures mat.At(row, col) == args[4 * row + col]
    {
      if col == 0 {
        assert mat.At(row, col) == [args[0], args[4], args[8], args[12]][row];
      } else if col == 1 {
        assert mat.At(row, col) == [args[1], args[5], args[9], args[13]][row];
      } else if col == 2 {
        assert mat.At(row, col) == [args[2], args[6], args[10], args[14]][row];
      } else {
        assert mat.At(row, col) == [args[3], args[7], args[11], args[15]][row];
      }
    }
  }

  /** The transpose as a value: entry (i, j) is the input's entry (j, i). */
  function Transposed<T>(mat: Matrix4<T>): (t: Matrix4<T>)
    requires mat.Wf()
    ensures t.Wf()
  {
    Matrix4(seq(16, k requires 0 <= k < 16 => mat.m[Index(ColOf(k), RowOf(k))]))
  }

  lemma TransposedAt<T>(mat: Matrix4<T>, i: u32, j: u32)
    requires mat.Wf() && i < 4 && j < 4
    ensures Transposed(mat).At(i, j) == mat.At(j, i)
  {
    IndexBijection(i, j, 0);
  }

  /** Transposing twice gives the matrix back. */
  lemma TransposeInvolution<T>(mat: Matrix4<T>)
    requires mat.Wf()
    ensures Transposed(Transposed(mat)) == mat
  {
    var t := Transposed(Transposed(mat));
    forall k | 0 <= k < 16
      ensures t.m[k] == mat.m[k]
    {
      IndexBijection(0, 0, k);
      TransposedAt(Transposed(mat), RowOf(k), ColOf(k));
      TransposedAt(mat, ColOf(k), RowOf(k));
    }
  }

  /** The diagonal is left in place. */
  lemma TransposeKeepsDiagonal<T>(mat: Matrix4<T>, i: u32)
    requires mat.Wf() && i < 4
    ensures Transposed(mat).At(i, i) == mat.At(i, i)
  {
    TransposedAt(mat, i, i);
  }

  /**
   * Whether the pair (r, c) has been swapped once the outer loop has done
   * rows below `i` and, in row `i`, the columns below `j`.
   */
  predicate SwappedBy(r: nat, c: nat, i: nat, j: nat)
  {
    r != c && (r < i || c < i || (r == i && c < j) || (c == i && r < j))
  }

  /** `transpose`: swaps the entries above the diagonal with those below, in a copy. */
  method Transpose<T>(mat: Matrix4<T>) returns (out: Matrix4<T>)
    requires mat.Wf()
    ensures out.Wf()
    ensures forall i: u32, j: u32 :: i < 4 && j < 4 ==> out.At(i, j) == mat.At(j, i)
    ensures out == Transposed(mat)
  {
    var m := new T[16](k requires 0 <= k < 16 => mat.m[k]);
    for i := 0 to 4
      invariant forall r, c :: 0 <= r < 4 && 0 <= c < 4 ==>
                  m[Index(r, c)] == if SwappedBy(r, c, i, i + 1) then mat.m[Index(c, r)] else mat.m[Index(r, c)]
    {
      for j := i + 1 to 4
        invariant forall r, c :: 0 <= r < 4 && 0 <= c < 4 ==>
                    m[Index(r, c)] == if SwappedBy(r, c, i, j) then mat.m[Index(c, r)] else mat.m[Index(r, c)]
      {
        var temp := m[Index(i, j)];
        m[Index(i, j)] := m[Index(j, i)];
        m[Index(j, i)] := temp;
      }
    }
    out := Matrix4(m[..]);
    forall i: u32, j: u32 | i < 4 && j < 4
      ensures out.At(i, j) == mat.At(j, i) && out.At(i, j) == Transposed(mat).At(i, j)
    {
      TransposedAt(mat, i, j);
    }
    forall k | 0 <= k < 16
      ensures out.m[k] == Transposed(mat).m[k]
    {
      IndexBijection(0, 0, k);
    }
  }

  /** `mat4_eq`: compares row by row and stops at the first difference. */
  method Mat4Eq<T(==)>(lhs: Matrix4<T>, rhs: Matrix4<T>) returns (eq: bool)
    requires lhs.Wf() && rhs.Wf()
    ensures eq <==> forall row: u32, col: u32 :: row < 4 && col < 4 ==> lhs.At(row, col) == rhs.At(row, col)
    ensures eq <==> lhs == rhs
  {
    for row := 0 to 4
      invariant forall r: u32, c: u32 :: r < row && c < 4 ==> lhs.At(r, c) == rhs.At(r, c)
    {
      for col := 0 to 4
        invariant forall r: u32, c: u32 :: (r < row && c < 4) || (r == row && c < col) ==> lhs.At(r, c) == rhs.At(r, c)
      {
        if lhs.At(row, col) != rhs.At(row, col) {
          return false;
        }
      }
    }
    EntrywiseEqual(lhs, rhs);
    return true;
  }

  /** Two matrices with the same sixteen entries are the same matrix. */
  lemma EntrywiseEqual<T>(lhs: Matrix4<T>, rhs: Matrix4<T>)
    requires lhs.Wf() && rhs.Wf()
    requires forall row: u32, col: u32 :: row < 4 && col < 4 ==> lhs.At(row, col) == rhs.At(row, col)
    ensures lhs == rhs
  {
    forall k | 0 <= k < 16
      ensures lhs.m[k] == rhs.m[k]
    {
      IndexBijection(0, 0, k);
      assert lhs.At(RowOf(k), ColOf(k)) == rhs.At(RowOf(k), ColOf(k));
    }
  }
}
