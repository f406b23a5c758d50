/** Row-major flat indexing: the kernels address a rows x cols matrix stored
    in one buffer as `r * cols + c`.  These lemmas isolate the non-linear
    arithmetic so that the rest of the model reasons linearly. */
module Flat {

  /** Splitting a flat index recovers the row and the column it was built from. */
  lemma DivMod(r: int, c: int, n: int)
    requires 0 <= r && 0 <= c < n
    ensures (r * n + c) / n == r
    ensures (r * n + c) % n == c
  {
    var q := r * n + c;
    assert q == (q / n) * n + q % n;
    var d := q / n - r;
    assert d * n == c - q % n;
  }

  /** The flat index of element (r, c) of a rows x cols row-major matrix. */
  function Idx(r: int, c: int, rows: int, cols: int): (q: int)
    requires 0 <= r < rows && 0 <= c < cols
    ensures 0 <= q < rows * cols
    ensures q / cols == r && q % cols == c
  {
    DivMod(r, c, cols);
    Bound(r, c, rows, cols);
    r * cols + c
  }

  /** A positive multiple of a positive number is at least that number. */
  lemma MulAtLeast(d: int, n: int)
    requires d >= 1 && n >= 1
    ensures d * n >= n
  {
    assert d * n == (d - 1) * n + n;
    assert (d - 1) * n >= 0;
  }

  /** Multiplication by a non-negative number is monotonic. */
  lemma MulMono(a: int, b: int, c: int)
    requires 0 <= a && b <= c
    ensures a * b <= a * c
  {
    assert a * c - a * b == a * (c - b);
  }

  /** A flat index built from an in-range row and column is in the buffer. */
  lemma Bound(r: int, c: int, rows: int, n: int)
    requires 0 <= r < rows && 0 <= c < n
    ensures 0 <= r * n + c < rows * n
  {
    assert r * n >= 0;
    assert (rows - r) * n >= n by { MulAtLeast(rows - r, n); }
    assert rows * n == r * n + (rows - r) * n;
  }

  /** Row and column of an index into a rows x n buffer are in range. */
  lemma Split(q: int, rows: int, n: int)
    requires n >= 1 && 0 <= q < rows * n
    ensures 0 <= q / n < rows && 0 <= q % n < n
    ensures q == (q / n) * n + q % n
  {
    assert q == (q / n) * n + q % n;
    if q / n < 0 {
      assert (-(q / n)) * n >= n by { MulAtLeast(-(q / n), n); }
    }
  }

  /** Row and column of an index into a rows x n buffer are in range
      (Split without the reconstruction equation). */
  lemma InRange(q: int, rows: int, n: int)
    requires n >= 1 && 0 <= q < rows * n
    ensures 0 <= q / n < rows && 0 <= q % n < n
  {
    Split(q, rows, n);
  }

  /** InRange for every index of a rows x cols buffer. */
  lemma InRangeAll(rows: int, cols: int)
    requires cols >= 1
    ensures forall q :: 0 <= q < rows * cols ==> 0 <= q / cols < rows && 0 <= q % cols < cols
  {
    forall q | 0 <= q < rows * cols
      ensures 0 <= q / cols < rows && 0 <= q % cols < cols
    {
      InRange(q, rows, cols);
    }
  }

  /** Every index of a rows x cols buffer is the flat index of its own row
      and column. */
  lemma SplitAll(rows: int, cols: int)
    requires cols >= 1
    ensures forall q :: 0 <= q < rows * cols ==>
              0 <= q / cols < rows && 0 <= q % cols < cols && q == Idx(q / cols, q % cols, rows, cols)
  {
    forall q | 0 <= q < rows * cols
      ensures 0 <= q / cols < rows && 0 <= q % cols < cols && q == Idx(q / cols, q % cols, rows, cols)
    {
      Split(q, rows, cols);
    }
  }

  /** A host-side matrix (a numpy 2-D array), row by row. */
  type Matrix = seq<seq<real>>

  predicate IsMatrix(m: Matrix, rows: int, cols: int)
  {
    |m| == rows && forall r :: 0 <= r < rows ==> |m[r]| == cols
  }

  /** s is the row-major device buffer of the rows x cols matrix m. */
  predicate FlatOf(s: seq<real>, m: Matrix, rows: int, cols: int)
  {
    IsMatrix(m, rows, cols) && |s| == rows * cols &&
    forall r, c :: 0 <= r < rows && 0 <= c < cols ==> s[Idx(r, c, rows, cols)] == m[r][c]
  }

  /** Upload: the row-major buffer of m. */
  function Flatten(m: Matrix, rows: int, cols: int): (s: seq<real>)
    requires rows >= 0 && cols >= 1 && IsMatrix(m, rows, cols)
    ensures FlatOf(s, m, rows, cols)
  {
    seq(rows * cols, q requires 0 <= q < rows * cols => InRange(q, rows, cols); m[q / cols][q % cols])
  }

  /** Download: the matrix whose row-major buffer is s. */
  function Unflatten(s: seq<real>, rows: int, cols: int): (m: Matrix)
    requires rows >= 0 && cols >= 0 && |s| == rows * cols
    ensures FlatOf(s, m, rows, cols)
  {
    seq(rows, r requires 0 <= r < rows => seq(cols, c requires 0 <= c < cols => s[Idx(r, c, rows, cols)]))
  }

  /** A buffer is the flattening of one matrix only. */
  lemma FlatOfUnique(s: seq<real>, m1: Matrix, m2: Matrix, rows: int, cols: int)
    requires FlatOf(s, m1, rows, cols) && FlatOf(s, m2, rows, cols)
    ensures m1 == m2
  {
    forall r | 0 <= r < rows
      ensures m1[r] == m2[r]
    {
      assert forall c :: 0 <= c < cols ==> m1[r][c] == m2[r][c];
    }
  }

  /** Uploading a matrix and downloading the buffer gives the matrix back. */
  lemma UnflattenFlatten(m: Matrix, rows: int, cols: int)
    requires rows >= 0 && cols >= 1 && IsMatrix(m, rows, cols)
    ensures Unflatten(Flatten(m, rows, cols), rows, cols) == m
  {
    var s := Flatten(m, rows, cols);
    FlatOfUnique(s, Unflatten(s, rows, cols), m, rows, cols);
  }
}
