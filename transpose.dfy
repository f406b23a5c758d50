/** parTranspose and its host wrapper transpose_parallel.  The kernel's
    `cols` and `rows` describe the OUTPUT: it is rows x cols, the input is
    cols x rows, both row-major. */
module Transpose {
  import opened Flat

  /** The transpose of a cols x rows row-major matrix, as a rows x cols one:
      output slot q = iy*cols + ix holds input element (ix, iy). */
  function Transposed(s: seq<real>, cols: int, rows: int): (t: seq<real>)
    requires cols >= 0 && rows >= 0 && |s| == cols * rows
    ensures |t| == cols * rows
  {
    seq(cols * rows, q requires 0 <= q < cols * rows => TransposedAt(s, cols, rows, q))
  }

  function TransposedAt(s: seq<real>, cols: int, rows: int, q: int): real
    requires cols >= 0 && rows >= 0 && |s| == cols * rows && 0 <= q < cols * rows
  {
    Split(q, rows, cols);
    s[Idx(q % cols, q / cols, cols, rows)]
  }

  /** Element (i, j) of the input lands at (j, i) of the output. */
  lemma TransposedMoves(s: seq<real>, cols: int, rows: int, i: int, j: int)
    requires cols >= 0 && rows >= 0 && |s| == cols * rows
    requires 0 <= i < cols && 0 <= j < rows
    ensures Transposed(s, cols, rows)[Idx(j, i, rows, cols)] == s[Idx(i, j, cols, rows)]
  {
  }

  /** Transposing twice gives back the input. */
  lemma TransposeTwice(s: seq<real>, cols: int, rows: int)
    requires cols >= 0 && rows >= 0 && |s| == cols * rows
    ensures |Transposed(s, cols, rows)| == rows * cols
    ensures Transposed(Transposed(s, cols, rows), rows, cols) == s
  {
    var t := Transposed(s, cols, rows);
    assert |t| == rows * cols;
    var u := Transposed(t, rows, cols);
    forall q | 0 <= q < |s|
      ensures u[q] == s[q]
    {
      Split(q, cols, rows);
      var i, j := q / rows, q % rows;
      assert q == Idx(i, j, cols, rows);
      TransposedMoves(t, rows, cols, j, i);
      TransposedMoves(s, cols, rows, i, j);
    }
  }

  /** Each output slot is written by exactly one thread of the launch: the
      thread (ix, iy) = (q % cols, q / cols). */
  lemma OneWriterPerSlot(cols: int, rows: int, q: int)
    requires cols >= 1 && rows >= 0 && 0 <= q < cols * rows
    ensures 0 <= q % cols < cols && 0 <= q / cols < rows && Idx(q / cols, q % cols, rows, cols) == q
    ensures forall ix, iy :: 0 <= ix < cols && 0 <= iy < rows && Idx(iy, ix, rows, cols) == q ==>
              ix == q % cols && iy == q / cols
  {
    Split(q, rows, cols);
  }

  /** parTranspose over a launch of gridX x gridY blocks of 32 x 32 threads:
      thread (ix, iy) = (blockIdx.x*32 + threadIdx.x, blockIdx.y*32 + threadIdx.y)
      copies one element when it falls inside the output. */
  method ParTranspose(idata: array<real>, odata: array<real>, cols: int, rows: int, gridX: int, gridY: int)
    requires cols >= 0 && rows >= 0 && idata.Length == cols * rows && odata.Length == cols * rows
    requires idata != odata
    requires gridX >= 0 && gridY >= 0 && 32 * gridX >= cols && 32 * gridY >= rows
    modifies odata
    ensures odata[..] == Transposed(idata[..], cols, rows)
  {
    ghost var t := Transposed(idata[..], cols, rows);
    var iy := 0;
    while iy < 32 * gridY
      invariant 0 <= iy <= 32 * gridY
      invariant RowsDone(odata[..], t, cols, rows, iy, 0)
    {
      TransposeRow(idata, odata, cols, rows, gridX, iy, t);
      iy := iy + 1;
    }
    forall q | 0 <= q < odata.Length
      ensures odata[q] == t[q]
    {
      Split(q, rows, cols);
      assert q == Idx(q / cols, q % cols, rows, cols);
    }
  }

  /** Output rows before iy, and the first ix entries of row iy, hold the
      transpose. */
  ghost predicate RowsDone(o: seq<real>, t: seq<real>, cols: int, rows: int, iy: int, ix: int)
    requires cols >= 0 && rows >= 0 && |o| == cols * rows && |t| == cols * rows
  {
    forall r, c :: 0 <= r < rows && 0 <= c < cols && (r < iy || (r == iy && c < ix)) ==>
      o[Idx(r, c, rows, cols)] == t[Idx(r, c, rows, cols)]
  }

  /** The threads of one output row iy, ix = 0 .. 32*gridX - 1. */
  method TransposeRow(idata: array<real>, odata: array<real>, cols: int, rows: int, gridX: int, iy: int,
                      ghost t: seq<real>)
    requires cols >= 0 && rows >= 0 && idata.Length == cols * rows && odata.Length == cols * rows
    requires idata != odata && gridX >= 0 && 32 * gridX >= cols && iy >= 0
    requires t == Transposed(idata[..], cols, rows)
    requires RowsDone(odata[..], t, cols, rows, iy, 0)
    modifies odata
    ensures RowsDone(odata[..], t, cols, rows, iy + 1, 0)
  {
    var ix := 0;
    while ix < 32 * gridX
      invariant 0 <= ix <= 32 * gridX
      invariant RowsDone(odata[..], t, cols, rows, iy, ix)
    {
      if ix < cols && iy < rows {
        TransposedMoves(idata[..], cols, rows, ix, iy);
        assert iy * cols + ix == Idx(iy, ix, rows, cols) && ix * rows + iy == Idx(ix, iy, cols, rows);
        odata[iy * cols + ix] := idata[ix * rows + iy];
      }
      ix := ix + 1;
    }
  }

  /** transpose_parallel: copy the M x N input to the device, launch
      ceil(M/32) x ceil(N/32) blocks, read back the N x M result. */
  method TransposeParallel(x: seq<real>, M: int, N: int) returns (y: seq<real>)
    requires M >= 0 && N >= 0 && |x| == M * N
    ensures |y| == N * M
    ensures forall i, j :: 0 <= i < M && 0 <= j < N ==> y[Idx(j, i, N, M)] == x[Idx(i, j, M, N)]
    ensures y == Transposed(x, M, N)
  {
    var xGpu := new real[M * N](q requires 0 <= q < M * N => x[q]);
    var yGpu := new real[M * N];
    ParTranspose(xGpu, yGpu, M, N, (M + 31) / 32, (N + 31) / 32);
    assert xGpu[..] == x;
    y := yGpu[..];
    forall i, j | 0 <= i < M && 0 <= j < N
      ensures y[Idx(j, i, N, M)] == x[Idx(i, j, M, N)]
    {
      TransposedMoves(x, M, N, i, j);
    }
  }
}
