/** kernel_MatMul (the kernel gpuMul.MatMul launches) and its host wrapper.
    Thread (row_, col_) of the grid walks the K dimension in tiles of
    BLOCK_SIZE = 16 (written as the literal 16 below); a tile entry that
    falls outside A or B is staged as zero. */
module TiledMatMul {
  import opened Flat

  /** A_sub entry for row r and K position x: zero outside the rA x cA matrix. */
  function PadA(A: seq<real>, rA: int, cA: int, r: int, x: int): (v: real)
    requires 0 <= r && 0 <= x && 0 <= rA && 0 <= cA && |A| >= rA * cA
    ensures x < cA && r < rA ==> v == A[Idx(r, x, rA, cA)]
    ensures x >= cA || r >= rA ==> v == 0.0
  {
    if x < cA && r < rA then A[Idx(r, x, rA, cA)] else 0.0
  }

  /** B_sub entry for K position x and column c: zero outside the rB x cB matrix. */
  function PadB(B: seq<real>, rB: int, cB: int, x: int, c: int): (v: real)
    requires 0 <= x && 0 <= c && 0 <= rB && 0 <= cB && |B| >= rB * cB
    ensures x < rB && c < cB ==> v == B[Idx(x, c, rB, cB)]
    ensures x >= rB || c >= cB ==> v == 0.0
  {
    if x < rB && c < cB then B[Idx(x, c, rB, cB)] else 0.0
  }

  /** What C_sub holds once the first n K positions (tile entries) are consumed. */
  function TiledSum(A: seq<real>, rA: int, cA: int, B: seq<real>, rB: int, cB: int, r: int, c: int, n: int): (v: real)
    requires 0 <= rA && 0 <= cA && |A| >= rA * cA && 0 <= rB && 0 <= cB && |B| >= rB * cB
    requires 0 <= r && 0 <= c && 0 <= n
  {
    if n == 0 then 0.0
    else TiledSum(A, rA, cA, B, rB, cB, r, c, n - 1) + PadA(A, rA, cA, r, n - 1) * PadB(B, rB, cB, n - 1, c)
  }

  /** A thread outside the rA x cB result stages only zeros on one side,
      so its C_sub stays 0 (the kernel then skips its write). */
  lemma {:induction false} TiledSumOutside(A: seq<real>, rA: int, cA: int, B: seq<real>, rB: int, cB: int,
                                           r: int, c: int, n: int)
    requires 0 <= rA && 0 <= cA && |A| >= rA * cA && 0 <= rB && 0 <= cB && |B| >= rB * cB
    requires 0 <= r && 0 <= c && 0 <= n && (r >= rA || c >= cB)
    ensures TiledSum(A, rA, cA, B, rB, cB, r, c, n) == 0.0
  {
    if n > 0 {
      TiledSumOutside(A, rA, cA, B, rB, cB, r, c, n - 1);
    }
  }

  /** The plain dot product of row r of A (rA x cA) with column c of B (cA x cB),
      over the first n terms. */
  function Dot(A: seq<real>, rA: int, cA: int, B: seq<real>, cB: int, r: int, c: int, n: int): real
    requires 0 <= r < rA && 0 <= c < cB && 0 <= n <= cA
    requires |A| == rA * cA && |B| == cA * cB
  {
    if n == 0 then 0.0
    else Dot(A, rA, cA, B, cB, r, c, n - 1) + A[Idx(r, n - 1, rA, cA)] * B[Idx(n - 1, c, cA, cB)]
  }

  /** The matrix product A * B, rA x cB, row-major. */
  function MatrixProduct(A: seq<real>, rA: int, cA: int, B: seq<real>, cB: int): (C: seq<real>)
    requires 0 <= rA && 0 <= cA && 0 <= cB && |A| == rA * cA && |B| == cA * cB
    ensures |C| == rA * cB
  {
    seq(rA * cB, q requires 0 <= q < rA * cB =>
      Split(q, rA, cB);
      Dot(A, rA, cA, B, cB, q / cB, q % cB, cA))
  }

  /** Number of K tiles the kernel walks: (16 + cA - 1) / 16. */
  function NumTiles(cA: int): (t: int)
    requires cA >= 0
    ensures t >= 0 && 16 * t >= cA
  {
    (16 + cA - 1) / 16
  }

  /** K positions at or past cA meet a zero A_sub entry: once n >= cA, the
      tiled accumulation no longer changes. */
  lemma {:induction false} TiledSumPastWidth(A: seq<real>, rA: int, cA: int, B: seq<real>, rB: int, cB: int,
                                             r: int, c: int, n: int)
    requires 0 <= rA && 0 <= cA && |A| >= rA * cA && 0 <= rB && 0 <= cB && |B| >= rB * cB
    requires 0 <= r && 0 <= c && n >= cA
    ensures TiledSum(A, rA, cA, B, rB, cB, r, c, n) == TiledSum(A, rA, cA, B, rB, cB, r, c, cA)
  {
    if n > cA {
      TiledSumPastWidth(A, rA, cA, B, rB, cB, r, c, n - 1);
    }
  }

  /** When cA == rB, the zero-padded tile entries contribute nothing: the
      tiled accumulation over any n >= cA positions is the dot product. */
  lemma {:induction false} TiledSumIsDot(A: seq<real>, rA: int, cA: int, B: seq<real>, cB: int, r: int, c: int, n: int)
    requires 0 <= r < rA && 0 <= c < cB && 0 <= cA && |A| == rA * cA && |B| == cA * cB
    requires n >= 0
    ensures TiledSum(A, rA, cA, B, cA, cB, r, c, n) == Dot(A, rA, cA, B, cB, r, c, if n <= cA then n else cA)
  {
    if n > cA {
      TiledSumPastWidth(A, rA, cA, B, cA, cB, r, c, n);
      TiledSumIsDotWithin(A, rA, cA, B, cB, r, c, cA);
    } else {
      TiledSumIsDotWithin(A, rA, cA, B, cB, r, c, n);
    }
  }

  lemma {:induction false} TiledSumIsDotWithin(A: seq<real>, rA: int, cA: int, B: seq<real>, cB: int, r: int, c: int, n: int)
    requires 0 <= r < rA && 0 <= c < cB && 0 <= cA && |A| == rA * cA && |B| == cA * cB
    requires 0 <= n <= cA
    ensures TiledSum(A, rA, cA, B, cA, cB, r, c, n) == Dot(A, rA, cA, B, cB, r, c, n)
  {
    if n != 0 {
      TiledSumIsDotWithin(A, rA, cA, B, cB, r, c, n - 1);
      TiledDotStep(A, rA, cA, B, cB, r, c, n);
    }
  }

  /** Inside both matrices the staged entries are the entries themselves. */
  lemma TiledDotStep(A: seq<real>, rA: int, cA: int, B: seq<real>, cB: int, r: int, c: int, n: int)
    requires 0 <= r < rA && 0 <= c < cB && 0 <= cA && |A| == rA * cA && |B| == cA * cB
    requires 0 < n <= cA
    requires TiledSum(A, rA, cA, B, cA, cB, r, c, n - 1) == Dot(A, rA, cA, B, cB, r, c, n - 1)
    ensures TiledSum(A, rA, cA, B, cA, cB, r, c, n) == Dot(A, rA, cA, B, cB, r, c, n)
  {
    assert PadA(A, rA, cA, r, n - 1) == A[Idx(r, n - 1, rA, cA)];
    assert PadB(B, cA, cB, n - 1, c) == B[Idx(n - 1, c, cA, cB)];
  }

  /** One K position more: the accumulation grows by the product of the two staged entries. */
  lemma TiledStep(A: seq<real>, rA: int, cA: int, B: seq<real>, rB: int, cB: int, r: int, c: int, n: int,
                  acc: real, a: real, b: real)
    requires 0 <= rA && 0 <= cA && |A| >= rA * cA && 0 <= rB && 0 <= cB && |B| >= rB * cB
    requires 0 <= r && 0 <= c && 0 <= n
    requires acc == TiledSum(A, rA, cA, B, rB, cB, r, c, n)
    requires a == PadA(A, rA, cA, r, n) && b == PadB(B, rB, cB, n, c)
    ensures acc + a * b == TiledSum(A, rA, cA, B, rB, cB, r, c, n + 1)
  {
  }

  /** The A_sub entry thread (tIDy, k) stages for K position x. */
  method StageA(A: array<real>, rA: int, cA: int, r: int, x: int) returns (v: real)
    requires 0 <= r && 0 <= x && 0 <= rA && 0 <= cA && A.Length >= rA * cA
    ensures v == PadA(A[..], rA, cA, r, x)
  {
    v := if x < cA && r < rA then A[Idx(r, x, rA, cA)] else 0.0;
  }

  /** The B_sub entry thread (k, tIDx) stages for K position x. */
  method StageB(B: array<real>, rB: int, cB: int, x: int, c: int) returns (v: real)
    requires 0 <= x && 0 <= c && 0 <= rB && 0 <= cB && B.Length >= rB * cB
    ensures v == PadB(B[..], rB, cB, x, c)
  {
    v := if x < rB && c < cB then B[Idx(x, c, rB, cB)] else 0.0;
  }

  /** The K loop of one thread: C_sub accumulates, tile by tile, the products
      A_sub[tIDy][k] * B_sub[k][tIDx].  A_sub[tIDy][k] was staged by thread
      (tIDy, k) of the block, that is PadA at (row, m*16 + k); B_sub
      likewise. */
  method ThreadDot(A: array<real>, rA: int, cA: int, B: array<real>, rB: int, cB: int, row: int, col: int)
    returns (cSub: real)
    requires 0 <= rA && 0 <= cA && A.Length >= rA * cA && 0 <= rB && 0 <= cB && B.Length >= rB * cB
    requires 0 <= row && 0 <= col
    ensures cSub == TiledSum(A[..], rA, cA, B[..], rB, cB, row, col, 16 * NumTiles(cA))
  {
    cSub := 0.0;
    var m := 0;
    while m < (16 + cA - 1) / 16
      invariant 0 <= m <= NumTiles(cA)
      invariant cSub == TiledSum(A[..], rA, cA, B[..], rB, cB, row, col, 16 * m)
    {
      cSub := TileDot(A, rA, cA, B, rB, cB, row, col, 16 * m, cSub);
      m := m + 1;
    }
  }

  /** The k loop over one tile: the 16 staged products of K positions
      n .. n + 15 are added to C_sub. */
  method TileDot(A: array<real>, rA: int, cA: int, B: array<real>, rB: int, cB: int, row: int, col: int,
                 n: int, acc: real) returns (cSub: real)
    requires 0 <= rA && 0 <= cA && A.Length >= rA * cA && 0 <= rB && 0 <= cB && B.Length >= rB * cB
    requires 0 <= row && 0 <= col && 0 <= n
    requires acc == TiledSum(A[..], rA, cA, B[..], rB, cB, row, col, n)
    ensures cSub == TiledSum(A[..], rA, cA, B[..], rB, cB, row, col, n + 16)
  {
    ghost var a, b := A[..], B[..];
    cSub := acc;
    var k := 0;
    while k < 16
      invariant 0 <= k <= 16
      invariant cSub == TiledSum(a, rA, cA, b, rB, cB, row, col, n + k)
    {
      var aSub := StageA(A, rA, cA, row, n + k);
      var bSub := StageB(B, rB, cB, n + k, col);
      TiledStep(a, rA, cA, b, rB, cB, row, col, n + k, cSub, aSub, bSub);
      cSub := cSub + aSub * bSub;
      k := k + 1;
    }
  }

  /** The value the kernel leaves in flat output cell q of the rA x cB result. */
  function CellValue(A: seq<real>, rA: int, cA: int, B: seq<real>, rB: int, cB: int, q: int): (v: real)
    requires 0 <= rA && 0 <= cA && |A| >= rA * cA && 0 <= rB && 0 <= cB && |B| >= rB * cB
    requires 0 <= q < rA * cB
    ensures cA == rB && |A| == rA * cA && |B| == cA * cB ==> v == MatrixProduct(A, rA, cA, B, cB)[q]
  {
    Split(q, rA, cB);
    if cA == rB && |A| == rA * cA && |B| == cA * cB then
      TiledSumIsDot(A, rA, cA, B, cB, q / cB, q % cB, 16 * NumTiles(cA));
      TiledSum(A, rA, cA, B, rB, cB, q / cB, q % cB, 16 * NumTiles(cA))
    else
      TiledSum(A, rA, cA, B, rB, cB, q / cB, q % cB, 16 * NumTiles(cA))
  }

  /** The flat output index the kernel writes is row_ * cB + col_. */
  lemma OutputIndex(cB: int, bIDx: int, bIDy: int, tIDx: int, tIDy: int)
    ensures cB * 16 * bIDy + 16 * bIDx + cB * tIDy + tIDx
         == (bIDy * 16 + tIDy) * cB + (bIDx * 16 + tIDx)
  {
  }

  /** kernel_MatMul over a gridX x gridY launch of 16 x 16
      blocks.  Every cell (row, col) of the rA x cB result receives its tiled
      accumulation, and nothing past rA * cB is written. */
  method KernelMatMul(A: array<real>, rA: int, cA: int, B: array<real>, rB: int, cB: int, C: array<real>,
                      gridX: int, gridY: int)
    requires 0 <= rA && 0 <= cA && A.Length >= rA * cA && 0 <= rB && 0 <= cB && B.Length >= rB * cB
    requires C.Length >= rA * cB && C != A && C != B
    requires 0 <= gridX && 0 <= gridY && 16 * gridX >= cB && 16 * gridY >= rA
    modifies C
    ensures forall row, col :: 0 <= row < rA && 0 <= col < cB ==>
              C[Idx(row, col, rA, cB)] == TiledSum(A[..], rA, cA, B[..], rB, cB, row, col, 16 * NumTiles(cA))
    ensures forall q :: rA * cB <= q < C.Length ==> C[q] == old(C[q])
  {
    assert rA * cB > 0 ==> cB >= 1;
    forall q | 0 <= q < rA * cB
      ensures 0 <= q / cB < rA && 0 <= q % cB < cB
    {
      Split(q, rA, cB);
    }
    var row_ := 0;
    while row_ < 16 * gridY
      invariant 0 <= row_ <= 16 * gridY
      invariant forall q :: 0 <= q < rA * cB && q / cB < row_ ==>
                  C[q] == CellValue(A[..], rA, cA, B[..], rB, cB, q)
      invariant forall q :: rA * cB <= q < C.Length ==> C[q] == old(C[q])
    {
      var col_ := 0;
      while col_ < 16 * gridX
        invariant 0 <= col_ <= 16 * gridX
        invariant forall q :: 0 <= q < rA * cB && (q / cB < row_ || (q / cB == row_ && q % cB < col_)) ==>
                    C[q] == CellValue(A[..], rA, cA, B[..], rB, cB, q)
        invariant forall q :: rA * cB <= q < C.Length ==> C[q] == old(C[q])
      {
        var bIDy, tIDy := row_ / 16, row_ % 16;
        var bIDx, tIDx := col_ / 16, col_ % 16;
        var cSub := ThreadDot(A, rA, cA, B, rB, cB, row_, col_);
        if row_ < rA && col_ < cB {
          OutputIndex(cB, bIDx, bIDy, tIDx, tIDy);
          var index := cB * 16 * bIDy + 16 * bIDx + cB * tIDy + tIDx;
          assert index == Idx(row_, col_, rA, cB);
          forall q | 0 <= q < rA * cB && q / cB == row_ && q % cB == col_
            ensures q == index
          {
            Split(q, rA, cB);
          }
          C[index] := cSub;
        }
        col_ := col_ + 1;
      }
      row_ := row_ + 1;
    }
    forall row, col | 0 <= row < rA && 0 <= col < cB
      ensures C[Idx(row, col, rA, cB)] == TiledSum(A[..], rA, cA, B[..], rB, cB, row, col, 16 * NumTiles(cA))
    {
      assert CellValue(A[..], rA, cA, B[..], rB, cB, Idx(row, col, rA, cB))
          == TiledSum(A[..], rA, cA, B[..], rB, cB, row, col, 16 * NumTiles(cA));
    }
  }

  /** gpuMul.MatMul as written: C is allocated rA x cB and the grid is
      ceil(cB/16) x ceil(rA/16) blocks, but the kernel receives cA where it
      expects cB.  The launch stays inside A, B and C only when cA <= cB,
      which is the case this member models.  The device buffer from
      gpuarray.empty is modelled as zero-filled. */
  method MatMulAsWritten(A: seq<real>, rA: int, cA: int, B: seq<real>, rB: int, cB: int) returns (C: seq<real>)
    requires 0 <= rA && 0 <= cA && 0 <= rB && 0 <= cB && |A| == rA * cA && |B| == rB * cB
    requires cA <= cB
    ensures |C| == rA * cB && rA * cA <= rA * cB && rB * cA <= |B|
    ensures forall row, col :: 0 <= row < rA && 0 <= col < cA ==>
              C[Idx(row, col, rA, cA)] == TiledSum(A, rA, cA, B, rB, cA, row, col, 16 * NumTiles(cA))
    ensures forall q :: rA * cA <= q < rA * cB ==> C[q] == 0.0
  {
    MulMono(rA, cA, cB);
    MulMono(rB, cA, cB);
    var aGpu := new real[rA * cA](q requires 0 <= q < rA * cA => A[q]);
    var bGpu := new real[rB * cB](q requires 0 <= q < rB * cB => B[q]);
    var cGpu := new real[rA * cB](q => 0.0);
    assert aGpu[..] == A && bGpu[..] == B;
    KernelMatMul(aGpu, rA, cA, bGpu, rB, cA, cGpu, (cB + 15) / 16, (rA + 15) / 16);
    C := cGpu[..];
  }

  /** A 2 x 1 by 1 x 2 product through the wrapper as written: flat cell 1,
      which is (0, 1) of the 2 x 2 result, receives row 1 of A times column 0
      of B (1.0) instead of the product's entry 2.0. */
  lemma MatMulAsWrittenMisplaces()
    ensures TiledSum([1.0, 1.0], 2, 1, [1.0, 2.0], 1, 1, 1, 0, 16 * NumTiles(1)) == 1.0
    ensures MatrixProduct([1.0, 1.0], 2, 1, [1.0, 2.0], 2)[1] == 2.0
  {
    AsWrittenCellOne();
    ProductCellOne();
  }

  lemma AsWrittenCellOne()
    ensures TiledSum([1.0, 1.0], 2, 1, [1.0, 2.0], 1, 1, 1, 0, 16 * NumTiles(1)) == 1.0
  {
    TiledSumPastWidth([1.0, 1.0], 2, 1, [1.0, 2.0], 1, 1, 1, 0, 16);
  }

  lemma ProductCellOne()
    ensures MatrixProduct([1.0, 1.0], 2, 1, [1.0, 2.0], 2)[1] == 2.0
  {
  }

  /** gpuMul.MatMul with the kernel given cB: for conforming shapes
      (cA == rB) the result is the matrix product. */
  method MatMul(A: seq<real>, rA: int, cA: int, B: seq<real>, rB: int, cB: int) returns (C: seq<real>)
    requires 0 <= rA && 0 <= cA && 0 <= rB && 0 <= cB && |A| == rA * cA && |B| == rB * cB
    requires cA == rB
    ensures C == MatrixProduct(A, rA, cA, B, cB)
  {
    var aGpu := new real[rA * cA](q requires 0 <= q < rA * cA => A[q]);
    var bGpu := new real[rB * cB](q requires 0 <= q < rB * cB => B[q]);
    var cGpu := new real[rA * cB](q => 0.0);
    assert aGpu[..] == A && bGpu[..] == B;
    KernelMatMul(aGpu, rA, cA, bGpu, rB, cB, cGpu, (cB + 15) / 16, (rA + 15) / 16);
    C := cGpu[..];
    forall q | 0 <= q < rA * cB
      ensures C[q] == MatrixProduct(A, rA, cA, B, cB)[q]
    {
      Split(q, rA, cB);
      var row, col := q / cB, q % cB;
      assert q == Idx(row, col, rA, cB);
      TiledSumIsDot(A, rA, cA, B, cB, row, col, 16 * NumTiles(cA));
    }
  }
}
