/** One round of the parallel two-sided Jacobi method (class dimUpdate of
    svd_cuda.py).  In round `iter` the P/2 pairs of the chess-tournament
    schedule are rotated independently: the row phase writes
    X = (G A)^T and the column phase writes A' = G X and E' = G E, where G
    is the block rotation holding, for each pair (k, l), cos at (k, k) and
    (l, l), -sin at (k, l) and sin at (l, k).  The sine and cosine of pair
    (k, l) are entry (k, l) of the P x P parameter matrices.

    The specification works on host matrices (rows of reals); the kernels
    work on the row-major device buffers of those matrices. */
module Jacobi {
  import opened Flat
  import opened Schedule

  predicate Square(m: Matrix, P: int)
  {
    IsMatrix(m, P, P)
  }

  /** Shape of the inputs of a round. */
  predicate RoundShape(P: int, iter: int, sine: Matrix, cosine: Matrix)
  {
    EvenP(P) && 0 <= iter < P - 1 && Square(sine, P) && Square(cosine, P)
  }

  /** The pair of round `iter` that holds index i. */
  function PairOf(P: int, iter: int, i: int): (p: (int, int))
    requires EvenP(P) && 0 <= iter < P - 1 && 0 <= i < P
    ensures 0 <= p.0 < p.1 < P && Holds(p, i)
  {
    CirclePair(P, BlockOf(P, iter, i), iter)
  }

  /** The index that i is paired with in round `iter`. */
  function Partner(P: int, iter: int, i: int): (j: int)
    requires EvenP(P) && 0 <= iter < P - 1 && 0 <= i < P
    ensures 0 <= j < P && j != i && Holds(PairOf(P, iter, i), j)
    ensures PairOf(P, iter, j) == PairOf(P, iter, i)
  {
    var p := PairOf(P, iter, i);
    var j := if p.0 == i then p.1 else p.0;
    BlockOfUnique(P, iter, j, BlockOf(P, iter, i));
    j
  }

  /** Sine and cosine of the pair that holds index i. */
  function SinOf(P: int, iter: int, sine: Matrix, i: int): real
    requires EvenP(P) && 0 <= iter < P - 1 && Square(sine, P) && 0 <= i < P
  {
    var p := PairOf(P, iter, i);
    sine[p.0][p.1]
  }

  function CosOf(P: int, iter: int, cosine: Matrix, i: int): real
    requires EvenP(P) && 0 <= iter < P - 1 && Square(cosine, P) && 0 <= i < P
  {
    var p := PairOf(P, iter, i);
    cosine[p.0][p.1]
  }

  /** Entry (i, Partner(i)) of the block rotation G: -sin on the smaller
      index of a pair, sin on the larger. */
  function OffOf(P: int, iter: int, sine: Matrix, i: int): real
    requires EvenP(P) && 0 <= iter < P - 1 && Square(sine, P) && 0 <= i < P
  {
    if i == PairOf(P, iter, i).0 then -SinOf(P, iter, sine, i) else SinOf(P, iter, sine, i)
  }

  // ---------------------------------------------------------------- row phase

  /** What one block of kernel_row_update stores at X[r][c] for c in {k, l}:
      X[r][k] = A[k][r] cos - A[l][r] sin and X[r][l] = A[k][r] sin + A[l][r] cos. */
  function RowRotated(a: Matrix, P: int, k: int, l: int, s: real, co: real, r: int, c: int): real
    requires Square(a, P) && 0 <= k < l < P && 0 <= r < P && (c == k || c == l)
  {
    if c == k then a[k][r] * co - a[l][r] * s else a[k][r] * s + a[l][r] * co
  }

  function RowPhaseAt(a: Matrix, P: int, iter: int, sine: Matrix, cosine: Matrix, r: int, c: int): real
    requires RoundShape(P, iter, sine, cosine) && Square(a, P) && 0 <= r < P && 0 <= c < P
  {
    var p := PairOf(P, iter, c);
    RowRotated(a, P, p.0, p.1, sine[p.0][p.1], cosine[p.0][p.1], r, c)
  }

  /** The matrix X that kernel_row_update writes: (G A)^T. */
  function RowPhase(a: Matrix, P: int, iter: int, sine: Matrix, cosine: Matrix): (x: Matrix)
    requires RoundShape(P, iter, sine, cosine) && Square(a, P)
    ensures Square(x, P)
  {
    seq(P, r requires 0 <= r < P =>
      seq(P, c requires 0 <= c < P => RowPhaseAt(a, P, iter, sine, cosine, r, c)))
  }

  // ------------------------------------------------------------- column phase

  /** What one block of kernel_col_update stores at row r in {k, l}:
      out[k][c] = x[k][c] cos - x[l][c] sin and out[l][c] = x[k][c] sin + x[l][c] cos. */
  function ColRotated(x: Matrix, P: int, k: int, l: int, s: real, co: real, r: int, c: int): real
    requires Square(x, P) && 0 <= k < l < P && 0 <= c < P && (r == k || r == l)
  {
    if r == k then x[k][c] * co - x[l][c] * s else x[k][c] * s + x[l][c] * co
  }

  function ColPhaseAt(x: Matrix, P: int, iter: int, sine: Matrix, cosine: Matrix, r: int, c: int): real
    requires RoundShape(P, iter, sine, cosine) && Square(x, P) && 0 <= r < P && 0 <= c < P
  {
    var p := PairOf(P, iter, r);
    ColRotated(x, P, p.0, p.1, sine[p.0][p.1], cosine[p.0][p.1], r, c)
  }

  /** The matrix kernel_col_update writes: G x. */
  function ColPhase(x: Matrix, P: int, iter: int, sine: Matrix, cosine: Matrix): (y: Matrix)
    requires RoundShape(P, iter, sine, cosine) && Square(x, P)
    ensures Square(y, P)
  {
    seq(P, r requires 0 <= r < P =>
      seq(P, c requires 0 <= c < P => ColPhaseAt(x, P, iter, sine, cosine, r, c)))
  }

  /** One round on A: G (G A)^T, which is G A G^T when A is symmetric. */
  function Round(a: Matrix, P: int, iter: int, sine: Matrix, cosine: Matrix): (r: Matrix)
    requires RoundShape(P, iter, sine, cosine) && Square(a, P)
    ensures Square(r, P)
  {
    ColPhase(RowPhase(a, P, iter, sine, cosine), P, iter, sine, cosine)
  }

  // ------------------------------------------------------------------ kernels

  /** The P threads of one block of kernel_row_update: thread localID
      rotates column localID of rows k and l of A into row localID of X. */
  method RowUpdateBlock(A: array<real>, X: array<real>, P: int, k: int, l: int, s: real, co: real, ghost a: Matrix)
    requires 0 <= k < l < P && X.Length == P * P && A != X && FlatOf(A[..], a, P, P)
    modifies X
    ensures forall r, c :: 0 <= r < P && 0 <= c < P && (c == k || c == l) ==>
              X[Idx(r, c, P, P)] == RowRotated(a, P, k, l, s, co, r, c)
    ensures forall r, c :: 0 <= r < P && 0 <= c < P && c != k && c != l ==>
              X[Idx(r, c, P, P)] == old(X[Idx(r, c, P, P)])
  {
    var localID := 0;
    while localID < P
      invariant 0 <= localID <= P
      invariant forall r, c :: 0 <= r < localID && 0 <= c < P && (c == k || c == l) ==>
                  X[Idx(r, c, P, P)] == RowRotated(a, P, k, l, s, co, r, c)
      invariant forall r, c :: 0 <= r < P && 0 <= c < P && !((c == k || c == l) && r < localID) ==>
                  X[Idx(r, c, P, P)] == old(X[Idx(r, c, P, P)])
    {
      RowUpdateThread(A, X, P, k, l, s, co, localID, a);
      localID := localID + 1;
    }
  }

  /** Thread localID of a kernel_row_update block: it reads column localID
      of rows k and l of A and writes entries k and l of row localID of X. */
  method RowUpdateThread(A: array<real>, X: array<real>, P: int, k: int, l: int, s: real, co: real,
                         localID: int, ghost a: Matrix)
    requires 0 <= k < l < P && 0 <= localID < P && X.Length == P * P && A != X && FlatOf(A[..], a, P, P)
    modifies X
    ensures X[Idx(localID, k, P, P)] == RowRotated(a, P, k, l, s, co, localID, k)
    ensures X[Idx(localID, l, P, P)] == RowRotated(a, P, k, l, s, co, localID, l)
    ensures forall r, c :: 0 <= r < P && 0 <= c < P && !(r == localID && (c == k || c == l)) ==>
              X[Idx(r, c, P, P)] == old(X[Idx(r, c, P, P)])
  {
    assert k * P + localID == Idx(k, localID, P, P) && l * P + localID == Idx(l, localID, P, P);
    var elemK, elemL := A[k * P + localID], A[l * P + localID];
    assert elemK == a[k][localID] && elemL == a[l][localID];
    var kp, lp := localID * P + k, localID * P + l;
    assert kp == Idx(localID, k, P, P) && lp == Idx(localID, l, P, P);
    ghost var newK, newL := RowRotated(a, P, k, l, s, co, localID, k), RowRotated(a, P, k, l, s, co, localID, l);
    assert elemK * co - elemL * s == newK && elemK * s + elemL * co == newL;
    X[kp] := elemK * co - elemL * s;
    X[lp] := elemK * s + elemL * co;
  }

  /** kernel_row_update of round `iter`: block blockID reads its pair from
      the schedule table and its parameters from slot k*P + l, and X
      becomes the buffer of the row phase of A. */
  method KernelRowUpdate(iter: int, A: array<real>, X: array<real>, P: int,
                         sine: seq<real>, cosine: seq<real>, table: seq<int>)
    requires EvenP(P) && 0 <= iter < P - 1 && |sine| == P * P && |cosine| == P * P
    requires table == ScheduleTable(P)
    requires A.Length == P * P && X.Length == P * P && A != X
    modifies X
    ensures Unflatten(X[..], P, P)
              == RowPhase(Unflatten(A[..], P, P), P, iter, Unflatten(sine, P, P), Unflatten(cosine, P, P))
  {
    ghost var a, sin2, cos2 := Unflatten(A[..], P, P), Unflatten(sine, P, P), Unflatten(cosine, P, P);
    ghost var x := RowPhase(a, P, iter, sin2, cos2);
    var blockID := 0;
    while blockID < P / 2
      invariant 0 <= blockID <= P / 2
      invariant forall r, c :: 0 <= r < P && 0 <= c < P && BlockOf(P, iter, c) < blockID ==>
                  X[Idx(r, c, P, P)] == x[r][c]
    {
      RowUpdateBlockOfRound(iter, A, X, P, sine, cosine, table, blockID, a, sin2, cos2, x);
      blockID := blockID + 1;
    }
    assert FlatOf(X[..], x, P, P);
    FlatOfUnique(X[..], Unflatten(X[..], P, P), x, P, P);
  }

  /** Block blockID of kernel_row_update of round `iter`: it adds the two
      columns of its own pair to the columns of X already written. */
  method RowUpdateBlockOfRound(iter: int, A: array<real>, X: array<real>, P: int,
                               sine: seq<real>, cosine: seq<real>, table: seq<int>, blockID: int,
                               ghost a: Matrix, ghost sin2: Matrix, ghost cos2: Matrix, ghost x: Matrix)
    requires RoundShape(P, iter, sin2, cos2) && FlatOf(sine, sin2, P, P) && FlatOf(cosine, cos2, P, P)
    requires table == ScheduleTable(P) && 0 <= blockID < P / 2
    requires X.Length == P * P && A != X && FlatOf(A[..], a, P, P)
    requires x == RowPhase(a, P, iter, sin2, cos2)
    requires forall r, c :: 0 <= r < P && 0 <= c < P && BlockOf(P, iter, c) < blockID ==>
               X[Idx(r, c, P, P)] == x[r][c]
    modifies X
    ensures forall r, c :: 0 <= r < P && 0 <= c < P && BlockOf(P, iter, c) < blockID + 1 ==>
              X[Idx(r, c, P, P)] == x[r][c]
  {
    TableAt(P, iter, blockID);
    var k, l := table[iter * P + blockID * 2], table[iter * P + blockID * 2 + 1];
    PairForm(P, blockID, iter);
    assert (k, l) == CirclePair(P, blockID, iter);
    BlockOfUnique(P, iter, k, blockID);
    BlockOfUnique(P, iter, l, blockID);
    assert k * P + l == Idx(k, l, P, P);
    var s, co := sine[k * P + l], cosine[k * P + l];
    assert s == sin2[k][l] && co == cos2[k][l];
    RowUpdateBlock(A, X, P, k, l, s, co, a);
    forall r, c | 0 <= r < P && 0 <= c < P && BlockOf(P, iter, c) == blockID
      ensures X[Idx(r, c, P, P)] == x[r][c]
    {
      assert Holds(CirclePair(P, blockID, iter), c);
    }
  }

  /** Thread localID of a kernel_col_update block: column localID of rows k
      and l of A and E, the new eigenvector entries going through two
      temporaries.  The buffers X and E hold, in column localID of rows k
      and l, the entries of the matrices x and e. */
  method ColUpdateThread(A: array<real>, X: array<real>, E: array<real>, P: int, k: int, l: int, s: real, co: real,
                         localID: int, ghost x: Matrix, ghost e: Matrix)
    requires 0 <= k < l < P && 0 <= localID < P && A.Length == P * P && X.Length == P * P && E.Length == P * P
    requires A != X && A != E && X != E && Square(x, P) && Square(e, P)
    requires X[Idx(k, localID, P, P)] == x[k][localID] && X[Idx(l, localID, P, P)] == x[l][localID]
    requires E[Idx(k, localID, P, P)] == e[k][localID] && E[Idx(l, localID, P, P)] == e[l][localID]
    modifies A, E
    ensures A[Idx(k, localID, P, P)] == ColRotated(x, P, k, l, s, co, k, localID)
    ensures A[Idx(l, localID, P, P)] == ColRotated(x, P, k, l, s, co, l, localID)
    ensures E[Idx(k, localID, P, P)] == ColRotated(e, P, k, l, s, co, k, localID)
    ensures E[Idx(l, localID, P, P)] == ColRotated(e, P, k, l, s, co, l, localID)
    ensures forall r, c :: 0 <= r < P && 0 <= c < P && !((r == k || r == l) && c == localID) ==>
              A[Idx(r, c, P, P)] == old(A[Idx(r, c, P, P)]) && E[Idx(r, c, P, P)] == old(E[Idx(r, c, P, P)])
  {
    var kp, lp := k * P + localID, l * P + localID;
    assert kp == Idx(k, localID, P, P) && lp == Idx(l, localID, P, P);
    A[kp] := X[kp] * co - X[lp] * s;
    A[lp] := X[kp] * s + X[lp] * co;
    RotateEigenColumn(E, P, k, l, s, co, localID, e);
  }

  /** The eigenvector part of a kernel_col_update thread: entries k and l of
      column localID of E are rotated in place, through two temporaries. */
  method RotateEigenColumn(E: array<real>, P: int, k: int, l: int, s: real, co: real, localID: int, ghost e: Matrix)
    requires 0 <= k < l < P && 0 <= localID < P && E.Length == P * P && Square(e, P)
    requires E[Idx(k, localID, P, P)] == e[k][localID] && E[Idx(l, localID, P, P)] == e[l][localID]
    modifies E
    ensures E[Idx(k, localID, P, P)] == ColRotated(e, P, k, l, s, co, k, localID)
    ensures E[Idx(l, localID, P, P)] == ColRotated(e, P, k, l, s, co, l, localID)
    ensures forall r, c :: 0 <= r < P && 0 <= c < P && !((r == k || r == l) && c == localID) ==>
              E[Idx(r, c, P, P)] == old(E[Idx(r, c, P, P)])
  {
    var kp, lp := k * P + localID, l * P + localID;
    assert kp == Idx(k, localID, P, P) && lp == Idx(l, localID, P, P);
    var newEigenK := E[kp] * co - E[lp] * s;
    var newEigenL := E[kp] * s + E[lp] * co;
    E[kp] := newEigenK;
    E[lp] := newEigenL;
  }

  /** The P threads of one block of kernel_col_update: rows k and l of A
      become the rotation of rows k and l of X, and rows k and l of E (which
      hold rows k and l of the matrix e) are rotated in place. */
  method ColUpdateBlock(A: array<real>, X: array<real>, E: array<real>, P: int, k: int, l: int, s: real, co: real,
                        ghost x: Matrix, ghost e: Matrix)
    requires 0 <= k < l < P && A.Length == P * P && E.Length == P * P
    requires A != X && A != E && X != E
    requires FlatOf(X[..], x, P, P) && Square(e, P)
    requires forall c :: 0 <= c < P ==> E[Idx(k, c, P, P)] == e[k][c] && E[Idx(l, c, P, P)] == e[l][c]
    modifies A, E
    ensures forall r, c :: 0 <= r < P && 0 <= c < P && (r == k || r == l) ==>
              A[Idx(r, c, P, P)] == ColRotated(x, P, k, l, s, co, r, c) &&
              E[Idx(r, c, P, P)] == ColRotated(e, P, k, l, s, co, r, c)
    ensures forall r, c :: 0 <= r < P && 0 <= c < P && r != k && r != l ==>
              A[Idx(r, c, P, P)] == old(A[Idx(r, c, P, P)]) && E[Idx(r, c, P, P)] == old(E[Idx(r, c, P, P)])
  {
    var localID := 0;
    while localID < P
      invariant 0 <= localID <= P
      invariant forall r, c :: 0 <= r < P && 0 <= c < localID && (r == k || r == l) ==>
                  A[Idx(r, c, P, P)] == ColRotated(x, P, k, l, s, co, r, c) &&
                  E[Idx(r, c, P, P)] == ColRotated(e, P, k, l, s, co, r, c)
      invariant forall c :: localID <= c < P ==> E[Idx(k, c, P, P)] == e[k][c] && E[Idx(l, c, P, P)] == e[l][c]
      invariant forall r, c :: 0 <= r < P && 0 <= c < P && r != k && r != l ==>
                  A[Idx(r, c, P, P)] == old(A[Idx(r, c, P, P)]) && E[Idx(r, c, P, P)] == old(E[Idx(r, c, P, P)])
    {
      ColUpdateThread(A, X, E, P, k, l, s, co, localID, x, e);
      localID := localID + 1;
    }
  }

  /** kernel_col_update of round `iter`: A becomes the buffer of G X and
      the eigenvector buffer E that of G E. */
  method KernelColUpdate(iter: int, A: array<real>, X: array<real>, P: int, E: array<real>,
                         sine: seq<real>, cosine: seq<real>, table: seq<int>)
    requires EvenP(P) && 0 <= iter < P - 1 && |sine| == P * P && |cosine| == P * P
    requires table == ScheduleTable(P)
    requires A.Length == P * P && X.Length == P * P && E.Length == P * P
    requires A != X && A != E && X != E
    modifies A, E
    ensures Unflatten(A[..], P, P)
              == ColPhase(Unflatten(X[..], P, P), P, iter, Unflatten(sine, P, P), Unflatten(cosine, P, P))
    ensures Unflatten(E[..], P, P)
              == ColPhase(Unflatten(old(E[..]), P, P), P, iter, Unflatten(sine, P, P), Unflatten(cosine, P, P))
  {
    ghost var x, e0 := Unflatten(X[..], P, P), Unflatten(E[..], P, P);
    ghost var sin2, cos2 := Unflatten(sine, P, P), Unflatten(cosine, P, P);
    ghost var ca, ce := ColPhase(x, P, iter, sin2, cos2), ColPhase(e0, P, iter, sin2, cos2);
    var blockID := 0;
    while blockID < P / 2
      invariant 0 <= blockID <= P / 2
      invariant forall r, c :: 0 <= r < P && 0 <= c < P && BlockOf(P, iter, r) < blockID ==>
                  A[Idx(r, c, P, P)] == ca[r][c] && E[Idx(r, c, P, P)] == ce[r][c]
      invariant forall r, c :: 0 <= r < P && 0 <= c < P && BlockOf(P, iter, r) >= blockID ==>
                  E[Idx(r, c, P, P)] == e0[r][c]
    {
      ColUpdateBlockOfRound(iter, A, X, P, E, sine, cosine, table, blockID, x, e0, sin2, cos2, ca, ce);
      blockID := blockID + 1;
    }
    assert FlatOf(A[..], ca, P, P);
    assert FlatOf(E[..], ce, P, P);
    FlatOfUnique(A[..], Unflatten(A[..], P, P), ca, P, P);
    FlatOfUnique(E[..], Unflatten(E[..], P, P), ce, P, P);
  }

  /** Block blockID of kernel_col_update of round `iter`: it adds the two
      rows of its own pair to the rows of the round already rotated. */
  method ColUpdateBlockOfRound(iter: int, A: array<real>, X: array<real>, P: int, E: array<real>,
                               sine: seq<real>, cosine: seq<real>, table: seq<int>, blockID: int,
                               ghost x: Matrix, ghost e0: Matrix, ghost sin2: Matrix, ghost cos2: Matrix,
                               ghost ca: Matrix, ghost ce: Matrix)
    requires RoundShape(P, iter, sin2, cos2) && FlatOf(sine, sin2, P, P) && FlatOf(cosine, cos2, P, P)
    requires table == ScheduleTable(P) && 0 <= blockID < P / 2
    requires A.Length == P * P && E.Length == P * P && A != X && A != E && X != E
    requires FlatOf(X[..], x, P, P) && Square(e0, P)
    requires ca == ColPhase(x, P, iter, sin2, cos2) && ce == ColPhase(e0, P, iter, sin2, cos2)
    requires forall r, c :: 0 <= r < P && 0 <= c < P && BlockOf(P, iter, r) < blockID ==>
               A[Idx(r, c, P, P)] == ca[r][c] && E[Idx(r, c, P, P)] == ce[r][c]
    requires forall r, c :: 0 <= r < P && 0 <= c < P && BlockOf(P, iter, r) >= blockID ==>
               E[Idx(r, c, P, P)] == e0[r][c]
    modifies A, E
    ensures forall r, c :: 0 <= r < P && 0 <= c < P && BlockOf(P, iter, r) < blockID + 1 ==>
              A[Idx(r, c, P, P)] == ca[r][c] && E[Idx(r, c, P, P)] == ce[r][c]
    ensures forall r, c :: 0 <= r < P && 0 <= c < P && BlockOf(P, iter, r) >= blockID + 1 ==>
              E[Idx(r, c, P, P)] == e0[r][c]
  {
    TableAt(P, iter, blockID);
    var k, l := table[iter * P + blockID * 2], table[iter * P + blockID * 2 + 1];
    PairForm(P, blockID, iter);
    assert (k, l) == CirclePair(P, blockID, iter);
    BlockOfUnique(P, iter, k, blockID);
    BlockOfUnique(P, iter, l, blockID);
    assert k * P + l == Idx(k, l, P, P);
    var s, co := sine[k * P + l], cosine[k * P + l];
    assert s == sin2[k][l] && co == cos2[k][l];
    ColUpdateBlock(A, X, E, P, k, l, s, co, x, e0);
    forall r, c | 0 <= r < P && 0 <= c < P && BlockOf(P, iter, r) == blockID
      ensures A[Idx(r, c, P, P)] == ca[r][c] && E[Idx(r, c, P, P)] == ce[r][c]
    {
      assert Holds(CirclePair(P, blockID, iter), r);
    }
  }

  // ------------------------------------------------ per-pair formulas of a round

  /** Row phase, pair by pair: for the pair (k, l) that chess_tourney_params
      gives thread b, X[r][k] and X[r][l] are the rotation of A[k][r] and
      A[l][r] by that pair's sine and cosine. */
  lemma RowPhasePair(a: Matrix, P: int, iter: int, sine: Matrix, cosine: Matrix, b: int, k: int, l: int, r: int)
    requires RoundShape(P, iter, sine, cosine) && Square(a, P) && 0 <= b < P / 2 && 0 <= r < P
    requires (k, l) == ChessTourneyParams(P, b, iter)
    ensures 0 <= k < l < P
    ensures RowPhase(a, P, iter, sine, cosine)[r][k] == a[k][r] * cosine[k][l] - a[l][r] * sine[k][l]
    ensures RowPhase(a, P, iter, sine, cosine)[r][l] == a[k][r] * sine[k][l] + a[l][r] * cosine[k][l]
  {
    PairForm(P, b, iter);
    BlockOfUnique(P, iter, k, b);
    BlockOfUnique(P, iter, l, b);
  }

  /** Column phase, pair by pair: rows k and l of the output are the
      rotation of rows k and l of the input. */
  lemma ColPhasePair(x: Matrix, P: int, iter: int, sine: Matrix, cosine: Matrix, b: int, k: int, l: int, c: int)
    requires RoundShape(P, iter, sine, cosine) && Square(x, P) && 0 <= b < P / 2 && 0 <= c < P
    requires (k, l) == ChessTourneyParams(P, b, iter)
    ensures 0 <= k < l < P
    ensures ColPhase(x, P, iter, sine, cosine)[k][c] == x[k][c] * cosine[k][l] - x[l][c] * sine[k][l]
    ensures ColPhase(x, P, iter, sine, cosine)[l][c] == x[k][c] * sine[k][l] + x[l][c] * cosine[k][l]
  {
    PairForm(P, b, iter);
    BlockOfUnique(P, iter, k, b);
    BlockOfUnique(P, iter, l, b);
  }

  /** Squared length of the two-vector (a, b). */
  function SqNorm(a: real, b: real): real
  {
    a * a + b * b
  }

  /** The column update of one pair (k, l): when cos^2 + sin^2 = 1, every
      column c of rows k and l keeps its squared length x[k][c]^2 + x[l][c]^2. */
  lemma ColRotatedKeepsNorm(x: Matrix, P: int, k: int, l: int, s: real, co: real, c: int)
    requires Square(x, P) && 0 <= k < l < P && 0 <= c < P
    requires SqNorm(co, s) == 1.0
    ensures SqNorm(ColRotated(x, P, k, l, s, co, k, c), ColRotated(x, P, k, l, s, co, l, c))
            == SqNorm(x[k][c], x[l][c])
  {
    RotationKeepsNorm(co, s, x[k][c], x[l][c],
                      ColRotated(x, P, k, l, s, co, k, c), ColRotated(x, P, k, l, s, co, l, c));
  }

  lemma RotationKeepsNorm(co: real, s: real, a: real, b: real, u: real, v: real)
    requires SqNorm(co, s) == 1.0 && u == a * co - b * s && v == a * s + b * co
    ensures SqNorm(u, v) == SqNorm(a, b)
  {
    calc {
      u * u + v * v;
      (a * co - b * s) * (a * co - b * s) + (a * s + b * co) * (a * s + b * co);
      (co * co + s * s) * (a * a) + (co * co + s * s) * (b * b);
    }
  }

  // --------------------------------------------------- the rotation matrix G

  /** A block rotation G stored by rows: row i holds diag[i] at column i,
      off[i] at column partner[i], and zeros elsewhere. */
  datatype Rotation = Rotation(partner: seq<int>, diag: seq<real>, off: seq<real>)

  /** The partners pair the indices up: no index is its own partner and
      the partner of the partner is the index itself. */
  predicate WellFormed(g: Rotation, P: int)
  {
    |g.partner| == P && |g.diag| == P && |g.off| == P &&
    forall i :: 0 <= i < P ==> 0 <= g.partner[i] < P && g.partner[i] != i && g.partner[g.partner[i]] == i
  }

  /** G x, computed with the two non-zero entries of each row of G. */
  function ApplyAt(g: Rotation, x: Matrix, P: int, r: int, c: int): real
    requires WellFormed(g, P) && Square(x, P) && 0 <= r < P && 0 <= c < P
  {
    g.diag[r] * x[r][c] + g.off[r] * x[g.partner[r]][c]
  }

  function Apply(g: Rotation, x: Matrix, P: int): (y: Matrix)
    requires WellFormed(g, P) && Square(x, P)
    ensures Square(y, P)
  {
    seq(P, r requires 0 <= r < P => seq(P, c requires 0 <= c < P => ApplyAt(g, x, P, r, c)))
  }

  /** The block rotation of round `iter`: each pair (k, l) of the schedule
      contributes the 2 x 2 block [cos, -sin; sin, cos] on rows and
      columns k and l. */
  function RoundRotation(P: int, iter: int, sine: Matrix, cosine: Matrix): (g: Rotation)
    requires RoundShape(P, iter, sine, cosine)
    ensures WellFormed(g, P)
    ensures forall i :: 0 <= i < P ==>
              g.partner[i] == Partner(P, iter, i) && g.diag[i] == CosOf(P, iter, cosine, i) && g.off[i] == OffOf(P, iter, sine, i)
  {
    var g := Rotation(seq(P, i requires 0 <= i < P => Partner(P, iter, i)),
                      seq(P, i requires 0 <= i < P => CosOf(P, iter, cosine, i)),
                      seq(P, i requires 0 <= i < P => OffOf(P, iter, sine, i)));
    assert forall i :: 0 <= i < P ==> g.partner[g.partner[i]] == i by {
      forall i | 0 <= i < P
        ensures g.partner[g.partner[i]] == i
      {
        PartnerInvolution(P, iter, i);
      }
    }
    g
  }

  /** Pairing is symmetric: the partner of i's partner is i. */
  lemma PartnerInvolution(P: int, iter: int, i: int)
    requires EvenP(P) && 0 <= iter < P - 1 && 0 <= i < P
    ensures Partner(P, iter, Partner(P, iter, i)) == i
  {
  }

  /** The row phase is multiplication by G followed by transposition:
      X[r][i] = G[i][i] A[i][r] + G[i][i'] A[i'][r], i' the partner of i. */
  lemma RowPhaseCoefficients(a: Matrix, P: int, iter: int, sine: Matrix, cosine: Matrix, r: int, i: int)
    requires RoundShape(P, iter, sine, cosine) && Square(a, P) && 0 <= r < P && 0 <= i < P
    ensures RowPhase(a, P, iter, sine, cosine)[r][i]
              == CosOf(P, iter, cosine, i) * a[i][r] + OffOf(P, iter, sine, i) * a[Partner(P, iter, i)][r]
  {
    var p := PairOf(P, iter, i);
    var k, l := p.0, p.1;
    if i == k {
      Coefficients(a[k][r], a[l][r], sine[k][l], cosine[k][l], RowPhase(a, P, iter, sine, cosine)[r][i], true);
    } else {
      Coefficients(a[k][r], a[l][r], sine[k][l], cosine[k][l], RowPhase(a, P, iter, sine, cosine)[r][i], false);
    }
  }

  /** The column phase is multiplication by G:
      out[i][c] = G[i][i] x[i][c] + G[i][i'] x[i'][c]. */
  lemma ColPhaseCoefficients(x: Matrix, P: int, iter: int, sine: Matrix, cosine: Matrix, i: int, c: int)
    requires RoundShape(P, iter, sine, cosine) && Square(x, P) && 0 <= c < P && 0 <= i < P
    ensures ColPhase(x, P, iter, sine, cosine)[i][c]
              == CosOf(P, iter, cosine, i) * x[i][c] + OffOf(P, iter, sine, i) * x[Partner(P, iter, i)][c]
  {
    var p := PairOf(P, iter, i);
    var k, l := p.0, p.1;
    if i == k {
      Coefficients(x[k][c], x[l][c], sine[k][l], cosine[k][l], ColPhase(x, P, iter, sine, cosine)[i][c], true);
    } else {
      Coefficients(x[k][c], x[l][c], sine[k][l], cosine[k][l], ColPhase(x, P, iter, sine, cosine)[i][c], false);
    }
  }

  /** kernel_col_update computes G x for the round's block rotation G. */
  lemma ColPhaseIsRotation(x: Matrix, P: int, iter: int, sine: Matrix, cosine: Matrix)
    requires RoundShape(P, iter, sine, cosine) && Square(x, P)
    ensures ColPhase(x, P, iter, sine, cosine) == Apply(RoundRotation(P, iter, sine, cosine), x, P)
  {
    var y, z := ColPhase(x, P, iter, sine, cosine), Apply(RoundRotation(P, iter, sine, cosine), x, P);
    forall i | 0 <= i < P
      ensures y[i] == z[i]
    {
      ColPhaseRowIsRotation(x, P, iter, sine, cosine, i);
    }
    assert |y| == |z|;
  }

  lemma ColPhaseRowIsRotation(x: Matrix, P: int, iter: int, sine: Matrix, cosine: Matrix, i: int)
    requires RoundShape(P, iter, sine, cosine) && Square(x, P) && 0 <= i < P
    ensures ColPhase(x, P, iter, sine, cosine)[i] == Apply(RoundRotation(P, iter, sine, cosine), x, P)[i]
  {
    var g := RoundRotation(P, iter, sine, cosine);
    var y, z := ColPhase(x, P, iter, sine, cosine)[i], Apply(g, x, P)[i];
    forall c | 0 <= c < P
      ensures y[c] == z[c]
    {
      ColPhaseEntryIsRotation(x, P, iter, sine, cosine, i, c);
    }
    assert |y| == |z|;
  }

  lemma ColPhaseEntryIsRotation(x: Matrix, P: int, iter: int, sine: Matrix, cosine: Matrix, i: int, c: int)
    requires RoundShape(P, iter, sine, cosine) && Square(x, P) && 0 <= i < P && 0 <= c < P
    ensures ColPhase(x, P, iter, sine, cosine)[i][c] == ApplyAt(RoundRotation(P, iter, sine, cosine), x, P, i, c)
  {
    ColPhaseCoefficients(x, P, iter, sine, cosine, i, c);
    RoundRotationAt(P, iter, sine, cosine, x, i, c);
  }

  /** kernel_row_update computes (G a)^T for the round's block rotation G. */
  lemma RowPhaseIsRotation(a: Matrix, P: int, iter: int, sine: Matrix, cosine: Matrix)
    requires RoundShape(P, iter, sine, cosine) && Square(a, P)
    ensures forall r, c :: 0 <= r < P && 0 <= c < P ==>
              RowPhase(a, P, iter, sine, cosine)[r][c] == ApplyAt(RoundRotation(P, iter, sine, cosine), a, P, c, r)
  {
    forall r, c | 0 <= r < P && 0 <= c < P
      ensures RowPhase(a, P, iter, sine, cosine)[r][c] == ApplyAt(RoundRotation(P, iter, sine, cosine), a, P, c, r)
    {
      RowPhaseEntryIsRotation(a, P, iter, sine, cosine, r, c);
    }
  }

  lemma RowPhaseEntryIsRotation(a: Matrix, P: int, iter: int, sine: Matrix, cosine: Matrix, r: int, c: int)
    requires RoundShape(P, iter, sine, cosine) && Square(a, P) && 0 <= r < P && 0 <= c < P
    ensures RowPhase(a, P, iter, sine, cosine)[r][c] == ApplyAt(RoundRotation(P, iter, sine, cosine), a, P, c, r)
  {
    RowPhaseCoefficients(a, P, iter, sine, cosine, r, c);
    RoundRotationAt(P, iter, sine, cosine, a, c, r);
  }

  /** Entry (r, c) of G x for the round's rotation G. */
  lemma RoundRotationAt(P: int, iter: int, sine: Matrix, cosine: Matrix, x: Matrix, r: int, c: int)
    requires RoundShape(P, iter, sine, cosine) && Square(x, P) && 0 <= r < P && 0 <= c < P
    ensures ApplyAt(RoundRotation(P, iter, sine, cosine), x, P, r, c)
              == CosOf(P, iter, cosine, r) * x[r][c] + OffOf(P, iter, sine, r) * x[Partner(P, iter, r)][c]
  {
  }

  /** The two outputs of a rotation of (u, v), in coefficient form. */
  lemma Coefficients(u: real, v: real, s: real, co: real, out: real, first: bool)
    requires first ==> out == u * co - v * s
    requires !first ==> out == u * s + v * co
    ensures first ==> out == co * u + (-s) * v
    ensures !first ==> out == co * v + s * u
  {
  }

  // ------------------------------------------------------------------ symmetry

  /** A symmetric matrix: a[i][j] == a[j][i]. */
  predicate Symmetric(a: Matrix, P: int)
    requires Square(a, P)
  {
    forall i, j :: 0 <= i < P && 0 <= j < P ==> a[i][j] == a[j][i]
  }

  /** G (G a)^T is symmetric when a is: entry (i, j) is
      sum over m, n of G[i][m] G[j][n] a[n][m]. */
  lemma SandwichSymmetric(g: Rotation, a: Matrix, x: Matrix, P: int)
    requires WellFormed(g, P) && Square(a, P) && Square(x, P) && Symmetric(a, P)
    requires forall r, c :: 0 <= r < P && 0 <= c < P ==> x[r][c] == ApplyAt(g, a, P, c, r)
    ensures Symmetric(Apply(g, x, P), P)
  {
    var y := Apply(g, x, P);
    forall i, j | 0 <= i < P && 0 <= j < P
      ensures y[i][j] == y[j][i]
    {
      var pi, pj := g.partner[i], g.partner[j];
      var di, oi, dj, oj := g.diag[i], g.off[i], g.diag[j], g.off[j];
      assert x[i][j] == dj * a[j][i] + oj * a[pj][i] && x[pi][j] == dj * a[j][pi] + oj * a[pj][pi];
      assert x[j][i] == di * a[i][j] + oi * a[pi][j] && x[pj][i] == di * a[i][pj] + oi * a[pi][pj];
      assert y[i][j] == di * (dj * a[j][i] + oj * a[pj][i]) + oi * (dj * a[j][pi] + oj * a[pj][pi]) by {
        Compose(y[i][j], x[i][j], x[pi][j], di, oi, dj, oj, a[j][i], a[pj][i], a[j][pi], a[pj][pi]);
      }
      assert y[j][i] == dj * (di * a[i][j] + oi * a[pi][j]) + oj * (di * a[i][pj] + oi * a[pi][pj]) by {
        Compose(y[j][i], x[j][i], x[pj][i], dj, oj, di, oi, a[i][j], a[pi][j], a[i][pj], a[pi][pj]);
      }
      SwapProducts(di, oi, dj, oj, a[j][i], a[pj][i], a[j][pi], a[pj][pi]);
    }
  }

  lemma SwapProducts(di: real, oi: real, dj: real, oj: real, x1: real, x2: real, x3: real, x4: real)
    ensures di * (dj * x1 + oj * x2) + oi * (dj * x3 + oj * x4) == dj * (di * x1 + oi * x3) + oj * (di * x2 + oi * x4)
  {
  }

  /** Substituting two entries of G a into an entry of G x. */
  lemma Compose(r: real, x1: real, x2: real, di: real, oi: real, dj: real, oj: real, a1: real, a2: real, a3: real, a4: real)
    requires r == di * x1 + oi * x2
    requires x1 == dj * a1 + oj * a2 && x2 == dj * a3 + oj * a4
    ensures r == di * (dj * a1 + oj * a2) + oi * (dj * a3 + oj * a4)
  {
  }

  /** A round maps a symmetric A to the symmetric G A G^T. */
  lemma RoundPreservesSymmetry(a: Matrix, P: int, iter: int, sine: Matrix, cosine: Matrix)
    requires RoundShape(P, iter, sine, cosine) && Square(a, P) && Symmetric(a, P)
    ensures Symmetric(Round(a, P, iter, sine, cosine), P)
  {
    var g := RoundRotation(P, iter, sine, cosine);
    var x := RowPhase(a, P, iter, sine, cosine);
    RowPhaseIsRotation(a, P, iter, sine, cosine);
    ColPhaseIsRotation(x, P, iter, sine, cosine);
    SandwichSymmetric(g, a, x, P);
  }

  /** Entry (i, j) of G a G^T, from the two non-zero entries of rows i and
      j of G. */
  function SandwichAt(g: Rotation, a: Matrix, P: int, i: int, j: int): real
    requires WellFormed(g, P) && Square(a, P) && 0 <= i < P && 0 <= j < P
  {
    var pi, pj := g.partner[i], g.partner[j];
    g.diag[i] * (g.diag[j] * a[i][j] + g.off[j] * a[i][pj]) + g.off[i] * (g.diag[j] * a[pi][j] + g.off[j] * a[pi][pj])
  }

  /** A round maps A to G A^T G^T, the transpose of G A G^T; for a
      symmetric A that is G A G^T itself. */
  lemma RoundIsSandwich(a: Matrix, P: int, iter: int, sine: Matrix, cosine: Matrix)
    requires RoundShape(P, iter, sine, cosine) && Square(a, P)
    ensures forall i, j :: 0 <= i < P && 0 <= j < P ==>
              Round(a, P, iter, sine, cosine)[i][j] == SandwichAt(RoundRotation(P, iter, sine, cosine), a, P, j, i)
    ensures Symmetric(a, P) ==> forall i, j :: 0 <= i < P && 0 <= j < P ==>
              Round(a, P, iter, sine, cosine)[i][j] == SandwichAt(RoundRotation(P, iter, sine, cosine), a, P, i, j)
  {
    var g := RoundRotation(P, iter, sine, cosine);
    var x := RowPhase(a, P, iter, sine, cosine);
    RowPhaseIsRotation(a, P, iter, sine, cosine);
    ColPhaseIsRotation(x, P, iter, sine, cosine);
    forall i, j | 0 <= i < P && 0 <= j < P
      ensures Apply(g, x, P)[i][j] == SandwichAt(g, a, P, j, i)
    {
      SandwichEntry(g, a, x, P, i, j);
    }
    if Symmetric(a, P) {
      forall i, j | 0 <= i < P && 0 <= j < P
        ensures SandwichAt(g, a, P, j, i) == SandwichAt(g, a, P, i, j)
      {
        SandwichTranspose(g, a, P, i, j);
      }
    }
  }

  /** Entry (i, j) of G x, with x = (G a)^T, is entry (j, i) of G a G^T. */
  lemma SandwichEntry(g: Rotation, a: Matrix, x: Matrix, P: int, i: int, j: int)
    requires WellFormed(g, P) && Square(a, P) && Square(x, P) && 0 <= i < P && 0 <= j < P
    requires forall r, c :: 0 <= r < P && 0 <= c < P ==> x[r][c] == ApplyAt(g, a, P, c, r)
    ensures Apply(g, x, P)[i][j] == SandwichAt(g, a, P, j, i)
  {
    var pi, pj := g.partner[i], g.partner[j];
    var di, oi, dj, oj := g.diag[i], g.off[i], g.diag[j], g.off[j];
    assert x[i][j] == dj * a[j][i] + oj * a[pj][i] && x[pi][j] == dj * a[j][pi] + oj * a[pj][pi];
    Compose(Apply(g, x, P)[i][j], x[i][j], x[pi][j], di, oi, dj, oj, a[j][i], a[pj][i], a[j][pi], a[pj][pi]);
    SwapProducts(di, oi, dj, oj, a[j][i], a[pj][i], a[j][pi], a[pj][pi]);
  }

  /** G a G^T is symmetric when a is. */
  lemma SandwichTranspose(g: Rotation, a: Matrix, P: int, i: int, j: int)
    requires WellFormed(g, P) && Square(a, P) && Symmetric(a, P) && 0 <= i < P && 0 <= j < P
    ensures SandwichAt(g, a, P, j, i) == SandwichAt(g, a, P, i, j)
  {
    var pi, pj := g.partner[i], g.partner[j];
    assert a[j][i] == a[i][j] && a[j][pi] == a[pi][j] && a[pj][i] == a[i][pj] && a[pj][pi] == a[pi][pj];
    SwapProducts(g.diag[i], g.off[i], g.diag[j], g.off[j], a[i][j], a[i][pj], a[pi][j], a[pi][pj]);
  }

  // ------------------------------------------- orthonormality of the eigenvectors

  /** The identity matrix, the initial eigenvector matrix. */
  function Identity(P: int): (m: Matrix)
    requires P >= 0
    ensures Square(m, P)
  {
    seq(P, r requires 0 <= r < P => seq(P, c requires 0 <= c < P => if r == c then 1.0 else 0.0))
  }

  /** Sum over the first n rows of e[r][i] * e[r][j]; with n = P, entry
      (i, j) of E^T E. */
  function ColumnDot(e: Matrix, P: int, i: int, j: int, n: int): real
    requires Square(e, P) && 0 <= i < P && 0 <= j < P && 0 <= n <= P
  {
    if n == 0 then 0.0 else ColumnDot(e, P, i, j, n - 1) + e[n - 1][i] * e[n - 1][j]
  }

  /** The columns of e are orthonormal: E^T E = I. */
  predicate Orthonormal(e: Matrix, P: int)
    requires Square(e, P)
  {
    forall i, j :: 0 <= i < P && 0 <= j < P ==> ColumnDot(e, P, i, j, P) == if i == j then 1.0 else 0.0
  }

  lemma {:induction false} IdentityDot(P: int, i: int, j: int, n: int)
    requires 0 <= i < P && 0 <= j < P && 0 <= n <= P
    ensures ColumnDot(Identity(P), P, i, j, n) == if i == j && i < n then 1.0 else 0.0
  {
    if n > 0 {
      IdentityDot(P, i, j, n - 1);
    }
  }

  /** The identity has orthonormal columns. */
  lemma IdentityOrthonormal(P: int)
    requires P >= 0
    ensures Orthonormal(Identity(P), P)
  {
    forall i, j | 0 <= i < P && 0 <= j < P
      ensures ColumnDot(Identity(P), P, i, j, P) == if i == j then 1.0 else 0.0
    {
      IdentityDot(P, i, j, P);
    }
  }

  /** Each row of G and its partner's row form a 2 x 2 block [d, o; -o, d]. */
  predicate Paired(g: Rotation, P: int)
  {
    WellFormed(g, P) &&
    forall i :: 0 <= i < P ==> g.diag[g.partner[i]] == g.diag[i] && g.off[g.partner[i]] == -g.off[i]
  }

  /** Every row of G has d^2 + o^2 = 1. */
  predicate UnitRows(g: Rotation, P: int)
  {
    WellFormed(g, P) && forall i :: 0 <= i < P ==> g.diag[i] * g.diag[i] + g.off[i] * g.off[i] == 1.0
  }

  /** G is orthogonal: its 2 x 2 blocks are rotations. */
  predicate Orthogonal(g: Rotation, P: int)
  {
    Paired(g, P) && UnitRows(g, P)
  }

  /** Two matrices that agree in columns i and j outside rows k and l
      differ in the column inner product (i, j) by the change in those rows. */
  lemma {:induction false} TwoRowsDot(y: Matrix, x: Matrix, P: int, k: int, l: int, i: int, j: int, n: int)
    requires Square(y, P) && Square(x, P) && 0 <= k < P && 0 <= l < P && k != l
    requires 0 <= i < P && 0 <= j < P && 0 <= n <= P
    requires forall r :: 0 <= r < P && r != k && r != l ==> y[r][i] == x[r][i] && y[r][j] == x[r][j]
    ensures ColumnDot(y, P, i, j, n) - ColumnDot(x, P, i, j, n)
              == RowChange(y, x, P, k, i, j, n) + RowChange(y, x, P, l, i, j, n)
  {
    if n > 0 {
      TwoRowsDot(y, x, P, k, l, i, j, n - 1);
      ColumnDotStep(y, P, i, j, n);
      ColumnDotStep(x, P, i, j, n);
      RowChangeStep(y, x, P, k, l, i, j, n);
      assert (ColumnDot(y, P, i, j, n - 1) + y[n - 1][i] * y[n - 1][j])
             - (ColumnDot(x, P, i, j, n - 1) + x[n - 1][i] * x[n - 1][j])
          == RowChange(y, x, P, k, i, j, n) + RowChange(y, x, P, l, i, j, n);
    }
  }

  /** The n-th row changes the two rows' total by its own change, which is
      zero unless it is row k or row l. */
  lemma RowChangeStep(y: Matrix, x: Matrix, P: int, k: int, l: int, i: int, j: int, n: int)
    requires Square(y, P) && Square(x, P) && 0 <= k < P && 0 <= l < P && k != l
    requires 0 <= i < P && 0 <= j < P && 0 < n <= P
    requires forall r :: 0 <= r < P && r != k && r != l ==> y[r][i] == x[r][i] && y[r][j] == x[r][j]
    ensures RowChange(y, x, P, k, i, j, n) + RowChange(y, x, P, l, i, j, n)
            == RowChange(y, x, P, k, i, j, n - 1) + RowChange(y, x, P, l, i, j, n - 1)
               + (y[n - 1][i] * y[n - 1][j] - x[n - 1][i] * x[n - 1][j])
  {
    var r := n - 1;
    if r == k {
      RowChangeAt(y, x, P, k, i, j, n);
      assert RowChange(y, x, P, l, i, j, n) == RowChange(y, x, P, l, i, j, r);
    } else if r == l {
      RowChangeAt(y, x, P, l, i, j, n);
      assert RowChange(y, x, P, k, i, j, n) == RowChange(y, x, P, k, i, j, r);
    } else {
      SameRowProducts(y, x, P, r, i, j);
      assert RowChange(y, x, P, k, i, j, n) == RowChange(y, x, P, k, i, j, r);
      assert RowChange(y, x, P, l, i, j, n) == RowChange(y, x, P, l, i, j, r);
    }
  }

  lemma ColumnDotStep(e: Matrix, P: int, i: int, j: int, n: int)
    requires Square(e, P) && 0 <= i < P && 0 <= j < P && 0 < n <= P
    ensures ColumnDot(e, P, i, j, n) == ColumnDot(e, P, i, j, n - 1) + e[n - 1][i] * e[n - 1][j]
  {
  }

  /** Row k = n - 1 is the row the n-th term adds. */
  lemma RowChangeAt(y: Matrix, x: Matrix, P: int, k: int, i: int, j: int, n: int)
    requires Square(y, P) && Square(x, P) && 0 <= k < P && 0 <= i < P && 0 <= j < P && k == n - 1
    ensures RowChange(y, x, P, k, i, j, n - 1) == 0.0
    ensures RowChange(y, x, P, k, i, j, n) == y[n - 1][i] * y[n - 1][j] - x[n - 1][i] * x[n - 1][j]
  {
  }

  lemma SameRowProducts(y: Matrix, x: Matrix, P: int, r: int, i: int, j: int)
    requires Square(y, P) && Square(x, P) && 0 <= r < P && 0 <= i < P && 0 <= j < P
    requires y[r][i] == x[r][i] && y[r][j] == x[r][j]
    ensures y[r][i] * y[r][j] == x[r][i] * x[r][j]
  {
  }

  /** TwoRowsDot over all P rows. */
  lemma TwoRowsDotAll(y: Matrix, x: Matrix, P: int, k: int, l: int, i: int, j: int)
    requires Square(y, P) && Square(x, P) && 0 <= k < P && 0 <= l < P && k != l
    requires 0 <= i < P && 0 <= j < P
    requires forall r :: 0 <= r < P && r != k && r != l ==> y[r][i] == x[r][i] && y[r][j] == x[r][j]
    ensures ColumnDot(y, P, i, j, P) - ColumnDot(x, P, i, j, P)
              == (y[k][i] * y[k][j] - x[k][i] * x[k][j]) + (y[l][i] * y[l][j] - x[l][i] * x[l][j])
  {
    TwoRowsDot(y, x, P, k, l, i, j, P);
    assert RowChange(y, x, P, k, i, j, P) == y[k][i] * y[k][j] - x[k][i] * x[k][j];
    assert RowChange(y, x, P, l, i, j, P) == y[l][i] * y[l][j] - x[l][i] * x[l][j];
  }

  /** The change row k makes to the inner product of columns i and j, once
      the first n rows are summed. */
  function RowChange(y: Matrix, x: Matrix, P: int, k: int, i: int, j: int, n: int): real
    requires Square(y, P) && Square(x, P) && 0 <= k < P && 0 <= i < P && 0 <= j < P
  {
    if k < n then y[k][i] * y[k][j] - x[k][i] * x[k][j] else 0.0
  }

  lemma RotatePairKeepsDot(d: real, o: real, dp: real, op: real, a: real, b: real, a2: real, b2: real)
    requires d * d + o * o == 1.0 && dp == d && op == -o
    ensures (d * a + o * b) * (d * a2 + o * b2) + (dp * b + op * a) * (dp * b2 + op * a2) == a * a2 + b * b2
  {
    calc {
      (d * a + o * b) * (d * a2 + o * b2) + (dp * b + op * a) * (dp * b2 + op * a2);
      (d * a + o * b) * (d * a2 + o * b2) + (d * b - o * a) * (d * b2 - o * a2);
      (d * d + o * o) * (a * a2) + (d * d + o * o) * (b * b2);
    }
  }

  /** G applied to the rows r with min(r, partner(r)) < n, the other rows
      left as they are: the pairs of G rotated one after another. */
  function Stage(g: Rotation, e: Matrix, P: int, n: int): (y: Matrix)
    requires WellFormed(g, P) && Square(e, P)
    ensures Square(y, P)
  {
    seq(P, r requires 0 <= r < P => seq(P, c requires 0 <= c < P =>
      if Min(r, g.partner[r]) < n then ApplyAt(g, e, P, r, c) else e[r][c]))
  }

  /** Rotating one more pair keeps the column inner products. */
  lemma StageStep(g: Rotation, e: Matrix, P: int, n: int, i: int, j: int)
    requires Orthogonal(g, P) && Square(e, P) && 0 <= n < P && 0 <= i < P && 0 <= j < P
    ensures ColumnDot(Stage(g, e, P, n + 1), P, i, j, P) == ColumnDot(Stage(g, e, P, n), P, i, j, P)
  {
    var y, x := Stage(g, e, P, n + 1), Stage(g, e, P, n);
    var p := g.partner[n];
    if p < n {
      forall r | 0 <= r < P
        ensures y[r] == x[r]
      {
        assert Min(r, g.partner[r]) != n;
      }
      assert y == x;
    } else {
      forall r | 0 <= r < P && r != n && r != p
        ensures y[r][i] == x[r][i] && y[r][j] == x[r][j]
      {
        assert Min(r, g.partner[r]) != n;
      }
      PairStep(g, e, P, n, p, i, j);
    }
  }

  /** The step of StageStep that rotates the pair (n, p), p > n. */
  lemma PairStep(g: Rotation, e: Matrix, P: int, n: int, p: int, i: int, j: int)
    requires Orthogonal(g, P) && Square(e, P) && 0 <= n < p < P && p == g.partner[n] && 0 <= i < P && 0 <= j < P
    requires forall r :: 0 <= r < P && r != n && r != p ==>
               Stage(g, e, P, n + 1)[r][i] == Stage(g, e, P, n)[r][i] && Stage(g, e, P, n + 1)[r][j] == Stage(g, e, P, n)[r][j]
    ensures ColumnDot(Stage(g, e, P, n + 1), P, i, j, P) == ColumnDot(Stage(g, e, P, n), P, i, j, P)
  {
    var y, x := Stage(g, e, P, n + 1), Stage(g, e, P, n);
    StagePairRows(g, e, P, n, p, i);
    StagePairRows(g, e, P, n, p, j);
    OrthogonalAt(g, P, n);
    RotatedRowsKeepDot(y, x, P, n, p, i, j, g.diag[n], g.off[n], g.diag[p], g.off[p]);
  }

  /** Row n of an orthogonal G and of its partner form a unit rotation pair. */
  lemma OrthogonalAt(g: Rotation, P: int, n: int)
    requires Orthogonal(g, P) && 0 <= n < P
    ensures 0 <= g.partner[n] < P
    ensures UnitPair(g.diag[n], g.off[n], g.diag[g.partner[n]], g.off[g.partner[n]])
  {
  }

  /** Column c of rows n and p of y is column c of rows n and p of x rotated
      by the pair (d, o) for row n and (dp, op) for row p. */
  predicate PairRotated(y: Matrix, x: Matrix, P: int, n: int, p: int, c: int, d: real, o: real, dp: real, op: real)
    requires Square(y, P) && Square(x, P) && 0 <= n < P && 0 <= p < P && 0 <= c < P
  {
    y[n][c] == d * x[n][c] + o * x[p][c] && y[p][c] == dp * x[p][c] + op * x[n][c]
  }

  /** The two rows of a 2 x 2 rotation block: unit length, opposite offsets. */
  predicate UnitPair(d: real, o: real, dp: real, op: real)
  {
    d * d + o * o == 1.0 && dp == d && op == -o
  }

  /** Matrices y and x that differ in columns i and j only in rows n and p,
      where y's rows n and p are x's rotated by a unit pair, have the same
      inner product of columns i and j. */
  lemma RotatedRowsKeepDot(y: Matrix, x: Matrix, P: int, n: int, p: int, i: int, j: int,
                           d: real, o: real, dp: real, op: real)
    requires Square(y, P) && Square(x, P) && 0 <= n < p < P && 0 <= i < P && 0 <= j < P
    requires forall r :: 0 <= r < P && r != n && r != p ==> y[r][i] == x[r][i] && y[r][j] == x[r][j]
    requires UnitPair(d, o, dp, op)
    requires PairRotated(y, x, P, n, p, i, d, o, dp, op) && PairRotated(y, x, P, n, p, j, d, o, dp, op)
    ensures ColumnDot(y, P, i, j, P) == ColumnDot(x, P, i, j, P)
  {
    TwoRowsDotAll(y, x, P, n, p, i, j);
    PairEntriesKeepDot(y, x, P, n, p, i, j, d, o, dp, op);
  }

  /** The changes rows n and p make to the inner product of columns i and j
      cancel when the rows are rotated by a unit pair. */
  lemma PairEntriesKeepDot(y: Matrix, x: Matrix, P: int, n: int, p: int, i: int, j: int,
                           d: real, o: real, dp: real, op: real)
    requires Square(y, P) && Square(x, P) && 0 <= n < P && 0 <= p < P && 0 <= i < P && 0 <= j < P
    requires UnitPair(d, o, dp, op)
    requires PairRotated(y, x, P, n, p, i, d, o, dp, op) && PairRotated(y, x, P, n, p, j, d, o, dp, op)
    ensures (y[n][i] * y[n][j] - x[n][i] * x[n][j]) + (y[p][i] * y[p][j] - x[p][i] * x[p][j]) == 0.0
  {
    RotatePairKeepsDot(d, o, dp, op, x[n][i], x[p][i], x[n][j], x[p][j]);
  }

  /** Rows n and p = partner(n), p > n, before and after rotating their pair. */
  lemma StagePairRows(g: Rotation, e: Matrix, P: int, n: int, p: int, c: int)
    requires WellFormed(g, P) && Square(e, P) && 0 <= n < p < P && p == g.partner[n] && 0 <= c < P
    ensures PairRotated(Stage(g, e, P, n + 1), Stage(g, e, P, n), P, n, p, c, g.diag[n], g.off[n], g.diag[p], g.off[p])
  {
    assert Min(n, g.partner[n]) == n && Min(p, g.partner[p]) == n;
    assert Stage(g, e, P, n)[n][c] == e[n][c] && Stage(g, e, P, n)[p][c] == e[p][c];
  }

  lemma StageZero(g: Rotation, e: Matrix, P: int)
    requires WellFormed(g, P) && Square(e, P)
    ensures Stage(g, e, P, 0) == e
  {
    var y := Stage(g, e, P, 0);
    forall r | 0 <= r < P
      ensures y[r] == e[r]
    {
      assert forall c :: 0 <= c < P ==> y[r][c] == e[r][c];
    }
  }

  lemma StageAll(g: Rotation, e: Matrix, P: int)
    requires WellFormed(g, P) && Square(e, P)
    ensures Stage(g, e, P, P) == Apply(g, e, P)
  {
    var y, z := Stage(g, e, P, P), Apply(g, e, P);
    forall r | 0 <= r < P
      ensures y[r] == z[r]
    {
      assert Min(r, g.partner[r]) < P;
      assert forall c :: 0 <= c < P ==> y[r][c] == z[r][c];
    }
  }

  lemma {:induction false} StageKeepsColumnDots(g: Rotation, e: Matrix, P: int, n: int, i: int, j: int)
    requires Orthogonal(g, P) && Square(e, P) && 0 <= n <= P && 0 <= i < P && 0 <= j < P
    ensures ColumnDot(Stage(g, e, P, n), P, i, j, P) == ColumnDot(e, P, i, j, P)
  {
    if n == 0 {
      StageZero(g, e, P);
    } else {
      StageKeepsColumnDots(g, e, P, n - 1, i, j);
      StageStep(g, e, P, n - 1, i, j);
    }
  }

  /** An orthogonal G keeps every inner product of two columns:
      (G E)^T (G E) = E^T E. */
  lemma ApplyKeepsColumnDots(g: Rotation, e: Matrix, P: int, i: int, j: int)
    requires Orthogonal(g, P) && Square(e, P) && 0 <= i < P && 0 <= j < P
    ensures ColumnDot(Apply(g, e, P), P, i, j, P) == ColumnDot(e, P, i, j, P)
  {
    StageAll(g, e, P);
    StageKeepsColumnDots(g, e, P, P, i, j);
  }

  /** cos^2 + sin^2 = 1 for the parameters of every pair of the round,
      stated on the rows of the round's block rotation. */
  predicate UnitParams(P: int, iter: int, sine: Matrix, cosine: Matrix)
    requires RoundShape(P, iter, sine, cosine)
  {
    UnitRows(RoundRotation(P, iter, sine, cosine), P)
  }

  /** With unit parameters the round's block rotation is orthogonal. */
  lemma RoundRotationOrthogonal(P: int, iter: int, sine: Matrix, cosine: Matrix)
    requires RoundShape(P, iter, sine, cosine) && UnitParams(P, iter, sine, cosine)
    ensures Orthogonal(RoundRotation(P, iter, sine, cosine), P)
  {
    RoundRotationPaired(P, iter, sine, cosine);
  }

  /** The round's block rotation pairs each row with its partner's. */
  lemma RoundRotationPaired(P: int, iter: int, sine: Matrix, cosine: Matrix)
    requires RoundShape(P, iter, sine, cosine)
    ensures Paired(RoundRotation(P, iter, sine, cosine), P)
  {
    var g := RoundRotation(P, iter, sine, cosine);
    forall i | 0 <= i < P
      ensures g.diag[g.partner[i]] == g.diag[i] && g.off[g.partner[i]] == -g.off[i]
    {
      PartnerCoefficients(P, iter, sine, cosine, i);
    }
  }


  /** Row Partner(i) of G holds the same cosine as row i and the opposite
      off-diagonal entry. */
  lemma PartnerCoefficients(P: int, iter: int, sine: Matrix, cosine: Matrix, i: int)
    requires RoundShape(P, iter, sine, cosine) && 0 <= i < P
    ensures CosOf(P, iter, cosine, Partner(P, iter, i)) == CosOf(P, iter, cosine, i)
    ensures OffOf(P, iter, sine, Partner(P, iter, i)) == -OffOf(P, iter, sine, i)
  {
  }

  /** kernel_col_update keeps the eigenvector matrix orthogonal: with
      unit parameters, E^T E = I before the round gives (G E)^T (G E) = I. */
  lemma ColPhaseKeepsOrthonormal(e: Matrix, P: int, iter: int, sine: Matrix, cosine: Matrix)
    requires RoundShape(P, iter, sine, cosine) && UnitParams(P, iter, sine, cosine)
    requires Square(e, P) && Orthonormal(e, P)
    ensures Orthonormal(ColPhase(e, P, iter, sine, cosine), P)
  {
    var g := RoundRotation(P, iter, sine, cosine);
    RoundRotationOrthogonal(P, iter, sine, cosine);
    ColPhaseIsRotation(e, P, iter, sine, cosine);
    forall i, j | 0 <= i < P && 0 <= j < P
      ensures ColumnDot(Apply(g, e, P), P, i, j, P) == ColumnDot(e, P, i, j, P)
    {
      ApplyKeepsColumnDots(g, e, P, i, j);
    }
  }
}
