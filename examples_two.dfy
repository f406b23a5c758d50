/** Worked 2 x 2 inputs on which the host loop and the result assembly as
    written differ from the intended computation. At P = 2 there is one
    round, pairing rows 0 and 1. */
module TwoByTwo {
  import opened Flat
  import opened Schedule
  import opened Jacobi
  import opened Sorting
  import opened Host

  /** A 2 x 2 matrix is the display of its four entries. */
  lemma Entries(m: Matrix)
    requires Square(m, 2)
    ensures m == [[m[0][0], m[0][1]], [m[1][0], m[1][1]]]
  {
    assert m[0] == [m[0][0], m[0][1]];
    assert m[1] == [m[1][0], m[1][1]];
  }

  /** The row phase of the only round at P = 2: X = (G a)^T. */
  lemma RowPhaseTwo(a: Matrix, sine: Matrix, cosine: Matrix)
    requires Square(a, 2) && Square(sine, 2) && Square(cosine, 2)
    ensures RowPhase(a, 2, 0, sine, cosine)
      == [[a[0][0] * cosine[0][1] - a[1][0] * sine[0][1], a[0][0] * sine[0][1] + a[1][0] * cosine[0][1]],
          [a[0][1] * cosine[0][1] - a[1][1] * sine[0][1], a[0][1] * sine[0][1] + a[1][1] * cosine[0][1]]]
  {
    assert ChessTourneyParams(2, 0, 0) == (0, 1);
    RowPhasePair(a, 2, 0, sine, cosine, 0, 0, 1, 0);
    RowPhasePair(a, 2, 0, sine, cosine, 0, 0, 1, 1);
    var x := RowPhase(a, 2, 0, sine, cosine);
    Entries(x);
    assert x[0][0] == a[0][0] * cosine[0][1] - a[1][0] * sine[0][1];
    assert x[0][1] == a[0][0] * sine[0][1] + a[1][0] * cosine[0][1];
    assert x[1][0] == a[0][1] * cosine[0][1] - a[1][1] * sine[0][1];
    assert x[1][1] == a[0][1] * sine[0][1] + a[1][1] * cosine[0][1];
  }

  /** The column phase of the only round at P = 2: G x. */
  lemma ColPhaseTwo(x: Matrix, sine: Matrix, cosine: Matrix)
    requires Square(x, 2) && Square(sine, 2) && Square(cosine, 2)
    ensures ColPhase(x, 2, 0, sine, cosine)
      == [[x[0][0] * cosine[0][1] - x[1][0] * sine[0][1], x[0][1] * cosine[0][1] - x[1][1] * sine[0][1]],
          [x[0][0] * sine[0][1] + x[1][0] * cosine[0][1], x[0][1] * sine[0][1] + x[1][1] * cosine[0][1]]]
  {
    assert ChessTourneyParams(2, 0, 0) == (0, 1);
    ColPhasePair(x, 2, 0, sine, cosine, 0, 0, 1, 0);
    ColPhasePair(x, 2, 0, sine, cosine, 0, 0, 1, 1);
    var y := ColPhase(x, 2, 0, sine, cosine);
    Entries(y);
    assert y[0][0] == x[0][0] * cosine[0][1] - x[1][0] * sine[0][1];
    assert y[0][1] == x[0][1] * cosine[0][1] - x[1][1] * sine[0][1];
    assert y[1][0] == x[0][0] * sine[0][1] + x[1][0] * cosine[0][1];
    assert y[1][1] == x[0][1] * sine[0][1] + x[1][1] * cosine[0][1];
  }

  lemma IdentityTwo()
    ensures Identity(2) == [[1.0, 0.0], [0.0, 1.0]]
  {
    Entries(Identity(2));
  }

  // ------------------------------------------- a quarter turn every round

  const QuarterSin: Matrix := [[0.0, 1.0], [0.0, 0.0]]
  const QuarterCos: Matrix := [[0.0, 0.0], [0.0, 0.0]]

  /** Parameters that rotate by a quarter turn (sin 1, cos 0) every round. */
  function Quarter(): (params: Params)
    ensures ParamsShape(params, 2)
  {
    (a: Matrix, it: int) => (QuarterSin, QuarterCos)
  }

  /** E after k quarter turns of the identity, for k < 4. */
  function Turns(k: int): (e: Matrix)
    ensures Square(e, 2)
  {
    if k == 0 then [[1.0, 0.0], [0.0, 1.0]]
    else if k == 1 then [[0.0, -1.0], [1.0, 0.0]]
    else if k == 2 then [[-1.0, 0.0], [0.0, -1.0]]
    else [[0.0, 1.0], [-1.0, 0.0]]
  }

  lemma QuarterStep(k: int)
    requires 0 <= k < 4
    ensures ColPhase(Turns(k), 2, 0, QuarterSin, QuarterCos) == Turns((k + 1) % 4)
  {
    ColPhaseTwo(Turns(k), QuarterSin, QuarterCos);
  }

  /** With quarter-turn parameters, E after s full sweeps of the intended
      loop is s quarter turns of the identity. */
  lemma {:induction false} QuarterSweeps(A: Matrix, s: nat)
    requires Square(A, 2)
    ensures Run(A, 2, Quarter(), s, 0).1 == Turns(s % 4)
  {
    if s == 0 {
      RunFirst(A, 2, Quarter());
      IdentityTwo();
    } else {
      QuarterSweeps(A, s - 1);
      RunNextSweep(A, 2, Quarter(), s);
      QuarterStep((s - 1) % 4);
    }
  }

  /** The loop as written stops after one round at P = 2: with quarter-turn
      parameters it returns one quarter turn of the identity, while 30 sweeps
      give two full half turns, -I. */
  lemma OneSweepOnly(A: Matrix, sweeps: nat)
    requires Square(A, 2) && sweeps == MaxSweeps
    ensures EigenAsWritten(A, 2, Quarter(), 1) == [[0.0, -1.0], [1.0, 0.0]]
    ensures Run(A, 2, Quarter(), sweeps, 0).1 == [[-1.0, 0.0], [0.0, -1.0]]
  {
    AsWrittenQuarter(A);
    QuarterSweeps(A, sweeps);
  }

  /** The single round the loop as written runs turns I by a quarter. */
  lemma AsWrittenQuarter(A: Matrix)
    requires Square(A, 2)
    ensures EigenAsWritten(A, 2, Quarter(), 1) == Turns(1)
  {
    assert EigenAsWritten(A, 2, Quarter(), 1) == ColPhase(Identity(2), 2, 0, QuarterSin, QuarterCos);
    IdentityTwo();
    QuarterStep(0);
  }

  // ------------------------------------------------ a symmetric 2 x 2 input

  /** A symmetric input with eigenvalues 16 and -9. */
  const Input: Matrix := [[7.0, 12.0], [12.0, 0.0]]
  /** G Input G^T for the rotation G below: Input diagonalised. */
  const Diagonal: Matrix := [[16.0, 0.0], [0.0, -9.0]]
  /** The rotation with cos 4/5 and sin -3/5; its rows are the eigenvectors. */
  const Rotation: Matrix := [[0.8, 0.6], [-0.6, 0.8]]

  const RotSin: Matrix := [[0.0, -0.6], [0.0, 0.0]]
  const RotCos: Matrix := [[0.0, 0.8], [0.0, 0.0]]
  const NoSin: Matrix := [[0.0, 0.0], [0.0, 0.0]]
  const NoCos: Matrix := [[0.0, 1.0], [0.0, 0.0]]

  /** The Jacobi parameters for these matrices: the rotation that zeroes the
      off-diagonal entry of Input (elem 12, y -7/2, d 16, r 20), and no
      rotation once that entry is zero. */
  function Jacobi2(): (params: Params)
    ensures ParamsShape(params, 2)
  {
    (a: Matrix, it: int) => if |a| == 2 && |a[0]| == 2 && a[0][1] == 0.0 then (NoSin, NoCos) else (RotSin, RotCos)
  }

  /** The first round diagonalises Input and turns I into Rotation. */
  lemma FirstRound()
    ensures Step((Input, Identity(2)), 2, 0, Jacobi2()) == (Diagonal, Rotation)
  {
    assert Jacobi2()(Input, 0) == (RotSin, RotCos);
    RowPhaseTwo(Input, RotSin, RotCos);
    var x := RowPhase(Input, 2, 0, RotSin, RotCos);
    assert x == [[12.8, 5.4], [9.6, -7.2]];
    ColPhaseTwo(x, RotSin, RotCos);
    IdentityTwo();
    ColPhaseTwo(Identity(2), RotSin, RotCos);
  }

  /** Later rounds leave a diagonal A and its E alone. */
  lemma LaterRound()
    ensures Step((Diagonal, Rotation), 2, 0, Jacobi2()) == (Diagonal, Rotation)
  {
    assert Jacobi2()(Diagonal, 0) == (NoSin, NoCos);
    RowPhaseTwo(Diagonal, NoSin, NoCos);
    ColPhaseTwo(RowPhase(Diagonal, 2, 0, NoSin, NoCos), NoSin, NoCos);
    ColPhaseTwo(Rotation, NoSin, NoCos);
  }

  /** Every sweep of the intended loop on Input ends at (Diagonal, Rotation). */
  lemma {:induction false} IntendedRun(s: nat)
    requires s >= 1
    ensures Run(Input, 2, Jacobi2(), s, 0) == (Diagonal, Rotation)
  {
    RunNextSweep(Input, 2, Jacobi2(), s);
    if s == 1 {
      RunFirst(Input, 2, Jacobi2());
      FirstRound();
    } else {
      IntendedRun(s - 1);
      LaterRound();
    }
  }

  /** An eigenpair of a 2 x 2 matrix: m v == lambda v. */
  predicate EigenPair(m: Matrix, v0: real, v1: real, lambda: real)
    requires Square(m, 2)
  {
    m[0][0] * v0 + m[0][1] * v1 == lambda * v0 && m[1][0] * v0 + m[1][1] * v1 == lambda * v1
  }

  /** The loop as written never writes the rotated A back, so the
      eigenvalues are read off the input's diagonal: 7 and 0, where the
      intended loop yields 16 and -9, the eigenvalues of Input. */
  lemma EigenvaluesFromInput(sweeps: nat)
    requires sweeps == MaxSweeps
    ensures EigenvaluesOf(Input, 2) == [7.0, 0.0]
    ensures EigenvaluesOf(Run(Input, 2, Jacobi2(), sweeps, 0).0, 2) == [16.0, -9.0]
    ensures EigenPair(Input, 0.8, 0.6, 16.0) && EigenPair(Input, -0.6, 0.8, -9.0)
  {
    IntendedRun(sweeps);
    DiagonalsInOrder();
  }

  lemma DiagonalsInOrder()
    ensures EigenvaluesOf(Input, 2) == [7.0, 0.0]
    ensures EigenvaluesOf(Diagonal, 2) == [16.0, -9.0]
  {
    EigenvaluesTwo(Input);
    EigenvaluesTwo(Diagonal);
  }

  /** With a larger first diagonal entry the values come out in place. */
  lemma EigenvaluesTwo(A: Matrix)
    requires Square(A, 2) && A[0][0] > A[1][1]
    ensures EigenvaluesOf(A, 2) == [A[0][0], A[1][1]]
  {
    SortTwo(Diag(A, 2));
  }

  /** np.sort, np.argsort and np.flip on two keys in descending order. */
  lemma SortTwo(d: seq<real>)
    requires |d| == 2 && d[0] > d[1]
    ensures ArgSort(d) == [1, 0] && Reverse(ArgSort(d)) == [0, 1]
    ensures Reverse(SortAsc(d)) == [d[0], d[1]]
  {
    assert ArgSortPrefix(d, 1) == [0];
    assert ArgSortPrefix(d, 2) == Insert(d, [0], 1) == [1, 0];
  }

  /** Even given the intended (Diagonal, Rotation), the assembly as written
      makes U's first column (0.6, 0.8), column 1 of E, which is no
      eigenvector of Input for the first eigenvalue 16; the intended
      assembly makes U's columns the rows of E, both eigenvectors of Input
      for the eigenvalues in the order they are reported. */
  lemma ColumnsOfU()
    ensures UAsWritten(Rotation, 2)[0][0] == 0.6 && UAsWritten(Rotation, 2)[1][0] == 0.8
    ensures !EigenPair(Input, 0.6, 0.8, EigenvaluesOf(Diagonal, 2)[0])
    ensures UOf(Diagonal, Rotation, 2) == [[0.8, -0.6], [0.6, 0.8]]
    ensures EigenPair(Input, UOf(Diagonal, Rotation, 2)[0][0], UOf(Diagonal, Rotation, 2)[1][0], EigenvaluesOf(Diagonal, 2)[0])
    ensures EigenPair(Input, UOf(Diagonal, Rotation, 2)[0][1], UOf(Diagonal, Rotation, 2)[1][1], EigenvaluesOf(Diagonal, 2)[1])
  {
    AsWrittenOrderIsReversal(2);
    SortTwo(Diag(Diagonal, 2));
    assert Order(Diagonal, 2) == [0, 1];
    Entries(UOf(Diagonal, Rotation, 2));
  }
}
