/** The host side of the eigen-solver: the dimUpdate wrapper that owns the
    device eigenvector buffer, the sweep loop of cudaSVD, and the step that
    reads eigenvalues and U off its result. */
module Host {
  import opened Flat
  import opened Schedule
  import opened Jacobi
  import opened Sorting

  /** The rotation parameters (sin, cos) of a round, computed from the host
      matrix and the round number. */
  type Params = (Matrix, int) -> (Matrix, Matrix)

  /** Sweep limit of the driver loop. */
  const MaxSweeps := 30

  /** The parameter function yields P x P matrices for every round. */
  ghost predicate ParamsShape(params: Params, P: int)
  {
    forall a: Matrix, it: int :: 0 <= it < P - 1 ==> Square(params(a, it).0, P) && Square(params(a, it).1, P)
  }

  lemma ParamsAt(params: Params, P: int, a: Matrix, it: int)
    requires EvenP(P) && ParamsShape(params, P) && 0 <= it < P - 1
    ensures RoundShape(P, it, params(a, it).0, params(a, it).1)
  {
  }

  /** The P x P matrix with every entry v. */
  function Filled(P: int, v: real): (m: Matrix)
    requires P >= 0
    ensures Square(m, P) && forall r, c :: 0 <= r < P && 0 <= c < P ==> m[r][c] == v
  {
    seq(P, r => seq(P, c => v))
  }

  /** gpuarray.to_gpu: a fresh device buffer holding m row by row. */
  method ToDevice(m: Matrix, P: int) returns (d: array<real>)
    requires P >= 1 && Square(m, P)
    ensures fresh(d) && d.Length == P * P && Unflatten(d[..], P, P) == m
  {
    var s := Flatten(m, P, P);
    d := new real[P * P](q requires 0 <= q < P * P => s[q]);
    assert d[..] == s;
    UnflattenFlatten(m, P, P);
  }

  /** The dimUpdate object: it keeps the eigenvector matrix on the device
      across rounds and launches the row and column kernels. */
  class DimUpdate {
    const P: int
    /** device_eigenvectors: allocated once, rewritten by every column update. */
    const eigenvectors: array<real>

    ghost predicate Valid()
    {
      EvenP(P) && eigenvectors.Length == P * P
    }

    /** The eigenvector matrix the device buffer holds. */
    ghost function E(): (e: Matrix)
      reads eigenvectors
      requires Valid()
      ensures Square(e, P)
    {
      Unflatten(eigenvectors[..], P, P)
    }

    /** The device eigenvector matrix starts as the identity. */
    constructor (P: int)
      requires EvenP(P)
      ensures this.P == P && Valid() && fresh(eigenvectors)
      ensures E() == Identity(P)
    {
      this.P := P;
      var id := Flatten(Identity(P), P, P);
      eigenvectors := new real[P * P](q requires 0 <= q < P * P => id[q]);
      new;
      assert eigenvectors[..] == id;
      UnflattenFlatten(Identity(P), P, P);
    }

    /** row_update: upload A and X, run the row kernel, download X. */
    method RowUpdate(itr: int, A: Matrix, X: Matrix, sin: Matrix, cos: Matrix, iterBlock: seq<int>)
      returns (x: Matrix)
      requires Valid() && RoundShape(P, itr, sin, cos) && Square(A, P) && Square(X, P)
      requires iterBlock == ScheduleTable(P)
      ensures x == RowPhase(A, P, itr, sin, cos)
    {
      var aDevice := ToDevice(A, P);
      var xDevice := ToDevice(X, P);
      KernelRowUpdate(itr, aDevice, xDevice, P, Flatten(sin, P, P), Flatten(cos, P, P), iterBlock);
      UnflattenFlatten(sin, P, P);
      UnflattenFlatten(cos, P, P);
      x := Unflatten(xDevice[..], P, P);
    }

    /** col_update as written: the kernel rewrites the device copies of A
        and E, but only E is downloaded; the rotated A is dropped. */
    method ColUpdate(itr: int, A: Matrix, X: Matrix, sin: Matrix, cos: Matrix, iterBlock: seq<int>)
      returns (e: Matrix)
      requires Valid() && RoundShape(P, itr, sin, cos) && Square(A, P) && Square(X, P)
      requires iterBlock == ScheduleTable(P)
      modifies eigenvectors
      ensures e == E() && e == ColPhase(old(E()), P, itr, sin, cos)
    {
      var aDevice := ToDevice(A, P);
      var xDevice := ToDevice(X, P);
      KernelColUpdate(itr, aDevice, xDevice, P, eigenvectors, Flatten(sin, P, P), Flatten(cos, P, P), iterBlock);
      UnflattenFlatten(sin, P, P);
      UnflattenFlatten(cos, P, P);
      e := Unflatten(eigenvectors[..], P, P);
    }

    /** col_update returning the rotated A as well as E, so that the driver
        can carry A into the next round. */
    method ColUpdateKeepA(itr: int, A: Matrix, X: Matrix, sin: Matrix, cos: Matrix, iterBlock: seq<int>)
      returns (a: Matrix, e: Matrix)
      requires Valid() && RoundShape(P, itr, sin, cos) && Square(A, P) && Square(X, P)
      requires iterBlock == ScheduleTable(P)
      modifies eigenvectors
      ensures a == ColPhase(X, P, itr, sin, cos)
      ensures e == E() && e == ColPhase(old(E()), P, itr, sin, cos)
    {
      var aDevice := ToDevice(A, P);
      var xDevice := ToDevice(X, P);
      KernelColUpdate(itr, aDevice, xDevice, P, eigenvectors, Flatten(sin, P, P), Flatten(cos, P, P), iterBlock);
      UnflattenFlatten(sin, P, P);
      UnflattenFlatten(cos, P, P);
      a := Unflatten(aDevice[..], P, P);
      e := Unflatten(eigenvectors[..], P, P);
    }
  }

  /** The eigenvector matrix after the first n rounds of the loop as written:
      every round takes its parameters from the input matrix, because the
      host copy of A is never reassigned. */
  function EigenAsWritten(A: Matrix, P: int, params: Params, n: int): (e: Matrix)
    requires EvenP(P) && ParamsShape(params, P) && 0 <= n <= P - 1
    ensures Square(e, P)
  {
    if n == 0 then Identity(P)
    else ColPhase(EigenAsWritten(A, P, params, n - 1), P, n - 1, params(A, n - 1).0, params(A, n - 1).1)
  }

  /** The sweep loop of cudaSVD as written. The round counter is set to 0
      once, before the sweep loop, so only the first sweep runs any round;
      the host A is never reassigned, so each round's parameters and the row
      update see the input matrix. */
  method CudaJacobiAsWritten(A: Matrix, P: int, params: Params, iterBlock: seq<int>)
    returns (hostA: Matrix, X: Matrix, eigenvectors: Matrix)
    requires EvenP(P) && Square(A, P) && ParamsShape(params, P) && iterBlock == ScheduleTable(P)
    ensures hostA == A
    ensures eigenvectors == EigenAsWritten(A, P, params, P - 1)
    ensures X == RowPhase(A, P, P - 2, params(A, P - 2).0, params(A, P - 2).1)
  {
    var dU := new DimUpdate(P);
    hostA := A;
    X := Filled(P, 0.0);
    eigenvectors := Filled(P, 1.0);
    var counter := 0;
    var itr := 0;
    while counter < MaxSweeps
      invariant 0 <= counter <= MaxSweeps && 0 <= itr <= P - 1
      invariant counter > 0 ==> itr == P - 1
      invariant dU.Valid() && dU.P == P && fresh(dU.eigenvectors) && Square(X, P)
      invariant dU.E() == EigenAsWritten(A, P, params, itr)
      invariant itr > 0 ==> eigenvectors == dU.E()
      invariant itr > 0 ==> X == RowPhase(A, P, itr - 1, params(A, itr - 1).0, params(A, itr - 1).1)
    {
      while itr < P - 1
        invariant 0 <= itr <= P - 1
        invariant dU.Valid() && dU.P == P && fresh(dU.eigenvectors) && Square(X, P)
        invariant dU.E() == EigenAsWritten(A, P, params, itr)
        invariant itr > 0 ==> eigenvectors == dU.E()
        invariant itr > 0 ==> X == RowPhase(A, P, itr - 1, params(A, itr - 1).0, params(A, itr - 1).1)
      {
        var sin, cos := params(hostA, itr).0, params(hostA, itr).1;
        X := dU.RowUpdate(itr, hostA, X, sin, cos, iterBlock);
        eigenvectors := dU.ColUpdate(itr, hostA, X, sin, cos, iterBlock);
        itr := itr + 1;
      }
      counter := counter + 1;
    }
  }

  /** One round of the intended loop on the pair (A, E): A goes to G A G^T
      and E to G E, with G built from the parameters of the current A. */
  function Step(s: (Matrix, Matrix), P: int, it: int, params: Params): (t: (Matrix, Matrix))
    requires EvenP(P) && ParamsShape(params, P) && 0 <= it < P - 1 && Square(s.0, P) && Square(s.1, P)
    ensures Square(t.0, P) && Square(t.1, P)
  {
    var sc := params(s.0, it);
    (Round(s.0, P, it, sc.0, sc.1), ColPhase(s.1, P, it, sc.0, sc.1))
  }

  /** One intended round in rotation form, G the block rotation of the
      round's parameters: E becomes G E and A becomes G A^T G^T, which is
      G A G^T when A is symmetric. */
  lemma StepIsRotation(s: (Matrix, Matrix), P: int, it: int, params: Params)
    requires EvenP(P) && ParamsShape(params, P) && 0 <= it < P - 1 && Square(s.0, P) && Square(s.1, P)
    ensures var sc := params(s.0, it);
            RoundShape(P, it, sc.0, sc.1) &&
            Step(s, P, it, params).1 == Apply(RoundRotation(P, it, sc.0, sc.1), s.1, P) &&
            (forall i, j :: 0 <= i < P && 0 <= j < P ==>
               Step(s, P, it, params).0[i][j] == SandwichAt(RoundRotation(P, it, sc.0, sc.1), s.0, P, j, i)) &&
            (Symmetric(s.0, P) ==> forall i, j :: 0 <= i < P && 0 <= j < P ==>
               Step(s, P, it, params).0[i][j] == SandwichAt(RoundRotation(P, it, sc.0, sc.1), s.0, P, i, j))
  {
    var sc := params(s.0, it);
    ParamsAt(params, P, s.0, it);
    ColPhaseIsRotation(s.1, P, it, sc.0, sc.1);
    RoundIsSandwich(s.0, P, it, sc.0, sc.1);
  }

  /** The A of a state is symmetric. */
  predicate SymmetricState(s: (Matrix, Matrix), P: int)
  {
    Square(s.0, P) && Symmetric(s.0, P)
  }

  /** A round keeps a symmetric A symmetric. */
  lemma StepKeepsSymmetric(s: (Matrix, Matrix), P: int, it: int, params: Params)
    requires EvenP(P) && ParamsShape(params, P) && 0 <= it < P - 1 && Square(s.0, P) && Square(s.1, P)
    requires SymmetricState(s, P)
    ensures SymmetricState(Step(s, P, it, params), P)
  {
    var sc := params(s.0, it);
    ParamsAt(params, P, s.0, it);
    RoundPreservesSymmetry(s.0, P, it, sc.0, sc.1);
  }

  /** With unit parameters a round keeps E orthonormal. */
  lemma StepKeepsOrthonormal(s: (Matrix, Matrix), P: int, it: int, params: Params)
    requires EvenP(P) && ParamsShape(params, P) && 0 <= it < P - 1 && Square(s.0, P) && Square(s.1, P)
    requires UnitParamsAll(params, P) && OrthonormalState(s, P)
    ensures OrthonormalState(Step(s, P, it, params), P)
  {
    var sc := params(s.0, it);
    ParamsAt(params, P, s.0, it);
    ColPhaseKeepsOrthonormal(s.1, P, it, sc.0, sc.1);
  }

  /** The pair (A, E) after `sweeps` full sweeps and r more rounds of the
      intended loop, from (A0, I): each round rotates A to G A G^T and E to
      G E, with G built from the parameters of the current A. */
  function Run(A0: Matrix, P: int, params: Params, sweeps: nat, r: int): (s: (Matrix, Matrix))
    requires EvenP(P) && Square(A0, P) && ParamsShape(params, P) && 0 <= r <= P - 1
    ensures Square(s.0, P) && Square(s.1, P)
    decreases sweeps, r
  {
    if r > 0 then Step(Run(A0, P, params, sweeps, r - 1), P, r - 1, params)
    else if sweeps > 0 then Run(A0, P, params, sweeps - 1, P - 1)
    else (A0, Identity(P))
  }

  /** The sweep loop with the round counter reset at every sweep and the
      rotated A carried from one round to the next. */
  method CudaJacobi(A0: Matrix, P: int, params: Params, iterBlock: seq<int>)
    returns (A: Matrix, eigenvectors: Matrix)
    requires EvenP(P) && Square(A0, P) && ParamsShape(params, P) && iterBlock == ScheduleTable(P)
    ensures (A, eigenvectors) == Run(A0, P, params, MaxSweeps, 0)
  {
    var dU := new DimUpdate(P);
    A := A0;
    var X := Filled(P, 0.0);
    eigenvectors := Filled(P, 1.0);
    var counter := 0;
    while counter < MaxSweeps
      invariant 0 <= counter <= MaxSweeps
      invariant dU.Valid() && dU.P == P && fresh(dU.eigenvectors) && Square(X, P)
      invariant (A, dU.E()) == Run(A0, P, params, counter, 0)
      invariant counter > 0 ==> eigenvectors == dU.E()
    {
      var itr := 0;
      while itr < P - 1
        invariant 0 <= itr <= P - 1
        invariant dU.Valid() && dU.P == P && fresh(dU.eigenvectors) && Square(X, P)
        invariant (A, dU.E()) == Run(A0, P, params, counter, itr)
        invariant counter > 0 || itr > 0 ==> eigenvectors == dU.E()
      {
        var sin, cos := params(A, itr).0, params(A, itr).1;
        X := dU.RowUpdate(itr, A, X, sin, cos, iterBlock);
        A, eigenvectors := dU.ColUpdateKeepA(itr, A, X, sin, cos, iterBlock);
        itr := itr + 1;
      }
      counter := counter + 1;
    }
  }

  /** The loop starts from the input matrix and the identity. */
  lemma RunFirst(A0: Matrix, P: int, params: Params)
    requires EvenP(P) && Square(A0, P) && ParamsShape(params, P)
    ensures Run(A0, P, params, 0, 0) == (A0, Identity(P))
  {
  }

  /** A sweep starts from the state the previous sweep ended in. */
  lemma RunNextSweep(A0: Matrix, P: int, params: Params, sweeps: nat)
    requires EvenP(P) && Square(A0, P) && ParamsShape(params, P) && sweeps > 0
    ensures Run(A0, P, params, sweeps, 0) == Run(A0, P, params, sweeps - 1, P - 1)
  {
  }

  /** The rounds of one sweep keep a symmetric A symmetric. */
  lemma {:induction false} SweepKeepsSymmetric(A0: Matrix, P: int, params: Params, sweeps: nat, r: int)
    requires EvenP(P) && Square(A0, P) && ParamsShape(params, P) && 0 <= r <= P - 1
    requires SymmetricState(Run(A0, P, params, sweeps, 0), P)
    ensures SymmetricState(Run(A0, P, params, sweeps, r), P)
  {
    if r != 0 {
      SweepKeepsSymmetric(A0, P, params, sweeps, r - 1);
      StepKeepsSymmetric(Run(A0, P, params, sweeps, r - 1), P, r - 1, params);
    }
  }

  /** Every sweep starts from a symmetric A when A0 is symmetric. */
  lemma {:induction false} SweepStartSymmetric(A0: Matrix, P: int, params: Params, sweeps: nat)
    requires EvenP(P) && Square(A0, P) && ParamsShape(params, P) && Symmetric(A0, P)
    ensures SymmetricState(Run(A0, P, params, sweeps, 0), P)
  {
    if sweeps == 0 {
      RunFirst(A0, P, params);
    } else {
      SweepStartSymmetric(A0, P, params, sweeps - 1);
      NextSweepSymmetric(A0, P, params, sweeps);
    }
  }

  /** A symmetric start of one sweep gives a symmetric start of the next. */
  lemma NextSweepSymmetric(A0: Matrix, P: int, params: Params, sweeps: nat)
    requires EvenP(P) && Square(A0, P) && ParamsShape(params, P) && sweeps > 0
    requires SymmetricState(Run(A0, P, params, sweeps - 1, 0), P)
    ensures SymmetricState(Run(A0, P, params, sweeps, 0), P)
  {
    SweepKeepsSymmetric(A0, P, params, sweeps - 1, P - 1);
    RunNextSweep(A0, P, params, sweeps);
  }

  /** Every round of every sweep keeps a symmetric A symmetric. */
  lemma RunKeepsSymmetric(A0: Matrix, P: int, params: Params, sweeps: nat, r: int)
    requires EvenP(P) && Square(A0, P) && ParamsShape(params, P) && 0 <= r <= P - 1
    requires Symmetric(A0, P)
    ensures Symmetric(Run(A0, P, params, sweeps, r).0, P)
  {
    SweepStartSymmetric(A0, P, params, sweeps);
    SweepKeepsSymmetric(A0, P, params, sweeps, r);
  }

  /** Every round's parameters are unit pairs (cos^2 + sin^2 = 1). */
  ghost predicate UnitParamsAll(params: Params, P: int)
    requires EvenP(P) && ParamsShape(params, P)
  {
    forall a: Matrix, it: int :: 0 <= it < P - 1 ==> UnitParams(P, it, params(a, it).0, params(a, it).1)
  }

  /** E of a state is orthonormal. */
  predicate OrthonormalState(s: (Matrix, Matrix), P: int)
  {
    Square(s.1, P) && Orthonormal(s.1, P)
  }

  /** With unit parameters the rounds of one sweep keep E orthonormal. */
  lemma {:induction false} SweepKeepsOrthonormal(A0: Matrix, P: int, params: Params, sweeps: nat, r: int)
    requires EvenP(P) && Square(A0, P) && ParamsShape(params, P) && 0 <= r <= P - 1
    requires UnitParamsAll(params, P) && OrthonormalState(Run(A0, P, params, sweeps, 0), P)
    ensures OrthonormalState(Run(A0, P, params, sweeps, r), P)
  {
    if r != 0 {
      SweepKeepsOrthonormal(A0, P, params, sweeps, r - 1);
      StepKeepsOrthonormal(Run(A0, P, params, sweeps, r - 1), P, r - 1, params);
    }
  }

  /** With unit parameters every sweep starts from an orthonormal E. */
  lemma {:induction false} SweepStartOrthonormal(A0: Matrix, P: int, params: Params, sweeps: nat)
    requires EvenP(P) && Square(A0, P) && ParamsShape(params, P) && UnitParamsAll(params, P)
    ensures OrthonormalState(Run(A0, P, params, sweeps, 0), P)
  {
    if sweeps == 0 {
      RunFirst(A0, P, params);
      IdentityOrthonormal(P);
    } else {
      SweepStartOrthonormal(A0, P, params, sweeps - 1);
      NextSweepOrthonormal(A0, P, params, sweeps);
    }
  }

  /** An orthonormal E at the start of one sweep is orthonormal at the start
      of the next. */
  lemma NextSweepOrthonormal(A0: Matrix, P: int, params: Params, sweeps: nat)
    requires EvenP(P) && Square(A0, P) && ParamsShape(params, P) && sweeps > 0
    requires UnitParamsAll(params, P) && OrthonormalState(Run(A0, P, params, sweeps - 1, 0), P)
    ensures OrthonormalState(Run(A0, P, params, sweeps, 0), P)
  {
    SweepKeepsOrthonormal(A0, P, params, sweeps - 1, P - 1);
    RunNextSweep(A0, P, params, sweeps);
  }

  /** With unit parameters E stays orthonormal through every round. */
  lemma RunKeepsOrthonormal(A0: Matrix, P: int, params: Params, sweeps: nat, r: int)
    requires EvenP(P) && Square(A0, P) && ParamsShape(params, P) && 0 <= r <= P - 1
    requires UnitParamsAll(params, P)
    ensures Orthonormal(Run(A0, P, params, sweeps, r).1, P)
  {
    SweepStartOrthonormal(A0, P, params, sweeps);
    SweepKeepsOrthonormal(A0, P, params, sweeps, r);
  }

  /** The parameter function with its matrix argument fixed at A. */
  function Frozen(params: Params, A: Matrix): (f: Params)
    ensures forall a: Matrix, it: int :: f(a, it) == params(A, it)
  {
    (a: Matrix, it: int) => params(A, it)
  }

  /** The loop as written yields the E of the first sweep of the intended
      loop run with parameters frozen at the input matrix. */
  lemma {:induction false} AsWrittenIsFrozenFirstSweep(A: Matrix, P: int, params: Params, r: int)
    requires EvenP(P) && Square(A, P) && ParamsShape(params, P) && 0 <= r <= P - 1
    ensures ParamsShape(Frozen(params, A), P)
    ensures EigenAsWritten(A, P, params, r) == Run(A, P, Frozen(params, A), 0, r).1
  {
    if r > 0 {
      AsWrittenIsFrozenFirstSweep(A, P, params, r - 1);
    }
  }

  // ------------------------------------------------------- result assembly

  /** The diagonal of A. */
  function Diag(A: Matrix, P: int): (d: seq<real>)
    requires Square(A, P)
    ensures |d| == P && forall i :: 0 <= i < P ==> d[i] == A[i][i]
  {
    seq(P, i requires 0 <= i < P => A[i][i])
  }

  /** The eigenvalues as the assembly reads them: the diagonal of A, sorted
      and flipped into descending order. */
  function EigenvaluesOf(A: Matrix, P: int): (ev: seq<real>)
    requires Square(A, P)
    ensures |ev| == P
  {
    Reverse(SortAsc(Diag(A, P)))
  }

  /** The column order the assembly as written uses: the flipped argsort of
      e_indices, which holds 0, 1, ..., P - 1 whatever A is. */
  function AsWrittenOrder(P: nat): (o: seq<int>)
    ensures |o| == P
  {
    Reverse(ArgSort(Iota(P)))
  }

  /** The order of the diagonal entries by descending value: the flipped
      argsort of the eigenvalues before they are sorted. */
  function Order(A: Matrix, P: int): (o: seq<int>)
    requires Square(A, P)
    ensures |o| == P && Indices(o, P)
  {
    Reverse(ArgSort(Diag(A, P)))
  }

  /** U as written: column j of U is column AsWrittenOrder(P)[j] of E. */
  function UAsWritten(E: Matrix, P: nat): (U: Matrix)
    requires Square(E, P)
    ensures Square(U, P)
  {
    ReversedArgSortIota(P);
    seq(P, i requires 0 <= i < P => seq(P, j requires 0 <= j < P => E[i][AsWrittenOrder(P)[j]]))
  }

  /** U with column j the eigenvector of the j-th largest eigenvalue: row
      Order(A, P)[j] of E, since the rounds rotate the rows of E. */
  function UOf(A: Matrix, E: Matrix, P: nat): (U: Matrix)
    requires Square(A, P) && Square(E, P)
    ensures Square(U, P)
  {
    seq(P, i requires 0 <= i < P => seq(P, j requires 0 <= j < P => E[Order(A, P)[j]][i]))
  }

  /** The eigenvalues come out in descending order, they are the diagonal
      entries of A rearranged, and Order lists each diagonal index once, in
      step with them. */
  lemma EigenvaluesMatchOrder(A: Matrix, P: nat)
    requires Square(A, P)
    ensures forall a, b :: 0 <= a < b < P ==> EigenvaluesOf(A, P)[a] >= EigenvaluesOf(A, P)[b]
    ensures multiset(EigenvaluesOf(A, P)) == multiset(Diag(A, P))
    ensures multiset(Order(A, P)) == multiset(Range(P))
    ensures forall j :: 0 <= j < P ==> Diag(A, P)[Order(A, P)[j]] == EigenvaluesOf(A, P)[j]
  {
    var d := Diag(A, P);
    SortAscIsSortedPermutation(d);
    ArgSortIsSortedPermutation(d);
    ReverseFacts(SortAsc(d));
    ReverseFacts(ArgSort(d));
  }

  /** The as-written column order is P - 1, ..., 1, 0: it ignores A. */
  lemma AsWrittenOrderIsReversal(P: nat)
    ensures AsWrittenOrder(P) == seq(P, k => P - 1 - k)
  {
    ReversedArgSortIota(P);
  }

  /** The loop that copies A's diagonal into the eigenvalue array and the
      indices 0, 1, ..., P - 1 into e_indices. */
  method ReadDiagonal(A: Matrix, P: nat) returns (values: seq<real>, eIndices: seq<real>)
    requires Square(A, P)
    ensures values == Diag(A, P) && eIndices == Iota(P)
  {
    var v := new real[P](_ => 1.0);
    var e := new real[P](_ => 1.0);
    for i := 0 to P
      invariant forall k :: 0 <= k < i ==> v[k] == A[k][k] && e[k] == k as real
    {
      v[i] := A[i][i];
      e[i] := i as real;
    }
    values, eIndices := v[..], e[..];
  }

  /** U[i][j] := E[i][order[j]] for every i, j. */
  method PickColumns(E: Matrix, order: seq<int>, P: nat) returns (U: array2<real>)
    requires Square(E, P) && |order| == P && Indices(order, P)
    ensures U.Length0 == P && U.Length1 == P
    ensures forall i, j :: 0 <= i < P && 0 <= j < P ==> U[i, j] == E[i][order[j]]
  {
    U := new real[P, P];
    for i := 0 to P
      invariant forall r, c :: 0 <= r < i && 0 <= c < P ==> U[r, c] == E[r][order[c]]
    {
      for j := 0 to P
        invariant forall r, c :: 0 <= r < i && 0 <= c < P ==> U[r, c] == E[r][order[c]]
        invariant forall c :: 0 <= c < j ==> U[i, c] == E[i][order[c]]
      {
        U[i, j] := E[i][order[j]];
      }
    }
  }

  /** U[i][j] := E[order[j]][i] for every i, j: the same loop over the
      transposed eigenvector matrix. */
  method PickRows(E: Matrix, order: seq<int>, P: nat) returns (U: array2<real>)
    requires Square(E, P) && |order| == P && Indices(order, P)
    ensures U.Length0 == P && U.Length1 == P
    ensures forall i, j :: 0 <= i < P && 0 <= j < P ==> U[i, j] == E[order[j]][i]
  {
    U := new real[P, P];
    for i := 0 to P
      invariant forall r, c :: 0 <= r < i && 0 <= c < P ==> U[r, c] == E[order[c]][r]
    {
      for j := 0 to P
        invariant forall r, c :: 0 <= r < i && 0 <= c < P ==> U[r, c] == E[order[c]][r]
        invariant forall c :: 0 <= c < j ==> U[i, c] == E[order[c]][i]
      {
        U[i, j] := E[order[j]][i];
      }
    }
  }

  /** The assembly as written: eigenvalues are A's diagonal in descending
      order, and U takes E's columns in reversed index order. */
  method AssembleAsWritten(A: Matrix, E: Matrix, P: nat) returns (eigenvalues: seq<real>, U: array2<real>)
    requires Square(A, P) && Square(E, P)
    ensures eigenvalues == EigenvaluesOf(A, P)
    ensures U.Length0 == P && U.Length1 == P
    ensures forall i, j :: 0 <= i < P && 0 <= j < P ==> U[i, j] == UAsWritten(E, P)[i][j] == E[i][P - 1 - j]
  {
    var values, eIndices := ReadDiagonal(A, P);
    eigenvalues := SortAsc(values);
    var newIndices := ArgSort(eIndices);
    eigenvalues := Reverse(eigenvalues);
    newIndices := Reverse(newIndices);
    AsWrittenOrderIsReversal(P);
    U := PickColumns(E, newIndices, P);
  }

  /** The assembly with the order taken from the eigenvalues and U built from
      the rows of E (the transposed eigenvector matrix). */
  method Assemble(A: Matrix, E: Matrix, P: nat) returns (eigenvalues: seq<real>, U: array2<real>)
    requires Square(A, P) && Square(E, P)
    ensures eigenvalues == EigenvaluesOf(A, P)
    ensures U.Length0 == P && U.Length1 == P
    ensures forall i, j :: 0 <= i < P && 0 <= j < P ==> U[i, j] == UOf(A, E, P)[i][j]
  {
    var values, _ := ReadDiagonal(A, P);
    var newIndices := Reverse(ArgSort(values));
    eigenvalues := Reverse(SortAsc(values));
    U := PickRows(E, newIndices, P);
    assert newIndices == Order(A, P);
    assert forall i, j :: 0 <= i < P && 0 <= j < P ==> UOf(A, E, P)[i][j] == E[newIndices[j]][i];
  }
}
