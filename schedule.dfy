/** The round-robin ("chess tournament") pairing table of svd_cuda.py.
    Index P-1 stays fixed and the other P-1 indices rotate around a circle:
    in round `iter` the pair at table `localID` is (iter, P-1) for
    localID = 0, and ((iter+t) mod (P-1), (iter-t) mod (P-1)) for
    t = localID in 1 .. P/2-1. */
module Schedule {
  import opened Flat

  /** The circle method is modelled for an even number of indices. */
  predicate EvenP(P: int)
  {
    P >= 2 && P % 2 == 0
  }

  function Min(a: int, b: int): int { if a <= b then a else b }
  function Max(a: int, b: int): int { if a <= b then b else a }

  /** True when index j is one of the two indices of pair p. */
  predicate Holds(p: (int, int), j: int)
  {
    p.0 == j || p.1 == j
  }

  /** chess_tourney_params: the pair handled by thread `localID` in round
      `iter`, ordered (smaller, larger).  Both operands of `%` are
      non-negative here, so C's remainder and Dafny's agree. */
  function ChessTourneyParams(P: int, localID: int, iter: int): (pair: (int, int))
    requires EvenP(P) && 0 <= localID < P / 2 && 0 <= iter < P - 1
    ensures 0 <= pair.0 < pair.1 < P
  {
    ClosedForm(P, localID, iter);
    var index1 := (localID + iter) % (P - 1);
    var index2 := if localID != 0 then (P - localID + iter - 1) % (P - 1) else P - 1;
    (Min(index1, index2), Max(index1, index2))
  }

  /** (iter + t) mod (P-1), written without `%`. */
  function Ahead(P: int, t: int, iter: int): int
  {
    if t + iter < P - 1 then t + iter else t + iter - (P - 1)
  }

  /** (iter - t) mod (P-1), written without `%`. */
  function Behind(P: int, t: int, iter: int): int
  {
    if iter >= t then iter - t else iter - t + (P - 1)
  }

  lemma ModBelowTwice(x: int, n: int)
    requires n >= 1 && 0 <= x < 2 * n
    ensures x % n == if x < n then x else x - n
  {
    if x < n {
      DivMod(0, x, n);
    } else {
      DivMod(1, x - n, n);
    }
  }

  /** The two remainders of chess_tourney_params in linear form: table 0
      plays (iter, P-1); table t >= 1 plays iter+t against iter-t, both
      taken around the circle of P-1 positions. */
  lemma ClosedForm(P: int, localID: int, iter: int)
    requires EvenP(P) && 0 <= localID < P / 2 && 0 <= iter < P - 1
    ensures (localID + iter) % (P - 1) == Ahead(P, localID, iter)
    ensures localID != 0 ==> (P - localID + iter - 1) % (P - 1) == Behind(P, localID, iter)
  {
    ModBelowTwice(localID + iter, P - 1);
    if localID != 0 {
      ModBelowTwice(P - localID + iter - 1, P - 1);
    }
  }

  /** The circle-method pair of thread t in round iter, without `%`:
      (iter, P-1) for t = 0, otherwise the ordered pair of iter+t and
      iter-t taken around the circle of P-1 positions. */
  function CirclePair(P: int, t: int, iter: int): (pair: (int, int))
    requires EvenP(P) && 0 <= t < P / 2 && 0 <= iter < P - 1
    ensures 0 <= pair.0 < pair.1 < P
  {
    if t == 0 then (iter, P - 1)
    else (Min(Ahead(P, t, iter), Behind(P, t, iter)), Max(Ahead(P, t, iter), Behind(P, t, iter)))
  }

  /** chess_tourney_params computes the circle-method pair. */
  lemma PairForm(P: int, localID: int, iter: int)
    requires EvenP(P) && 0 <= localID < P / 2 && 0 <= iter < P - 1
    ensures ChessTourneyParams(P, localID, iter) == CirclePair(P, localID, iter)
  {
    ClosedForm(P, localID, iter);
  }

  /** Within one round, two different threads get pairs with no index in common. */
  lemma RoundPairsDisjoint(P: int, iter: int, a: int, b: int)
    requires EvenP(P) && 0 <= iter < P - 1
    requires 0 <= a < P / 2 && 0 <= b < P / 2 && a != b
    ensures forall j :: !(Holds(CirclePair(P, a, iter), j) && Holds(CirclePair(P, b, iter), j))
  {
  }

  /** The thread of round `iter` whose pair holds index j: every index is
      played in some pair of every round. */
  function BlockOf(P: int, iter: int, j: int): (b: int)
    requires EvenP(P) && 0 <= iter < P - 1 && 0 <= j < P
    ensures 0 <= b < P / 2
    ensures Holds(CirclePair(P, b, iter), j)
  {
    var n := P - 1;
    var d := if j >= iter then j - iter else j - iter + n;
    if j == n || j == iter then 0 else if d <= P / 2 - 1 then d else n - d
  }

  /** No index is played twice in a round: the thread holding j is BlockOf(j). */
  lemma BlockOfUnique(P: int, iter: int, j: int, b: int)
    requires EvenP(P) && 0 <= iter < P - 1 && 0 <= j < P
    requires 0 <= b < P / 2 && Holds(CirclePair(P, b, iter), j)
    ensures b == BlockOf(P, iter, j)
  {
    var b' := BlockOf(P, iter, j);
    if b != b' {
      RoundPairsDisjoint(P, iter, b, b');
      assert false;
    }
  }

  /** The round and thread in which the unordered pair {i, j} is played:
      (i, P-1) meets at thread 0 of round i; otherwise i and j sit t steps
      either side of the round's fixed point around the circle of P-1. */
  function MeetingOf(P: int, i: int, j: int): (m: (int, int))
    requires EvenP(P) && 0 <= i < j < P
    ensures 0 <= m.0 < P - 1 && 0 <= m.1 < P / 2
    ensures ChessTourneyParams(P, m.1, m.0) == (i, j)
  {
    var n := P - 1;
    var m :=
      if j == n then (i, 0)
      else if (i + j) % 2 == 0 then ((i + j) / 2, (j - i) / 2)
      else if i + j < n then ((i + j + n) / 2, (n - (j - i)) / 2)
      else ((i + j - n) / 2, (n - (j - i)) / 2);
    MeetingIsCircle(P, i, j, m.0, m.1);
    PairForm(P, m.1, m.0);
    m
  }

  /** The case analysis behind MeetingOf, on the closed form. */
  lemma MeetingIsCircle(P: int, i: int, j: int, iter: int, t: int)
    requires EvenP(P) && 0 <= i < j < P
    requires j == P - 1 ==> iter == i && t == 0
    requires j < P - 1 && (i + j) % 2 == 0 ==> 2 * iter == i + j && 2 * t == j - i
    requires j < P - 1 && (i + j) % 2 == 1 && i + j < P - 1 ==> 2 * iter == i + j + P - 1 && 2 * t == P - 1 - (j - i)
    requires j < P - 1 && (i + j) % 2 == 1 && i + j >= P - 1 ==> 2 * iter == i + j - (P - 1) && 2 * t == P - 1 - (j - i)
    ensures 0 <= iter < P - 1 && 0 <= t < P / 2
    ensures CirclePair(P, t, iter) == (i, j)
  {
  }

  /** The two indices of a pair t >= 1 add up to twice the round, up to one
      turn of the circle of P-1 positions. */
  lemma CircleSum(P: int, t: int, iter: int)
    requires EvenP(P) && 1 <= t < P / 2 && 0 <= iter < P - 1
    ensures CirclePair(P, t, iter).1 < P - 1
    ensures var s := CirclePair(P, t, iter).0 + CirclePair(P, t, iter).1;
            s == 2 * iter || s == 2 * iter + (P - 1) || s == 2 * iter - (P - 1)
  {
  }

  /** A pair of the circle method fixes its round: P-1 is odd, so twice the
      round is known modulo P-1 only when the round itself is. */
  lemma CircleRound(P: int, a: int, it1: int, b: int, it2: int)
    requires EvenP(P) && 0 <= it1 < P - 1 && 0 <= it2 < P - 1
    requires 0 <= a < P / 2 && 0 <= b < P / 2
    requires CirclePair(P, a, it1) == CirclePair(P, b, it2)
    ensures it1 == it2
  {
    if a == 0 || b == 0 {
      if a != 0 { CircleSum(P, a, it1); }
      if b != 0 { CircleSum(P, b, it2); }
    } else {
      CircleSum(P, a, it1);
      CircleSum(P, b, it2);
    }
  }

  /** Across all rounds no pair is played twice. */
  lemma ScheduleNoRepeat(P: int, it1: int, a: int, it2: int, b: int)
    requires EvenP(P) && 0 <= it1 < P - 1 && 0 <= it2 < P - 1
    requires 0 <= a < P / 2 && 0 <= b < P / 2
    requires ChessTourneyParams(P, a, it1) == ChessTourneyParams(P, b, it2)
    ensures it1 == it2 && a == b
  {
    PairForm(P, a, it1);
    PairForm(P, b, it2);
    CircleRound(P, a, it1, b, it2);
    if a != b {
      RoundPairsDisjoint(P, it1, a, b);
      assert Holds(CirclePair(P, a, it1), CirclePair(P, a, it1).0);
    }
  }

  /** The value kernel_compute_all_chess_params stores at flat slot s:
      in round s / P, position r = s % P holds index r % 2 of the pair of
      thread r / 2 (the smaller index first). */
  function SlotValue(P: int, s: int): (v: int)
    requires EvenP(P) && 0 <= s < (P - 1) * P
    ensures 0 <= v < P
  {
    Split(s, P - 1, P);
    var r := s % P;
    var p := ChessTourneyParams(P, r / 2, s / P);
    if r % 2 == 0 then p.0 else p.1
  }

  /** The whole table, (P-1) rounds of P/2 pairs of 2 indices. */
  function ScheduleTable(P: int): (t: seq<int>)
    requires EvenP(P)
    ensures |t| == (P - 1) * P
  {
    MulAtLeast(P - 1, P);
    seq((P - 1) * P, s requires 0 <= s < (P - 1) * P => SlotValue(P, s))
  }

  /** Flat slot of the first index of thread localID's pair in round iter. */
  function Slot(P: int, iter: int, localID: int): (s: int)
    requires EvenP(P) && 0 <= iter < P - 1 && 0 <= localID < P / 2
    ensures 0 <= s && s + 1 < (P - 1) * P
  {
    Bound(iter, 2 * localID + 1, P - 1, P);
    iter * P + 2 * localID
  }

  /** Slot iter*P + 2*localID of the table holds the pair of (localID, iter). */
  lemma TableAt(P: int, iter: int, localID: int)
    requires EvenP(P) && 0 <= iter < P - 1 && 0 <= localID < P / 2
    ensures ScheduleTable(P)[Slot(P, iter, localID)] == ChessTourneyParams(P, localID, iter).0
    ensures ScheduleTable(P)[Slot(P, iter, localID) + 1] == ChessTourneyParams(P, localID, iter).1
  {
    var s := Slot(P, iter, localID);
    SlotValueAt(P, iter, 2 * localID);
    SlotValueAt(P, iter, 2 * localID + 1);
    assert (2 * localID) / 2 == localID && (2 * localID + 1) / 2 == localID;
    assert (2 * localID) % 2 == 0 && (2 * localID + 1) % 2 == 1;
  }

  /** Position r of round iter's row of the table. */
  lemma SlotValueAt(P: int, iter: int, r: int)
    requires EvenP(P) && 0 <= iter < P - 1 && 0 <= r < P
    ensures 0 <= iter * P + r < (P - 1) * P
    ensures SlotValue(P, iter * P + r) == var p := ChessTourneyParams(P, r / 2, iter); if r % 2 == 0 then p.0 else p.1
  {
    Bound(iter, r, P - 1, P);
    DivMod(iter, r, P);
  }

  /** kernel_compute_all_chess_params over its P-1 blocks (rounds) and the
      first P/2 threads of each: thread localID of block iter writes its
      pair at slots iter*P + 2*localID and iter*P + 2*localID + 1. */
  method ComputeAllChessParams(P: int, table: array<int>)
    requires EvenP(P) && table.Length == (P - 1) * P
    modifies table
    ensures table[..] == ScheduleTable(P)
  {
    ghost var T := ScheduleTable(P);
    var blockID := 0;
    while blockID < P - 1
      invariant 0 <= blockID <= P - 1
      invariant blockID * P <= table.Length
      invariant forall s :: 0 <= s < blockID * P ==> table[s] == T[s]
    {
      Bound(blockID, P - 1, P - 1, P);
      WriteRound(P, table, blockID, T);
      assert blockID * P + P == (blockID + 1) * P;
      blockID := blockID + 1;
    }
    assert table[..] == T;
  }

  /** The P/2 threads of block `blockID` of kernel_compute_all_chess_params. */
  method WriteRound(P: int, table: array<int>, blockID: int, ghost T: seq<int>)
    requires EvenP(P) && table.Length == (P - 1) * P && T == ScheduleTable(P)
    requires 0 <= blockID < P - 1 && blockID * P + P <= table.Length
    requires forall s :: 0 <= s < blockID * P ==> table[s] == T[s]
    modifies table
    ensures forall s :: 0 <= s < blockID * P + P ==> table[s] == T[s]
  {
    var localID := 0;
    while localID < P / 2
      invariant 0 <= localID <= P / 2
      invariant forall s :: 0 <= s < blockID * P + 2 * localID ==> table[s] == T[s]
    {
      var index := blockID * P + localID * 2;
      assert index == Slot(P, blockID, localID);
      TableAt(P, blockID, localID);
      var rowPair := ChessTourneyParams(P, localID, blockID);
      table[index] := rowPair.0;
      table[index + 1] := rowPair.1;
      localID := localID + 1;
    }
  }

  /** Every unordered pair {i, j} is stored in the table, at the slot of the
      round and thread that play it, and at no other slot. */
  lemma TableHoldsEveryPairOnce(P: int, i: int, j: int)
    requires EvenP(P) && 0 <= i < j < P
    ensures exists iter, localID ::
              0 <= iter < P - 1 && 0 <= localID < P / 2 &&
              ScheduleTable(P)[Slot(P, iter, localID)] == i &&
              ScheduleTable(P)[Slot(P, iter, localID) + 1] == j
    ensures forall iter, localID ::
              0 <= iter < P - 1 && 0 <= localID < P / 2 &&
              ScheduleTable(P)[Slot(P, iter, localID)] == i &&
              ScheduleTable(P)[Slot(P, iter, localID) + 1] == j
              ==> (iter, localID) == MeetingOf(P, i, j)
  {
    var m := MeetingOf(P, i, j);
    TableAt(P, m.0, m.1);
    forall iter, localID | 0 <= iter < P - 1 && 0 <= localID < P / 2 &&
      ScheduleTable(P)[Slot(P, iter, localID)] == i &&
      ScheduleTable(P)[Slot(P, iter, localID) + 1] == j
      ensures (iter, localID) == m
    {
      TableAt(P, iter, localID);
      ScheduleNoRepeat(P, iter, localID, m.0, m.1);
    }
  }
}
