/** Dynamic time warping as `dtw` computes it: an (n+1) x (m+1) accumulated-cost matrix with
    L1 local cost and infinite borders, then a backtrack from (n, m) that prefers up, then left,
    then diagonal when several neighbours share the minimum. */
module Warping {
  import opened Basics

  /** A matrix cell: a finite accumulated cost or JavaScript's `Infinity`. */
  datatype Cost = Finite(v: real) | Infinite

  /** `x` is no larger than `y` (every cost is at most `Infinity`). */
  predicate AtMost(x: Cost, y: Cost)
  {
    y.Infinite? || (x.Finite? && x.v <= y.v)
  }

  /** `Math.min` of two cells. */
  function Min2(a: Cost, b: Cost): (r: Cost)
    ensures r == a || r == b
    ensures AtMost(r, a) && AtMost(r, b)
  {
    if a.Infinite? then b
    else if b.Infinite? then a
    else if a.v <= b.v then a else b
  }

  /** `Math.min` of three cells. */
  function Min3(a: Cost, b: Cost, c: Cost): (r: Cost)
    ensures r == a || r == b || r == c
    ensures AtMost(r, a) && AtMost(r, b) && AtMost(r, c)
  {
    Min2(Min2(a, b), c)
  }

  lemma Min2Commutes(a: Cost, b: Cost)
    ensures Min2(a, b) == Min2(b, a)
  {
  }

  /** `cost + x`: adding a finite cost to `Infinity` stays `Infinity`. */
  function Plus(c: real, x: Cost): (r: Cost)
    ensures r.Finite? <==> x.Finite?
    ensures r.Finite? ==> r.v - x.v == c
  {
    if x.Finite? then Finite(c + x.v) else Infinite
  }

  /** L1 distance of two form values. */
  function LocalCost(A: seq<real>, B: seq<real>, a: nat, b: nat): (r: real)
    requires a < |A| && b < |B|
    ensures r >= 0.0
  {
    Abs(A[a] - B[b])
  }

  /** The matrix cell `dtwMatrix[i][j]`: 0 at the origin, `Infinity` on the rest of the
      border, and otherwise the local cost of (i-1, j-1) plus the least of the cells above,
      to the left and diagonally before. Every interior cell is finite and non-negative. */
  function Acc(A: seq<real>, B: seq<real>, i: nat, j: nat): (r: Cost)
    requires i <= |A| && j <= |B|
    ensures i == 0 && j == 0 ==> r == Finite(0.0)
    ensures (i == 0) != (j == 0) ==> r.Infinite?
    ensures i > 0 && j > 0 ==> r.Finite? && r.v >= 0.0
    decreases i + j
  {
    if i == 0 && j == 0 then Finite(0.0)
    else if i == 0 || j == 0 then Infinite
    else Plus(LocalCost(A, B, i - 1, j - 1), Min3(Acc(A, B, i - 1, j), Acc(A, B, i, j - 1), Acc(A, B, i - 1, j - 1)))
  }

  /** One backtrack move. */
  datatype Move = Up | Left | Diagonal

  /** `prev.indexOf(Math.min(...prev))` over [up, left, diagonal]: the first neighbour that
      holds the minimum. */
  function Choose(up: Cost, left: Cost, diag: Cost): (r: Move)
    ensures r == Up <==> up == Min3(up, left, diag)
    ensures r == Left <==> up != Min3(up, left, diag) && left == Min3(up, left, diag)
    ensures r == Diagonal ==> diag == Min3(up, left, diag)
  {
    var m := Min3(up, left, diag);
    if up == m then Up else if left == m then Left else Diagonal
  }

  /** A cell and the cell the backtrack moves to from it differ by one row, one column, or
      both. */
  predicate UnitStep(p: (nat, nat), q: (nat, nat))
  {
    || (q.0 == p.0 + 1 && q.1 == p.1)
    || (q.0 == p.0 && q.1 == p.1 + 1)
    || (q.0 == p.0 + 1 && q.1 == p.1 + 1)
  }

  predicate UnitSteps(path: seq<(nat, nat)>)
  {
    forall k :: 0 < k < |path| ==> UnitStep(path[k - 1], path[k])
  }

  /** The cell the backtrack moves to from (i, j). The cell it picks holds a finite cost, so
      the move reaches either the origin or another interior cell, and the cost of (i, j) is
      its local cost plus the cost of the cell moved to. */
  function Next(A: seq<real>, B: seq<real>, i: nat, j: nat): (r: (nat, nat))
    requires 1 <= i <= |A| && 1 <= j <= |B|
    ensures UnitStep(r, (i, j))
    ensures Acc(A, B, r.0, r.1).Finite?
    ensures r.0 == 0 || r.1 == 0 ==> r == (0, 0)
    ensures Acc(A, B, i, j).v == LocalCost(A, B, i - 1, j - 1) + Acc(A, B, r.0, r.1).v
  {
    var up := Acc(A, B, i - 1, j);
    var left := Acc(A, B, i, j - 1);
    var diag := Acc(A, B, i - 1, j - 1);
    Retreat(Choose(up, left, diag), i, j)
  }

  /** The cell one move back from (i, j). */
  function Retreat(mv: Move, i: nat, j: nat): (r: (nat, nat))
    requires i >= 1 && j >= 1
    ensures UnitStep(r, (i, j))
  {
    match mv
    case Up => (i - 1, j)
    case Left => (i, j - 1)
    case Diagonal => (i - 1, j - 1)
  }

  /** The backtracked path that ends in cell (i, j) of the matrix, as the list of series index
      pairs (i-1, j-1) it visits, first to last. */
  function Path(A: seq<real>, B: seq<real>, i: nat, j: nat): (r: seq<(nat, nat)>)
    requires i <= |A| && j <= |B|
    ensures forall k :: 0 <= k < |r| ==> r[k].0 < i && r[k].1 < j
    decreases i + j
  {
    if i == 0 || j == 0 then []
    else
      var next := Next(A, B, i, j);
      Path(A, B, next.0, next.1) + [(i - 1, j - 1)]
  }

  /** The shape of the backtracked path: it starts at (0, 0), ends at (i-1, j-1), moves by unit
      steps, and so has between max(i, j) and i + j - 1 entries. */
  lemma {:induction false} PathShape(A: seq<real>, B: seq<real>, i: nat, j: nat)
    requires 1 <= i <= |A| && 1 <= j <= |B|
    ensures var p := Path(A, B, i, j);
            && |p| >= 1
            && p[0] == (0, 0)
            && p[|p| - 1] == (i - 1, j - 1)
            && UnitSteps(p)
            && i <= |p| && j <= |p| && |p| <= i + j - 1
    decreases i + j
  {
    var next := Next(A, B, i, j);
    var p := Path(A, B, i, j);
    var front := Path(A, B, next.0, next.1);
    assert p == front + [(i - 1, j - 1)];
    if next != (0, 0) {
      PathShape(A, B, next.0, next.1);
      assert p[|p| - 2] == front[|front| - 1];
      forall k | 0 < k < |p|
        ensures UnitStep(p[k - 1], p[k])
      {
        if k < |front| {
          assert p[k - 1] == front[k - 1] && p[k] == front[k];
        }
      }
    }
  }

  /** Some pair on the path has first index `a`. */
  predicate RowVisited(path: seq<(nat, nat)>, a: nat)
  {
    exists k :: 0 <= k < |path| && path[k].0 == a
  }

  /** Some pair on the path has second index `b`. */
  predicate ColumnVisited(path: seq<(nat, nat)>, b: nat)
  {
    exists k :: 0 <= k < |path| && path[k].1 == b
  }

  /** Every index of both series occurs on the path. */
  lemma {:induction false} PathCovers(A: seq<real>, B: seq<real>, i: nat, j: nat)
    requires 1 <= i <= |A| && 1 <= j <= |B|
    ensures var p := Path(A, B, i, j);
            && (forall a :: 0 <= a < i ==> RowVisited(p, a))
            && (forall b :: 0 <= b < j ==> ColumnVisited(p, b))
    decreases i + j
  {
    var next := Next(A, B, i, j);
    var p := Path(A, B, i, j);
    var front := Path(A, B, next.0, next.1);
    assert p == front + [(i - 1, j - 1)];
    assert p[|p| - 1] == (i - 1, j - 1);
    if next == (0, 0) {
      assert p == [(0, 0)];
      assert RowVisited(p, 0) && ColumnVisited(p, 0);
    } else {
      PathCovers(A, B, next.0, next.1);
      assert forall b :: 0 <= b < next.1 ==> ColumnVisited(front, b);
      assert forall a :: 0 <= a < next.0 ==> RowVisited(Path(A, B, next.0, next.1), a);
      forall a | 0 <= a < i
        ensures RowVisited(p, a)
      {
        if a < next.0 {
          assert RowVisited(front, a);
          var k :| 0 <= k < |front| && front[k].0 == a;
          assert p[k] == front[k];
        } else {
          assert p[|p| - 1].0 == a;
        }
      }
      forall b | 0 <= b < j
        ensures ColumnVisited(p, b)
      {
        if b < next.1 {
          assert ColumnVisited(front, b);
          var k :| 0 <= k < |front| && front[k].1 == b;
          assert p[k] == front[k];
        } else {
          assert p[|p| - 1].1 == b;
        }
      }
    }
  }

  /** Along a unit-step path both coordinates never decrease, and their sum grows by at least
      one per step. */
  lemma {:induction false} UnitStepsMonotone(path: seq<(nat, nat)>, k: nat, l: nat)
    requires UnitSteps(path) && k <= l < |path|
    ensures path[k].0 <= path[l].0 && path[k].1 <= path[l].1
    ensures path[k].0 + path[k].1 + (l - k) <= path[l].0 + path[l].1
    decreases l - k
  {
    if k < l {
      UnitStepsMonotone(path, k, l - 1);
      assert UnitStep(path[l - 1], path[l]);
    }
  }

  /** The summed local cost along a list of index pairs. */
  function PathCost(A: seq<real>, B: seq<real>, path: seq<(nat, nat)>): (r: real)
    requires forall k :: 0 <= k < |path| ==> path[k].0 < |A| && path[k].1 < |B|
    ensures r >= 0.0
  {
    if |path| == 0 then 0.0
    else
      var last := path[|path| - 1];
      PathCost(A, B, path[..|path| - 1]) + LocalCost(A, B, last.0, last.1)
  }

  /** The local costs along the backtracked path add up to the cell's accumulated cost. */
  lemma {:induction false} PathCostIsAcc(A: seq<real>, B: seq<real>, i: nat, j: nat)
    requires 1 <= i <= |A| && 1 <= j <= |B|
    ensures Acc(A, B, i, j) == Finite(PathCost(A, B, Path(A, B, i, j)))
    decreases i + j
  {
    var next := Next(A, B, i, j);
    var p := Path(A, B, i, j);
    var front := Path(A, B, next.0, next.1);
    assert p[..|p| - 1] == front;
    if next != (0, 0) {
      PathCostIsAcc(A, B, next.0, next.1);
    }
  }

  /** A path of zero total cost pairs only equal values. */
  lemma {:induction false} ZeroCostPairsEqual(A: seq<real>, B: seq<real>, path: seq<(nat, nat)>)
    requires forall k :: 0 <= k < |path| ==> path[k].0 < |A| && path[k].1 < |B|
    requires PathCost(A, B, path) == 0.0
    ensures forall k :: 0 <= k < |path| ==> A[path[k].0] == B[path[k].1]
  {
    if |path| > 0 {
      var front := path[..|path| - 1];
      ZeroCostPairsEqual(A, B, front);
      assert forall k :: 0 <= k < |front| ==> path[k] == front[k];
    }
  }

  /** Cell (i, j) of the matrix for A against B equals cell (j, i) of the matrix for B
      against A. */
  predicate Transposed(A: seq<real>, B: seq<real>, i: nat, j: nat)
    requires i <= |A| && j <= |B|
  {
    Acc(A, B, i, j) == Acc(B, A, j, i)
  }

  /** Swapping the two series transposes the matrix. */
  lemma {:induction false} AccSymmetric(A: seq<real>, B: seq<real>, i: nat, j: nat)
    requires i <= |A| && j <= |B|
    ensures Acc(A, B, i, j) == Acc(B, A, j, i)
  {
    AccTransposed(A, B, i, j);
  }

  lemma {:induction false} AccTransposed(A: seq<real>, B: seq<real>, i: nat, j: nat)
    requires i <= |A| && j <= |B|
    ensures Transposed(A, B, i, j)
    decreases i + j
  {
    if i == 0 || j == 0 {
      AccBorderSymmetric(A, B, i, j);
    } else {
      AccTransposed(A, B, i - 1, j);
      AccTransposed(A, B, i, j - 1);
      AccTransposed(A, B, i - 1, j - 1);
      AccSymmetricStep(A, B, i, j);
    }
  }

  /** The border of the matrix reads the same transposed. */
  lemma AccBorderSymmetric(A: seq<real>, B: seq<real>, i: nat, j: nat)
    requires i <= |A| && j <= |B| && (i == 0 || j == 0)
    ensures Transposed(A, B, i, j)
  {
  }

  /** One cell of the transposed matrix, given its three predecessors are transposed. */
  lemma AccSymmetricStep(A: seq<real>, B: seq<real>, i: nat, j: nat)
    requires 0 < i <= |A| && 0 < j <= |B|
    ensures Transposed(A, B, i - 1, j) && Transposed(A, B, i, j - 1) && Transposed(A, B, i - 1, j - 1)
            ==> Transposed(A, B, i, j)
  {
    Min2Commutes(Acc(A, B, i - 1, j), Acc(A, B, i, j - 1));
    AccUnfold(A, B, i, j);
    AccUnfold(B, A, j, i);
    LocalCostSwap(A, B, i - 1, j - 1);
  }

  lemma AccUnfold(A: seq<real>, B: seq<real>, i: nat, j: nat)
    requires 0 < i <= |A| && 0 < j <= |B|
    ensures Acc(A, B, i, j) == Plus(LocalCost(A, B, i - 1, j - 1), Min3(Acc(A, B, i - 1, j), Acc(A, B, i, j - 1), Acc(A, B, i - 1, j - 1)))
  {
  }

  lemma LocalCostSwap(A: seq<real>, B: seq<real>, a: nat, b: nat)
    requires a < |A| && b < |B|
    ensures LocalCost(A, B, a, b) == LocalCost(B, A, b, a)
  {
  }

  /** A series warped against itself costs nothing on the diagonal. */
  lemma {:induction false} AccSelfZero(A: seq<real>, i: nat)
    requires i <= |A|
    ensures Acc(A, A, i, i) == Finite(0.0)
  {
    if i > 0 {
      AccSelfZero(A, i - 1);
    }
  }

  /** What `dtw` returns. */
  datatype DtwResult = DtwResult(distance: Cost, path: seq<(nat, nat)>)

  /** `dtw(series1, series2)`. With both series non-empty the distance is finite and
      non-negative and equals the summed local cost along the path, which runs by unit steps
      from (0, 0) to (n-1, m-1). With an empty series the path is empty and the distance is 0
      (both empty) or infinite (one empty). */
  function Dtw(A: seq<real>, B: seq<real>): (r: DtwResult)
    ensures |A| == 0 && |B| == 0 ==> r == DtwResult(Finite(0.0), [])
    ensures (|A| == 0) != (|B| == 0) ==> r.distance.Infinite? && r.path == []
    ensures forall k :: 0 <= k < |r.path| ==> r.path[k].0 < |A| && r.path[k].1 < |B|
    ensures |A| > 0 && |B| > 0 ==>
              && r.distance.Finite? && r.distance.v >= 0.0
              && r.distance.v == PathCost(A, B, r.path)
              && |r.path| >= 1 && r.path[0] == (0, 0) && r.path[|r.path| - 1] == (|A| - 1, |B| - 1)
              && UnitSteps(r.path)
  {
    var r := DtwResult(Acc(A, B, |A|, |B|), Path(A, B, |A|, |B|));
    if |A| > 0 && |B| > 0 then
      PathShape(A, B, |A|, |B|);
      PathCostIsAcc(A, B, |A|, |B|);
      r
    else r
  }

  /** The distance does not depend on the order of the arguments. */
  lemma DistanceSymmetric(A: seq<real>, B: seq<real>)
    ensures Dtw(A, B).distance == Dtw(B, A).distance
  {
    AccSymmetric(A, B, |A|, |B|);
  }

  /** A series is at distance 0 from itself. */
  lemma DistanceToSelf(A: seq<real>)
    ensures Dtw(A, A).distance == Finite(0.0)
  {
    AccSelfZero(A, |A|);
  }

  /** Every index of both series occurs on the path of non-empty series. */
  lemma PathVisitsEveryIndex(A: seq<real>, B: seq<real>)
    requires |A| > 0 && |B| > 0
    ensures var p := Dtw(A, B).path;
            && (forall a :: 0 <= a < |A| ==> RowVisited(p, a))
            && (forall b :: 0 <= b < |B| ==> ColumnVisited(p, b))
  {
    PathCovers(A, B, |A|, |B|);
    assert Dtw(A, B).path == Path(A, B, |A|, |B|);
  }

  /** Ties go up first, so the path of a series against itself need not be the diagonal, and
      the path of the swapped arguments need not be the transpose: for [0, 0] against itself
      the path is (0,0), (0,1), (1,1). */
  lemma SelfPathNotDiagonal()
    ensures Dtw([0.0, 0.0], [0.0, 0.0]).path == [(0, 0), (0, 1), (1, 1)]
  {
    var A := [0.0, 0.0];
    assert LocalCost(A, A, 0, 0) == 0.0 && LocalCost(A, A, 0, 1) == 0.0;
    assert LocalCost(A, A, 1, 0) == 0.0 && LocalCost(A, A, 1, 1) == 0.0;
    AccUnfold(A, A, 1, 1);
    assert Acc(A, A, 1, 1) == Finite(0.0);
    AccUnfold(A, A, 1, 2);
    assert Acc(A, A, 1, 2) == Finite(0.0);
    AccUnfold(A, A, 2, 1);
    assert Acc(A, A, 2, 1) == Finite(0.0);
    assert Choose(Acc(A, A, 1, 2), Acc(A, A, 2, 1), Acc(A, A, 1, 1)) == Up;
    assert Next(A, A, 2, 2) == (1, 2);
    assert Choose(Acc(A, A, 0, 2), Acc(A, A, 1, 1), Acc(A, A, 0, 1)) == Left;
    assert Next(A, A, 1, 2) == (1, 1);
    assert Next(A, A, 1, 1) == (0, 0);
    assert Path(A, A, 1, 1) == [(0, 0)];
    assert Path(A, A, 1, 2) == [(0, 0), (0, 1)];
    assert Path(A, A, 2, 2) == [(0, 0), (0, 1), (1, 1)];
  }

  /** The matrix-filling half of `dtw`: `Infinity` everywhere except 0 at the origin, then
      every interior cell filled row by row from its three predecessors. Afterwards every
      cell holds its accumulated cost. */
  method FillMatrix(A: seq<real>, B: seq<real>) returns (M: array2<Cost>)
    ensures M.Length0 == |A| + 1 && M.Length1 == |B| + 1
    ensures forall a, b :: 0 <= a <= |A| && 0 <= b <= |B| ==> M[a, b] == Acc(A, B, a, b)
  {
    var n := |A|;
    var m := |B|;
    M := new Cost[n + 1, m + 1]((a: nat, b: nat) => if a == 0 && b == 0 then Finite(0.0) else Infinite);
    var i := 1;
    while i <= n
      invariant 1 <= i <= n + 1
      invariant forall a, b :: 0 <= a <= n && 0 <= b <= m && (a < i || b == 0) ==> M[a, b] == Acc(A, B, a, b)
    {
      var j := 1;
      while j <= m
        invariant 1 <= j <= m + 1
        invariant forall a, b :: 0 <= a <= n && 0 <= b <= m && (a < i || (a == i && b < j) || b == 0) ==>
                    M[a, b] == Acc(A, B, a, b)
      {
        AccUnfold(A, B, i, j);
        M[i, j] := Plus(LocalCost(A, B, i - 1, j - 1), Min3(M[i - 1, j], M[i, j - 1], M[i - 1, j - 1]));
        j := j + 1;
      }
      i := i + 1;
    }
  }

  /** The backtracking half of `dtw`: from (n, m), prepend (i-1, j-1) and move to the first
      of up, left, diagonal that holds the minimum, until a border is reached. */
  method Backtrack(A: seq<real>, B: seq<real>, M: array2<Cost>) returns (path: seq<(nat, nat)>)
    requires M.Length0 == |A| + 1 && M.Length1 == |B| + 1
    requires forall a, b :: 0 <= a <= |A| && 0 <= b <= |B| ==> M[a, b] == Acc(A, B, a, b)
    ensures path == Path(A, B, |A|, |B|)
  {
    path := [];
    var i: nat, j: nat := |A|, |B|;
    while i > 0 && j > 0
      invariant i <= |A| && j <= |B|
      invariant Path(A, B, |A|, |B|) == Path(A, B, i, j) + path
      decreases i + j
    {
      assert M[i - 1, j] == Acc(A, B, i - 1, j);
      assert M[i, j - 1] == Acc(A, B, i, j - 1);
      assert M[i - 1, j - 1] == Acc(A, B, i - 1, j - 1);
      var mv := Choose(M[i - 1, j], M[i, j - 1], M[i - 1, j - 1]);
      BacktrackStep(A, B, i, j, mv, path);
      var cell: (nat, nat) := (i - 1, j - 1);
      path := [cell] + path;
      var next := Retreat(mv, i, j);
      i, j := next.0, next.1;
    }
    assert Path(A, B, i, j) == [];
    assert Path(A, B, i, j) + path == path;
  }

  /** The move `indexOf(min)` picks from the three neighbouring cells leads where `Next`
      says, and the path from the current cell is the path from there followed by the current
      cell. */
  lemma BacktrackStep(A: seq<real>, B: seq<real>, i: nat, j: nat, mv: Move, rest: seq<(nat, nat)>)
    requires 1 <= i <= |A| && 1 <= j <= |B|
    requires mv == Choose(Acc(A, B, i - 1, j), Acc(A, B, i, j - 1), Acc(A, B, i - 1, j - 1))
    ensures Retreat(mv, i, j) == Next(A, B, i, j)
    ensures Path(A, B, i, j) + rest
            == Path(A, B, Retreat(mv, i, j).0, Retreat(mv, i, j).1) + ([(i - 1, j - 1)] + rest)
  {
    PathUnfold(A, B, i, j, Retreat(mv, i, j).0, Retreat(mv, i, j).1, rest);
  }

  /** One backtrack step, seen from the path already built behind it. */
  lemma PathUnfold(A: seq<real>, B: seq<real>, i: nat, j: nat, ni: nat, nj: nat, rest: seq<(nat, nat)>)
    requires 1 <= i <= |A| && 1 <= j <= |B|
    requires (ni, nj) == Next(A, B, i, j)
    ensures Path(A, B, i, j) + rest == Path(A, B, ni, nj) + ([(i - 1, j - 1)] + rest)
  {
  }

  /** `dtw` as the source writes it, with arrays and loops: it returns what `Dtw` specifies. */
  method ComputeDtw(A: seq<real>, B: seq<real>) returns (distance: Cost, path: seq<(nat, nat)>)
    ensures distance == Dtw(A, B).distance && path == Dtw(A, B).path
  {
    var M := FillMatrix(A, B);
    distance := M[|A|, |B|];
    path := Backtrack(A, B, M);
  }
}
