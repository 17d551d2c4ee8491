/** `computeUserCloseness`: one score in [0, 100] per user sample, comparing it with the
    benchmark sample the warping path maps it to. */
module Closeness {
  import opened Basics
  import opened Warping

  /** Score lost per degree of difference. */
  const Alpha: real := 2.0

  /** `max(0, min(100, 100 - alpha * diff))`: 100 for equal values, 2 points less per degree of
      difference, 0 from 50 degrees on. */
  function PointScore(u: real, b: real): (r: real)
    ensures 0.0 <= r <= 100.0
    ensures r == 100.0 <==> u == b
    ensures Abs(u - b) <= 50.0 ==> r == 100.0 - Alpha * Abs(u - b)
    ensures Abs(u - b) >= 50.0 ==> r == 0.0
  {
    Clamp(100.0 - Alpha * Abs(u - b), 0.0, 100.0)
  }

  /** The positions on the path whose pair has user index `j`. */
  ghost function ColumnPositions(path: seq<(nat, nat)>, j: nat): set<nat>
  {
    set l: nat | l < |path| && path[l].1 == j
  }

  /** `userMap[j]`: the benchmark indices paired with user index `j`, in path order. */
  function Mapped(path: seq<(nat, nat)>, j: nat): (r: seq<nat>)
    ensures |r| <= |path|
    ensures forall k :: 0 <= k < |r| ==> exists l :: 0 <= l < |path| && path[l] == (r[k], j)
    ensures |r| == 0 <==> !ColumnVisited(path, j)
  {
    if |path| == 0 then []
    else
      var front := path[..|path| - 1];
      var last := path[|path| - 1];
      var before := Mapped(front, j);
      assert forall l :: 0 <= l < |front| ==> front[l] == path[l];
      assert ColumnVisited(path, j) <==> ColumnVisited(front, j) || last.1 == j;
      if last.1 == j then before + [last.0] else before
  }

  /** `userMap[j]` misses nothing: the benchmark index of every path position with user index
      `j` is among its entries. */
  lemma {:induction false} MappedComplete(path: seq<(nat, nat)>, j: nat)
    ensures forall l :: 0 <= l < |path| && path[l].1 == j ==> path[l].0 in Mapped(path, j)
  {
    if |path| > 0 {
      var n := |path| - 1;
      var front := path[..n];
      MappedComplete(front, j);
      var before := Mapped(front, j);
      var r := Mapped(path, j);
      assert path[n].1 == j ==> r == before + [path[n].0];
      assert path[n].1 != j ==> r == before;
      forall l | 0 <= l < |path| && path[l].1 == j
        ensures path[l].0 in r
      {
        if l < n {
          assert front[l] == path[l];
          assert path[l].0 in before;
        }
      }
    }
  }

  /** `userMap[j]` has exactly one entry per path position with user index `j`. */
  lemma {:induction false} MappedCount(path: seq<(nat, nat)>, j: nat)
    ensures |Mapped(path, j)| == |ColumnPositions(path, j)|
  {
    if |path| == 0 {
      assert ColumnPositions(path, j) == {};
    } else {
      var n := |path| - 1;
      MappedCount(path[..n], j);
      ColumnPositionsStep(path, j);
    }
  }

  /** The positions of the whole path are those of all but the last pair, plus the last
      position when its pair has user index `j`. */
  lemma ColumnPositionsStep(path: seq<(nat, nat)>, j: nat)
    requires |path| > 0
    ensures var n := |path| - 1;
            && n !in ColumnPositions(path[..n], j)
            && ColumnPositions(path, j)
               == ColumnPositions(path[..n], j) + (if path[n].1 == j then {n} else {})
  {
    var n := |path| - 1;
    assert forall l :: 0 <= l < n ==> path[..n][l] == path[l];
  }

  /** `computeUserCloseness`: for each user index, the score against the benchmark value at
      position ⌊k/2⌋ of its k mapped benchmark indices, or 100 when no pair maps to it. */
  function UserCloseness(bench: seq<real>, user: seq<real>, path: seq<(nat, nat)>): (r: seq<real>)
    requires forall k :: 0 <= k < |path| ==> path[k].0 < |bench|
    ensures |r| == |user|
    ensures forall j :: 0 <= j < |r| ==> 0.0 <= r[j] <= 100.0
    ensures forall j :: 0 <= j < |r| && !ColumnVisited(path, j) ==> r[j] == 100.0
    ensures forall j :: 0 <= j < |r| ==> r[j] == ScoreAt(bench, user, path, j)
  {
    seq(|user|, j requires 0 <= j < |user| => ScoreAt(bench, user, path, j))
  }

  /** The score of one user index: 100 when no pair maps to it, otherwise the point score
      against the benchmark value at the middle (upper middle for an even count) of its mapped
      indices. */
  function ScoreAt(bench: seq<real>, user: seq<real>, path: seq<(nat, nat)>, j: nat): (r: real)
    requires j < |user|
    requires forall k :: 0 <= k < |path| ==> path[k].0 < |bench|
    ensures 0.0 <= r <= 100.0
    ensures |Mapped(path, j)| == 0 ==> r == 100.0
    ensures |Mapped(path, j)| > 0 ==>
              && Mapped(path, j)[|Mapped(path, j)| / 2] < |bench|
              && r == PointScore(user[j], bench[Mapped(path, j)[|Mapped(path, j)| / 2]])
  {
    var l := Mapped(path, j);
    if |l| == 0 then 100.0
    else
      var mid := l[|l| / 2];
      assert exists p :: 0 <= p < |path| && path[p] == (mid, j);
      PointScore(user[j], bench[mid])
  }

  predicate Ascending(s: seq<nat>)
  {
    forall a, b :: 0 <= a < b < |s| ==> s[a] < s[b]
  }

  /** On a unit-step path the benchmark indices mapped to one user index strictly increase. */
  lemma {:induction false} MappedAscending(path: seq<(nat, nat)>, j: nat)
    requires UnitSteps(path)
    ensures Ascending(Mapped(path, j))
  {
    if |path| > 0 {
      var front := path[..|path| - 1];
      var last := path[|path| - 1];
      assert forall l :: 0 <= l < |front| ==> front[l] == path[l];
      assert UnitSteps(front) by {
        forall k | 0 < k < |front|
          ensures UnitStep(front[k - 1], front[k])
        {
          assert UnitStep(path[k - 1], path[k]);
        }
      }
      MappedAscending(front, j);
      var before := Mapped(front, j);

      if last.1 == j {
        forall k | 0 <= k < |before|
          ensures before[k] < last.0
        {
          var l :| 0 <= l < |front| && front[l] == (before[k], j);
          UnitStepsMonotone(path, l, |path| - 1);
        }
        var r := Mapped(path, j);
        assert r == before + [last.0];
        forall a, b | 0 <= a < b < |r|
          ensures r[a] < r[b]
        {
          assert r[a] == before[a];
          if b < |before| {
            assert r[b] == before[b];
          } else {
            assert r[b] == last.0;
          }
        }
      } else {
        assert Mapped(path, j) == before;
      }
    }
  }

  /** For a user index paired with an even number 2h of benchmark indices, the score is taken
      against the upper of the two middle ones: entry h, the larger benchmark index, not entry
      h - 1. */
  lemma UpperMiddle(bench: seq<real>, user: seq<real>, path: seq<(nat, nat)>, j: nat)
    requires UnitSteps(path)
    requires forall k :: 0 <= k < |path| ==> path[k].0 < |bench|
    requires j < |user|
    ensures var l := Mapped(path, j);
            |l| >= 2 && |l| % 2 == 0 ==>
              && l[|l| / 2 - 1] < l[|l| / 2] < |bench|
              && UserCloseness(bench, user, path)[j] == PointScore(user[j], bench[l[|l| / 2]])
  {
    MappedAscending(path, j);
  }

  /** On the path `dtw` returns, every user index is paired with some benchmark index, so the
      default score of 100 for an unmapped index never applies. */
  lemma DefaultBranchUnreachable(bench: seq<real>, user: seq<real>, j: nat)
    requires |bench| > 0 && j < |user|
    ensures |Mapped(Dtw(bench, user).path, j)| > 0
  {
    PathVisitsEveryIndex(bench, user);
  }

  /** A shot compared with itself scores 100 everywhere, even though the warping path need
      not be the diagonal. */
  lemma IdenticalSeriesScoreFull(A: seq<real>)
    requires |A| > 0
    ensures var r := UserCloseness(A, A, Dtw(A, A).path);
            forall j :: 0 <= j < |r| ==> r[j] == 100.0
  {
    var p := Dtw(A, A).path;
    DistanceToSelf(A);
    ZeroCostPairsEqual(A, A, p);
    var r := UserCloseness(A, A, p);
    forall j | 0 <= j < |r|
      ensures r[j] == 100.0
    {
      var l := Mapped(p, j);
      if |l| > 0 {
        var q :| 0 <= q < |p| && p[q] == (l[|l| / 2], j);
        assert A[l[|l| / 2]] == A[j];
      }
    }
  }

  /** A benchmark [10, 20] against a user shot [15, 25] is aligned on the diagonal and scores
      90 at both samples. */
  lemma UniformOffsetExample()
    ensures UserCloseness([10.0, 20.0], [15.0, 25.0], Dtw([10.0, 20.0], [15.0, 25.0]).path) == [90.0, 90.0]
  {
    OffsetPathIsDiagonal();
    DiagonalCloseness();
  }

  lemma OffsetPathIsDiagonal()
    ensures Dtw([10.0, 20.0], [15.0, 25.0]).path == [(0, 0), (1, 1)]
  {
    var A, B := [10.0, 20.0], [15.0, 25.0];
    AccUnfold(A, B, 1, 1);
    AccUnfold(A, B, 1, 2);
    AccUnfold(A, B, 2, 1);
    assert Acc(A, B, 1, 1) == Finite(5.0);
    assert Acc(A, B, 1, 2) == Finite(20.0);
    assert Acc(A, B, 2, 1) == Finite(10.0);
    assert Next(A, B, 2, 2) == (1, 1);
    assert Next(A, B, 1, 1) == (0, 0);
  }

  lemma DiagonalCloseness()
    ensures UserCloseness([10.0, 20.0], [15.0, 25.0], [(0, 0), (1, 1)]) == [90.0, 90.0]
  {
    var p: seq<(nat, nat)> := [(0, 0), (1, 1)];
    assert Mapped(p, 0) == [0] by {
      assert p[..1][..0] == [];
    }
    assert Mapped(p, 1) == [1] by {
      assert p[..1][..0] == [];
    }
  }
}
