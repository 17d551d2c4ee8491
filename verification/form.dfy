/** The per-frame form value (`computeOverallForm`) and the form series of a captured shot
    (`extractFormSeries`): the mean of whichever joint angles are defined, and the frames that
    have one. */
module Form {
  import opened Basics
  import opened Landmarks
  import opened Capture

  /** The defined angles among elbow, wrist and arm, in that order: the array the source
      pushes into before averaging. */
  function DefinedAngles(e: Option<real>, w: Option<real>, a: Option<real>): (r: seq<real>)
    ensures |r| <= 3
    ensures |r| == 0 <==> e.None? && w.None? && a.None?
    ensures e.Some? && w.None? && a.None? ==> r == [e.value]
    ensures e.None? && w.Some? && a.None? ==> r == [w.value]
    ensures e.None? && w.None? && a.Some? ==> r == [a.value]
    ensures forall k :: 0 <= k < |r| ==> Among(r[k], e, w, a)
  {
    var de := if e.Some? then [e.value] else [];
    var dw := if w.Some? then [w.value] else [];
    var da := if a.Some? then [a.value] else [];
    assert forall k :: 0 <= k < |de| ==> Among(de[k], e, w, a);
    assert forall k :: 0 <= k < |dw| ==> Among(dw[k], e, w, a);
    assert forall k :: 0 <= k < |da| ==> Among(da[k], e, w, a);
    de + dw + da
  }

  /** x is one of the defined angles. */
  predicate Among(x: real, e: Option<real>, w: Option<real>, a: Option<real>)
  {
    (e.Some? && x == e.value) || (w.Some? && x == w.value) || (a.Some? && x == a.value)
  }

  /** `computeOverallForm`: null when no angle is defined, otherwise the mean of the defined
      angles. */
  function OverallForm(e: Option<real>, w: Option<real>, a: Option<real>): (r: Option<real>)
    ensures r.None? <==> e.None? && w.None? && a.None?
    ensures e.Some? && w.None? && a.None? ==> r == e
    ensures e.None? && w.Some? && a.None? ==> r == w
    ensures e.None? && w.None? && a.Some? ==> r == a
    ensures e.Some? && w.Some? && a.None? ==> r == Some((e.value + w.value) / 2.0)
    ensures e.Some? && w.None? && a.Some? ==> r == Some((e.value + a.value) / 2.0)
    ensures e.None? && w.Some? && a.Some? ==> r == Some((w.value + a.value) / 2.0)
    ensures e.Some? && w.Some? && a.Some? ==> r == Some((e.value + w.value + a.value) / 3.0)
  {
    var d := DefinedAngles(e, w, a);
    if |d| == 0 then None
    else
      MeanOfDefined(e, w, a);
      Some(Sum(d) / |d| as real)
  }

  lemma SumOfOne(s: seq<real>)
    ensures |s| == 1 ==> Sum(s) == s[0]
  {
    if |s| == 1 {
      assert s[..0] == [];
    }
  }

  /** The mean of two or three defined angles, written out. */
  lemma MeanOfDefined(e: Option<real>, w: Option<real>, a: Option<real>)
    ensures var d := DefinedAngles(e, w, a);
            && (e.Some? && w.None? && a.None? ==> Sum(d) / |d| as real == e.value)
            && (e.None? && w.Some? && a.None? ==> Sum(d) / |d| as real == w.value)
            && (e.None? && w.None? && a.Some? ==> Sum(d) / |d| as real == a.value)
            && (e.Some? && w.Some? && a.None? ==> Sum(d) / |d| as real == (e.value + w.value) / 2.0)
            && (e.Some? && w.None? && a.Some? ==> Sum(d) / |d| as real == (e.value + a.value) / 2.0)
            && (e.None? && w.Some? && a.Some? ==> Sum(d) / |d| as real == (w.value + a.value) / 2.0)
            && (e.Some? && w.Some? && a.Some? ==> Sum(d) / |d| as real == (e.value + w.value + a.value) / 3.0)
  {
    var d := DefinedAngles(e, w, a);
    SumOfOne(d);
    SumOfFew(d);
    if |d| == 1 {
      assert |d| as real == 1.0;
    } else if e.Some? && w.Some? && a.None? {
      assert d == [e.value, w.value];
    } else if e.Some? && w.None? && a.Some? {
      assert d == [e.value, a.value];
    } else if e.None? && w.Some? && a.Some? {
      assert d == [w.value, a.value];
    } else if e.Some? && w.Some? && a.Some? {
      assert d == [e.value, w.value, a.value];
    }
  }

  lemma SumOfFew(s: seq<real>)
    ensures |s| == 2 ==> Sum(s) == s[0] + s[1]
    ensures |s| == 3 ==> Sum(s) == s[0] + s[1] + s[2]
  {
    if |s| == 2 {
      SumOfOne(s[..1]);
    } else if |s| == 3 {
      SumOfOne(s[..1]);
      assert s[..2][..1] == s[..1];
    }
  }

  /** The form value of one recorded frame. */
  function RecordForm(x: Record): Option<real>
  {
    OverallForm(x.angles.elbow, x.angles.wrist, x.angles.arm)
  }

  /** An angle that is either absent or lies in [lo, hi]. */
  predicate Within(x: Option<real>, lo: real, hi: real)
  {
    x.Some? ==> lo <= x.value <= hi
  }

  lemma DivideWithin(s: real, k: real, lo: real, hi: real)
    requires k > 0.0 && k * lo <= s <= k * hi
    ensures lo <= s / k <= hi
  {
    assert s / k - lo == (s - k * lo) / k;
    assert hi - s / k == (k * hi - s) / k;
  }

  /** The mean lies between the smallest and the largest defined angle: whenever every
      defined angle lies in [lo, hi], so does the form value. */
  lemma FormWithinAngles(e: Option<real>, w: Option<real>, a: Option<real>, lo: real, hi: real)
    requires Within(e, lo, hi) && Within(w, lo, hi) && Within(a, lo, hi)
    ensures var r := OverallForm(e, w, a);
            r.Some? ==> lo <= r.value <= hi
  {
    var d := DefinedAngles(e, w, a);
    if |d| > 0 {
      forall k | 0 <= k < |d|
        ensures lo <= d[k] <= hi
      {
        assert Among(d[k], e, w, a);
      }
      SumWithin(d, lo, hi);
      DivideWithin(Sum(d), |d| as real, lo, hi);
      assert OverallForm(e, w, a) == Some(Sum(d) / |d| as real);
    }
  }

  /** A sum of values in [lo, hi] lies between |s| * lo and |s| * hi. */
  lemma {:induction false} SumWithin(s: seq<real>, lo: real, hi: real)
    requires forall k :: 0 <= k < |s| ==> lo <= s[k] <= hi
    ensures |s| as real * lo <= Sum(s) <= |s| as real * hi
  {
    if |s| > 0 {
      SumWithin(s[..|s| - 1], lo, hi);
      assert |s| as real * lo == (|s| - 1) as real * lo + lo;
      assert |s| as real * hi == (|s| - 1) as real * hi + hi;
    }
  }

  /** The output of `extractFormSeries`: parallel arrays of times and form values. */
  datatype FormSeries = FormSeries(times: seq<real>, values: seq<real>)

  /** The indices of the frames that have a form value, in frame order. */
  function KeptIndices(shot: seq<Record>): (r: seq<nat>)
    ensures |r| <= |shot|
    ensures forall k :: 0 <= k < |r| ==> r[k] < |shot| && RecordForm(shot[r[k]]).Some?
    ensures forall k, l :: 0 <= k < l < |r| ==> r[k] < r[l]
    ensures forall j :: 0 <= j < |shot| && RecordForm(shot[j]).Some? ==> j in r
  {
    if |shot| == 0 then []
    else
      var front := shot[..|shot| - 1];
      var before := KeptIndices(front);
      assert forall j :: 0 <= j < |front| ==> front[j] == shot[j];
      if RecordForm(shot[|shot| - 1]).Some? then before + [|shot| - 1] else before
  }

  /** `extractFormSeries`: for each frame with a form value, its time and that value, in
      frame order. */
  function ExtractFormSeries(shot: seq<Record>): (r: FormSeries)
    ensures |r.times| == |r.values| <= |shot|
  {
    if |shot| == 0 then FormSeries([], [])
    else
      var before := ExtractFormSeries(shot[..|shot| - 1]);
      var last := shot[|shot| - 1];
      var m := RecordForm(last);
      if m.Some? then FormSeries(before.times + [last.time], before.values + [m.value]) else before
  }

  /** The k-th entry of the series is the form value and time of the k-th kept frame: the
      series keeps exactly the frames with a form value, in order. */
  lemma {:induction false} SeriesFollowsKept(shot: seq<Record>)
    ensures var r := ExtractFormSeries(shot);
            var idx := KeptIndices(shot);
            && |r.times| == |idx|
            && forall k :: 0 <= k < |idx| ==>
                 r.times[k] == shot[idx[k]].time && RecordForm(shot[idx[k]]) == Some(r.values[k])
  {
    if |shot| > 0 {
      var front := shot[..|shot| - 1];
      SeriesFollowsKept(front);
      var r := ExtractFormSeries(shot);
      var idx := KeptIndices(shot);
      var rf := ExtractFormSeries(front);
      var bf := KeptIndices(front);
      var last := shot[|shot| - 1];
      if RecordForm(last).Some? {
        assert r == FormSeries(rf.times + [last.time], rf.values + [RecordForm(last).value]);
        assert idx == bf + [|shot| - 1];
        forall k | 0 <= k < |idx|
          ensures r.times[k] == shot[idx[k]].time && RecordForm(shot[idx[k]]) == Some(r.values[k])
        {
          if k < |bf| {
            assert idx[k] == bf[k] && r.times[k] == rf.times[k] && r.values[k] == rf.values[k];
            assert shot[bf[k]] == front[bf[k]];
          }
        }
      } else {
        assert r == rf && idx == bf;
        forall k | 0 <= k < |idx|
          ensures r.times[k] == shot[idx[k]].time && RecordForm(shot[idx[k]]) == Some(r.values[k])
        {
          assert shot[bf[k]] == front[bf[k]];
        }
      }
    }
  }

  /** A frame is dropped from the series exactly when none of its angles is defined. */
  lemma DroppedFrames(shot: seq<Record>, j: nat)
    requires j < |shot|
    ensures j in KeptIndices(shot) <==>
            shot[j].angles.elbow.Some? || shot[j].angles.wrist.Some? || shot[j].angles.arm.Some?
  {
  }

  /** Strictly increasing frame times give strictly increasing series times. */
  lemma SeriesTimesIncrease(shot: seq<Record>)
    requires forall i, j :: 0 <= i < j < |shot| ==> shot[i].time < shot[j].time
    ensures var t := ExtractFormSeries(shot).times;
            forall k, l :: 0 <= k < l < |t| ==> t[k] < t[l]
  {
    SeriesFollowsKept(shot);
  }
}
