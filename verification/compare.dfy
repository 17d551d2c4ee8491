/** `compareShots`: form series of both shots, the warping path between them, the closeness
    of every user sample, and the feedback list. The first browser copy builds the full
    feedback; the second one only the score line and its band. */
module Compare {
  import opened Basics
  import opened Capture
  import opened Form
  import opened Warping
  import opened Closeness
  import opened Feedback

  /** Which browser copy builds the feedback: the full rule set, or score and band only. */
  datatype Variant = Full | Brief

  /** What `compareShots` hands to `displayResults`, or the early exit when a shot has fewer
      than two form samples. */
  datatype Comparison =
    | InsufficientData
    | Compared(benchTimes: seq<real>, userTimes: seq<real>, closeness: seq<real>, feedback: seq<Item>)

  /** A shot has enough data when at least two of its frames have a form value. */
  predicate Enough(shot: seq<Record>)
  {
    |KeptIndices(shot)| >= 2
  }

  /** The closeness of the user series against the benchmark series along their warping
      path. */
  function SeriesCloseness(bench: FormSeries, user: FormSeries): (r: seq<real>)
    ensures |r| == |user.values|
    ensures forall j :: 0 <= j < |r| ==> 0.0 <= r[j] <= 100.0
  {
    UserCloseness(bench.values, user.values, Dtw(bench.values, user.values).path)
  }

  function CompareShots(variant: Variant, benchShot: seq<Record>, userShot: seq<Record>): (r: Comparison)
    ensures r.InsufficientData? <==> !Enough(benchShot) || !Enough(userShot)
    ensures r.Compared? ==>
              && |r.closeness| == |r.userTimes| == |KeptIndices(userShot)|
              && |r.benchTimes| == |KeptIndices(benchShot)|
              && (forall j :: 0 <= j < |r.closeness| ==> 0.0 <= r.closeness[j] <= 100.0)
              && |r.feedback| >= 2
              && r.feedback[0].ScoreLine? && r.feedback[0].average.Some?
              && 0.0 <= r.feedback[0].average.value <= 100.0
              && r.feedback[1] == Rating(BandOf(r.feedback[0].average))
              && (variant == Brief ==> |r.feedback| == 2)
              && (variant == Full ==> |r.feedback| <= 13)
  {
    var bf := ExtractFormSeries(benchShot);
    var uf := ExtractFormSeries(userShot);
    SeriesFollowsKept(benchShot);
    SeriesFollowsKept(userShot);
    if |bf.times| < 2 || |uf.times| < 2 then InsufficientData
    else
      var closeness := SeriesCloseness(bf, uf);
      MeanWithin(closeness, 0.0, 100.0);
      Compared(bf.times, uf.times, closeness, FeedbackFor(variant, benchShot, userShot, bf.times, uf.times, closeness))
  }

  /** The feedback list each browser copy builds. */
  function FeedbackFor(variant: Variant, benchShot: seq<Record>, userShot: seq<Record>,
                       benchTimes: seq<real>, userTimes: seq<real>, closeness: seq<real>): (r: seq<Item>)
    ensures 2 <= |r| && r[0] == ScoreLine(Mean(closeness)) && r[1] == Rating(BandOf(Mean(closeness)))
    ensures variant == Brief ==> |r| == 2
    ensures variant == Full ==> |r| <= 13
  {
    if variant == Full then GenerateFeedback(benchShot, userShot, benchTimes, userTimes, closeness)
    else BriefFeedback(closeness)
  }

  /** A shot compared with itself scores 100 at every sample, although the path dtw picks
      for it need not be the diagonal. */
  lemma SelfCloseness(shot: seq<Record>)
    requires Enough(shot)
    ensures var s := ExtractFormSeries(shot);
            var r := SeriesCloseness(s, s);
            |r| >= 2 && forall j :: 0 <= j < |r| ==> r[j] == 100.0
  {
    SeriesFollowsKept(shot);
    var s := ExtractFormSeries(shot);
    IdenticalSeriesScoreFull(s.values);
  }

  /** With enough data on both sides the comparison is the series closeness and the
      feedback of the copy in use. */
  lemma ComparedParts(variant: Variant, benchShot: seq<Record>, userShot: seq<Record>)
    requires Enough(benchShot) && Enough(userShot)
    ensures var bf := ExtractFormSeries(benchShot);
            var uf := ExtractFormSeries(userShot);
            var closeness := SeriesCloseness(bf, uf);
            CompareShots(variant, benchShot, userShot)
            == Compared(bf.times, uf.times, closeness, FeedbackFor(variant, benchShot, userShot, bf.times, uf.times, closeness))
  {
    SeriesFollowsKept(benchShot);
    SeriesFollowsKept(userShot);
  }

  /** Comparing a shot with itself gives scores of 100 everywhere, the score line of 100 and
      the top band. */
  lemma SelfComparison(variant: Variant, shot: seq<Record>)
    requires Enough(shot)
    ensures var r := CompareShots(variant, shot, shot);
            && r.Compared?
            && (forall j :: 0 <= j < |r.closeness| ==> r.closeness[j] == 100.0)
            && r.feedback[0] == ScoreLine(Some(100.0)) && r.feedback[1] == Rating(Excellent)
  {
    SelfCloseness(shot);
    ComparedParts(variant, shot, shot);
    var s := ExtractFormSeries(shot);
    var closeness := SeriesCloseness(s, s);
    EqualScoresAreConsistent(closeness, 100.0);
    var feedback := FeedbackFor(variant, shot, shot, s.times, s.times, closeness);
    assert feedback[0] == ScoreLine(Some(100.0));
    assert BandOf(Some(100.0)) == Excellent;
  }

  /** In the full copy, a shot compared with itself gets exactly the score line, the top band,
      the praise and the tip. */
  lemma SelfComparisonFull(shot: seq<Record>)
    requires Enough(shot)
    ensures CompareShots(Full, shot, shot).feedback == [ScoreLine(Some(100.0)), Rating(Excellent), Praise, Tip]
  {
    SelfCloseness(shot);
    ComparedParts(Full, shot, shot);
    var s := ExtractFormSeries(shot);
    var closeness := SeriesCloseness(s, s);
    SelfFeedback(shot, s.times, closeness);
  }

  /** The checkpoint indices computed from the form series always land inside the raw shot
      records, so `getEventAngles` never falls back to its null angles during a comparison. */
  lemma CheckpointsInsideShot(benchShot: seq<Record>, userShot: seq<Record>, c: Checkpoint)
    requires Enough(benchShot) && Enough(userShot)
    ensures var bt := ExtractFormSeries(benchShot).times;
            var ut := ExtractFormSeries(userShot).times;
            && |bt| >= 2 && |ut| >= 2
            && EventAngles(benchShot, bt, c) == benchShot[EventIndex(c, |bt|)].angles
            && EventAngles(userShot, ut, c) == userShot[EventIndex(c, |ut|)].angles
  {
    SeriesFollowsKept(benchShot);
    SeriesFollowsKept(userShot);
    EventAnglesReadShot(benchShot, c);
    EventAnglesReadShot(userShot, c);
  }
}
