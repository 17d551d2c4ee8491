/** `generateFeedback` and `getEventAngles`: threshold rules that turn the closeness scores and
    the angles at four checkpoints of the two shots into a list of feedback items. An item is
    a tagged value; the wording of the messages is not modelled. */
module Feedback {
  import opened Basics
  import opened Landmarks
  import opened Capture
  import opened Form

  /** The band of the overall score. */
  datatype Band = Excellent | Good | NeedsWork | Significant

  datatype Pace = Slower | Faster

  /** The four checkpoints, in the order the source visits them. */
  datatype Checkpoint = StartEvent | BallSetEvent | ReleaseEvent | FollowThroughEvent

  /** What a checkpoint rule complains about. */
  datatype Fault =
    | WeakWristSnap | WristOverExtended | ElbowCollapsed | ArmTooStraight
    | WristTooBent | WristNotBentEnough | ChickenWing | ElbowTooTucked
    | ElbowFlaring | ElbowNotTucked | WristNotCocked
    | ElbowTooWide | ElbowTooStraight | StanceMisaligned

  /** The order in which the rules of a checkpoint are tested: wrist before elbow at Follow
      Through and Release, elbow before wrist at Ball Set, elbow before arm at Start. */
  function FaultRank(f: Fault): nat
  {
    match f
    case WeakWristSnap => 0
    case WristOverExtended => 1
    case ElbowCollapsed => 2
    case ArmTooStraight => 3
    case WristTooBent => 4
    case WristNotBentEnough => 5
    case ChickenWing => 6
    case ElbowTooTucked => 7
    case ElbowFlaring => 8
    case ElbowNotTucked => 9
    case WristNotCocked => 10
    case ElbowTooWide => 11
    case ElbowTooStraight => 12
    case StanceMisaligned => 13
  }

  /** Issues listed in rule order, each fault at most once. */
  predicate InFaultOrder(s: seq<Item>)
  {
    && (forall k :: 0 <= k < |s| ==> s[k].Issue?)
    && (forall k, l :: 0 <= k < l < |s| ==> FaultRank(s[k].fault) < FaultRank(s[l].fault))
  }

  /** The third of the shot the worst score falls in: Start/Ball Set, Release, Follow Through. */
  datatype Bucket = EarlyPhase | MiddlePhase | LatePhase

  datatype SnapAdvice = SnapHarder | SnapSofter

  /** One feedback line. */
  datatype Item =
    | ScoreLine(average: Option<real>)
    | Rating(band: Band)
    | Timing(pace: Pace, percent: real)
    | Issue(checkpoint: Checkpoint, fault: Fault)
    | WorstPhase(bucket: Bucket, score: real)
    | Inconsistent
    | WristSnap(snap: SnapAdvice)
    | Praise
    | Tip

  /** The mean closeness; JavaScript divides by zero for an empty list and gets NaN, which the
      model writes as None. */
  function Mean(s: seq<real>): (r: Option<real>)
    ensures r.None? <==> |s| == 0
    ensures r.Some? ==> r.value * |s| as real == Sum(s)
  {
    if |s| == 0 then None else Some(Sum(s) / |s| as real)
  }

  /** The mean of scores that all lie in [lo, hi] lies in [lo, hi]. */
  lemma MeanWithin(s: seq<real>, lo: real, hi: real)
    requires forall k :: 0 <= k < |s| ==> lo <= s[k] <= hi
    ensures Mean(s).Some? ==> lo <= Mean(s).value <= hi
  {
    if |s| > 0 {
      SumWithin(s, lo, hi);
      DivideWithin(Sum(s), |s| as real, lo, hi);
    }
  }

  /** The band of the mean: 90, 75 and 60 are the lower bounds of the first three bands; NaN
      fails every comparison and lands in the last band. */
  function BandOf(avg: Option<real>): (r: Band)
    ensures r == Excellent <==> avg.Some? && avg.value >= 90.0
    ensures r == Good <==> avg.Some? && 75.0 <= avg.value < 90.0
    ensures r == NeedsWork <==> avg.Some? && 60.0 <= avg.value < 75.0
    ensures r == Significant <==> avg.None? || avg.value < 60.0
  {
    if avg.Some? && avg.value >= 90.0 then Excellent
    else if avg.Some? && avg.value >= 75.0 then Good
    else if avg.Some? && avg.value >= 60.0 then NeedsWork
    else Significant
  }

  function BandRank(b: Band): nat
  {
    match b
    case Significant => 0
    case NeedsWork => 1
    case Good => 2
    case Excellent => 3
  }

  /** A higher mean never gets a lower band. */
  lemma BandMonotone(x: real, y: real)
    requires x <= y
    ensures BandRank(BandOf(Some(x))) <= BandRank(BandOf(Some(y)))
  {
  }

  /** Elapsed time from the first to the last sample. */
  function Duration(times: seq<real>): real
    requires |times| > 0
  {
    times[|times| - 1] - times[0]
  }

  /** The timing item: when both series have two or more samples and positive durations, the
      signed relative difference `(user - bench) / bench * 100`, reported when its magnitude
      exceeds 10. */
  function TimingSection(benchTimes: seq<real>, userTimes: seq<real>): (r: seq<Item>)
    ensures |r| <= 1
    ensures |r| == 1 <==>
              && |benchTimes| > 1 && |userTimes| > 1
              && Duration(benchTimes) > 0.0 && Duration(userTimes) > 0.0
              && Abs(Duration(userTimes) - Duration(benchTimes)) * 10.0 > Duration(benchTimes)
    ensures |r| == 1 ==> r[0].Timing? && (r[0].pace == Slower <==> Duration(userTimes) > Duration(benchTimes))
    ensures |r| == 1 ==> r[0].percent > 10.0
    ensures |r| == 1 ==> r[0].percent * Duration(benchTimes) == Abs(Duration(userTimes) - Duration(benchTimes)) * 100.0
  {
    if |benchTimes| > 1 && |userTimes| > 1 then
      var benchDuration := Duration(benchTimes);
      var userDuration := Duration(userTimes);
      if benchDuration > 0.0 && userDuration > 0.0 then
        var pct := (userDuration - benchDuration) / benchDuration * 100.0;
        PercentThreshold(userDuration, benchDuration);
        if Abs(pct) > 10.0 then [Timing(if pct > 0.0 then Slower else Faster, Abs(pct))] else []
      else []
    else []
  }

  /** The relative difference is positive exactly when the user's shot is longer, and exceeds
      10% in magnitude exactly when the absolute difference exceeds a tenth of the benchmark's
      duration. */
  lemma PercentThreshold(u: real, b: real)
    requires b > 0.0
    ensures var pct := (u - b) / b * 100.0;
            && (pct > 0.0 <==> u > b)
            && (Abs(pct) > 10.0 <==> Abs(u - b) * 10.0 > b)
            && Abs(pct) * b == Abs(u - b) * 100.0
  {
    var pct := (u - b) / b * 100.0;
    assert pct * b == (u - b) * 100.0;
    if pct < 0.0 {
      assert Abs(pct) * b == -(pct * b);
    }
    QuotientCompare(u - b, b, 0.0);
    QuotientCompare(u - b, b, 0.1);
    QuotientCompare(u - b, b, -0.1);
  }

  /** `getEventAngles`' index into a series of n >= 1 samples: first, ⌊n/3⌋, ⌊2n/3⌋, last. */
  function EventIndex(c: Checkpoint, n: nat): (r: nat)
    requires n > 0
    ensures r < n
    ensures c == StartEvent ==> r == 0
    ensures c == BallSetEvent ==> 3 * r <= n < 3 * r + 3
    ensures c == ReleaseEvent ==> 3 * r <= 2 * n < 3 * r + 3
    ensures c == FollowThroughEvent ==> r == n - 1
  {
    match c
    case StartEvent => 0
    case BallSetEvent => n / 3
    case ReleaseEvent => (2 * n) / 3
    case FollowThroughEvent => n - 1
  }

  /** The four checkpoint indices never go backwards through the series. */
  lemma EventIndicesOrdered(n: nat)
    requires n > 0
    ensures EventIndex(StartEvent, n) <= EventIndex(BallSetEvent, n)
            <= EventIndex(ReleaseEvent, n) <= EventIndex(FollowThroughEvent, n)
  {
  }

  /** `getEventAngles`: the angles of the raw shot record at the checkpoint's index into the
      form series; no angles when either is empty or the index is past the end of the shot. */
  function EventAngles(shot: seq<Record>, times: seq<real>, c: Checkpoint): (r: Angles)
    ensures |times| == 0 || |shot| == 0 ==> r == NoAngles()
  {
    if |times| == 0 || |shot| == 0 then NoAngles()
    else
      var idx := EventIndex(c, |times|);
      if idx < |shot| then shot[idx].angles else NoAngles()
  }

  /** The form series never has more samples than the shot has records, so the index always
      falls inside the shot and the result is that record's angles. */
  lemma EventAnglesReadShot(shot: seq<Record>, c: Checkpoint)
    requires |KeptIndices(shot)| > 0
    ensures var times := ExtractFormSeries(shot).times;
            && |times| > 0
            && EventAngles(shot, times, c) == shot[EventIndex(c, |times|)].angles
  {
    SeriesFollowsKept(shot);
  }

  /** The gap between two optional angles; 0 unless both are defined. */
  function Gap(u: Option<real>, b: Option<real>): (r: real)
    ensures r >= 0.0
    ensures u.Some? && b.Some? ==> r == Abs(u.value - b.value)
    ensures u.None? || b.None? ==> r == 0.0
  {
    if u.Some? && b.Some? then Abs(u.value - b.value) else 0.0
  }

  /** The follow-through rules, written as the nested tests of the source. Each fault fires
      exactly when the user's angle is more than 10 degrees off the benchmark in its
      direction: the inner `+ 5` / `- 5` tests never hold back an issue the outer test let
      through. */
  function FollowThroughIssues(bench: Angles, user: Angles): (r: seq<Item>)
    requires bench.elbow.Some? && user.elbow.Some?
    ensures |r| <= 2
    ensures forall k :: 0 <= k < |r| ==> r[k].Issue? && r[k].checkpoint == FollowThroughEvent
    ensures InFaultOrder(r)
    ensures Issue(FollowThroughEvent, WeakWristSnap) in r <==>
              user.wrist.Some? && bench.wrist.Some? && user.wrist.value > bench.wrist.value + 10.0
    ensures Issue(FollowThroughEvent, WristOverExtended) in r <==>
              user.wrist.Some? && bench.wrist.Some? && user.wrist.value < bench.wrist.value - 10.0
    ensures Issue(FollowThroughEvent, ElbowCollapsed) in r <==> user.elbow.value > bench.elbow.value + 10.0
    ensures Issue(FollowThroughEvent, ArmTooStraight) in r <==> user.elbow.value < bench.elbow.value - 10.0
  {
    var elbowDiff := Abs(user.elbow.value - bench.elbow.value);
    var wristDiff := Gap(user.wrist, bench.wrist);
    var wrist :=
      if user.wrist.Some? && bench.wrist.Some? && wristDiff > 10.0 then
        if user.wrist.value > bench.wrist.value + 5.0 then [Issue(FollowThroughEvent, WeakWristSnap)]
        else if user.wrist.value < bench.wrist.value - 5.0 then [Issue(FollowThroughEvent, WristOverExtended)]
        else []
      else [];
    var elbow :=
      if elbowDiff > 10.0 then
        if user.elbow.value > bench.elbow.value + 5.0 then [Issue(FollowThroughEvent, ElbowCollapsed)]
        else if user.elbow.value < bench.elbow.value - 5.0 then [Issue(FollowThroughEvent, ArmTooStraight)]
        else []
      else [];
    wrist + elbow
  }

  /** The release rules: the wrist faults at more than 10 degrees, the elbow faults at more
      than 15 degrees, each in its direction. */
  function ReleaseIssues(bench: Angles, user: Angles): (r: seq<Item>)
    requires bench.elbow.Some? && user.elbow.Some?
    ensures |r| <= 2
    ensures forall k :: 0 <= k < |r| ==> r[k].Issue? && r[k].checkpoint == ReleaseEvent
    ensures InFaultOrder(r)
    ensures Issue(ReleaseEvent, WristTooBent) in r <==>
              user.wrist.Some? && bench.wrist.Some? && user.wrist.value > bench.wrist.value + 10.0
    ensures Issue(ReleaseEvent, WristNotBentEnough) in r <==>
              user.wrist.Some? && bench.wrist.Some? && user.wrist.value < bench.wrist.value - 10.0
    ensures Issue(ReleaseEvent, ChickenWing) in r <==> user.elbow.value > bench.elbow.value + 15.0
    ensures Issue(ReleaseEvent, ElbowTooTucked) in r <==> user.elbow.value < bench.elbow.value - 15.0
  {
    var elbowDiff := Abs(user.elbow.value - bench.elbow.value);
    var wristDiff := Gap(user.wrist, bench.wrist);
    var wrist :=
      if user.wrist.Some? && bench.wrist.Some? && wristDiff > 10.0 then
        if user.wrist.value > bench.wrist.value + 5.0 then [Issue(ReleaseEvent, WristTooBent)]
        else if user.wrist.value < bench.wrist.value - 5.0 then [Issue(ReleaseEvent, WristNotBentEnough)]
        else []
      else [];
    var elbow :=
      if elbowDiff > 15.0 then
        if user.elbow.value > bench.elbow.value + 10.0 then [Issue(ReleaseEvent, ChickenWing)]
        else if user.elbow.value < bench.elbow.value - 10.0 then [Issue(ReleaseEvent, ElbowTooTucked)]
        else []
      else [];
    wrist + elbow
  }

  /** The ball-set rules: an elbow more than 15 degrees off flares (user larger) or needs
      tucking (user smaller); a wrist more than 15 degrees off either way is not cocked. */
  function BallSetIssues(bench: Angles, user: Angles): (r: seq<Item>)
    requires bench.elbow.Some? && user.elbow.Some?
    ensures |r| <= 2
    ensures forall k :: 0 <= k < |r| ==> r[k].Issue? && r[k].checkpoint == BallSetEvent
    ensures InFaultOrder(r)
    ensures Issue(BallSetEvent, ElbowFlaring) in r <==> user.elbow.value > bench.elbow.value + 15.0
    ensures Issue(BallSetEvent, ElbowNotTucked) in r <==> user.elbow.value < bench.elbow.value - 15.0
    ensures Issue(BallSetEvent, WristNotCocked) in r <==>
              user.wrist.Some? && bench.wrist.Some? && Abs(user.wrist.value - bench.wrist.value) > 15.0
  {
    var elbowDiff := Abs(user.elbow.value - bench.elbow.value);
    var wristDiff := Gap(user.wrist, bench.wrist);
    var elbow :=
      if elbowDiff > 15.0 then
        if user.elbow.value > bench.elbow.value + 10.0 then [Issue(BallSetEvent, ElbowFlaring)]
        else [Issue(BallSetEvent, ElbowNotTucked)]
      else [];
    var wrist :=
      if user.wrist.Some? && bench.wrist.Some? && wristDiff > 15.0 then [Issue(BallSetEvent, WristNotCocked)] else [];
    elbow + wrist
  }

  /** The start rules: an elbow more than 15 degrees off is too wide (user larger) or too
      straight (user smaller); an arm angle more than 15 degrees off is a misaligned stance. */
  function StartIssues(bench: Angles, user: Angles): (r: seq<Item>)
    requires bench.elbow.Some? && user.elbow.Some?
    ensures |r| <= 2
    ensures forall k :: 0 <= k < |r| ==> r[k].Issue? && r[k].checkpoint == StartEvent
    ensures InFaultOrder(r)
    ensures Issue(StartEvent, ElbowTooWide) in r <==> user.elbow.value > bench.elbow.value + 15.0
    ensures Issue(StartEvent, ElbowTooStraight) in r <==> user.elbow.value < bench.elbow.value - 15.0
    ensures Issue(StartEvent, StanceMisaligned) in r <==>
              user.arm.Some? && bench.arm.Some? && Abs(user.arm.value - bench.arm.value) > 15.0
  {
    var elbowDiff := Abs(user.elbow.value - bench.elbow.value);
    var armDiff := Gap(user.arm, bench.arm);
    var elbow :=
      if elbowDiff > 15.0 then
        if user.elbow.value > bench.elbow.value + 10.0 then [Issue(StartEvent, ElbowTooWide)]
        else [Issue(StartEvent, ElbowTooStraight)]
      else [];
    var arm := if armDiff > 15.0 && user.arm.Some? then [Issue(StartEvent, StanceMisaligned)] else [];
    elbow + arm
  }

  /** The issues of one checkpoint: none unless both elbow angles are defined. */
  function CheckpointIssues(c: Checkpoint, bench: Angles, user: Angles): (r: seq<Item>)
    ensures |r| <= 2
    ensures forall k :: 0 <= k < |r| ==> r[k].Issue? && r[k].checkpoint == c
    ensures bench.elbow.None? || user.elbow.None? ==> r == []
    ensures bench.elbow.Some? && user.elbow.Some? ==>
              && (c == StartEvent ==> r == StartIssues(bench, user))
              && (c == BallSetEvent ==> r == BallSetIssues(bench, user))
              && (c == ReleaseEvent ==> r == ReleaseIssues(bench, user))
              && (c == FollowThroughEvent ==> r == FollowThroughIssues(bench, user))
  {
    if bench.elbow.None? || user.elbow.None? then []
    else
      match c
      case StartEvent => StartIssues(bench, user)
      case BallSetEvent => BallSetIssues(bench, user)
      case ReleaseEvent => ReleaseIssues(bench, user)
      case FollowThroughEvent => FollowThroughIssues(bench, user)
  }

  function CheckpointRank(c: Checkpoint): nat
  {
    match c
    case StartEvent => 0
    case BallSetEvent => 1
    case ReleaseEvent => 2
    case FollowThroughEvent => 3
  }

  /** Issues listed checkpoint by checkpoint, Start first. */
  predicate InCheckpointOrder(s: seq<Item>)
  {
    && (forall k :: 0 <= k < |s| ==> s[k].Issue?)
    && (forall a, b :: 0 <= a < b < |s| ==> CheckpointRank(s[a].checkpoint) <= CheckpointRank(s[b].checkpoint))
  }

  /** The checkpoint the source's loop visits at iteration i. */
  function CheckpointAt(i: nat): (r: Checkpoint)
    requires i < 4
    ensures CheckpointRank(r) == i
  {
    if i == 0 then StartEvent else if i == 1 then BallSetEvent else if i == 2 then ReleaseEvent else FollowThroughEvent
  }

  /** Issues of one checkpoint put before issues of the same or later checkpoints stay in
      order. */
  lemma PrependInOrder(t: seq<Item>, s: seq<Item>, c: Checkpoint)
    requires forall k :: 0 <= k < |t| ==> t[k].Issue? && t[k].checkpoint == c
    requires InCheckpointOrder(s)
    requires forall k :: 0 <= k < |s| ==> CheckpointRank(c) <= CheckpointRank(s[k].checkpoint)
    ensures InCheckpointOrder(t + s)
    ensures forall k :: 0 <= k < |t + s| ==> CheckpointRank(c) <= CheckpointRank((t + s)[k].checkpoint)
  {
    var u := t + s;
    forall k | 0 <= k < |u|
      ensures u[k].Issue? && CheckpointRank(c) <= CheckpointRank(u[k].checkpoint)
    {
      if k < |t| {
        assert u[k] == t[k];
      } else {
        assert u[k] == s[k - |t|];
      }
    }
    forall a, b | 0 <= a < b < |u|
      ensures CheckpointRank(u[a].checkpoint) <= CheckpointRank(u[b].checkpoint)
    {
      if b < |t| {
        assert u[a] == t[a] && u[b] == t[b];
      } else if a < |t| {
        assert u[a] == t[a] && u[b] == s[b - |t|];
      } else {
        assert u[a] == s[a - |t|] && u[b] == s[b - |t|];
      }
    }
  }

  /** The issues the rules raise at one checkpoint of the two shots. */
  function IssuesAt(c: Checkpoint, benchShot: seq<Record>, userShot: seq<Record>,
                    benchTimes: seq<real>, userTimes: seq<real>): (r: seq<Item>)
    ensures |r| <= 2
    ensures forall k :: 0 <= k < |r| ==> r[k].Issue? && r[k].checkpoint == c
  {
    CheckpointIssues(c, EventAngles(benchShot, benchTimes, c), EventAngles(userShot, userTimes, c))
  }

  /** The loop over the checkpoints from iteration i on. */
  function IssuesFrom(i: nat, benchShot: seq<Record>, userShot: seq<Record>,
                      benchTimes: seq<real>, userTimes: seq<real>): (r: seq<Item>)
    ensures i <= 4 ==> |r| <= 2 * (4 - i)
    ensures InCheckpointOrder(r)
    ensures forall k :: 0 <= k < |r| ==> i <= CheckpointRank(r[k].checkpoint)
    decreases 4 - i
  {
    if i >= 4 then []
    else
      var c := CheckpointAt(i);
      var head := IssuesAt(c, benchShot, userShot, benchTimes, userTimes);
      var rest := IssuesFrom(i + 1, benchShot, userShot, benchTimes, userTimes);
      PrependInOrder(head, rest, c);
      head + rest
  }

  /** The issues of all four checkpoints, Start, Ball Set, Release, Follow Through: in
      checkpoint order, and the issues tagged with each checkpoint are exactly the ones its
      rules raise. */
  function AllIssues(benchShot: seq<Record>, userShot: seq<Record>, benchTimes: seq<real>, userTimes: seq<real>): (r: seq<Item>)
    ensures |r| <= 8
    ensures InCheckpointOrder(r)
    ensures forall c :: Tagged(r, c) == IssuesAt(c, benchShot, userShot, benchTimes, userTimes)
  {
    assert forall c :: Tagged(IssuesFrom(0, benchShot, userShot, benchTimes, userTimes), c)
                       == IssuesAt(c, benchShot, userShot, benchTimes, userTimes) by {
      forall c
        ensures Tagged(IssuesFrom(0, benchShot, userShot, benchTimes, userTimes), c)
                == IssuesAt(c, benchShot, userShot, benchTimes, userTimes)
      {
        IssuesFromTagged(0, benchShot, userShot, benchTimes, userTimes, c);
      }
    }
    IssuesFrom(0, benchShot, userShot, benchTimes, userTimes)
  }

  /** The issues of a list tagged with checkpoint c, in list order. */
  function Tagged(s: seq<Item>, c: Checkpoint): (r: seq<Item>)
    ensures |r| <= |s|
    ensures forall k :: 0 <= k < |r| ==> r[k].Issue? && r[k].checkpoint == c
  {
    if |s| == 0 then []
    else (if s[0].Issue? && s[0].checkpoint == c then [s[0]] else []) + Tagged(s[1..], c)
  }

  lemma {:induction false} TaggedConcat(a: seq<Item>, b: seq<Item>, c: Checkpoint)
    ensures Tagged(a + b, c) == Tagged(a, c) + Tagged(b, c)
  {
    if |a| == 0 {
      assert a + b == b;
    } else {
      assert (a + b)[0] == a[0];
      assert (a + b)[1..] == a[1..] + b;
      TaggedConcat(a[1..], b, c);
    }
  }

  /** A list of issues all tagged with c keeps all of them under c and none under any other
      checkpoint. */
  lemma {:induction false} TaggedUniform(t: seq<Item>, c: Checkpoint, d: Checkpoint)
    requires forall k :: 0 <= k < |t| ==> t[k].Issue? && t[k].checkpoint == c
    ensures Tagged(t, d) == if c == d then t else []
  {
    if |t| > 0 {
      TaggedUniform(t[1..], c, d);
      if c == d {
        assert t == [t[0]] + t[1..];
      }
    }
  }

  /** The loop from iteration i on tags with each checkpoint it visits exactly that
      checkpoint's issues, and nothing with the checkpoints before i. */
  lemma {:induction false} IssuesFromTagged(i: nat, benchShot: seq<Record>, userShot: seq<Record>,
                                            benchTimes: seq<real>, userTimes: seq<real>, c: Checkpoint)
    ensures Tagged(IssuesFrom(i, benchShot, userShot, benchTimes, userTimes), c)
            == if i <= CheckpointRank(c) then IssuesAt(c, benchShot, userShot, benchTimes, userTimes) else []
    decreases 4 - i
  {
    if i >= 4 {
      assert CheckpointRank(c) < i;
    } else {
      var d := CheckpointAt(i);
      var head := IssuesAt(d, benchShot, userShot, benchTimes, userTimes);
      var rest := IssuesFrom(i + 1, benchShot, userShot, benchTimes, userTimes);
      assert IssuesFrom(i, benchShot, userShot, benchTimes, userTimes) == head + rest;
      TaggedStep(head, rest, d, c);
      IssuesFromTagged(i + 1, benchShot, userShot, benchTimes, userTimes, c);
      if d == c {
        assert i == CheckpointRank(c);
      }
    }
  }

  /** Issues of checkpoint d put in front of a list. */
  lemma TaggedStep(head: seq<Item>, rest: seq<Item>, d: Checkpoint, c: Checkpoint)
    requires forall k :: 0 <= k < |head| ==> head[k].Issue? && head[k].checkpoint == d
    ensures Tagged(head + rest, c) == (if d == c then head else []) + Tagged(rest, c)
  {
    TaggedConcat(head, rest, c);
    TaggedUniform(head, d, c);
  }

  /** `eventIssues.slice(0, 5)`. */
  function FirstFive(s: seq<Item>): (r: seq<Item>)
    ensures |r| <= 5 && |r| <= |s|
    ensures |r| == if |s| <= 5 then |s| else 5
    ensures forall k :: 0 <= k < |r| ==> r[k] == s[k]
  {
    if |s| <= 5 then s else s[..5]
  }

  /** `userCloseness.indexOf(Math.min(...userCloseness))`: the first position of the least
      score. */
  function FirstMinIndex(s: seq<real>): (r: nat)
    requires |s| > 0
    ensures r < |s|
    ensures forall k :: 0 <= k < |s| ==> s[r] <= s[k]
    ensures forall k :: 0 <= k < r ==> s[k] > s[r]
  {
    if |s| == 1 then 0
    else
      var m := FirstMinIndex(s[..|s| - 1]);
      assert forall k :: 0 <= k < |s| - 1 ==> s[..|s| - 1][k] == s[k];
      if s[|s| - 1] < s[m] then |s| - 1 else m
  }

  /** The third of the shot a position falls in, by `index / length` against 0.33 and 0.67. */
  function BucketOf(index: nat, length: nat): (r: Bucket)
    requires length > 0
    ensures r == EarlyPhase <==> 100 * index < 33 * length
    ensures r == MiddlePhase <==> 33 * length <= 100 * index < 67 * length
    ensures r == LatePhase <==> 67 * length <= 100 * index
  {
    var ratio := index as real / length as real;
    QuotientCompare(index as real, length as real, 0.33);
    QuotientCompare(index as real, length as real, 0.67);
    if ratio < 0.33 then EarlyPhase else if ratio < 0.67 then MiddlePhase else LatePhase
  }

  /** The worst-phase item: reported when the least score is below 70. */
  function WorstSection(closeness: seq<real>): (r: seq<Item>)
    ensures |r| <= 1
    ensures |r| == 1 <==> exists k :: 0 <= k < |closeness| && closeness[k] < 70.0
    ensures |r| == 1 ==> r[0].WorstPhase? && r[0].score < 70.0
                         && forall k :: 0 <= k < |closeness| ==> r[0].score <= closeness[k]
    ensures |r| == 1 ==> r[0].bucket == BucketOf(FirstMinIndex(closeness), |closeness|)
                         && r[0].score == closeness[FirstMinIndex(closeness)]
  {
    if |closeness| > 0 then
      var i := FirstMinIndex(closeness);
      if closeness[i] < 70.0 then [WorstPhase(BucketOf(i, |closeness|), closeness[i])] else []
    else []
  }

  /** Sum of squared deviations from `mean`. */
  function SquaredDeviation(s: seq<real>, mean: real): (r: real)
    ensures r >= 0.0
  {
    if |s| == 0 then 0.0
    else
      var d := s[|s| - 1] - mean;
      ProductNonNegative(Abs(d), Abs(d));
      assert Abs(d) * Abs(d) == d * d;
      SquaredDeviation(s[..|s| - 1], mean) + d * d
  }

  /** The population variance of the scores about their mean. */
  function Variance(s: seq<real>): (r: real)
    requires |s| > 0
    ensures r >= 0.0
  {
    DivideWithin(SquaredDeviation(s, Mean(s).value), |s| as real, 0.0, SquaredDeviation(s, Mean(s).value));
    SquaredDeviation(s, Mean(s).value) / |s| as real
  }

  /** The consistency item: reported when the standard deviation exceeds 15, that is (see
      `Basics.RootAbove`) when the variance exceeds 225. */
  function ConsistencySection(closeness: seq<real>): (r: seq<Item>)
    ensures |r| <= 1
    ensures |r| == 1 ==> r[0] == Inconsistent && |closeness| > 0
    ensures |closeness| == 0 ==> r == []
  {
    if |closeness| > 0 && Variance(closeness) > 225.0 then [Inconsistent] else []
  }

  /** `Math.sqrt(variance) > 15`: for the non-negative root of the variance, exceeding 15 is
      the same as the variance exceeding 225, which is how the model states the rule. */
  lemma StdDevThreshold(s: seq<real>, stdDev: real)
    requires |s| > 0
    requires stdDev >= 0.0 && stdDev * stdDev == Variance(s)
    ensures ConsistencySection(s) == [Inconsistent] <==> stdDev > 15.0
    ensures ConsistencySection(s) == [] <==> stdDev <= 15.0
  {
    RootAbove(stdDev, Variance(s), 15.0);
  }

  /** The sum of n copies of x. */
  lemma {:induction false} SumConstant(s: seq<real>, x: real)
    requires forall k :: 0 <= k < |s| ==> s[k] == x
    ensures Sum(s) == |s| as real * x
  {
    if |s| > 0 {
      SumConstant(s[..|s| - 1], x);
      assert |s| as real * x == (|s| - 1) as real * x + x;
    }
  }

  lemma {:induction false} NoDeviation(s: seq<real>, x: real)
    requires forall k :: 0 <= k < |s| ==> s[k] == x
    ensures SquaredDeviation(s, x) == 0.0
  {
    if |s| > 0 {
      NoDeviation(s[..|s| - 1], x);
    }
  }

  /** Equal scores throughout never trigger the consistency item. */
  lemma EqualScoresAreConsistent(s: seq<real>, x: real)
    requires |s| > 0
    requires forall k :: 0 <= k < |s| ==> s[k] == x
    ensures Mean(s) == Some(x)
    ensures ConsistencySection(s) == []
  {
    SumConstant(s, x);
    assert Mean(s).value == x;
    NoDeviation(s, x);
  }

  /** The wrist-snap item: with all four release and follow-through wrist angles defined,
      the user's snap (release minus follow-through) is compared with the benchmark's. */
  function SnapSection(benchRelease: Angles, benchFollow: Angles, userRelease: Angles, userFollow: Angles): (r: seq<Item>)
    ensures |r| <= 1
    ensures !WristsDefined(benchRelease, benchFollow, userRelease, userFollow) ==> r == []
    ensures WristsDefined(benchRelease, benchFollow, userRelease, userFollow) ==>
              var snapDiff := SnapDiff(benchRelease, benchFollow, userRelease, userFollow);
              && (r == [WristSnap(SnapHarder)] <==> snapDiff < -5.0)
              && (r == [WristSnap(SnapSofter)] <==> snapDiff > 10.0)
              && (r == [] <==> -5.0 <= snapDiff <= 10.0)
  {
    if userRelease.wrist.Some? && userFollow.wrist.Some? && benchRelease.wrist.Some? && benchFollow.wrist.Some? then
      var userSnap := userRelease.wrist.value - userFollow.wrist.value;
      var benchSnap := benchRelease.wrist.value - benchFollow.wrist.value;
      var snapDiff := userSnap - benchSnap;
      if snapDiff < -5.0 then [WristSnap(SnapHarder)]
      else if snapDiff > 10.0 then [WristSnap(SnapSofter)]
      else []
    else []
  }

  /** All four release and follow-through wrist angles are defined. */
  predicate WristsDefined(benchRelease: Angles, benchFollow: Angles, userRelease: Angles, userFollow: Angles)
  {
    userRelease.wrist.Some? && userFollow.wrist.Some? && benchRelease.wrist.Some? && benchFollow.wrist.Some?
  }

  /** How much more the user's wrist opens from release to follow-through than the
      benchmark's. */
  function SnapDiff(benchRelease: Angles, benchFollow: Angles, userRelease: Angles, userFollow: Angles): real
    requires WristsDefined(benchRelease, benchFollow, userRelease, userFollow)
  {
    (userRelease.wrist.value - userFollow.wrist.value) - (benchRelease.wrist.value - benchFollow.wrist.value)
  }

  /** `Math.max(...s)` of a non-empty list. */
  function MaxOf(s: seq<real>): (r: real)
    requires |s| > 0
    ensures forall k :: 0 <= k < |s| ==> s[k] <= r
    ensures exists k :: 0 <= k < |s| && s[k] == r
  {
    if |s| == 1 then s[0]
    else
      var m := MaxOf(s[..|s| - 1]);
      assert forall k :: 0 <= k < |s| - 1 ==> s[..|s| - 1][k] == s[k];
      if s[|s| - 1] > m then s[|s| - 1] else m
  }

  /** Praise and the tip: only for a mean of at least 75; praise when some score exceeds 95,
      the tip when the mean is at least 85. */
  function PraiseSection(closeness: seq<real>): (r: seq<Item>)
    ensures |r| <= 2
    ensures Praise in r <==> |closeness| > 0 && Mean(closeness).value >= 75.0
                             && exists k :: 0 <= k < |closeness| && closeness[k] > 95.0
    ensures Tip in r <==> |closeness| > 0 && Mean(closeness).value >= 85.0
    ensures forall k :: 0 <= k < |r| ==> r[k] == Praise || r[k] == Tip
    ensures forall k, l :: 0 <= k < l < |r| ==> r[k] == Praise && r[l] == Tip
  {
    var avg := Mean(closeness);
    if avg.Some? && avg.value >= 75.0 then
      (if MaxOf(closeness) > 95.0 then [Praise] else []) + (if avg.value >= 85.0 then [Tip] else [])
    else []
  }

  /** `generateFeedback`: the score line, its band, then the timing item, at most five
      checkpoint issues, the worst phase, the consistency item, the wrist-snap item, and
      praise and tip, each only when its rule fires. */
  function GenerateFeedback(benchShot: seq<Record>, userShot: seq<Record>, benchTimes: seq<real>,
                            userTimes: seq<real>, closeness: seq<real>): (r: seq<Item>)
    ensures 2 <= |r| <= 13
    ensures r[0] == ScoreLine(Mean(closeness)) && r[1] == Rating(BandOf(Mean(closeness)))
  {
    var avg := Mean(closeness);
    Assemble([ScoreLine(avg), Rating(BandOf(avg))],
             TimingSection(benchTimes, userTimes),
             FirstFive(AllIssues(benchShot, userShot, benchTimes, userTimes)),
             WorstSection(closeness),
             ConsistencySection(closeness),
             SnapSection(EventAngles(benchShot, benchTimes, ReleaseEvent), EventAngles(benchShot, benchTimes, FollowThroughEvent),
                         EventAngles(userShot, userTimes, ReleaseEvent), EventAngles(userShot, userTimes, FollowThroughEvent)),
             PraiseSection(closeness))
  }

  /** The sections of the feedback list, in the order `generateFeedback` pushes them. */
  function Assemble(head: seq<Item>, timing: seq<Item>, issues: seq<Item>, worst: seq<Item>,
                    consistency: seq<Item>, snap: seq<Item>, praise: seq<Item>): (r: seq<Item>)
    ensures |r| == |head| + |timing| + |issues| + |worst| + |consistency| + |snap| + |praise|
    ensures |head| > 0 ==> r[0] == head[0]
    ensures |head| > 1 ==> r[1] == head[1]
  {
    head + timing + issues + worst + consistency + snap + praise
  }

  /** The two-item feedback of the second browser copy: the score line and its band. */
  function BriefFeedback(closeness: seq<real>): (r: seq<Item>)
    ensures |r| == 2 && r[0].ScoreLine? && r[1].Rating?
    ensures r[1].band == BandOf(r[0].average)
  {
    var avg := Mean(closeness);
    [ScoreLine(avg), Rating(BandOf(avg))]
  }

  /** Every checkpoint rule is a strict inequality on a difference, so equal angles never
      raise an issue. */
  lemma SameAnglesNoIssues(c: Checkpoint, x: Angles)
    ensures CheckpointIssues(c, x, x) == []
  {
  }

  /** Comparing a shot with itself raises no issue at any remaining checkpoint. */
  lemma {:induction false} NoIssuesFrom(i: nat, shot: seq<Record>, times: seq<real>)
    ensures IssuesFrom(i, shot, shot, times, times) == []
    decreases 4 - i
  {
    if i < 4 {
      var c := CheckpointAt(i);
      SameAnglesNoIssues(c, EventAngles(shot, times, c));
      NoIssuesFrom(i + 1, shot, times);
    }
  }

  /** The sections that compare the two shots stay silent when both sides are the same. */
  lemma SelfShotSections(shot: seq<Record>, times: seq<real>)
    ensures TimingSection(times, times) == []
    ensures AllIssues(shot, shot, times, times) == []
    ensures var rel := EventAngles(shot, times, ReleaseEvent);
            var fol := EventAngles(shot, times, FollowThroughEvent);
            SnapSection(rel, fol, rel, fol) == []
  {
    NoIssuesFrom(0, shot, times);
    SameSnap(EventAngles(shot, times, ReleaseEvent), EventAngles(shot, times, FollowThroughEvent));
  }

  lemma SameSnap(rel: Angles, fol: Angles)
    ensures SnapSection(rel, fol, rel, fol) == []
  {
  }

  /** Scores of 100 throughout: mean 100, no worst phase, consistent, praise and tip. */
  lemma FullScoreSections(closeness: seq<real>)
    requires |closeness| > 0
    requires forall k :: 0 <= k < |closeness| ==> closeness[k] == 100.0
    ensures Mean(closeness) == Some(100.0)
    ensures WorstSection(closeness) == []
    ensures ConsistencySection(closeness) == []
    ensures PraiseSection(closeness) == [Praise, Tip]
  {
    EqualScoresAreConsistent(closeness, 100.0);
    assert closeness[0] > 95.0;
  }

  /** The feedback list in terms of its sections. */
  lemma FeedbackSections(benchShot: seq<Record>, userShot: seq<Record>, benchTimes: seq<real>,
                         userTimes: seq<real>, closeness: seq<real>, avg: Option<real>,
                         timing: seq<Item>, issues: seq<Item>, worst: seq<Item>,
                         consistency: seq<Item>, snap: seq<Item>, praise: seq<Item>)
    requires Mean(closeness) == avg
    requires TimingSection(benchTimes, userTimes) == timing
    requires AllIssues(benchShot, userShot, benchTimes, userTimes) == issues
    requires WorstSection(closeness) == worst
    requires ConsistencySection(closeness) == consistency
    requires SnapSection(EventAngles(benchShot, benchTimes, ReleaseEvent), EventAngles(benchShot, benchTimes, FollowThroughEvent),
                         EventAngles(userShot, userTimes, ReleaseEvent), EventAngles(userShot, userTimes, FollowThroughEvent)) == snap
    requires PraiseSection(closeness) == praise
    ensures GenerateFeedback(benchShot, userShot, benchTimes, userTimes, closeness)
            == [ScoreLine(avg), Rating(BandOf(avg))] + timing + FirstFive(issues) + worst + consistency + snap + praise
  {
  }

  /** The same shot and series on both sides with every score 100 gives exactly the score
      line, the top band, the praise and the tip. */
  lemma SelfFeedback(shot: seq<Record>, times: seq<real>, closeness: seq<real>)
    requires |closeness| > 0
    requires forall k :: 0 <= k < |closeness| ==> closeness[k] == 100.0
    ensures GenerateFeedback(shot, shot, times, times, closeness)
            == [ScoreLine(Some(100.0)), Rating(Excellent), Praise, Tip]
  {
    SelfShotSections(shot, times);
    FullScoreSections(closeness);
    FeedbackSections(shot, shot, times, times, closeness, Some(100.0), [], [], [], [], [], [Praise, Tip]);
    SelfFeedbackList();
  }

  lemma SelfFeedbackList()
    ensures [ScoreLine(Some(100.0)), Rating(BandOf(Some(100.0)))] + [] + FirstFive([]) + [] + [] + [] + [Praise, Tip]
            == [ScoreLine(Some(100.0)), Rating(Excellent), Praise, Tip]
  {
    assert FirstFive([]) == [];
  }

  /** The section of `generateFeedback` an item belongs to, in push order: score line, band,
      timing, checkpoint issues, worst phase, consistency, wrist snap, praise and tip. */
  function SectionRank(x: Item): nat
  {
    match x
    case ScoreLine(_) => 0
    case Rating(_) => 1
    case Timing(_, _) => 2
    case Issue(_, _) => 3
    case WorstPhase(_, _) => 4
    case Inconsistent => 5
    case WristSnap(_) => 6
    case Praise => 7
    case Tip => 7
  }

  /** The items of section k, in list order. */
  function OfSection(s: seq<Item>, k: nat): (r: seq<Item>)
    ensures |r| <= |s|
    ensures forall i :: 0 <= i < |r| ==> SectionRank(r[i]) == k
  {
    if |s| == 0 then []
    else (if SectionRank(s[0]) == k then [s[0]] else []) + OfSection(s[1..], k)
  }

  /** No item comes after an item of a later section. */
  predicate InSectionOrder(s: seq<Item>)
  {
    forall a, b :: 0 <= a < b < |s| ==> SectionRank(s[a]) <= SectionRank(s[b])
  }

  predicate AllOfSection(s: seq<Item>, k: nat)
  {
    forall i :: 0 <= i < |s| ==> SectionRank(s[i]) == k
  }

  predicate SectionsBelow(s: seq<Item>, n: nat)
  {
    forall i :: 0 <= i < |s| ==> SectionRank(s[i]) < n
  }

  /** The sections one after the other. */
  function Flatten(S: seq<seq<Item>>): (r: seq<Item>)
  {
    if |S| == 0 then [] else Flatten(S[..|S| - 1]) + S[|S| - 1]
  }

  lemma {:induction false} OfSectionConcat(a: seq<Item>, b: seq<Item>, k: nat)
    ensures OfSection(a + b, k) == OfSection(a, k) + OfSection(b, k)
  {
    if |a| == 0 {
      assert a + b == b;
    } else {
      assert (a + b)[0] == a[0];
      assert (a + b)[1..] == a[1..] + b;
      OfSectionConcat(a[1..], b, k);
    }
  }

  /** A list whose items all belong to section j gives all of them to section j and none to
      any other. */
  lemma {:induction false} OfSectionUniform(t: seq<Item>, j: nat, k: nat)
    requires AllOfSection(t, j)
    ensures OfSection(t, k) == if j == k then t else []
  {
    if |t| > 0 {
      assert AllOfSection(t[1..], j) by {
        forall i | 0 <= i < |t[1..]|
          ensures SectionRank(t[1..][i]) == j
        {
          assert t[1..][i] == t[i + 1];
        }
      }
      OfSectionUniform(t[1..], j, k);
      if j == k {
        assert t == [t[0]] + t[1..];
      }
    }
  }

  lemma {:induction false} OfSectionAbsent(t: seq<Item>, k: nat)
    requires SectionsBelow(t, k)
    ensures OfSection(t, k) == []
  {
    if |t| > 0 {
      assert SectionsBelow(t[1..], k) by {
        forall i | 0 <= i < |t[1..]|
          ensures SectionRank(t[1..][i]) < k
        {
          assert t[1..][i] == t[i + 1];
        }
      }
      OfSectionAbsent(t[1..], k);
    }
  }

  /** Sections whose items all carry their own position, laid end to end, come out in section
      order, and each position gets back exactly its own section. */
  lemma {:induction false} SectionsLayout(S: seq<seq<Item>>)
    requires forall k :: 0 <= k < |S| ==> AllOfSection(S[k], k)
    ensures InSectionOrder(Flatten(S))
    ensures SectionsBelow(Flatten(S), |S|)
    ensures forall k :: 0 <= k < |S| ==> OfSection(Flatten(S), k) == S[k]
  {
    if |S| > 0 {
      var n := |S| - 1;
      var front := S[..n];
      var last := S[n];
      assert forall k :: 0 <= k < |front| ==> front[k] == S[k];
      SectionsLayout(front);
      var F := Flatten(front);
      assert Flatten(S) == F + last;
      assert AllOfSection(last, n);
      forall a, b | 0 <= a < b < |F + last|
        ensures SectionRank((F + last)[a]) <= SectionRank((F + last)[b])
      {
        if b < |F| {
          assert (F + last)[a] == F[a] && (F + last)[b] == F[b];
        } else if a < |F| {
          assert (F + last)[a] == F[a] && (F + last)[b] == last[b - |F|];
        } else {
          assert (F + last)[a] == last[a - |F|] && (F + last)[b] == last[b - |F|];
        }
      }
      forall i | 0 <= i < |F + last|
        ensures SectionRank((F + last)[i]) < |S|
      {
        if i < |F| {
          assert (F + last)[i] == F[i];
        } else {
          assert (F + last)[i] == last[i - |F|];
        }
      }
      forall k | 0 <= k < |S|
        ensures OfSection(F + last, k) == S[k]
      {
        OfSectionConcat(F, last, k);
        OfSectionUniform(last, n, k);
        if k == n {
          OfSectionAbsent(F, k);
        }
      }
    }
  }

  /** `generateFeedback` pushes its sections in a fixed order: the list never goes back to an
      earlier section, and the items of each section are exactly what that section's rule
      produces. */
  lemma FeedbackOrder(benchShot: seq<Record>, userShot: seq<Record>, benchTimes: seq<real>,
                      userTimes: seq<real>, closeness: seq<real>)
    ensures var r := GenerateFeedback(benchShot, userShot, benchTimes, userTimes, closeness);
            && InSectionOrder(r)
            && OfSection(r, 0) == [ScoreLine(Mean(closeness))]
            && OfSection(r, 1) == [Rating(BandOf(Mean(closeness)))]
            && OfSection(r, 2) == TimingSection(benchTimes, userTimes)
            && OfSection(r, 3) == FirstFive(AllIssues(benchShot, userShot, benchTimes, userTimes))
            && OfSection(r, 4) == WorstSection(closeness)
            && OfSection(r, 5) == ConsistencySection(closeness)
            && OfSection(r, 6) == SnapSection(EventAngles(benchShot, benchTimes, ReleaseEvent),
                                              EventAngles(benchShot, benchTimes, FollowThroughEvent),
                                              EventAngles(userShot, userTimes, ReleaseEvent),
                                              EventAngles(userShot, userTimes, FollowThroughEvent))
            && OfSection(r, 7) == PraiseSection(closeness)
  {
    var avg := Mean(closeness);
    var timing := TimingSection(benchTimes, userTimes);
    var issues := AllIssues(benchShot, userShot, benchTimes, userTimes);
    var worst := WorstSection(closeness);
    var consistency := ConsistencySection(closeness);
    var snap := SnapSection(EventAngles(benchShot, benchTimes, ReleaseEvent), EventAngles(benchShot, benchTimes, FollowThroughEvent),
                            EventAngles(userShot, userTimes, ReleaseEvent), EventAngles(userShot, userTimes, FollowThroughEvent));
    var praise := PraiseSection(closeness);
    FeedbackSections(benchShot, userShot, benchTimes, userTimes, closeness, avg, timing, issues, worst, consistency, snap, praise);
    SectionKinds(benchTimes, userTimes, issues, closeness);
    SnapKinds(EventAngles(benchShot, benchTimes, ReleaseEvent), EventAngles(benchShot, benchTimes, FollowThroughEvent),
              EventAngles(userShot, userTimes, ReleaseEvent), EventAngles(userShot, userTimes, FollowThroughEvent));
    AssembledInOrder(avg, timing, FirstFive(issues), worst, consistency, snap, praise);
  }

  /** Each section holds only items of its own kind. */
  lemma SectionKinds(benchTimes: seq<real>, userTimes: seq<real>, issues: seq<Item>, closeness: seq<real>)
    requires InCheckpointOrder(issues)
    ensures AllOfSection(TimingSection(benchTimes, userTimes), 2)
    ensures AllOfSection(FirstFive(issues), 3)
    ensures AllOfSection(WorstSection(closeness), 4)
    ensures AllOfSection(ConsistencySection(closeness), 5)
    ensures AllOfSection(PraiseSection(closeness), 7)
  {
  }

  lemma SnapKinds(benchRelease: Angles, benchFollow: Angles, userRelease: Angles, userFollow: Angles)
    ensures AllOfSection(SnapSection(benchRelease, benchFollow, userRelease, userFollow), 6)
  {
  }

  /** The section order of the assembled list, for any section contents of the right kinds. */
  lemma AssembledInOrder(avg: Option<real>, timing: seq<Item>, issues: seq<Item>, worst: seq<Item>,
                         consistency: seq<Item>, snap: seq<Item>, praise: seq<Item>)
    requires AllOfSection(timing, 2) && AllOfSection(issues, 3) && AllOfSection(worst, 4)
    requires AllOfSection(consistency, 5) && AllOfSection(snap, 6) && AllOfSection(praise, 7)
    ensures var r := [ScoreLine(avg), Rating(BandOf(avg))] + timing + issues + worst + consistency + snap + praise;
            && InSectionOrder(r)
            && OfSection(r, 0) == [ScoreLine(avg)] && OfSection(r, 1) == [Rating(BandOf(avg))]
            && OfSection(r, 2) == timing && OfSection(r, 3) == issues && OfSection(r, 4) == worst
            && OfSection(r, 5) == consistency && OfSection(r, 6) == snap && OfSection(r, 7) == praise
  {
    var S := [[ScoreLine(avg)], [Rating(BandOf(avg))], timing, issues, worst, consistency, snap, praise];
    FlattenEight(S);
    assert [ScoreLine(avg), Rating(BandOf(avg))] == S[0] + S[1];
    SectionsLayout(S);
  }

  /** Eight sections laid end to end. */
  lemma FlattenEight(S: seq<seq<Item>>)
    requires |S| == 8
    ensures Flatten(S) == S[0] + S[1] + S[2] + S[3] + S[4] + S[5] + S[6] + S[7]
  {
    assert Flatten(S[..1]) == S[0] by {
      assert S[..1][..0] == [];
    }
    assert Flatten(S[..2]) == S[0] + S[1] by {
      assert S[..2][..1] == S[..1];
    }
    assert Flatten(S[..3]) == S[0] + S[1] + S[2] by {
      assert S[..3][..2] == S[..2];
    }
    assert Flatten(S[..4]) == S[0] + S[1] + S[2] + S[3] by {
      assert S[..4][..3] == S[..3];
    }
    assert Flatten(S[..5]) == S[0] + S[1] + S[2] + S[3] + S[4] by {
      assert S[..5][..4] == S[..4];
    }
    assert Flatten(S[..6]) == S[0] + S[1] + S[2] + S[3] + S[4] + S[5] by {
      assert S[..6][..5] == S[..5];
    }
    assert Flatten(S[..7]) == S[0] + S[1] + S[2] + S[3] + S[4] + S[5] + S[6] by {
      assert S[..7][..6] == S[..6];
    }
    assert S[..8] == S;
  }
}
