/** The shot-capture state machine shared by the two browser `onResults` handlers and the
    offline `process_video` loop, written as a step function over an explicit detector state
    and a left fold of that step over a stream of frames. */
module Capture {
  import opened Basics
  import opened Landmarks
  import opened ArmState

  /** What the machine needs from a frame with a detected pose: its phase and its angles. */
  datatype Observation = Observation(phase: Phase, angles: Angles)

  /** One incoming frame: a detected pose, or None when the estimator found no landmarks,
      and the frame's clock time in seconds. */
  datatype Frame = Frame(pose: Option<Observation>, time: real)

  /** One recorded sample of a shot; `time` is seconds since the capture started. */
  datatype Record = Record(phase: Phase, time: real, angles: Angles)

  /** The detector's state: last phase seen, whether a capture is running, whether it has
      passed a follow-through, when it started, what it has recorded, and whether the shot
      has been finalized (the camera is stopped / the loop has exited). */
  datatype DetectorState = DetectorState(prev: Phase, active: bool, seen: bool, start: real,
                                         buf: seq<Record>, done: bool)

  const Initial: DetectorState := DetectorState(Neutral, false, false, 0.0, [], false)

  /** Classify one frame's landmarks and compute its angles. */
  function Observe(flavor: Flavor, landmarks: seq<Landmark>, width: real, height: real,
                   acos: (Point3, Point3, Point3) -> real): (r: Observation)
    ensures r.phase == PreShot <==> PreShotPose(flavor, Some(landmarks), width, height)
    ensures r.angles.elbow.Some? ==> Present(Some(landmarks), RightElbow)
  {
    Observation(GetArmState(flavor, Some(landmarks), width, height),
                FrameAngles(flavor, Some(landmarks), width, height, acos))
  }

  /** A phase change into pre-shot while idle: a new capture starts. */
  predicate Starts(s: DetectorState, p: Phase)
  {
    p != s.prev && p == PreShot && !s.active
  }

  /** A phase change into neutral during a capture that has not followed through: a false start. */
  predicate Aborts(s: DetectorState, p: Phase)
  {
    p != s.prev && p == Neutral && s.active && !s.seen
  }

  /** A phase change back into pre-shot after a follow-through: the closing edge of the shot. */
  predicate Finalizes(s: DetectorState, p: Phase)
  {
    p != s.prev && p == PreShot && s.active && s.seen
  }

  /** The record of observation `o` at clock time `now` for a capture started at `start`. */
  function Sample(o: Observation, now: real, start: real): Record
  {
    Record(o.phase, now - start, o.angles)
  }

  /** The "record while actively recording" tail of the handler. */
  function KeepIfActive(s: DetectorState, o: Observation, now: real): DetectorState
  {
    if s.active then s.(buf := s.buf + [Sample(o, now, s.start)]) else s
  }

  /** One handler invocation for a frame with a detected pose. */
  function Step(s: DetectorState, o: Observation, now: real): (r: DetectorState)
    ensures s.done ==> r == s
    ensures !s.done && Starts(s, o.phase) ==>
              r.active && !r.seen && !r.done && r.buf == [Record(PreShot, 0.0, o.angles)]
    ensures !s.done && !s.active && !Starts(s, o.phase) ==> !r.active && !r.done && r.buf == s.buf
    ensures !s.done && Aborts(s, o.phase) ==> !r.active && !r.done && r.buf == []
    ensures !s.done && Finalizes(s, o.phase) ==>
              r.done && r.buf == s.buf + [Record(PreShot, now - s.start, o.angles)]
    ensures !s.done && s.active && !Aborts(s, o.phase) && !Finalizes(s, o.phase) ==>
              r.active && !r.done && r.buf == s.buf + [Record(o.phase, now - s.start, o.angles)]
    ensures !s.done && s.active && o.phase != s.prev && o.phase == FollowThrough ==> r.seen
    ensures !s.done && s.active && s.seen && o.phase == Neutral ==> r.active && r.seen && !r.done
    ensures !s.done && !Finalizes(s, o.phase) ==> r.prev == o.phase
    ensures !s.done && Finalizes(s, o.phase) ==> r.prev == s.prev
    ensures !s.done && Starts(s, o.phase) ==> r.start == now
    ensures !s.done && !s.active && !Starts(s, o.phase) ==> r.start == s.start && r.seen == s.seen
    ensures !s.done && s.active && !Aborts(s, o.phase) ==>
              r.start == s.start && r.seen == (s.seen || (o.phase != s.prev && o.phase == FollowThrough))
  {
    if s.done then s
    else if o.phase == s.prev then KeepIfActive(s, o, now)
    else if o.phase == PreShot && !s.active then
      KeepIfActive(s.(prev := PreShot, active := true, seen := false, start := now, buf := []), o, now)
    else if o.phase == Neutral && s.active && !s.seen then
      KeepIfActive(s.(prev := Neutral, active := false, seen := false, start := 0.0, buf := []), o, now)
    else if o.phase == FollowThrough && s.active then
      KeepIfActive(s.(prev := FollowThrough, seen := true), o, now)
    else if o.phase == PreShot && s.active && s.seen then
      s.(buf := s.buf + [Sample(o, now, s.start)], done := true)
    else KeepIfActive(s.(prev := o.phase), o, now)
  }

  /** A frame without detected landmarks leaves the detector untouched. */
  function Feed(s: DetectorState, f: Frame): DetectorState
  {
    if f.pose.None? then s else Step(s, f.pose.value, f.time)
  }

  /** The detector run over a stream of frames, first frame first. */
  function Run(s: DetectorState, frames: seq<Frame>): DetectorState
    decreases |frames|
  {
    if |frames| == 0 then s else Run(Feed(s, frames[0]), frames[1..])
  }

  predicate HasFollowThrough(buf: seq<Record>)
  {
    exists k :: 0 <= k < |buf| && buf[k].phase == FollowThrough
  }

  /** What every reachable detector state satisfies. */
  predicate Inv(s: DetectorState)
  {
    && (!s.active ==> !s.seen && !s.done && s.buf == [])
    && (s.active && !s.seen ==> s.prev == PreShot)
    && (s.active ==> |s.buf| >= 1 && s.buf[0].phase == PreShot && s.buf[0].time == 0.0)
    && (s.seen ==> HasFollowThrough(s.buf))
    && (s.done ==> s.seen && s.buf[|s.buf| - 1].phase == PreShot)
  }

  lemma StepKeepsInv(s: DetectorState, o: Observation, now: real)
    requires Inv(s)
    ensures Inv(Step(s, o, now))
  {
    var r := Step(s, o, now);
    if s.seen && !s.done && s.active {
      var k :| 0 <= k < |s.buf| && s.buf[k].phase == FollowThrough;
      if r.seen {
        assert r.buf[k] == s.buf[k];
      }
    }
    if !s.done && s.active && o.phase != s.prev && o.phase == FollowThrough {
      assert r.buf[|r.buf| - 1].phase == FollowThrough;
    }
  }

  lemma {:induction false} RunKeepsInv(s: DetectorState, frames: seq<Frame>)
    requires Inv(s)
    ensures Inv(Run(s, frames))
    decreases |frames|
  {
    if |frames| > 0 {
      if frames[0].pose.Some? {
        StepKeepsInv(s, frames[0].pose.value, frames[0].time);
      }
      RunKeepsInv(Feed(s, frames[0]), frames[1..]);
    }
  }

  /** Every shot the machine finalizes has at least three records, begins and ends with a
      pre-shot record and contains a follow-through record. */
  lemma {:induction false} FinalizedShotShape(frames: seq<Frame>)
    ensures var s := Run(Initial, frames);
            s.done ==>
            && |s.buf| >= 3
            && s.buf[0].phase == PreShot && s.buf[0].time == 0.0
            && s.buf[|s.buf| - 1].phase == PreShot
            && HasFollowThrough(s.buf)
  {
    RunKeepsInv(Initial, frames);
    var s := Run(Initial, frames);
    if s.done {
      var k :| 0 <= k < |s.buf| && s.buf[k].phase == FollowThrough;
      assert k != 0 && k != |s.buf| - 1;
    }
  }

  /** Reachable states: nothing is buffered while idle, and a running capture that has not yet
      followed through last saw a pre-shot frame. */
  lemma {:induction false} ReachableStates(frames: seq<Frame>)
    ensures var s := Run(Initial, frames);
            && (!s.active ==> s.buf == [] && !s.done)
            && (s.active && !s.seen ==> s.prev == PreShot)
            && (s.active ==> |s.buf| >= 1 && s.buf[0].phase == PreShot)
  {
    RunKeepsInv(Initial, frames);
  }

  /** After finalizing, no later frame is consulted. */
  lemma {:induction false} RunAfterDone(s: DetectorState, frames: seq<Frame>)
    requires s.done
    ensures Run(s, frames) == s
    decreases |frames|
  {
    if |frames| > 0 {
      RunAfterDone(Feed(s, frames[0]), frames[1..]);
    }
  }

  /** Running over a concatenation is running over the first part, then the second. */
  lemma {:induction false} RunConcat(s: DetectorState, a: seq<Frame>, b: seq<Frame>)
    ensures Run(s, a + b) == Run(Run(s, a), b)
    decreases |a|
  {
    if |a| > 0 {
      assert (a + b)[0] == a[0];
      assert (a + b)[1..] == a[1..] + b;
      RunConcat(Feed(s, a[0]), a[1..], b);
    } else {
      assert a + b == b;
    }
  }

  /** Record times strictly increase, and the first one is 0. */
  predicate TimesOk(buf: seq<Record>)
  {
    && (forall k :: 0 < k < |buf| ==> buf[k - 1].time < buf[k].time)
    && (|buf| > 0 ==> buf[0].time == 0.0)
  }

  predicate TimeBound(s: DetectorState, t: real)
  {
    TimesOk(s.buf) && forall k :: 0 <= k < |s.buf| ==> s.buf[k].time <= t - s.start
  }

  predicate StrictlyLater(frames: seq<Frame>, t: real)
  {
    && (forall k :: 0 <= k < |frames| ==> t < frames[k].time)
    && (forall i, j :: 0 <= i < j < |frames| ==> frames[i].time < frames[j].time)
  }

  lemma StepKeepsTimeBound(s: DetectorState, o: Observation, t: real, now: real)
    requires Inv(s) && TimeBound(s, t) && t < now
    ensures TimeBound(Step(s, o, now), now)
  {
    var r := Step(s, o, now);
    if s.done || (!s.active && !Starts(s, o.phase)) {
      KeptBound(s, r, t, now);
    } else if Starts(s, o.phase) || Aborts(s, o.phase) {
      FreshBound(r, now);
    } else {
      var x := if Finalizes(s, o.phase) then Record(PreShot, now - s.start, o.angles)
               else Record(o.phase, now - s.start, o.angles);
      AppendBound(s, r, x, t, now);
    }
  }

  /** A step that keeps the buffer and the start time keeps the bound at a later clock. */
  lemma KeptBound(s: DetectorState, r: DetectorState, t: real, now: real)
    requires TimeBound(s, t) && t < now && r.buf == s.buf && r.start == s.start
    ensures TimeBound(r, now)
  {
  }

  /** A capture that has just started, or just been abandoned, is within any bound. */
  lemma FreshBound(r: DetectorState, now: real)
    requires |r.buf| <= 1 && (|r.buf| == 1 ==> r.buf[0].time == 0.0 && r.start == now)
    ensures TimeBound(r, now)
  {
  }

  /** A record stamped at a later clock time extends a buffer whose times are bounded. */
  lemma AppendBound(s: DetectorState, r: DetectorState, x: Record, t: real, now: real)
    requires |s.buf| > 0 && TimeBound(s, t) && t < now
    requires r.buf == s.buf + [x] && x.time == now - s.start && r.start == s.start
    ensures TimeBound(r, now)
  {
    assert forall k :: 0 <= k < |s.buf| ==> r.buf[k] == s.buf[k];
  }

  /** With strictly increasing frame times, the recorded times strictly increase from 0. */
  lemma {:induction false} RunKeepsTimes(s: DetectorState, frames: seq<Frame>, t: real)
    requires Inv(s) && TimeBound(s, t) && StrictlyLater(frames, t)
    ensures TimesOk(Run(s, frames).buf)
    decreases |frames|
  {
    if |frames| > 0 {
      var f := frames[0];
      if f.pose.Some? {
        StepKeepsTimeBound(s, f.pose.value, t, f.time);
        StepKeepsInv(s, f.pose.value, f.time);
      } else {
        assert TimeBound(s, f.time);
      }
      RunKeepsTimes(Feed(s, f), frames[1..], f.time);
    }
  }

  function NoAngles(): Angles
  {
    Angles(None, None, None)
  }

  /** Frames carrying only the given phases, one per second starting at 0. */
  function PhaseFrames(phases: seq<Phase>): (r: seq<Frame>)
    ensures |r| == |phases|
  {
    seq(|phases|, k requires 0 <= k < |phases| => Frame(Some(Observation(phases[k], NoAngles())), k as real))
  }

  /** neutral, pre-shot, pre-shot, follow-through, pre-shot finalizes exactly the four frames
      from the first pre-shot to the closing pre-shot. */
  lemma FullCycleExample()
    ensures var s := Run(Initial, PhaseFrames([Neutral, PreShot, PreShot, FollowThrough, PreShot]));
            && s.done
            && s.buf == [Record(PreShot, 0.0, NoAngles()), Record(PreShot, 1.0, NoAngles()),
                         Record(FollowThrough, 2.0, NoAngles()), Record(PreShot, 3.0, NoAngles())]
  {
    var f := PhaseFrames([Neutral, PreShot, PreShot, FollowThrough, PreShot]);
    var s1 := Feed(Initial, f[0]);
    var s2 := Feed(s1, f[1]);
    var s3 := Feed(s2, f[2]);
    var s4 := Feed(s3, f[3]);
    var s5 := Feed(s4, f[4]);
    assert Run(Initial, f) == Run(s1, f[1..]);
    assert Run(s1, f[1..]) == Run(s2, f[2..]);
    assert Run(s2, f[2..]) == Run(s3, f[3..]);
    assert Run(s3, f[3..]) == Run(s4, f[4..]);
    assert Run(s4, f[4..]) == Run(s5, f[5..]);
  }

  /** neutral, pre-shot, neutral discards the capture and leaves the detector idle. */
  lemma FalseStartExample()
    ensures var s := Run(Initial, PhaseFrames([Neutral, PreShot, Neutral]));
            !s.active && !s.done && s.buf == [] && s.prev == Neutral
  {
    var f := PhaseFrames([Neutral, PreShot, Neutral]);
    var s1 := Feed(Initial, f[0]);
    var s2 := Feed(s1, f[1]);
    var s3 := Feed(s2, f[2]);
    assert Run(Initial, f) == Run(s1, f[1..]);
    assert Run(s1, f[1..]) == Run(s2, f[2..]);
    assert Run(s2, f[2..]) == Run(s3, f[3..]);
  }
}
