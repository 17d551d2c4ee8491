/** The two offline Python extractors: `process_video`, which runs the capture machine over a
    whole video and returns whatever it buffered, and `process_frames_130_148`, which records
    a fixed window of frames without any state machine. Video decoding and pose estimation
    are outside the model: a video is the sequence of per-frame pose observations. */
module Offline {
  import opened Basics
  import opened Landmarks
  import opened ArmState
  import opened Capture

  /** Python's `float(a) if a else None`: a computed angle of exactly 0.0 is falsy. */
  function StoredAngle(a: Option<real>): (r: Option<real>)
    ensures r.None? <==> a.None? || a.value == 0.0
    ensures r.Some? ==> r == a
  {
    if a.Some? && a.value != 0.0 then a else None
  }

  function StoredAngles(x: Angles): Angles
  {
    Angles(StoredAngle(x.elbow), StoredAngle(x.wrist), StoredAngle(x.arm))
  }

  function StoredPose(pose: Option<Observation>): Option<Observation>
  {
    if pose.None? then None else Some(Observation(pose.value.phase, StoredAngles(pose.value.angles)))
  }

  /** The frames `process_video` feeds the machine: `frame_count` starts at 1, so the k-th
      frame (from 0) has time (k + 1) / fps. */
  function VideoFrames(poses: seq<Option<Observation>>, fps: real): (r: seq<Frame>)
    requires fps > 0.0 || |poses| == 0
    ensures |r| == |poses|
    ensures forall k :: 0 <= k < |r| ==> r[k].pose == StoredPose(poses[k]) && r[k].time == (k + 1) as real / fps
  {
    seq(|poses|, k requires 0 <= k < |poses| => Frame(StoredPose(poses[k]), (k + 1) as real / fps))
  }

  lemma DivideMonotone(a: real, b: real, fps: real)
    requires fps > 0.0 && a < b
    ensures a / fps < b / fps
  {
    assert b / fps - a / fps == (b - a) / fps;
    ProductPositive(b - a, 1.0 / fps);
    assert (b - a) / fps == (b - a) * (1.0 / fps);
  }

  lemma DivideAdd(a: real, b: real, fps: real)
    requires fps > 0.0
    ensures (a + b) / fps == a / fps + b / fps
  {
  }

  lemma VideoFramesIncrease(poses: seq<Option<Observation>>, fps: real)
    requires fps > 0.0 || |poses| == 0
    ensures StrictlyLater(VideoFrames(poses, fps), 0.0)
  {
    var f := VideoFrames(poses, fps);
    forall k | 0 <= k < |f|
      ensures 0.0 < f[k].time
    {
      DivideMonotone(0.0, (k + 1) as real, fps);
    }
    forall i, j | 0 <= i < j < |f|
      ensures f[i].time < f[j].time
    {
      DivideMonotone((i + 1) as real, (j + 1) as real, fps);
    }
  }

  /** `process_video`: the capture machine over the whole video; at the end of the stream the
      buffer is returned as it stands, and None when it is empty. */
  function ProcessVideo(poses: seq<Option<Observation>>, fps: real): (r: Option<seq<Record>>)
    requires fps > 0.0 || |poses| == 0
    ensures var s := Run(Initial, VideoFrames(poses, fps));
            && (r.None? <==> !s.active)
            && (r.Some? ==> r.value == s.buf && |r.value| >= 1 && r.value[0].phase == PreShot && TimesOk(r.value))
            && (s.done ==> r.Some? && |r.value| >= 3 && r.value[|r.value| - 1].phase == PreShot
                           && HasFollowThrough(r.value))
  {
    var frames := VideoFrames(poses, fps);
    var s := Run(Initial, frames);
    RunKeepsInv(Initial, frames);
    VideoFramesIncrease(poses, fps);
    RunKeepsTimes(Initial, frames, 0.0);
    FinalizedShotShape(frames);
    if |s.buf| == 0 then None else Some(s.buf)
  }

  /** The closing pre-shot frame ends the loop: once the shot is finalized, frames after it
      do not change the result. */
  lemma {:induction false} ProcessVideoStopsAtFinalize(poses: seq<Option<Observation>>,
                                                       later: seq<Option<Observation>>, fps: real)
    requires fps > 0.0
    requires Run(Initial, VideoFrames(poses, fps)).done
    ensures ProcessVideo(poses + later, fps) == ProcessVideo(poses, fps)
  {
    var all := VideoFrames(poses + later, fps);
    var head := VideoFrames(poses, fps);
    assert all == head + all[|poses|..];
    RunConcat(Initial, head, all[|poses|..]);
    RunAfterDone(Run(Initial, head), all[|poses|..]);
  }

  /** At the end of the stream an unfinished capture is still returned: neutral, pre-shot,
      follow-through yields two records although the shot never closed. */
  lemma ProcessVideoKeepsUnfinishedCapture()
    ensures var poses := [Some(Observation(Neutral, NoAngles())), Some(Observation(PreShot, NoAngles())),
                          Some(Observation(FollowThrough, NoAngles()))];
            && !Run(Initial, VideoFrames(poses, 1.0)).done
            && ProcessVideo(poses, 1.0) == Some([Record(PreShot, 0.0, NoAngles()), Record(FollowThrough, 1.0, NoAngles())])
  {
    var poses := [Some(Observation(Neutral, NoAngles())), Some(Observation(PreShot, NoAngles())),
                  Some(Observation(FollowThrough, NoAngles()))];
    var f := VideoFrames(poses, 1.0);
    assert f[0] == Frame(poses[0], 1.0);
    assert f[1] == Frame(poses[1], 2.0);
    assert f[2] == Frame(poses[2], 3.0);
    var s1 := Feed(Initial, f[0]);
    var s2 := Feed(s1, f[1]);
    var s3 := Feed(s2, f[2]);
    assert Run(Initial, f) == Run(s1, f[1..]);
    assert Run(s1, f[1..]) == Run(s2, f[2..]);
    assert Run(s2, f[2..]) == Run(s3, f[3..]);
    assert s3.active && !s3.done;
    assert s3.buf == [Record(PreShot, 0.0, NoAngles()), Record(FollowThrough, 1.0, NoAngles())];
  }

  /** The outcome of one `cap.read()` in the fixed-window script. */
  datatype FrameRead = ReadFailed | Read(pose: Option<Observation>)

  const WindowStart: nat := 130
  const WindowEnd: nat := 148
  /** Frames 130..148 inclusive. */
  const WindowLength: nat := WindowEnd - WindowStart + 1

  /** `(frame_idx - 130) / fps` for the frame at window offset `k`. */
  function OffsetTime(k: nat, fps: real): real
    requires fps > 0.0
  {
    k as real / fps
  }

  /** The record for one successfully read frame at window offset `k`: no detected pose gives
      a neutral record with no angles. */
  function WindowRecord(pose: Option<Observation>, time: real): (r: Record)
    ensures r.time == time
    ensures pose.None? ==> r.phase == Neutral && r.angles == NoAngles()
    ensures pose.Some? ==> r.phase == pose.value.phase && r.angles == StoredAngles(pose.value.angles)
  {
    if pose.None? then Record(Neutral, time, NoAngles())
    else Record(pose.value.phase, time, StoredAngles(pose.value.angles))
  }

  /** The loop of `process_frames_130_148` stops at offset `k`: the window is over, or the read
      fails (attempts past the end of `attempts` fail, as `cap.read()` does at the end of a
      video). */
  predicate WindowEnds(attempts: seq<FrameRead>, k: nat)
  {
    k == WindowLength || k >= |attempts| || attempts[k].ReadFailed?
  }

  /** The loop of `process_frames_130_148` from window offset `k` on. The division by `fps`
      happens only after a successful read, so a zero rate is harmless when the loop stops
      at once. */
  function WindowFrom(attempts: seq<FrameRead>, k: nat, fps: real): (r: seq<Record>)
    requires k <= WindowLength && (fps > 0.0 || WindowEnds(attempts, k))
    ensures |r| <= WindowLength - k && (|r| > 0 ==> k + |r| <= |attempts|)
    ensures |r| > 0 ==> !WindowEnds(attempts, k)
    ensures k + |r| < WindowLength ==> k + |r| >= |attempts| || attempts[k + |r|].ReadFailed?
    decreases WindowLength - k
  {
    if WindowEnds(attempts, k) then []
    else [WindowRecord(attempts[k].pose, OffsetTime(k, fps))] + WindowFrom(attempts, k + 1, fps)
  }

  /** Every record of `WindowFrom` comes from a successful read at its own offset. */
  lemma {:induction false} WindowFromRecords(attempts: seq<FrameRead>, k: nat, fps: real)
    requires k <= WindowLength && (fps > 0.0 || WindowEnds(attempts, k))
    ensures var r := WindowFrom(attempts, k, fps);
            forall j :: k <= j < k + |r| ==>
              j < |attempts| && attempts[j].Read? && r[j - k] == WindowRecord(attempts[j].pose, OffsetTime(j, fps))
    decreases WindowLength - k
  {
    var r := WindowFrom(attempts, k, fps);
    if |r| > 0 {
      var rest := WindowFrom(attempts, k + 1, fps);
      WindowFromRecords(attempts, k + 1, fps);
      assert r == [WindowRecord(attempts[k].pose, OffsetTime(k, fps))] + rest;
      forall j | k + 1 <= j < k + |r|
        ensures attempts[j].Read? && r[j - k] == rest[j - (k + 1)]
      {
      }
    }
  }

  /** `process_frames_130_148`: one record per successfully read frame of the window, in
      order, stopping at the first failed read; the time of offset k is k / fps. */
  function ProcessWindow(attempts: seq<FrameRead>, fps: real): (r: seq<Record>)
    requires fps > 0.0 || WindowEnds(attempts, 0)
    ensures |r| <= WindowLength && |r| <= |attempts|
    ensures |r| > 0 ==> fps > 0.0 && !WindowEnds(attempts, 0)
    ensures forall i :: 0 <= i < |r| ==> attempts[i].Read? && r[i] == WindowRecord(attempts[i].pose, OffsetTime(i, fps))
    ensures |r| < WindowLength ==> |r| == |attempts| || attempts[|r|].ReadFailed?
  {
    WindowFromRecords(attempts, 0, fps);
    WindowFrom(attempts, 0, fps)
  }

  /** Window times start at 0 and each later record adds 1 / fps. */
  lemma WindowTimes(attempts: seq<FrameRead>, fps: real)
    requires fps > 0.0 || WindowEnds(attempts, 0)
    ensures var r := ProcessWindow(attempts, fps);
            && (|r| > 0 ==> r[0].time == 0.0)
            && forall i :: 0 < i < |r| ==> r[i].time == r[i - 1].time + 1.0 / fps
  {
    var r := ProcessWindow(attempts, fps);
    forall i | 0 < i < |r|
      ensures r[i].time == r[i - 1].time + 1.0 / fps
    {
      assert r[i] == WindowRecord(attempts[i].pose, OffsetTime(i, fps));
      assert r[i - 1] == WindowRecord(attempts[i - 1].pose, OffsetTime(i - 1, fps));
      DivideAdd((i - 1) as real, 1.0, fps);
      assert (i - 1) as real + 1.0 == i as real;
    }
  }
}
