/** The per-frame phase classifier `getArmState` / `get_arm_state`. */
module ArmState {
  import opened Basics
  import opened Landmarks

  /** The three motion phases of a shot. */
  datatype Phase = Neutral | PreShot | FollowThrough

  /** Wrists closer together than 15% of the frame width. The source compares the Euclidean
      distance `d` with `0.15 * width`; on squares (see `Basics.RootBelow`) that is
      `0 < 0.15 * width && d * d < (0.15 * width)^2`. */
  predicate WristsTogether(distanceSquared: real, width: real)
  {
    0.0 < 0.15 * width && distanceSquared < (0.15 * width) * (0.15 * width)
  }

  /** `getArmState` as written: the pre-shot test, the follow-through test, the redundant
      neutral test, and the neutral fallback. */
  function GetArmState(flavor: Flavor, frame: Option<seq<Landmark>>, width: real, height: real): (r: Phase)
    ensures r == PreShot <==> PreShotPose(flavor, frame, width, height)
    ensures r == FollowThrough <==> !PreShotPose(flavor, frame, width, height) && RaisedWrist(frame, height)
    ensures r == Neutral <==> !PreShotPose(flavor, frame, width, height) && !RaisedWrist(frame, height)
  {
    var shoulder := GetPoint(flavor, frame, RightShoulder, width, height);
    var wrist := GetPoint(flavor, frame, RightWrist, width, height);
    var leftWrist := GetPoint(flavor, frame, LeftWrist, width, height);
    var leftHip := GetPoint(flavor, frame, LeftHip, width, height);
    var rightHip := GetPoint(flavor, frame, RightHip, width, height);
    if wrist.Some? && leftWrist.Some? && leftHip.Some? && rightHip.Some? && shoulder.Some?
       && WristsTogether(SquaredNorm(Minus(wrist.value, leftWrist.value)), width)
       && (wrist.value.y + leftWrist.value.y) / 2.0 < (leftHip.value.y + rightHip.value.y) / 2.0
       && wrist.value.y > shoulder.value.y
    then PreShot
    else if wrist.Some? && shoulder.Some? && shoulder.value.y > wrist.value.y then FollowThrough
    else if shoulder.Some? && wrist.Some? && wrist.value.y > shoulder.value.y then Neutral
    else Neutral
  }

  /** Reference statement of the pre-shot stance, on raw landmarks: wrists, hips and right
      shoulder all present, wrists together, wrists (on average) above the hips in image
      coordinates (smaller y), and the right wrist below the right shoulder. */
  predicate PreShotPose(flavor: Flavor, frame: Option<seq<Landmark>>, width: real, height: real)
  {
    && Present(frame, RightWrist) && Present(frame, LeftWrist)
    && Present(frame, LeftHip) && Present(frame, RightHip) && Present(frame, RightShoulder)
    && var l := frame.value;
       var apart := Minus(Scale(flavor, l[RightWrist], width, height), Scale(flavor, l[LeftWrist], width, height));
       && WristsTogether(SquaredNorm(apart), width)
       && (l[RightWrist].y * height + l[LeftWrist].y * height) / 2.0
          < (l[LeftHip].y * height + l[RightHip].y * height) / 2.0
       && l[RightWrist].y * height > l[RightShoulder].y * height
  }

  /** Reference statement of the follow-through test: right shoulder and right wrist present
      and the shoulder lower in the image than the wrist. */
  predicate RaisedWrist(frame: Option<seq<Landmark>>, height: real)
  {
    Present(frame, RightShoulder) && Present(frame, RightWrist)
    && frame.value[RightShoulder].y * height > frame.value[RightWrist].y * height
  }

  /** The classifier reads only the right shoulder, both wrists and both hips: two frames
      that agree on those five landmarks get the same phase. */
  lemma ClassifierReadsFiveLandmarks(flavor: Flavor, f: Option<seq<Landmark>>, g: Option<seq<Landmark>>,
                                     width: real, height: real)
    requires f.Some? <==> g.Some?
    requires forall i :: i in {RightShoulder, LeftWrist, RightWrist, LeftHip, RightHip} ==>
               (Present(f, i) <==> Present(g, i)) && (Present(f, i) ==> f.value[i] == g.value[i])
    ensures GetArmState(flavor, f, width, height) == GetArmState(flavor, g, width, height)
  {
    assert RightShoulder in {RightShoulder, LeftWrist, RightWrist, LeftHip, RightHip};
    assert LeftWrist in {RightShoulder, LeftWrist, RightWrist, LeftHip, RightHip};
    assert RightWrist in {RightShoulder, LeftWrist, RightWrist, LeftHip, RightHip};
    assert LeftHip in {RightShoulder, LeftWrist, RightWrist, LeftHip, RightHip};
    assert RightHip in {RightShoulder, LeftWrist, RightWrist, LeftHip, RightHip};
  }
}
