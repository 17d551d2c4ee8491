/** Landmark geometry: turning one pose-estimator landmark into a 3D point, and deciding
    whether a joint angle can be computed from three such points.

    The numeric value of an angle (`acos` of a normalised dot product, in degrees) is
    floating-point trigonometry; the model keeps it opaque as the parameter `acos` and
    states exactly when an angle exists. */
module Landmarks {
  import opened Basics

  /** One landmark as the pose estimator reports it: normalised x/y, depth z, visibility. */
  datatype Landmark = Landmark(x: real, y: real, z: real, visibility: real)

  /** A landmark scaled to frame geometry. */
  datatype Point3 = Point3(x: real, y: real, z: real)

  /** The two copies of the point conversion: the browser code passes z through, the offline
      Python scripts scale it by the frame width. */
  datatype Flavor = Browser | Offline

  /** Anatomical landmark indices used by the classifier and the angles. */
  const LeftShoulder: nat := 11
  const RightShoulder: nat := 12
  const RightElbow: nat := 14
  const LeftWrist: nat := 15
  const RightWrist: nat := 16
  const RightIndex: nat := 20
  const LeftHip: nat := 23
  const RightHip: nat := 24

  /** A landmark counts only with visibility at least 0.5. */
  const MinVisibility: real := 0.5

  /** Smallest length of a ray for an angle to be defined (1e-5), and its square. */
  const MinRay: real := 0.00001
  const MinRaySquared: real := 0.0000000001

  /** The joint exists: landmarks were detected, the index is in range and visible enough. */
  predicate Present(frame: Option<seq<Landmark>>, index: nat)
  {
    frame.Some? && index < |frame.value| && frame.value[index].visibility >= MinVisibility
  }

  /** `get3DPoint` / `get_3d_point`: the scaled point, or None for an absent joint. */
  function GetPoint(flavor: Flavor, frame: Option<seq<Landmark>>, index: nat, width: real, height: real): (r: Option<Point3>)
    ensures r.Some? <==> Present(frame, index)
    ensures r.Some? ==> r.value.x == frame.value[index].x * width && r.value.y == frame.value[index].y * height
    ensures r.Some? && flavor == Browser ==> r.value.z == frame.value[index].z
    ensures r.Some? && flavor == Offline ==> r.value.z == frame.value[index].z * width
  {
    if frame.None? || index >= |frame.value| || frame.value[index].visibility < MinVisibility then None
    else Some(Scale(flavor, frame.value[index], width, height))
  }

  /** A landmark in frame geometry: x by width, y by height, z as the flavor says. */
  function Scale(flavor: Flavor, l: Landmark, width: real, height: real): Point3
  {
    Point3(l.x * width, l.y * height, if flavor == Browser then l.z else l.z * width)
  }

  function Minus(a: Point3, b: Point3): Point3
  {
    Point3(a.x - b.x, a.y - b.y, a.z - b.z)
  }

  function SquaredNorm(v: Point3): real
  {
    v.x * v.x + v.y * v.y + v.z * v.z
  }

  /** A ray is too short when its length is below 1e-5; on squares, below 1e-10. */
  predicate ShortRay(v: Point3)
  {
    SquaredNorm(v) < MinRaySquared
  }

  /** The threshold on squares is the same test as the source's threshold on lengths. */
  lemma ShortRayIsShortLength(v: Point3, length: real)
    requires length >= 0.0 && length * length == SquaredNorm(v)
    ensures ShortRay(v) <==> length < MinRay
  {
    RootBelow(length, SquaredNorm(v), MinRay);
    assert MinRay * MinRay == MinRaySquared;
  }

  /** `calculateAngle` / `calculate_angle`: the angle at `b`, defined exactly when all three
      points exist and neither ray `b->a` nor `b->c` is degenerate. */
  function CalculateAngle(a: Option<Point3>, b: Option<Point3>, c: Option<Point3>,
                          acos: (Point3, Point3, Point3) -> real): (r: Option<real>)
    ensures r.None? <==> a.None? || b.None? || c.None?
                         || ShortRay(Minus(a.value, b.value)) || ShortRay(Minus(c.value, b.value))
    ensures r.Some? ==> r.value == acos(a.value, b.value, c.value)
  {
    if a.None? || b.None? || c.None? then None
    else if SquaredNorm(Minus(a.value, b.value)) < MinRaySquared
         || SquaredNorm(Minus(c.value, b.value)) < MinRaySquared then None
    else Some(acos(a.value, b.value, c.value))
  }

  /** The angle at landmark `vertex` between the rays to landmarks `a` and `c`, stated on the
      landmarks themselves: defined exactly when all three are present and neither scaled
      ray is degenerate, and then the acos of the three scaled points. */
  ghost function JointAngle(flavor: Flavor, frame: Option<seq<Landmark>>, a: nat, vertex: nat, c: nat,
                            width: real, height: real, acos: (Point3, Point3, Point3) -> real): Option<real>
  {
    if Present(frame, a) && Present(frame, vertex) && Present(frame, c) then
      var pa := Scale(flavor, frame.value[a], width, height);
      var pv := Scale(flavor, frame.value[vertex], width, height);
      var pc := Scale(flavor, frame.value[c], width, height);
      if ShortRay(Minus(pa, pv)) || ShortRay(Minus(pc, pv)) then None else Some(acos(pa, pv, pc))
    else None
  }

  /** The three joint angles the capture records for one frame. */
  datatype Angles = Angles(elbow: Option<real>, wrist: Option<real>, arm: Option<real>)

  /** Elbow (shoulder-elbow-wrist), wrist (elbow-wrist-index) and arm
      (left shoulder-right shoulder-elbow) angles of one frame. */
  function FrameAngles(flavor: Flavor, frame: Option<seq<Landmark>>, width: real, height: real,
                       acos: (Point3, Point3, Point3) -> real): (r: Angles)
    ensures r.elbow == JointAngle(flavor, frame, RightShoulder, RightElbow, RightWrist, width, height, acos)
    ensures r.wrist == JointAngle(flavor, frame, RightElbow, RightWrist, RightIndex, width, height, acos)
    ensures r.arm == JointAngle(flavor, frame, LeftShoulder, RightShoulder, RightElbow, width, height, acos)
  {
    var shoulder := GetPoint(flavor, frame, RightShoulder, width, height);
    var elbow := GetPoint(flavor, frame, RightElbow, width, height);
    var wrist := GetPoint(flavor, frame, RightWrist, width, height);
    var index := GetPoint(flavor, frame, RightIndex, width, height);
    var leftShoulder := GetPoint(flavor, frame, LeftShoulder, width, height);
    Angles(CalculateAngle(shoulder, elbow, wrist, acos),
           CalculateAngle(elbow, wrist, index, acos),
           CalculateAngle(leftShoulder, shoulder, elbow, acos))
  }
}
