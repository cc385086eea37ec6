/** Positions, pose input, draw calls and the catch test shared by both
    variants of the catch-the-ball game (src/main.js and src/index.js). */
module Playfield {

  datatype Option<T> = None | Some(value: T)

  /** A position in video pixel coordinates. */
  datatype Point = Point(x: real, y: real)

  /** The size of the video frame, VIDEO_WIDTH by VIDEO_HEIGHT. */
  datatype Video = Video(width: real, height: real)

  /** Half-width of the catch box around a ball (the `radius` of both variants). */
  const Radius: real := 10.0

  /** The wrist coordinates a tick uses when the detector reports no pose. */
  const NoWrist: Point := Point(-1.0, -1.0)

  /** The two keypoints of the first detected pose the game reads:
      keypoint 9 (left wrist) and keypoint 10 (right wrist). */
  datatype Pose = Pose(leftWrist: Point, rightWrist: Point)

  /** One call into the camera's drawing layer. */
  datatype Draw =
    | LeftBall(at: Point)      // camera.drawLeftBall
    | RightBall(at: Point)     // camera.drawRightBall
    | ExplodedBall(at: Point)  // camera.drawExplodedBall

  /** The positions `Math.random() * VIDEO_WIDTH`, `Math.random() * VIDEO_HEIGHT`
      can produce: the half-open box [0, width) x [0, height). */
  predicate InVideo(p: Point, v: Video) {
    0.0 <= p.x < v.width && 0.0 <= p.y < v.height
  }

  function Abs(d: real): real {
    if d < 0.0 then -d else d
  }

  /** The catch test: the wrist lies strictly inside the axis-aligned box of
      half-width `radius` centred on the ball. Equivalently, the wrist is less
      than `radius` away from the ball along each axis. */
  function BallInBoundary(wrist: Point, location: Point, radius: real): (hit: bool)
    ensures hit <==> Abs(wrist.x - location.x) < radius && Abs(wrist.y - location.y) < radius
  {
    var xMin := location.x - radius;
    var xMax := location.x + radius;
    var yMin := location.y - radius;
    var yMax := location.y + radius;
    xMin < wrist.x && wrist.x < xMax && yMin < wrist.y && wrist.y < yMax
  }

  /** A wrist on the edge of the box, on either axis, is not a catch. */
  lemma EdgeIsNoCatch(wrist: Point, location: Point, radius: real)
    requires wrist.x == location.x - radius || wrist.x == location.x + radius
          || wrist.y == location.y - radius || wrist.y == location.y + radius
    ensures !BallInBoundary(wrist, location, radius)
  {
  }

  /** The wrists a tick tests: those of the first pose, or the sentinel
      (-1, -1) for both hands when there is no pose. */
  function Wrists(pose: Option<Pose>): (w: (Point, Point))
    ensures pose.None? ==> w == (NoWrist, NoWrist)
    ensures pose.Some? ==> w == (pose.value.leftWrist, pose.value.rightWrist)
  {
    match pose
    case None => (NoWrist, NoWrist)
    case Some(p) => (p.leftWrist, p.rightWrist)
  }

  /** Without a pose, neither hand catches a ball that lies at least
      `Radius - 1` from the origin along one axis. */
  lemma NoPoseMisses(location: Point)
    requires location.x >= Radius - 1.0 || location.y >= Radius - 1.0
    ensures !BallInBoundary(Wrists(None).0, location, Radius)
    ensures !BallInBoundary(Wrists(None).1, location, Radius)
  {
  }

  /** The bound above is tight: the sentinel wrist does catch a ball spawned
      at the corner (0, 0) of the video, although no hand was detected. */
  lemma NoPoseCatchesCornerBall(v: Video)
    requires v.width > 0.0 && v.height > 0.0
    ensures InVideo(Point(0.0, 0.0), v)
    ensures BallInBoundary(Wrists(None).0, Point(0.0, 0.0), Radius)
  {
  }
}
