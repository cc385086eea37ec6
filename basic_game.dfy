/** The earlier game of src/index.js: the same two balls, caught by the left and
    right wrist and respawned on the next tick, with no expiry timer and no
    exploded markers, starting from fixed positions. */
module BasicGame {
  import opened Playfield

  /** The module-level variables of src/index.js (lines 40-45). */
  datatype State = State(
    video: Video,
    leftCaught: bool,   // ballLeftCaughtFlag == 1
    rightCaught: bool,  // ballRightCaughtFlag == 1
    left: Point,        // (xLeftLocation, yLeftLocation)
    right: Point)       // (xRightLocation, yRightLocation)

  /** The state after a tick, and the draw calls it made, in order. */
  datatype Outcome = Outcome(state: State, draws: seq<Draw>)

  /** One ball on its own: whether it was caught, and where it is. */
  datatype Ball = Ball(caught: bool, location: Point)

  /** A reference definition of one ball's part of a tick, which sees only that
      ball, its spawn position and its wrist: a caught ball moves to its spawn
      position, and it is caught again when the wrist lies inside its box there. */
  function BallTick(b: Ball, spawn: Point, wrist: Point): (r: Ball)
    ensures r.location == if b.caught then spawn else b.location
    ensures r.caught <==> BallInBoundary(wrist, r.location, Radius)
  {
    var at := if b.caught then spawn else b.location;
    Ball(BallInBoundary(wrist, at, Radius), at)
  }

  /** The draw call for a ball after its tick: none if it was caught. */
  function BallDraw(b: Ball, draw: Point -> Draw): seq<Draw> {
    if b.caught then [] else [draw(b.location)]
  }

  /** One call of renderResult (lines 178-231). Wrists are read (the sentinel
      (-1, -1) without a pose); a ball whose flag is set moves to its spawn
      position and its flag is cleared (lines 196-209); then each ball is tested
      against its own wrist: a catch sets its flag and suppresses its draw, a
      miss draws it where it is (lines 215-231). So at the end of the tick a
      ball's flag is set exactly when it was caught in this tick. */
  function TickStep(s: State, pose: Option<Pose>, spawnLeft: Point, spawnRight: Point): (o: Outcome)
    requires InVideo(spawnLeft, s.video) && InVideo(spawnRight, s.video)
    ensures o.state.video == s.video
    ensures s.leftCaught ==> o.state.left == spawnLeft && InVideo(o.state.left, s.video)
    ensures !s.leftCaught ==> o.state.left == s.left
    ensures s.rightCaught ==> o.state.right == spawnRight && InVideo(o.state.right, s.video)
    ensures !s.rightCaught ==> o.state.right == s.right
    ensures o.state.leftCaught <==> BallInBoundary(Wrists(pose).0, o.state.left, Radius)
    ensures o.state.rightCaught <==> BallInBoundary(Wrists(pose).1, o.state.right, Radius)
    ensures o.draws == (if o.state.leftCaught then [] else [LeftBall(o.state.left)])
                       + (if o.state.rightCaught then [] else [RightBall(o.state.right)])
  {
    var (lWrist, rWrist) := Wrists(pose);
    var s1 := if s.leftCaught then s.(left := spawnLeft, leftCaught := false) else s;
    var s2 := if s1.rightCaught then s1.(right := spawnRight, rightCaught := false) else s1;
    var (s3, leftDraw) :=
      if !BallInBoundary(lWrist, s2.left, Radius) then (s2, [LeftBall(s2.left)])
      else (s2.(leftCaught := true), []);
    var (s4, rightDraw) :=
      if !BallInBoundary(rWrist, s3.right, Radius) then (s3, [RightBall(s3.right)])
      else (s3.(rightCaught := true), []);
    Outcome(s4, leftDraw + rightDraw)
  }

  /** The two balls are independent: the tick is the left ball's BallTick with
      the left wrist (keypoint 9) beside the right ball's BallTick with the right
      wrist (keypoint 10), and its draws are theirs, left first. Neither ball's
      outcome depends on the other ball, its spawn position or its wrist. */
  lemma TickIsTwoIndependentBalls(s: State, pose: Option<Pose>, spawnLeft: Point, spawnRight: Point)
    requires InVideo(spawnLeft, s.video) && InVideo(spawnRight, s.video)
    ensures var o := TickStep(s, pose, spawnLeft, spawnRight);
            var l := BallTick(Ball(s.leftCaught, s.left), spawnLeft, Wrists(pose).0);
            var r := BallTick(Ball(s.rightCaught, s.right), spawnRight, Wrists(pose).1);
            && Ball(o.state.leftCaught, o.state.left) == l
            && Ball(o.state.rightCaught, o.state.right) == r
            && o.draws == BallDraw(l, p => LeftBall(p)) + BallDraw(r, p => RightBall(p))
  {
  }

  /** The module state of src/index.js, updated in place by each tick. */
  class Controller {
    const video: Video
    var ballLeftCaught: bool
    var ballRightCaught: bool
    var leftLocation: Point
    var rightLocation: Point

    function AsState(): State
      reads this
    {
      State(video, ballLeftCaught, ballRightCaught, leftLocation, rightLocation)
    }

    /** Both flags clear, the left ball at (600, 200), the right at (200, 200). */
    constructor (video: Video)
      ensures AsState() == State(video, false, false, Point(600.0, 200.0), Point(200.0, 200.0))
    {
      this.video := video;
      ballLeftCaught, ballRightCaught := false, false;
      leftLocation, rightLocation := Point(600.0, 200.0), Point(200.0, 200.0);
    }

    /** One call of renderResult; returns the draw calls it makes. */
    method Tick(pose: Option<Pose>, spawnLeft: Point, spawnRight: Point) returns (draws: seq<Draw>)
      requires InVideo(spawnLeft, video) && InVideo(spawnRight, video)
      modifies this
      ensures Outcome(AsState(), draws) == TickStep(old(AsState()), pose, spawnLeft, spawnRight)
    {
      var lWrist, rWrist := NoWrist, NoWrist;
      if pose.Some? {
        lWrist, rWrist := pose.value.leftWrist, pose.value.rightWrist;
      }

      if ballLeftCaught {
        leftLocation := spawnLeft;
        ballLeftCaught := false;
      }
      if ballRightCaught {
        rightLocation := spawnRight;
        ballRightCaught := false;
      }

      draws := [];
      if !BallInBoundary(lWrist, leftLocation, Radius) {
        draws := draws + [LeftBall(leftLocation)];
      } else {
        ballLeftCaught := true;
      }
      if !BallInBoundary(rWrist, rightLocation, Radius) {
        draws := draws + [RightBall(rightLocation)];
      } else {
        ballRightCaught := true;
      }
    }
  }
}
