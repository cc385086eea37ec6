/** The full game of src/main.js. A left ball and a right ball are caught by the
    left and right wrist. The left ball carries a one-shot expiry timer: when it
    fires before the ball is caught, the ball's position becomes one of at most
    three exploded markers and the ball respawns. The right ball has no timer but
    is moved by a periodic callback. */
module TimedGame {
  import opened Playfield

  /** The module-level variables of src/main.js that the game logic updates. */
  datatype State = State(
    video: Video,
    leftCaught: bool,        // ballLeftCaughtFlag == 1
    rightCaught: bool,       // ballRightCaughtFlag == 1
    left: Point,             // (xLeftLocation, yLeftLocation)
    right: Point,            // (xRightLocation, yRightLocation)
    numExploded: nat,        // numOfExplodedBall
    exploded1: Point,        // (xLeftExploded1Location, yLeftExploded1Location)
    exploded2: Point,
    exploded3: Point,
    timeoutId: nat,          // timeoutID: the handle of the timer armed last
    pendingTimers: set<nat>, // handles of expiry timers neither fired nor cleared
    nextTimerId: nat)        // the handle the next setTimeout returns

  /** The state after a callback, and the draw calls it made, in order. */
  datatype Outcome = Outcome(state: State, draws: seq<Draw>)

  /** The state before the first tick: both flags set, so that the first tick
      spawns both balls, no markers and no timer. The source leaves the ball
      locations and the timer handle undefined; they are never read before
      they are assigned (see Inv). */
  function Init(video: Video): (s: State)
    ensures Inv(s) && s.leftCaught && s.rightCaught
    ensures Markers(s) == [] && s.pendingTimers == {}
  {
    State(video, true, true, Point(0.0, 0.0), Point(0.0, 0.0), 0,
          Point(0.0, 0.0), Point(0.0, 0.0), Point(0.0, 0.0), 0, {}, 1)
  }

  /** The first three elements of a sequence. */
  function FirstThree(m: seq<Point>): seq<Point> {
    if |m| <= 3 then m else m[..3]
  }

  /** The recorded exploded markers, in slot order: the first
      min(numOfExplodedBall, 3) of the three slots. */
  function Markers(s: State): (m: seq<Point>)
    ensures |m| <= 3
    ensures |m| == if s.numExploded <= 3 then s.numExploded else 3
  {
    [s.exploded1, s.exploded2, s.exploded3][..if s.numExploded <= 3 then s.numExploded else 3]
  }

  /** The exploded slots and their count are the same in both states. */
  predicate SameMarkers(s: State, r: State) {
    r.numExploded == s.numExploded && r.exploded1 == s.exploded1
    && r.exploded2 == s.exploded2 && r.exploded3 == s.exploded3
  }

  /** What holds between callbacks. At most one expiry timer is pending, and one
      is pending exactly when the left ball is live (its flag is 0); it is the
      one whose handle is in timeoutID. Handles are issued in increasing order,
      so the next one differs from every handle issued so far. A live ball lies
      inside the video, and so does every recorded marker; the count never
      exceeds 3. */
  ghost predicate Inv(s: State)
    ensures Inv(s) ==> |s.pendingTimers| <= 1 && (s.pendingTimers == {} <==> s.leftCaught)
    ensures Inv(s) ==> forall id :: id in s.pendingTimers ==> id < s.nextTimerId
  {
    && s.numExploded <= 3
    && s.pendingTimers == (if s.leftCaught then {} else {s.timeoutId})
    && s.timeoutId < s.nextTimerId
    && (!s.leftCaught ==> InVideo(s.left, s.video))
    && (!s.rightCaught ==> InVideo(s.right, s.video))
    && (s.numExploded >= 1 ==> InVideo(s.exploded1, s.video))
    && (s.numExploded >= 2 ==> InVideo(s.exploded2, s.video))
    && (s.numExploded >= 3 ==> InVideo(s.exploded3, s.video))
  }

  /** Lines 206-220 of a tick: a caught left ball moves to its spawn position
      and arms a new expiry timer; a caught right ball moves to its spawn
      position with no timer; both flags are then 0. A live ball keeps its
      position and the timers are left alone. */
  function Respawn(s: State, spawnLeft: Point, spawnRight: Point): (r: State)
    requires InVideo(spawnLeft, s.video) && InVideo(spawnRight, s.video)
    ensures !r.leftCaught && !r.rightCaught
    ensures s.leftCaught ==> r.left == spawnLeft && r.timeoutId == s.nextTimerId
                             && r.pendingTimers == s.pendingTimers + {r.timeoutId}
    ensures !s.leftCaught ==> r.left == s.left && r.timeoutId == s.timeoutId
                              && r.pendingTimers == s.pendingTimers
    ensures r.right == if s.rightCaught then spawnRight else s.right
    ensures r.video == s.video && SameMarkers(s, r)
    ensures Inv(s) ==> Inv(r) && r.pendingTimers == {r.timeoutId}
  {
    var placed :=
      if s.leftCaught then
        s.(left := spawnLeft, timeoutId := s.nextTimerId,
           pendingTimers := s.pendingTimers + {s.nextTimerId},
           nextTimerId := s.nextTimerId + 1, leftCaught := false)
      else s;
    if placed.rightCaught then placed.(right := spawnRight, rightCaught := false)
    else placed
  }

  /** Lines 222-242 of a tick: one exploded marker drawn per recorded slot, in
      slot order, at its recorded position. */
  function ExplodedDraws(s: State): (d: seq<Draw>)
    ensures |d| == |Markers(s)|
    ensures forall i :: 0 <= i < |d| ==> d[i] == ExplodedBall(Markers(s)[i])
  {
    if s.numExploded > 0 then
      [ExplodedBall(s.exploded1)] +
      if s.numExploded > 1 then
        [ExplodedBall(s.exploded2)] +
        if s.numExploded > 2 then [ExplodedBall(s.exploded3)] else []
      else []
    else []
  }

  /** Lines 246-263 of a tick. A left wrist inside the left ball's box catches
      it: its flag is set, the timer in timeoutID is cleared and the ball is not
      drawn. Otherwise the ball is drawn where it is, and flag and timers are
      unchanged. The right ball is tested against the right wrist alone, in the
      same way, with no timer. */
  function ResolveCatches(s: State, wrists: (Point, Point)): (o: Outcome)
    ensures var leftHit := BallInBoundary(wrists.0, s.left, Radius);
            var rightHit := BallInBoundary(wrists.1, s.right, Radius);
            && o.state.leftCaught == (leftHit || s.leftCaught)
            && o.state.rightCaught == (rightHit || s.rightCaught)
            && o.state.pendingTimers == (if leftHit then s.pendingTimers - {s.timeoutId} else s.pendingTimers)
            && o.draws == (if leftHit then [] else [LeftBall(s.left)])
                          + (if rightHit then [] else [RightBall(s.right)])
    ensures o.state.left == s.left && o.state.right == s.right && o.state.video == s.video
    ensures o.state.timeoutId == s.timeoutId && SameMarkers(s, o.state)
    ensures Inv(s) ==> Inv(o.state)
  {
    var (lWrist, rWrist) := wrists;
    var (afterLeft, leftDraw) :=
      if !BallInBoundary(lWrist, s.left, Radius) then (s, [LeftBall(s.left)])
      else (s.(leftCaught := true, pendingTimers := s.pendingTimers - {s.timeoutId}), []);
    var (afterRight, rightDraw) :=
      if !BallInBoundary(rWrist, s.right, Radius) then (afterLeft, [RightBall(s.right)])
      else (afterLeft.(rightCaught := true), []);
    Outcome(afterRight, leftDraw + rightDraw)
  }

  /** One call of renderResult (lines 188-263): read the wrists, respawn the
      caught balls, draw the markers, then test both balls. At the end of the
      tick a ball's flag is set exactly when its wrist lies inside its box at
      the ball's position for this tick; exactly then is no expiry timer left
      for the left ball. The drawn calls are the markers in slot order, then
      each ball not caught, left before right. */
  function TickStep(s: State, pose: Option<Pose>, spawnLeft: Point, spawnRight: Point): (o: Outcome)
    requires InVideo(spawnLeft, s.video) && InVideo(spawnRight, s.video)
    ensures o.state.left == (if s.leftCaught then spawnLeft else s.left)
    ensures o.state.right == (if s.rightCaught then spawnRight else s.right)
    ensures o.state.leftCaught == BallInBoundary(Wrists(pose).0, o.state.left, Radius)
    ensures o.state.rightCaught == BallInBoundary(Wrists(pose).1, o.state.right, Radius)
    ensures o.draws == ExplodedDraws(s)
                       + (if o.state.leftCaught then [] else [LeftBall(o.state.left)])
                       + (if o.state.rightCaught then [] else [RightBall(o.state.right)])
    ensures o.state.video == s.video && SameMarkers(s, o.state)
    ensures Inv(s) ==> Inv(o.state) && (o.state.pendingTimers == {} <==> o.state.leftCaught)
  {
    var placed := Respawn(s, spawnLeft, spawnRight);
    var resolved := ResolveCatches(placed, Wrists(pose));
    Outcome(resolved.state, ExplodedDraws(placed) + resolved.draws)
  }

  /** The expiry timer with handle `id` fires and runs setExplodedBall (lines
      277-297). While fewer than three markers are recorded, the left ball's
      position becomes the next marker, is drawn, and the count grows by one;
      the earlier markers are unchanged. With three recorded, nothing is
      recorded or drawn. In every case the left flag is set, so the next tick
      respawns the left ball. Under Inv the fired timer is the only one, so none
      is left pending. */
  function Expire(s: State, id: nat): (o: Outcome)
    requires id in s.pendingTimers
    ensures o.state.leftCaught && o.state.pendingTimers == s.pendingTimers - {id}
    ensures s.numExploded < 3 ==> o.state.numExploded == s.numExploded + 1
                                   && o.draws == [ExplodedBall(s.left)]
    ensures s.numExploded >= 3 ==> SameMarkers(s, o.state) && o.draws == []
    ensures o.state.left == s.left && o.state.right == s.right && o.state.video == s.video
    ensures o.state.rightCaught == s.rightCaught && o.state.timeoutId == s.timeoutId
    ensures Inv(s) ==> Inv(o.state) && o.state.pendingTimers == {} && !s.leftCaught
  {
    var fired := s.(pendingTimers := s.pendingTimers - {id});
    var recorded :=
      if s.numExploded == 0 then
        Outcome(fired.(exploded1 := s.left, numExploded := 1), [ExplodedBall(s.left)])
      else if s.numExploded == 1 then
        Outcome(fired.(exploded2 := s.left, numExploded := 2), [ExplodedBall(s.left)])
      else if s.numExploded == 2 then
        Outcome(fired.(exploded3 := s.left, numExploded := 3), [ExplodedBall(s.left)])
      else
        Outcome(fired, []);
    Outcome(recorded.state.(leftCaught := true), recorded.draws)
  }

  /** An expiry appends the left ball's position to the markers while fewer
      than three are recorded, and leaves the first three as they are. */
  lemma ExpireRecordsMarker(s: State, id: nat)
    requires id in s.pendingTimers
    ensures Markers(Expire(s, id).state) == FirstThree(Markers(s) + [s.left])
  {
    var r := Expire(s, id).state;
    if s.numExploded == 0 {
      assert Markers(r) == [s.left];
    } else if s.numExploded == 1 {
      assert Markers(r) == [s.exploded1, s.left];
    } else if s.numExploded == 2 {
      assert Markers(r) == [s.exploded1, s.exploded2, s.left];
    } else {
      assert SameMarkers(s, r);
      assert (Markers(s) + [s.left])[..3] == Markers(s);
    }
  }

  /** The periodic callback of app (lines 319-322): the right ball moves to `p`
      and nothing else changes. */
  function Relocate(s: State, p: Point): (r: State)
    requires InVideo(p, s.video)
    ensures r.right == p && r.(right := s.right) == s
    ensures Inv(s) ==> Inv(r)
  {
    s.(right := p)
  }

  /** A fired timer finds the left ball live, and it is the timer armed last. */
  lemma FiredTimerFindsLiveBall(s: State, id: nat)
    requires Inv(s) && id in s.pendingTimers
    ensures !s.leftCaught && id == s.timeoutId
  {
  }

  /** The callbacks that interleave on the page's one thread. */
  datatype Event =
    | Frame(pose: Option<Pose>, spawnLeft: Point, spawnRight: Point)  // renderResult
    | Timeout(id: nat)                                                // an expiry timer fires
    | Interval(location: Point)                                       // the relocation interval fires

  /** What the environment guarantees of a callback: spawn positions come from
      Math.random() scaled to the video, and only a pending timer can fire. */
  predicate Enabled(s: State, e: Event) {
    match e
    case Frame(_, l, r) => InVideo(l, s.video) && InVideo(r, s.video)
    case Timeout(id) => id in s.pendingTimers
    case Interval(p) => InVideo(p, s.video)
  }

  function Step(s: State, e: Event): (o: Outcome)
    requires Enabled(s, e)
    ensures o.state.video == s.video
    ensures Inv(s) ==> Inv(o.state)
  {
    match e
    case Frame(pose, l, r) => TickStep(s, pose, l, r)
    case Timeout(id) => Expire(s, id)
    case Interval(p) => Outcome(Relocate(s, p), [])
  }

  /** Every callback of the sequence is enabled in the state it meets. */
  predicate Admissible(s: State, evs: seq<Event>)
    decreases |evs|
  {
    evs == [] || (Enabled(s, evs[0]) && Admissible(Step(s, evs[0]).state, evs[1..]))
  }

  /** The state after running a sequence of callbacks. Inv holds after every
      admissible sequence, so it holds in every reachable state. */
  function Run(s: State, evs: seq<Event>): (r: State)
    requires Admissible(s, evs)
    ensures r.video == s.video
    ensures Inv(s) ==> Inv(r)
    decreases |evs|
  {
    if evs == [] then s else Run(Step(s, evs[0]).state, evs[1..])
  }

  /** The position a callback adds to the record of expiries: the left ball's
      position if it is an expiry, nothing otherwise. */
  function ExpiredBy(s: State, e: Event): seq<Point> {
    if e.Timeout? then [s.left] else []
  }

  /** The left ball's position at each expiry along a sequence of callbacks. */
  function Expiries(s: State, evs: seq<Event>): seq<Point>
    requires Admissible(s, evs)
    decreases |evs|
  {
    if evs == [] then [] else ExpiredBy(s, evs[0]) + Expiries(Step(s, evs[0]).state, evs[1..])
  }

  lemma FirstThreeShort(m: seq<Point>)
    requires |m| <= 3
    ensures FirstThree(m) == m
  {
  }

  lemma FirstThreeAbsorbs(a: seq<Point>, b: seq<Point>)
    ensures FirstThree(FirstThree(a) + b) == FirstThree(a + b)
  {
    if |a| > 3 {
      assert (a + b)[..3] == a[..3];
    }
  }

  lemma FirstThreeAppend(m: seq<Point>, here: seq<Point>, later: seq<Point>)
    ensures FirstThree(FirstThree(m + here) + later) == FirstThree(m + (here + later))
  {
    FirstThreeAbsorbs(m + here, later);
    assert m + here + later == m + (here + later);
  }

  /** One callback changes the markers only by an expiry, which appends the
      left ball's position when fewer than three are recorded. */
  lemma StepMarkers(s: State, e: Event)
    requires Enabled(s, e)
    ensures Markers(Step(s, e).state) == FirstThree(Markers(s) + ExpiredBy(s, e))
  {
    var r := Step(s, e).state;
    if e.Timeout? {
      ExpireRecordsMarker(s, e.id);
    } else {
      assert SameMarkers(s, r);
      assert Markers(s) + [] == Markers(s);
      FirstThreeShort(Markers(s));
    }
  }

  /** The markers after any admissible sequence of callbacks are the first three
      of the markers before it followed by the left ball's positions at each
      expiry, in order. */
  lemma {:induction false} MarkersAreFirstExpiries(s: State, evs: seq<Event>)
    requires Admissible(s, evs)
    ensures Markers(Run(s, evs)) == FirstThree(Markers(s) + Expiries(s, evs))
    decreases |evs|
  {
    if evs == [] {
      assert Markers(s) + [] == Markers(s);
      FirstThreeShort(Markers(s));
    } else {
      var next := Step(s, evs[0]).state;
      var here := ExpiredBy(s, evs[0]);
      var later := Expiries(next, evs[1..]);
      MarkersAreFirstExpiries(next, evs[1..]);
      StepMarkers(s, evs[0]);
      FirstThreeAppend(Markers(s), here, later);
    }
  }

  /** In every state the game can reach from its start: at most one expiry timer
      is pending, one is pending exactly when the left ball is live, the count
      is at most 3, and the markers are the left ball's positions at the first
      three expiries. */
  lemma Reachable(video: Video, evs: seq<Event>)
    requires Admissible(Init(video), evs)
    ensures var s := Run(Init(video), evs);
            && |s.pendingTimers| <= 1
            && (s.pendingTimers == {} <==> s.leftCaught)
            && s.numExploded <= 3
            && Markers(s) == FirstThree(Expiries(Init(video), evs))
  {
    MarkersAreFirstExpiries(Init(video), evs);
    assert [] + Expiries(Init(video), evs) == Expiries(Init(video), evs);
  }

  /** The module state of src/main.js (lines 40-55), with the browser's timer
      table beside it, updated in place by the page's callbacks. */
  class Controller {
    const video: Video
    var ballLeftCaught: bool
    var ballRightCaught: bool
    var leftLocation: Point
    var rightLocation: Point
    var numOfExplodedBall: nat
    var leftExploded1: Point
    var leftExploded2: Point
    var leftExploded3: Point
    var timeoutId: nat
    // The two fields below are not variables of src/main.js: they stand for
    // the browser's table of timers, which setTimeout and clearTimeout update.
    var pendingTimers: set<nat>
    var nextTimerId: nat

    function AsState(): State
      reads this
    {
      State(video, ballLeftCaught, ballRightCaught, leftLocation, rightLocation,
            numOfExplodedBall, leftExploded1, leftExploded2, leftExploded3,
            timeoutId, pendingTimers, nextTimerId)
    }

    ghost predicate Valid()
      reads this
    {
      Inv(AsState())
    }

    constructor (video: Video)
      ensures AsState() == Init(video) && Valid()
    {
      this.video := video;
      ballLeftCaught, ballRightCaught := true, true;
      leftLocation, rightLocation := Point(0.0, 0.0), Point(0.0, 0.0);
      numOfExplodedBall := 0;
      leftExploded1, leftExploded2, leftExploded3 := Point(0.0, 0.0), Point(0.0, 0.0), Point(0.0, 0.0);
      timeoutId, pendingTimers, nextTimerId := 0, {}, 1;
    }

    /** setTimeout: a new pending timer with a fresh handle. */
    method SetTimeout() returns (id: nat)
      modifies this`pendingTimers, this`nextTimerId
      ensures id == old(nextTimerId) && nextTimerId == old(nextTimerId) + 1
      ensures pendingTimers == old(pendingTimers) + {id}
    {
      id := nextTimerId;
      pendingTimers := pendingTimers + {id};
      nextTimerId := nextTimerId + 1;
    }

    /** clearTimeout: the timer with this handle no longer fires; a no-op for a
        timer that already fired or was cleared. */
    method ClearTimeout(id: nat)
      modifies this`pendingTimers
      ensures pendingTimers == old(pendingTimers) - {id}
    {
      pendingTimers := pendingTimers - {id};
    }

    /** One call of renderResult; returns the draw calls it makes. */
    method Tick(pose: Option<Pose>, spawnLeft: Point, spawnRight: Point) returns (draws: seq<Draw>)
      requires Valid() && InVideo(spawnLeft, video) && InVideo(spawnRight, video)
      modifies this
      ensures Valid()
      ensures Outcome(AsState(), draws) == TickStep(old(AsState()), pose, spawnLeft, spawnRight)
    {
      var lWrist, rWrist := NoWrist, NoWrist;
      if pose.Some? {
        lWrist, rWrist := pose.value.leftWrist, pose.value.rightWrist;
      }
      RespawnCaught(spawnLeft, spawnRight);
      var markers := DrawExploded();
      var balls := CatchOrDraw(lWrist, rWrist);
      draws := markers + balls;
    }

    /** Lines 206-220 of renderResult. */
    method RespawnCaught(spawnLeft: Point, spawnRight: Point)
      requires InVideo(spawnLeft, video) && InVideo(spawnRight, video)
      modifies this
      ensures AsState() == Respawn(old(AsState()), spawnLeft, spawnRight)
    {
      if ballLeftCaught {
        leftLocation := spawnLeft;
        timeoutId := SetTimeout();
        ballLeftCaught := false;
      }
      if ballRightCaught {
        rightLocation := spawnRight;
        ballRightCaught := false;
      }
    }

    /** Lines 222-242 of renderResult. */
    method DrawExploded() returns (draws: seq<Draw>)
      ensures draws == ExplodedDraws(AsState())
    {
      draws := [];
      if numOfExplodedBall > 0 {
        draws := draws + [ExplodedBall(leftExploded1)];
        if numOfExplodedBall > 1 {
          draws := draws + [ExplodedBall(leftExploded2)];
          if numOfExplodedBall > 2 {
            draws := draws + [ExplodedBall(leftExploded3)];
          }
        }
      }
    }

    /** Lines 246-263 of renderResult. */
    method CatchOrDraw(lWrist: Point, rWrist: Point) returns (draws: seq<Draw>)
      modifies this
      ensures Outcome(AsState(), draws) == ResolveCatches(old(AsState()), (lWrist, rWrist))
    {
      draws := [];
      if !BallInBoundary(lWrist, leftLocation, Radius) {
        draws := draws + [LeftBall(leftLocation)];
      } else {
        ballLeftCaught := true;
        ClearTimeout(timeoutId);
      }
      if !BallInBoundary(rWrist, rightLocation, Radius) {
        draws := draws + [RightBall(rightLocation)];
      } else {
        ballRightCaught := true;
      }
    }

    /** The pending expiry timer `id` fires: setExplodedBall. */
    method FireExpiry(id: nat) returns (draws: seq<Draw>)
      requires Valid() && id in pendingTimers
      modifies this
      ensures Valid()
      ensures Outcome(AsState(), draws) == Expire(old(AsState()), id)
    {
      pendingTimers := pendingTimers - {id};
      draws := [];
      if numOfExplodedBall == 0 {
        draws := [ExplodedBall(leftLocation)];
        leftExploded1 := leftLocation;
        numOfExplodedBall := numOfExplodedBall + 1;
      } else if numOfExplodedBall == 1 {
        draws := [ExplodedBall(leftLocation)];
        leftExploded2 := leftLocation;
        numOfExplodedBall := numOfExplodedBall + 1;
      } else if numOfExplodedBall == 2 {
        draws := [ExplodedBall(leftLocation)];
        leftExploded3 := leftLocation;
        numOfExplodedBall := numOfExplodedBall + 1;
      }
      ballLeftCaught := true;
    }

    /** The relocation interval fires with the new position `p`. */
    method RelocateRight(p: Point)
      requires Valid() && InVideo(p, video)
      modifies this
      ensures Valid()
      ensures AsState() == Relocate(old(AsState()), p)
    {
      rightLocation := p;
    }
  }
}
