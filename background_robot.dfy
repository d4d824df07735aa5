/**
 * The background animation: a robot drives along a decorative track as the
 * page scrolls, pushing a ball that rolls ahead of it and then settles in a
 * target ring.
 */
module BackgroundRobot {
  import opened Geometry

  /** The part of the page scrolled before the animation starts. */
  const AnimationStart: real := 0.15

  /** The progress from which the ball sits in the ring. */
  const BallSettlePoint: real := 0.22

  /** The centre of the target ring. */
  const Ring: Point := Point(1200.0, 280.0)

  /** The first vertex of the track, `M 1850 80`. */
  const PathStart: Point := Point(1850.0, 80.0)

  /** The robot's pose before any move: at the track's first vertex, heading 0. */
  const InitialPose: Pose := Pose(PathStart.x, PathStart.y, 0.0)

  /** How far the robot looks ahead along the track for its heading. */
  const RobotLookAhead: real := 5.0

  /** How far ahead of the robot the rolling ball is. */
  const BallLead: real := 40.0

  /**
   * `Math.max(0, (latest - 0.15) / (1 - 0.15))`: the scroll progress with
   * the first 15 % cut off and the rest stretched to span 0 to 1. Nothing
   * clamps it from above.
   */
  function AdjustedProgress(latest: real): (a: real)
    ensures a >= 0.0
    ensures a == 0.0 <==> latest <= AnimationStart
    ensures latest >= AnimationStart ==> AnimationStart + a * (1.0 - AnimationStart) == latest
    ensures latest == 1.0 ==> a == 1.0
    ensures latest > 1.0 ==> a > 1.0
  {
    var stretched := (latest - AnimationStart) / (1.0 - AnimationStart);
    if 0.0 > stretched then 0.0 else stretched
  }

  /** Scrolling further never moves the animation back. */
  lemma AdjustedProgressMonotone(p: real, q: real)
    requires p <= q
    ensures AdjustedProgress(p) <= AdjustedProgress(q)
  {
  }

  /** The state the change handler writes. */
  datatype Scene = Scene(scrollProgress: real, robot: Pose)

  /** The state before the first change event. */
  const InitialScene: Scene := Scene(0.0, InitialPose)

  /**
   * The `on("change")` handler: it always records the adjusted progress; with
   * a measured track it also moves the robot to the progress' distance,
   * heading towards the point up to 5 units further on.
   */
  function Handle(prims: Primitives, pathLength: real, scene: Scene, latest: real): (s: Scene)
  {
    var progress := AdjustedProgress(latest);
    if pathLength > 0.0 then
      var distance := progress * pathLength;
      Scene(progress, PoseAt(prims, distance, AheadOnPath(distance, RobotLookAhead, pathLength)))
    else Scene(progress, scene.robot)
  }

  /**
   * The progress is recorded on every event; the robot moves only when the
   * track has been measured, and then to a pose that does not depend on where
   * it was before.
   */
  lemma HandleSpec(prims: Primitives, pathLength: real, scene: Scene, other: Scene, latest: real)
    ensures Handle(prims, pathLength, scene, latest).scrollProgress == AdjustedProgress(latest)
    ensures pathLength <= 0.0 ==> Handle(prims, pathLength, scene, latest).robot == scene.robot
    ensures pathLength > 0.0 ==>
              Handle(prims, pathLength, scene, latest).robot == Handle(prims, pathLength, other, latest).robot
  {
  }

  /**
   * The robot's look-ahead point never passes the end of the track and is
   * not behind the robot while the robot is on the track.
   */
  lemma RobotLookAheadOnTrack(progress: real, pathLength: real)
    ensures AheadOnPath(progress * pathLength, RobotLookAhead, pathLength) <= pathLength
    ensures progress * pathLength <= pathLength ==>
              AheadOnPath(progress * pathLength, RobotLookAhead, pathLength) >= progress * pathLength
  {
  }

  /** Whether the ball sits in the ring; recomputed from the progress on every render. */
  predicate Settled(scrollProgress: real)
  {
    !(scrollProgress < BallSettlePoint)
  }

  /** The distance along the track of the rolling ball: 40 ahead of the robot, up to the end. */
  function BallDistance(scrollProgress: real, pathLength: real): (d: real)
    ensures d <= pathLength
    ensures scrollProgress * pathLength <= pathLength ==> d >= scrollProgress * pathLength
  {
    AheadOnPath(scrollProgress * pathLength, BallLead, pathLength)
  }

  /**
   * Where the ball is drawn: in the ring once settled; otherwise on the track
   * ahead of the robot, or, with no measured track, 40 units from the robot
   * in the direction of its heading.
   */
  function Ball(prims: Primitives, pathLength: real, scene: Scene): Point
  {
    if scene.scrollProgress < BallSettlePoint then
      if pathLength > 0.0 then
        prims.pointAt(BallDistance(scene.scrollProgress, pathLength))
      else
        Point(scene.robot.x + prims.cosDeg(scene.robot.angle) * BallLead,
              scene.robot.y + prims.sinDeg(scene.robot.angle) * BallLead)
    else Ring
  }

  /**
   * At or past the settle point the ball is exactly at the ring's centre;
   * before it, on a measured track, it is on the track at its rolling distance.
   */
  lemma BallSpec(prims: Primitives, pathLength: real, scene: Scene)
    ensures Settled(scene.scrollProgress) ==> Ball(prims, pathLength, scene) == Ring
    ensures !Settled(scene.scrollProgress) && pathLength > 0.0 ==>
              Ball(prims, pathLength, scene) == prims.pointAt(BallDistance(scene.scrollProgress, pathLength))
  {
  }

  /**
   * Settling is reversible: after scrolling to any progress and back to
   * one before the settle point, the ball is again on the track, exactly
   * where it would be had the first scroll never happened.
   */
  lemma SettleReversible(prims: Primitives, pathLength: real, scene: Scene, first: real, back: real)
    requires pathLength > 0.0 && AdjustedProgress(back) < BallSettlePoint
    ensures Ball(prims, pathLength, Handle(prims, pathLength, Handle(prims, pathLength, scene, first), back)) ==
            Ball(prims, pathLength, Handle(prims, pathLength, scene, back))
    ensures Ball(prims, pathLength, Handle(prims, pathLength, Handle(prims, pathLength, scene, first), back)) ==
            prims.pointAt(BallDistance(AdjustedProgress(back), pathLength))
  {
  }

  /** `scrollProgress * 720`: the ball's spin in degrees. */
  function BallRotation(scrollProgress: real): (r: real)
    ensures scrollProgress == 0.0 ==> r == 0.0
    ensures scrollProgress == 1.0 ==> r == 720.0
  {
    scrollProgress * 720.0
  }

  /** Each half of the animation spins the ball through one full turn. */
  lemma BallRotationTurns(p: real)
    ensures BallRotation(p + 0.5) == BallRotation(p) + 360.0
  {
  }

  /** The "SCORE!" caption under the ring. */
  predicate ScoreShown(scrollProgress: real)
  {
    scrollProgress > BallSettlePoint
  }

  /** The "BALL" caption above the rolling ball. */
  predicate BallLabelShown(scrollProgress: real)
  {
    scrollProgress < BallSettlePoint
  }

  /**
   * Which caption shows: "BALL" exactly while the ball rolls, "SCORE!" only
   * when it is settled, never both, and at exactly 0.22 the ball is settled
   * yet neither shows.
   */
  lemma Captions(p: real)
    ensures BallLabelShown(p) <==> !Settled(p)
    ensures ScoreShown(p) ==> Settled(p)
    ensures !(ScoreShown(p) && BallLabelShown(p))
    ensures Settled(BallSettlePoint) && !ScoreShown(BallSettlePoint) && !BallLabelShown(BallSettlePoint)
  {
  }

  /**
   * The component's state. `prims` stands for the rendered track path and
   * the trigonometry it is sampled with.
   */
  class BackgroundAnimation {
    const prims: Primitives
    var pathLength: real
    var robotPosition: Pose
    var scrollProgress: real

    /** The state the change handler writes. */
    function View(): Scene
      reads this
    {
      Scene(scrollProgress, robotPosition)
    }

    /** Where the ball is drawn on the current render. */
    function BallPoint(): Point
      reads this
    {
      Ball(prims, pathLength, View())
    }

    /** The initial state: no measured track, progress 0, the robot at the track's start. */
    constructor(prims: Primitives)
      ensures this.prims == prims
      ensures pathLength == 0.0
      ensures View() == InitialScene
    {
      this.prims := prims;
      pathLength := 0.0;
      robotPosition := InitialPose;
      scrollProgress := 0.0;
    }

    /** The mount effect: records `getTotalLength()` of the rendered track. */
    method MeasurePath(totalLength: real)
      modifies this
      ensures pathLength == totalLength
      ensures View() == old(View())
    {
      pathLength := totalLength;
    }

    /** A change event of the smoothed progress. */
    method OnChange(latest: real)
      modifies this
      ensures pathLength == old(pathLength)
      ensures View() == Handle(prims, pathLength, old(View()), latest)
    {
      var adjusted := AdjustedProgress(latest);
      scrollProgress := adjusted;
      if pathLength > 0.0 {
        var distance := adjusted * pathLength;
        var point := prims.pointAt(distance);
        var lookAhead := AheadOnPath(distance, RobotLookAhead, pathLength);
        var nextPoint := prims.pointAt(lookAhead);
        var angle := prims.atan2Deg(nextPoint.y - point.y, nextPoint.x - point.x);
        robotPosition := Pose(point.x, point.y, angle);
        assert robotPosition == PoseAt(prims, distance, lookAhead);
      }
    }
  }

  /**
   * Before the track is measured, events move the progress but leave the
   * robot at the track's first vertex, with the ball 40 units along its
   * heading until the settle point and in the ring from then on.
   */
  method UnmeasuredTrack(prims: Primitives, early: real, late: real)
    returns (robot: Pose, earlyBall: Point, lateBall: Point)
    requires early <= 0.15 && late >= 0.5
    ensures robot == InitialPose
    ensures earlyBall == Point(PathStart.x + prims.cosDeg(0.0) * BallLead, PathStart.y + prims.sinDeg(0.0) * BallLead)
    ensures lateBall == Ring
  {
    var anim := new BackgroundAnimation(prims);
    anim.OnChange(early);
    earlyBall := anim.BallPoint();
    anim.OnChange(late);
    robot := anim.robotPosition;
    lateBall := anim.BallPoint();
  }
}
