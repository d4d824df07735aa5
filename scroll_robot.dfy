/**
 * The mission-track animation: as the page scrolls, a robot icon follows the
 * competition track and a caption names the zone of the track it is in.
 */
module ScrollRobot {
  import opened Geometry

  /** The progress values at which the caption moves to the next zone. */
  const Thresholds: seq<real> := [0.05, 0.15, 0.30, 0.40, 0.50, 0.55, 0.65, 0.75, 0.85, 0.92]

  /** The eleven captions, in track order. */
  const ZoneLabels: seq<string> := [
    "START", "PICKUP BOX", "BLACK PATH", "PATH SPLIT", "GREEN PATH",
    "RE-UPLOAD POINT", "CLIMBING RAMP", "BLUE RING", "RED RING", "GREEN RING",
    "\U{1F3AF} BLACK CENTER - SHOOT!"]

  /** The caption of the zone before the first threshold. */
  const StartLabel: string := "START"

  /** The caption of the last zone, from 0.92 on. */
  const FinalLabel: string := "\U{1F3AF} BLACK CENTER - SHOOT!"

  /**
   * Zone `k` is the half-open interval from threshold `k - 1` (inclusive)
   * up to threshold `k` (exclusive); the first zone has no lower end and the
   * last no upper end.
   */
  predicate InZone(p: real, k: nat)
    requires k < |ZoneLabels|
  {
    (k == 0 || Thresholds[k - 1] <= p) && (k == |Thresholds| || p < Thresholds[k])
  }

  /** The position of the progress `p` in the if/else-if ladder of strict comparisons. */
  function ZoneIndex(p: real): (k: nat)
    ensures k < |ZoneLabels|
    ensures InZone(p, k)
  {
    if p < 0.05 then 0
    else if p < 0.15 then 1
    else if p < 0.30 then 2
    else if p < 0.40 then 3
    else if p < 0.50 then 4
    else if p < 0.55 then 5
    else if p < 0.65 then 6
    else if p < 0.75 then 7
    else if p < 0.85 then 8
    else if p < 0.92 then 9
    else 10
  }

  /** The caption shown for progress `p`. */
  function ZoneLabel(p: real): string
  {
    ZoneLabels[ZoneIndex(p)]
  }

  /** The thresholds are strictly increasing, so the zones do not overlap. */
  lemma ThresholdsIncrease(i: nat, j: nat)
    requires i < j < |Thresholds|
    ensures Thresholds[i] < Thresholds[j]
  {
  }

  /** Every progress lies in exactly one zone: the one the ladder picks. */
  lemma ZoneIndexUnique(p: real, k: nat)
    requires k < |ZoneLabels| && InZone(p, k)
    ensures ZoneIndex(p) == k
  {
    var z := ZoneIndex(p);
    if z < k {
      ThresholdsIncrease(z, k - 1);
    } else if k < z {
      ThresholdsIncrease(k, z - 1);
    }
  }

  /** No two zones share a caption, so the caption determines the zone. */
  lemma LabelsDistinct(i: nat, j: nat)
    requires i < j < |ZoneLabels|
    ensures ZoneLabels[i] != ZoneLabels[j]
  {
  }

  /** The caption is `ZoneLabels[k]` exactly when the progress is in zone `k`. */
  lemma ZoneLabelIff(p: real, k: nat)
    requires k < |ZoneLabels|
    ensures ZoneLabel(p) == ZoneLabels[k] <==> InZone(p, k)
  {
    var z := ZoneIndex(p);
    if InZone(p, k) {
      ZoneIndexUnique(p, k);
    } else if z < k {
      LabelsDistinct(z, k);
    } else if k < z {
      LabelsDistinct(k, z);
    }
  }

  /** Scrolling further never moves the caption back along the track. */
  lemma ZoneIndexMonotone(p: real, q: real)
    requires p <= q
    ensures ZoneIndex(p) <= ZoneIndex(q)
  {
  }

  /**
   * The comparisons are strict, so a threshold belongs to the zone after it;
   * everything below 0.05 (negative values too) is the start, and everything
   * from 0.92 on (values above 1 too) is the final zone.
   */
  lemma ZoneBoundaries(p: real)
    ensures ZoneLabel(0.05) == "PICKUP BOX"
    ensures ZoneLabel(0.92) == FinalLabel
    ensures p < 0.05 ==> ZoneLabel(p) == StartLabel
    ensures p >= 0.92 ==> ZoneLabel(p) == FinalLabel
  {
  }

  /** `latest * pathLength`: the distance along the track for a progress. */
  function Distance(latest: real, pathLength: real): (d: real)
  {
    latest * pathLength
  }

  /**
   * The distance runs from the start of the track at progress 0 to its end
   * at progress 1, and stays on the track in between.
   */
  lemma DistanceOnTrack(latest: real, pathLength: real)
    requires pathLength >= 0.0
    ensures Distance(0.0, pathLength) == 0.0
    ensures Distance(1.0, pathLength) == pathLength
    ensures 0.0 <= latest <= 1.0 ==> 0.0 <= Distance(latest, pathLength) <= pathLength
  {
    if 0.0 <= latest <= 1.0 {
      assert pathLength - latest * pathLength == (1.0 - latest) * pathLength;
    }
  }

  /** What the component shows: the robot's pose and the zone caption. */
  datatype RobotView = RobotView(position: Pose, zone: string)

  /** The view before the first change event. */
  const InitialView: RobotView := RobotView(Pose(0.0, 0.0, 0.0), StartLabel)

  /**
   * The `on("change")` handler for a new smoothed progress `latest`: with a
   * measured track it places the robot at the progress' distance, heading
   * one unit further on, and sets the caption; otherwise nothing changes.
   */
  function Handle(prims: Primitives, pathLength: real, view: RobotView, latest: real): (v: RobotView)
  {
    if pathLength > 0.0 then
      var distance := Distance(latest, pathLength);
      RobotView(PoseAt(prims, distance, AheadOnPath(distance, 1.0, pathLength)), ZoneLabel(latest))
    else view
  }

  /** With no measured track the handler keeps the view it had. */
  lemma HandleUnmeasured(prims: Primitives, pathLength: real, view: RobotView, latest: real)
    requires pathLength <= 0.0
    ensures Handle(prims, pathLength, view, latest) == view
  {
  }

  /**
   * With a measured track the new view depends on the progress alone: the
   * caption is the progress' zone, the robot stands at its distance and heads
   * towards a point no further than the end of the track.
   */
  lemma HandleMeasured(prims: Primitives, pathLength: real, view: RobotView, other: RobotView, latest: real)
    requires pathLength > 0.0
    ensures Handle(prims, pathLength, view, latest) == Handle(prims, pathLength, other, latest)
    ensures Handle(prims, pathLength, view, latest).zone == ZoneLabel(latest)
    ensures Handle(prims, pathLength, view, latest).position ==
              PoseAt(prims, latest * pathLength, AheadOnPath(latest * pathLength, 1.0, pathLength))
  {
  }

  /** Delivering the same progress twice is the same as delivering it once. */
  lemma HandleIdempotent(prims: Primitives, pathLength: real, view: RobotView, latest: real)
    ensures Handle(prims, pathLength, Handle(prims, pathLength, view, latest), latest) ==
            Handle(prims, pathLength, view, latest)
  {
  }

  /**
   * The component's state. `prims` stands for the rendered track path and
   * the trigonometry it is sampled with.
   */
  class RobotAnimation {
    const prims: Primitives
    var pathLength: real
    var position: Pose
    var currentZone: string

    /** The state as drawn. */
    function View(): RobotView
      reads this
    {
      RobotView(position, currentZone)
    }

    /** The initial state: no measured track, the robot at the origin, caption START. */
    constructor(prims: Primitives)
      ensures this.prims == prims
      ensures pathLength == 0.0
      ensures View() == InitialView
    {
      this.prims := prims;
      pathLength := 0.0;
      position := Pose(0.0, 0.0, 0.0);
      currentZone := StartLabel;
    }

    /** The mount effect: records `getTotalLength()` of the rendered track. */
    method MeasurePath(totalLength: real)
      modifies this
      ensures pathLength == totalLength
      ensures View() == old(View())
    {
      pathLength := totalLength;
    }

    /** A change event of the smoothed progress. */
    method OnChange(latest: real)
      modifies this
      ensures pathLength == old(pathLength)
      ensures View() == Handle(prims, pathLength, old(View()), latest)
    {
      if pathLength > 0.0 {
        var distance := latest * pathLength;
        var ahead := AheadOnPath(distance, 1.0, pathLength);
        var point := prims.pointAt(distance);
        var nextPoint := prims.pointAt(ahead);
        var angle := prims.atan2Deg(nextPoint.y - point.y, nextPoint.x - point.x);
        position := Pose(point.x, point.y, angle);
        currentZone := ZoneLabel(latest);
      }
    }
  }

  /**
   * Events that arrive before the track is measured leave the robot at the
   * origin with caption START; once measured, the state follows the progress.
   */
  method EarlyEventsIgnored(prims: Primitives, latest: real, total: real, next: real)
    returns (before: RobotView, after: RobotView)
    requires total > 0.0
    ensures before == InitialView
    ensures after.zone == ZoneLabel(next)
  {
    var robot := new RobotAnimation(prims);
    robot.OnChange(latest);
    before := robot.View();
    robot.MeasurePath(total);
    robot.OnChange(next);
    after := robot.View();
  }
}
