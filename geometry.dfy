/**
 * Points and poses in the SVG viewBox that both scroll animations draw in,
 * and the browser primitives they sample but that this model does not
 * interpret.
 */
module Geometry {

  datatype Point = Point(x: real, y: real)

  /** A position together with a heading in degrees. */
  datatype Pose = Pose(x: real, y: real, angle: real)

  /**
   * The primitives the animations call: `pointAt` is SVG `getPointAtLength`
   * on the component's path, `atan2Deg(dy, dx)` is `Math.atan2(dy, dx) * (180 / Math.PI)`,
   * and `cosDeg(a)`, `sinDeg(a)` are `Math.cos(a * Math.PI / 180)` and
   * `Math.sin(a * Math.PI / 180)`. They are left uninterpreted.
   */
  datatype Primitives = Primitives(
    pointAt: real -> Point,
    atan2Deg: (real, real) -> real,
    cosDeg: real -> real,
    sinDeg: real -> real)

  /**
   * `Math.min(d + step, length)`: a distance `step` further along the path,
   * clamped to its end.
   */
  function AheadOnPath(d: real, step: real, length: real): (r: real)
    requires step >= 0.0
    ensures r <= length
    ensures r >= d <==> d <= length
    ensures d + step <= length ==> r == d + step
    ensures d + step > length ==> r == length
  {
    if d + step < length then d + step else length
  }

  /**
   * The pose at distance `d` along the path, heading towards the point at
   * distance `ahead`.
   */
  function PoseAt(prims: Primitives, d: real, ahead: real): Pose
  {
    var point := prims.pointAt(d);
    var next := prims.pointAt(ahead);
    Pose(point.x, point.y, prims.atan2Deg(next.y - point.y, next.x - point.x))
  }
}
