/** Where the belt and excitation routines put the toolhead before a test:
    the single `[resonance_tester]` test point, or, for the placeholder point
    (-1, -1, -1), the middle of the bed at the height the user gives. */
module TestPoints {

  import opened Common

  /** The placeholder `(-1, -1, -1)` that asks for the bed centre. */
  const Sentinel: Point := Point(-1.0, -1.0, -1.0)

  /** The point a routine moves to, from the configured test points, the
      optional `Z_HEIGHT` parameter and the kinematic travel range. An empty
      list of test points makes `test_points[0]` raise an `IndexError` in the
      routine; it is the error `NoTestPoint` here. */
  function ResolveTestPoint(points: seq<Point>, zHeight: Option<real>, bounds: Bounds): (r: Result<Point>)
    ensures r.Ok? <==> |points| == 1 && (points[0] != Sentinel || zHeight.Some?)
    ensures |points| > 1 ==> r == Err(TooManyTestPoints)
    ensures points == [] ==> r == Err(NoTestPoint)
    ensures |points| == 1 && points[0] == Sentinel && zHeight.None? ==> r == Err(ZHeightRequired)
    ensures r.Ok? && zHeight.Some? ==> r.value.z == zHeight.value
    ensures r.Ok? && zHeight.None? ==> r.value == points[0]
    ensures r.Ok? && points[0] != Sentinel ==> r.value.x == points[0].x && r.value.y == points[0].y
    ensures r.Ok? && points[0] == Sentinel ==>
              r.value.x - bounds.axisMinimum.x == bounds.axisMaximum.x - r.value.x
              && r.value.y - bounds.axisMinimum.y == bounds.axisMaximum.y - r.value.y
  {
    if |points| > 1 then Err(TooManyTestPoints)
    else if points == [] then Err(NoTestPoint)
    else if points[0] == Sentinel then
      if zHeight.None? then Err(ZHeightRequired)
      else Ok(Point(Midpoint(bounds.axisMinimum.x, bounds.axisMaximum.x),
                    Midpoint(bounds.axisMinimum.y, bounds.axisMaximum.y),
                    zHeight.value))
    else
      var p := points[0];
      Ok(Point(p.x, p.y, zHeight.GetOr(p.z)))
  }

  /** The bed centre lies inside the travel range. */
  lemma CentreWithinBounds(points: seq<Point>, zHeight: Option<real>, bounds: Bounds)
    requires bounds.axisMinimum.x <= bounds.axisMaximum.x && bounds.axisMinimum.y <= bounds.axisMaximum.y
    requires ResolveTestPoint(points, zHeight, bounds).Ok? && points[0] == Sentinel
    ensures var p := ResolveTestPoint(points, zHeight, bounds).value;
            bounds.axisMinimum.x <= p.x <= bounds.axisMaximum.x
            && bounds.axisMinimum.y <= p.y <= bounds.axisMaximum.y
  {
  }

  /** The configured point is used as it is unless `Z_HEIGHT` is given, and
      then only its height changes. */
  lemma ConfiguredPointKept(p: Point, zHeight: Option<real>, bounds: Bounds)
    requires p != Sentinel
    ensures ResolveTestPoint([p], zHeight, bounds) == Ok(if zHeight.Some? then p.(z := zHeight.value) else p)
  {
  }
}
