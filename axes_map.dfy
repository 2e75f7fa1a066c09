/** `AXES_MAP_CALIBRATION_WEB`: with the single accelerometer that serves
    both X and Y, and no `axes_map` other than the identity set on it, raise
    the acceleration (corner velocity 5), disable shaping, record three 30 mm
    moves along X, then Y, then Z from a corner of a square centred on the
    bed, restore everything and upload the three recordings to
    `/process/axes_map`. */
module AxesMap {

  import opened Common
  import opened Text
  import opened Machines
  import opened Guard
  import opened Uploads

  /** The parameters of the command after `gcmd` has parsed them. */
  datatype AxesMapParams = AxesMapParams(url: string, zHeight: real, speed: real, accel: int, travelSpeed: real)

  const SegmentLength: real := 30.0

  /** A configured `axes_map` is accepted when there is none, or when it reads
      `x,y,z` once stripped and with its spaces removed. */
  predicate AxesMapAccepted(axesMap: Option<string>) {
    axesMap.None? || RemoveAll(Strip(axesMap.value), ' ') == "x,y,z"
  }

  /** The start corner and the end of each of the three segments. */
  function AxesMapPlan(bounds: Bounds, z: real): (plan: seq<Point>)
    ensures |plan| == 4
  {
    var midX := Midpoint(bounds.axisMinimum.x, bounds.axisMaximum.x);
    var midY := Midpoint(bounds.axisMinimum.y, bounds.axisMaximum.y);
    var half := SegmentLength / 2.0;
    [Point(midX - half, midY - half, z),
     Point(midX + half, midY - half, z),
     Point(midX + half, midY + half, z),
     Point(midX + half, midY + half, z + SegmentLength)]
  }

  const AxesMapLabels: seq<string> := ["axesmap_X", "axesmap_Y", "axesmap_Z"]

  /** One recorded segment. */
  function Segment(chip: string, target: Point, extruder: real, speed: real, testName: string): seq<Event> {
    [StartMeasurement(chip), Dwell(0.5), Move(target, extruder, speed), Dwell(0.5),
     StopMeasurement(testName), GetLatestDataFile(testName)]
  }

  /** The travel to the start corner and the three segments. */
  function AxesMapMotion(chip: string, plan: seq<Point>, extruder: real, p: AxesMapParams): seq<Event>
    requires |plan| == 4
  {
    [Move(plan[0], extruder, p.travelSpeed), Dwell(0.5)]
    + Segment(chip, plan[1], extruder, p.speed, AxesMapLabels[0]) + [Dwell(0.5)]
    + Segment(chip, plan[2], extruder, p.speed, AxesMapLabels[1]) + [Dwell(0.5)]
    + Segment(chip, plan[3], extruder, p.speed, AxesMapLabels[2])
    + [WaitForFileWrites]
  }

  /** The trace up to the uploads once both checks pass. */
  function AxesMapMeasured(cfg: PrinterConfig, p: AxesMapParams, s: MachineState, chip: string): seq<Event> {
    Enter(s.limits, s.shaper.Some?, p.accel as real, true)
    + AxesMapMotion(chip, AxesMapPlan(cfg.bounds, p.zHeight), s.extruder, p)
    + Exit(s.limits, s.shaper.Some?, true)
    + [WaitMoves]
  }

  function AxesMapJobs(p: AxesMapParams): seq<UploadJob> {
    Jobs(BaseUrl(p.url), "axes_map", AxesMapLabels)
  }

  /** The accelerometer serving X and Y is a chip of the printer, and its
      `axes_map` is absent or the identity. */
  predicate AxesMapChecksPass(cfg: PrinterConfig) {
    var chip := FindAxisAccelerometer(cfg, "xy");
    IsAccelerometer(cfg, chip) && AxesMapAccepted(cfg.chips[chip.value].axesMap)
  }

  /** What the routine appends to the trace of a machine in state `s`. */
  function AxesMapRun(cfg: PrinterConfig, p: AxesMapParams, s: MachineState, transport: (string, string) -> Delivery): Run {
    var chip := FindAxisAccelerometer(cfg, "xy");
    if !IsAccelerometer(cfg, chip) then Run([], Some(MultiAccelerometerUnsupported))
    else if !AxesMapAccepted(cfg.chips[chip.value].axesMap) then Run([], Some(AxesMapAlreadySet(chip.value)))
    else
      var up := UploadAll(AxesMapJobs(p), transport);
      Run(AxesMapMeasured(cfg, p, s, chip.value) + up.events, up.failure)
  }

  // ---------------------------------------------------------------------------
  // The axes_map check

  /** An accepted `axes_map` is `x,y,z` up to whitespace. */
  lemma AcceptedIsIdentity(axesMap: string)
    requires AxesMapAccepted(Some(axesMap))
    ensures Visible(axesMap) == "x,y,z"
  {
    VisibleRemoveAll(Strip(axesMap), ' ');
    VisibleStrip(axesMap);
    IdentityVisible("x,y,z");
  }

  lemma IdentityVisible(id: string)
    requires id == "x,y,z"
    ensures Visible(id) == id
  {
    VisibleOfSolid(id);
  }

  /** When spaces are the only whitespace in it, an `axes_map` is accepted
      exactly when it is `x,y,z` up to those spaces. */
  lemma AcceptedIffIdentity(axesMap: string)
    requires forall i :: 0 <= i < |axesMap| && IsWhitespace(axesMap[i]) ==> axesMap[i] == ' '
    ensures AxesMapAccepted(Some(axesMap)) <==> Visible(axesMap) == "x,y,z"
  {
    RemoveSpacesAfterStrip(axesMap);
    RemoveSpacesIsVisible(axesMap);
  }

  lemma RemoveInnerSpaces(t: string)
    requires t == "x, y, z"
    ensures RemoveAll(t, ' ') == "x,y,z"
  {
    assert RemoveAll(t[6..], ' ') == "z";
    assert RemoveAll(t[5..], ' ') == "z";
    assert RemoveAll(t[4..], ' ') == ",z";
    assert RemoveAll(t[3..], ' ') == "y,z";
    assert RemoveAll(t[2..], ' ') == "y,z";
    assert RemoveAll(t[1..], ' ') == ",y,z";
  }

  /** Spaces between the axes of the identity map are tolerated. */
  lemma SpacedIdentityAccepted(axesMap: string)
    requires axesMap == " x, y, z "
    ensures AxesMapAccepted(Some(axesMap))
  {
    assert forall i :: 0 <= i < |axesMap| && IsWhitespace(axesMap[i]) ==> axesMap[i] == ' ';
    RemoveSpacesAfterStrip(axesMap);
    assert RemoveAll(axesMap[8..], ' ') == "";
    assert axesMap[1..8] == "x, y, z";
    RemoveInnerSpaces(axesMap[1..8]);
    RemoveAllConcat(axesMap[1..8], axesMap[8..], ' ');
    assert axesMap[1..] == axesMap[1..8] + axesMap[8..];
  }

  /** Another order of the axes is refused. */
  lemma SwappedAxesRejected(axesMap: string)
    requires axesMap == "y,x,z"
    ensures !AxesMapAccepted(Some(axesMap))
  {
    assert StripStart(axesMap) == axesMap;
    assert StripEnd(axesMap) == axesMap;
    assert RemoveAll(axesMap, ' ')[0] == 'y';
  }

  // ---------------------------------------------------------------------------
  // The motion plan

  /** The plan starts 15 mm below and left of the bed centre at the requested
      height; each segment moves +30 mm along exactly one axis, X, then Y,
      then Z. */
  lemma AxesMapPlanShape(bounds: Bounds, z: real)
    ensures var plan := AxesMapPlan(bounds, z);
            plan[0] == Point(Midpoint(bounds.axisMinimum.x, bounds.axisMaximum.x) - 15.0,
                             Midpoint(bounds.axisMinimum.y, bounds.axisMaximum.y) - 15.0, z)
            && plan[1] == plan[0].(x := plan[0].x + 30.0)
            && plan[2] == plan[1].(y := plan[1].y + 30.0)
            && plan[3] == plan[2].(z := plan[2].z + 30.0)
  {
  }

  /** A segment records one test under its name and moves to its target once. */
  lemma SegmentRecords(chip: string, target: Point, extruder: real, speed: real, testName: string)
    ensures Pick(Segment(chip, target, extruder, speed, testName), StopLabel) == [testName]
    ensures Pick(Segment(chip, target, extruder, speed, testName), MoveTarget) == [target]
    ensures Bracketed(Segment(chip, target, extruder, speed, testName))
  {
    SegmentLabel(chip, target, extruder, speed, testName);
    SegmentMove(chip, target, extruder, speed, testName);
    BracketedSpan(Segment(chip, target, extruder, speed, testName), 0, 4);
  }

  lemma SegmentLabel(chip: string, target: Point, extruder: real, speed: real, testName: string)
    ensures Pick(Segment(chip, target, extruder, speed, testName), StopLabel) == [testName]
  {
    var es := Segment(chip, target, extruder, speed, testName);
    PickAt(es, 4, StopLabel);
    PickSingle(es[4], StopLabel);
  }

  lemma SegmentMove(chip: string, target: Point, extruder: real, speed: real, testName: string)
    ensures Pick(Segment(chip, target, extruder, speed, testName), MoveTarget) == [target]
  {
    var es := Segment(chip, target, extruder, speed, testName);
    PickAt(es, 2, MoveTarget);
    PickSingle(es[2], MoveTarget);
  }

  /** The values of a seven-part trace are those of its parts. */
  lemma PickSeven<T>(a: seq<Event>, b: seq<Event>, c: seq<Event>, d: seq<Event>, e: seq<Event>, f: seq<Event>, g: seq<Event>, fn: Event -> Option<T>)
    ensures Pick(a + b + c + d + e + f + g, fn)
            == Pick(a, fn) + Pick(b, fn) + Pick(c, fn) + Pick(d, fn) + Pick(e, fn) + Pick(f, fn) + Pick(g, fn)
  {
    PickConcat(a + b + c + d + e + f, g, fn);
    PickConcat(a + b + c + d + e, f, fn);
    PickConcat(a + b + c + d, e, fn);
    PickConcat(a + b + c, d, fn);
    PickConcat(a + b, c, fn);
    PickConcat(a, b, fn);
  }

  /** The toolhead visits the plan in order: the start corner, then the end of
      the X, Y and Z segments. */
  lemma MotionMoves(chip: string, plan: seq<Point>, extruder: real, p: AxesMapParams)
    requires |plan| == 4
    ensures Pick(AxesMapMotion(chip, plan, extruder, p), MoveTarget) == plan
  {
    var travel := [Move(plan[0], extruder, p.travelSpeed), Dwell(0.5)];
    var gap := [Dwell(0.5)];
    var end := [WaitForFileWrites];
    var sx := Segment(chip, plan[1], extruder, p.speed, AxesMapLabels[0]);
    var sy := Segment(chip, plan[2], extruder, p.speed, AxesMapLabels[1]);
    var sz := Segment(chip, plan[3], extruder, p.speed, AxesMapLabels[2]);
    PickSeven(travel, sx, gap, sy, gap, sz, end, MoveTarget);
    TravelPick(plan[0], extruder, p.travelSpeed);
    PickSingle(gap[0], MoveTarget);
    PickSingle(end[0], MoveTarget);
    SegmentRecords(chip, plan[1], extruder, p.speed, AxesMapLabels[0]);
    SegmentRecords(chip, plan[2], extruder, p.speed, AxesMapLabels[1]);
    SegmentRecords(chip, plan[3], extruder, p.speed, AxesMapLabels[2]);
    FourPoints(plan);
  }

  lemma FourPoints(plan: seq<Point>)
    requires |plan| == 4
    ensures [plan[0]] + [plan[1]] + [] + [plan[2]] + [] + [plan[3]] + [] == plan
  {
    var q := [plan[0]] + [plan[1]] + [] + [plan[2]] + [] + [plan[3]] + [];
    assert |q| == 4;
    assert forall i :: 0 <= i < 4 ==> q[i] == plan[i];
  }

  /** The travel move and its dwell reach the start corner. */
  lemma TravelPick(corner: Point, extruder: real, speed: real)
    ensures Pick([Move(corner, extruder, speed), Dwell(0.5)], MoveTarget) == [corner]
  {
    assert [Move(corner, extruder, speed), Dwell(0.5)] == [Move(corner, extruder, speed)] + [Dwell(0.5)];
    PickConcat([Move(corner, extruder, speed)], [Dwell(0.5)], MoveTarget);
    PickSingle(Move(corner, extruder, speed), MoveTarget);
    PickSingle(Dwell(0.5), MoveTarget);
  }

  /** The three recordings are `axesmap_X`, `axesmap_Y` and `axesmap_Z`, in
      that order, each closed before the next starts. */
  lemma MotionRecordings(chip: string, plan: seq<Point>, extruder: real, p: AxesMapParams)
    requires |plan| == 4
    ensures Pick(AxesMapMotion(chip, plan, extruder, p), StopLabel) == AxesMapLabels
    ensures Bracketed(AxesMapMotion(chip, plan, extruder, p))
  {
    var travel := [Move(plan[0], extruder, p.travelSpeed), Dwell(0.5)];
    var gap := [Dwell(0.5)];
    var end := [WaitForFileWrites];
    var sx := Segment(chip, plan[1], extruder, p.speed, AxesMapLabels[0]);
    var sy := Segment(chip, plan[2], extruder, p.speed, AxesMapLabels[1]);
    var sz := Segment(chip, plan[3], extruder, p.speed, AxesMapLabels[2]);
    PickSeven(travel, sx, gap, sy, gap, sz, end, StopLabel);
    assert Quiet(travel) && Quiet(gap) && Quiet(end);
    PickNone(travel, StopLabel);
    PickNone(gap, StopLabel);
    PickNone(end, StopLabel);
    SegmentRecords(chip, plan[1], extruder, p.speed, AxesMapLabels[0]);
    SegmentRecords(chip, plan[2], extruder, p.speed, AxesMapLabels[1]);
    SegmentRecords(chip, plan[3], extruder, p.speed, AxesMapLabels[2]);
    RecordingAfterQuiet(travel, false);
    RecordingAfterQuiet(gap, false);
    RecordingAfterQuiet(end, false);
    BracketedConcat(travel, sx);
    BracketedConcat(travel + sx, gap);
    BracketedConcat(travel + sx + gap, sy);
    BracketedConcat(travel + sx + gap + sy, gap);
    BracketedConcat(travel + sx + gap + sy + gap, sz);
    BracketedConcat(travel + sx + gap + sy + gap + sz, end);
  }

  /** The motion neither sets limits, toggles shaping nor uploads anything, and
      every move keeps the extruder where it was. */
  lemma MotionFrame(chip: string, plan: seq<Point>, extruder: real, p: AxesMapParams)
    requires |plan| == 4
    ensures Untouching(AxesMapMotion(chip, plan, extruder, p))
    ensures Offline(AxesMapMotion(chip, plan, extruder, p))
    ensures forall e | e in AxesMapMotion(chip, plan, extruder, p) && e.Move? :: e.extruder == extruder
  {
  }

  // ---------------------------------------------------------------------------
  // The routine

  /** Both checks come before anything is done: a chip that is not an
      accelerometer of the printer, or an `axes_map` other than the identity,
      ends the routine with its error and an untouched machine. */
  lemma AxesMapChecksFirst(cfg: PrinterConfig, p: AxesMapParams, s: MachineState, transport: (string, string) -> Delivery)
    ensures var chip := FindAxisAccelerometer(cfg, "xy");
            var r := AxesMapRun(cfg, p, s, transport);
            (r.events == [] <==> !AxesMapChecksPass(cfg))
            && (!IsAccelerometer(cfg, chip) ==> r.failure == Some(MultiAccelerometerUnsupported))
            && (IsAccelerometer(cfg, chip) && !AxesMapAccepted(cfg.chips[chip.value].axesMap) ==>
                  r.failure == Some(AxesMapAlreadySet(chip.value)))
  {
  }

  /** The first command raises the acceleration to `ACCEL`, sets the corner
      velocity to 5 and the cruise ratio to 0 only when the toolhead reports
      one; shaping is turned off next when the printer has an input shaper. */
  lemma AxesMapRaisesFirst(cfg: PrinterConfig, p: AxesMapParams, s: MachineState, transport: (string, string) -> Delivery)
    requires AxesMapChecksPass(cfg)
    ensures var es := AxesMapRun(cfg, p, s, transport).events;
            |es| >= 2
            && es[0] == SetVelocityLimit(p.accel as real,
                                         if s.limits.minimumCruiseRatio.Some? then Some(0.0) else None,
                                         Some(5.0))
            && (es[1] == DisableShaping <==> s.shaper.Some?)
  {
  }

  /** A completed or failed upload leaves the saved limits in force, and
      shaping on exactly when the printer has an input shaper. */
  lemma AxesMapRestores(cfg: PrinterConfig, p: AxesMapParams, s: MachineState, transport: (string, string) -> Delivery)
    requires AxesMapChecksPass(cfg)
    ensures var t := Replay(s, AxesMapRun(cfg, p, s, transport).events);
            t.limits == s.limits && t.shaper == ShaperSet(s.shaper, true)
  {
    var chip := FindAxisAccelerometer(cfg, "xy").value;
    var enter := Enter(s.limits, s.shaper.Some?, p.accel as real, true);
    var motion := AxesMapMotion(chip, AxesMapPlan(cfg.bounds, p.zHeight), s.extruder, p);
    var exit := Exit(s.limits, s.shaper.Some?, true);
    var up := UploadAll(AxesMapJobs(p), transport);
    var post := [WaitMoves] + up.events;
    MotionFrame(chip, AxesMapPlan(cfg.bounds, p.zHeight), s.extruder, p);
    assert Untouching(post) by {
      UploadsInert(AxesMapJobs(p), transport);
    }
    assert Untouching([]);
    GuardedRun(s, [], p.accel as real, true, motion, post);
    assert [] + enter == enter;
    Regroup(enter + motion + exit, [WaitMoves], up.events);
  }

  /** What follows the motion: the restore, `wait_moves` and the uploads. */
  function AxesMapTail(p: AxesMapParams, s: MachineState, transport: (string, string) -> Delivery): seq<Event> {
    Exit(s.limits, s.shaper.Some?, true) + [WaitMoves] + UploadAll(AxesMapJobs(p), transport).events
  }

  /** A routine that passed both checks is the raise, the motion and its tail;
      the tail neither moves nor records. */
  lemma AxesMapShape(cfg: PrinterConfig, p: AxesMapParams, s: MachineState, transport: (string, string) -> Delivery)
    requires AxesMapChecksPass(cfg)
    ensures var chip := FindAxisAccelerometer(cfg, "xy").value;
            AxesMapRun(cfg, p, s, transport).events
              == Enter(s.limits, s.shaper.Some?, p.accel as real, true)
                 + AxesMapMotion(chip, AxesMapPlan(cfg.bounds, p.zHeight), s.extruder, p)
                 + AxesMapTail(p, s, transport)
    ensures forall e | e in AxesMapTail(p, s, transport) ::
              !e.Move? && !e.ManualMove? && !e.StartMeasurement? && !e.StopMeasurement?
  {
    var enter := Enter(s.limits, s.shaper.Some?, p.accel as real, true);
    var motion := AxesMapMotion(FindAxisAccelerometer(cfg, "xy").value, AxesMapPlan(cfg.bounds, p.zHeight), s.extruder, p);
    var exit := Exit(s.limits, s.shaper.Some?, true);
    var up := UploadAll(AxesMapJobs(p), transport);
    Regroup(enter + motion + exit, [WaitMoves], up.events);
    Regroup(enter + motion, exit, [WaitMoves] + up.events);
    Regroup(exit, [WaitMoves], up.events);
    UploadsInert(AxesMapJobs(p), transport);
  }

  /** The moves of the routine, in order, are the plan. */
  lemma AxesMapMoves(cfg: PrinterConfig, p: AxesMapParams, s: MachineState, transport: (string, string) -> Delivery)
    requires AxesMapChecksPass(cfg)
    ensures Pick(AxesMapRun(cfg, p, s, transport).events, MoveTarget) == AxesMapPlan(cfg.bounds, p.zHeight)
  {
    var chip := FindAxisAccelerometer(cfg, "xy").value;
    var plan := AxesMapPlan(cfg.bounds, p.zHeight);
    var enter := Enter(s.limits, s.shaper.Some?, p.accel as real, true);
    var motion := AxesMapMotion(chip, plan, s.extruder, p);
    var tail := AxesMapTail(p, s, transport);
    AxesMapShape(cfg, p, s, transport);
    MotionMoves(chip, plan, s.extruder, p);
    assert forall e | e in tail :: MoveTarget(e).None?;
    PickMiddle(enter, motion, tail, MoveTarget);
  }

  /** Every move holds the extruder where it was before the routine. */
  lemma AxesMapHoldsExtruder(cfg: PrinterConfig, p: AxesMapParams, s: MachineState, transport: (string, string) -> Delivery)
    requires AxesMapChecksPass(cfg)
    ensures forall e | e in AxesMapRun(cfg, p, s, transport).events && e.Move? :: e.extruder == s.extruder
  {
    AxesMapShape(cfg, p, s, transport);
    MotionFrame(FindAxisAccelerometer(cfg, "xy").value, AxesMapPlan(cfg.bounds, p.zHeight), s.extruder, p);
  }

  /** A segment ends at its target. */
  lemma SegmentEndsAt(s: MachineState, chip: string, target: Point, extruder: real, speed: real, testName: string)
    ensures Replay(s, Segment(chip, target, extruder, speed, testName)).position == target
  {
    var es := Segment(chip, target, extruder, speed, testName);
    assert es == es[..3] + es[3..];
    ReplayConcat(s, es[..3], es[3..]);
    assert es[..3] == es[..2] + [es[2]];
    ReplayStep(s, es[..2], es[2]);
    PositionFrame(Replay(s, es[..3]), es[3..]);
  }

  /** The motion ends at the top of the Z segment. */
  lemma MotionEndsAtTop(s: MachineState, chip: string, plan: seq<Point>, extruder: real, p: AxesMapParams)
    requires |plan| == 4
    ensures Replay(s, AxesMapMotion(chip, plan, extruder, p)).position == plan[3]
  {
    var front := [Move(plan[0], extruder, p.travelSpeed), Dwell(0.5)]
      + Segment(chip, plan[1], extruder, p.speed, AxesMapLabels[0]) + [Dwell(0.5)]
      + Segment(chip, plan[2], extruder, p.speed, AxesMapLabels[1]) + [Dwell(0.5)];
    var sz := Segment(chip, plan[3], extruder, p.speed, AxesMapLabels[2]);
    ReplayConcat(s, front, sz);
    ReplayConcat(s, front + sz, [WaitForFileWrites]);
    SegmentEndsAt(Replay(s, front), chip, plan[3], extruder, p.speed, AxesMapLabels[2]);
    PositionFrame(Replay(s, front + sz), [WaitForFileWrites]);
  }

  /** The routine leaves the toolhead at the top of the Z segment. */
  lemma AxesMapEndsAtTop(cfg: PrinterConfig, p: AxesMapParams, s: MachineState, transport: (string, string) -> Delivery)
    requires AxesMapChecksPass(cfg)
    ensures Replay(s, AxesMapRun(cfg, p, s, transport).events).position == AxesMapPlan(cfg.bounds, p.zHeight)[3]
  {
    var chip := FindAxisAccelerometer(cfg, "xy").value;
    var plan := AxesMapPlan(cfg.bounds, p.zHeight);
    var enter := Enter(s.limits, s.shaper.Some?, p.accel as real, true);
    var motion := AxesMapMotion(chip, plan, s.extruder, p);
    var tail := AxesMapTail(p, s, transport);
    AxesMapShape(cfg, p, s, transport);
    ReplayConcat(s, enter, motion);
    ReplayConcat(s, enter + motion, tail);
    MotionEndsAtTop(Replay(s, enter), chip, plan, s.extruder, p);
    PositionFrame(Replay(s, enter + motion), tail);
  }

  /** The recordings are `axesmap_X`, `axesmap_Y` and `axesmap_Z`, in that
      order, and no recording is started twice or left running. */
  lemma AxesMapRecordings(cfg: PrinterConfig, p: AxesMapParams, s: MachineState, transport: (string, string) -> Delivery)
    requires AxesMapChecksPass(cfg)
    ensures Pick(AxesMapRun(cfg, p, s, transport).events, StopLabel) == ["axesmap_X", "axesmap_Y", "axesmap_Z"]
    ensures Bracketed(AxesMapRun(cfg, p, s, transport).events)
  {
    var chip := FindAxisAccelerometer(cfg, "xy").value;
    var plan := AxesMapPlan(cfg.bounds, p.zHeight);
    var enter := Enter(s.limits, s.shaper.Some?, p.accel as real, true);
    var motion := AxesMapMotion(chip, plan, s.extruder, p);
    var tail := AxesMapTail(p, s, transport);
    AxesMapShape(cfg, p, s, transport);
    assert Quiet(tail);
    MotionRecordings(chip, plan, s.extruder, p);
    Recordings(enter, motion, tail);
  }

  /** The trace before the uploads. */
  lemma AxesMapEndsWithUploads(cfg: PrinterConfig, p: AxesMapParams, s: MachineState, transport: (string, string) -> Delivery)
    requires AxesMapChecksPass(cfg)
    ensures var chip := FindAxisAccelerometer(cfg, "xy").value;
            AxesMapRun(cfg, p, s, transport)
              == Run(AxesMapMeasured(cfg, p, s, chip) + UploadAll(AxesMapJobs(p), transport).events,
                     UploadAll(AxesMapJobs(p), transport).failure)
            && Offline(AxesMapMeasured(cfg, p, s, chip))
  {
    var chip := FindAxisAccelerometer(cfg, "xy").value;
    MotionFrame(chip, AxesMapPlan(cfg.bounds, p.zHeight), s.extruder, p);
  }

  /** Every post goes to `<URL>/process/axes_map`; the results of exactly the
      leading recordings that went through are saved, and the routine succeeds
      exactly when all three did. */
  lemma AxesMapUploads(cfg: PrinterConfig, p: AxesMapParams, s: MachineState, transport: (string, string) -> Delivery)
    requires AxesMapChecksPass(cfg)
    ensures forall e | e in AxesMapRun(cfg, p, s, transport).events && e.Post? ::
              e.endpoint == BaseUrl(p.url) + "/process/axes_map"
    ensures var jobs := AxesMapJobs(p);
            Pick(AxesMapRun(cfg, p, s, transport).events, SavedPath) == ResultPaths(jobs[..DeliveredCount(jobs, transport)])
    ensures AxesMapRun(cfg, p, s, transport).failure.None? <==> DeliveredCount(AxesMapJobs(p), transport) == 3
  {
    var chip := FindAxisAccelerometer(cfg, "xy").value;
    AxesMapEndsWithUploads(cfg, p, s, transport);
    UploadsEndpoint(BaseUrl(p.url), "axes_map", AxesMapLabels, transport);
    UploadsAfter(AxesMapMeasured(cfg, p, s, chip), AxesMapJobs(p), transport);
    UploadFailure(AxesMapJobs(p), transport);
  }

  /** A successful run posted `axesmap_X.csv`, `axesmap_Y.csv` and
      `axesmap_Z.csv` and saved their graphs to `/tmp/<name>_result.png`, in
      that order. */
  lemma AxesMapAllUploaded(cfg: PrinterConfig, p: AxesMapParams, s: MachineState, transport: (string, string) -> Delivery)
    requires AxesMapChecksPass(cfg)
    requires AxesMapRun(cfg, p, s, transport).failure.None?
    ensures var saved := Pick(AxesMapRun(cfg, p, s, transport).events, SavedPath);
            |saved| == 3 && forall i :: 0 <= i < 3 ==> saved[i] == "/tmp/" + AxesMapLabels[i] + "_result.png"
    ensures var posted := Pick(AxesMapRun(cfg, p, s, transport).events, PostedFile);
            |posted| == 3 && forall i :: 0 <= i < 3 ==> posted[i] == AxesMapLabels[i] + ".csv"
  {
    var chip := FindAxisAccelerometer(cfg, "xy").value;
    var jobs := AxesMapJobs(p);
    AxesMapEndsWithUploads(cfg, p, s, transport);
    AxesMapUploads(cfg, p, s, transport);
    UploadsAfter(AxesMapMeasured(cfg, p, s, chip), jobs, transport);
    assert jobs[..3] == jobs;
  }

  // ---------------------------------------------------------------------------
  // The routine on the machine

  /** `start_measurement`, dwell, the move, dwell, `stop_measurement` and the
      lookup of the file it wrote. */
  method RecordSegment(m: Machine, chip: string, target: Point, extruder: real, speed: real, testName: string)
    requires m.Valid()
    modifies m
    ensures m.Valid() && m.initial == old(m.initial)
    ensures m.events == old(m.events) + Segment(chip, target, extruder, speed, testName)
    ensures m.limits == old(m.limits) && m.shaper == old(m.shaper)
  {
    m.StartMeasurement(chip);
    m.Perform([Dwell(0.5)]);
    m.Move(target, extruder, speed);
    m.Perform([Dwell(0.5)]);
    m.StopMeasurement(testName);
    m.Perform([GetLatestDataFile(testName)]);
  }

  /** The travel to the start corner and the three recorded segments. */
  method TraceAxes(m: Machine, chip: string, plan: seq<Point>, extruder: real, p: AxesMapParams)
    returns (names: seq<string>)
    requires m.Valid() && |plan| == 4
    modifies m
    ensures m.Valid() && m.initial == old(m.initial)
    ensures m.events == old(m.events) + AxesMapMotion(chip, plan, extruder, p)
    ensures m.limits == old(m.limits) && m.shaper == old(m.shaper)
    ensures names == AxesMapLabels
  {
    ghost var e0 := m.events;
    var travel := [Move(plan[0], extruder, p.travelSpeed), Dwell(0.5)];
    m.Move(plan[0], extruder, p.travelSpeed);
    m.Perform([Dwell(0.5)]);
    Regroup(e0, [Move(plan[0], extruder, p.travelSpeed)], [Dwell(0.5)]);
    assert m.events == e0 + travel;
    ghost var sx := Segment(chip, plan[1], extruder, p.speed, AxesMapLabels[0]);
    ghost var sy := Segment(chip, plan[2], extruder, p.speed, AxesMapLabels[1]);
    ghost var sz := Segment(chip, plan[3], extruder, p.speed, AxesMapLabels[2]);
    RecordSegment(m, chip, plan[1], extruder, p.speed, "axesmap_X");
    Regroup(e0, travel, sx);
    m.Perform([Dwell(0.5)]);
    Regroup(e0, travel + sx, [Dwell(0.5)]);
    RecordSegment(m, chip, plan[2], extruder, p.speed, "axesmap_Y");
    Regroup(e0, travel + sx + [Dwell(0.5)], sy);
    m.Perform([Dwell(0.5)]);
    Regroup(e0, travel + sx + [Dwell(0.5)] + sy, [Dwell(0.5)]);
    RecordSegment(m, chip, plan[3], extruder, p.speed, "axesmap_Z");
    Regroup(e0, travel + sx + [Dwell(0.5)] + sy + [Dwell(0.5)], sz);
    m.Perform([WaitForFileWrites]);
    Regroup(e0, travel + sx + [Dwell(0.5)] + sy + [Dwell(0.5)] + sz, [WaitForFileWrites]);
    names := ["axesmap_X", "axesmap_Y", "axesmap_Z"];
  }

  /** `AXES_MAP_CALIBRATION_WEB` on the machine: the trace, the outcome and
      the new state are those of `AxesMapRun`. */
  method AxesMapCalibration(m: Machine, cfg: PrinterConfig, p: AxesMapParams, transport: (string, string) -> Delivery)
    returns (failure: Option<RoutineError>)
    requires m.Valid()
    modifies m
    ensures m.Valid() && m.initial == old(m.initial)
    ensures m.events == old(m.events) + AxesMapRun(cfg, p, old(m.State()), transport).events
    ensures failure == AxesMapRun(cfg, p, old(m.State()), transport).failure
    ensures m.State() == Replay(old(m.State()), AxesMapRun(cfg, p, old(m.State()), transport).events)
  {
    ghost var s0 := m.State();
    ghost var e0 := m.events;
    var base := BaseUrl(p.url);
    var chip := FindAxisAccelerometer(cfg, "xy");
    if !IsAccelerometer(cfg, chip) {
      assert e0 + [] == e0;
      return Some(MultiAccelerometerUnsupported);
    }
    if !AxesMapAccepted(cfg.chips[chip.value].axesMap) {
      assert e0 + [] == e0;
      return Some(AxesMapAlreadySet(chip.value));
    }

    var saved, hasShaper := SaveAndRaise(m, p.accel as real, true);
    ghost var enter := Enter(s0.limits, s0.shaper.Some?, p.accel as real, true);
    var plan := AxesMapPlan(cfg.bounds, p.zHeight);
    var extruder := m.extruder;
    var names := TraceAxes(m, chip.value, plan, extruder, p);
    ghost var motion := AxesMapMotion(chip.value, plan, s0.extruder, p);
    Regroup(e0, enter, motion);
    Restore(m, saved, hasShaper, true);
    ghost var exit := Exit(s0.limits, s0.shaper.Some?, true);
    Regroup(e0, enter + motion, exit);
    m.Perform([WaitMoves]);
    Regroup(e0, enter + motion + exit, [WaitMoves]);
    ghost var measured := AxesMapMeasured(cfg, p, s0, chip.value);
    assert m.events == e0 + measured;

    var up := RunUploads(Jobs(base, "axes_map", names), transport);
    UploadsInert(Jobs(base, "axes_map", names), transport);
    m.Perform(up.events);
    failure := up.failure;
    Regroup(e0, measured, up.events);
    ReplayConcat(m.initial, e0, measured + up.events);
  }
}
