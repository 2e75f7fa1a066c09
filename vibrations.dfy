/** `CREATE_VIBRATIONS_PROFILE_WEB`: with the accelerometer that serves X
    and Y, raise the acceleration (corner velocity 5), disable shaping, travel
    to the `(x_min, y_min)` corner of the bed, record one run around the
    whole bed rectangle, restore everything and upload the recording to
    `/process/vibrations`.

    As written, the routine names `gcode` without ever binding it, so the
    first `SET_VELOCITY_LIMIT` raises `NameError` (find `VibrationsRunAsWritten`
    below); `VibrationsRun` is the command sequence the code evidently
    intends, and the rest of the model is about it. */
module Vibrations {

  import opened Common
  import opened Machines
  import opened Guard
  import opened Uploads

  /** The parameters of the command after `gcmd` has parsed them. */
  datatype VibrationsParams = VibrationsParams(url: string, accel: real, velocity: real, zHeight: real, travelSpeed: real)

  const VibrationsLabel: string := "vibrations"

  /** The start corner and the four corners visited in turn; the last is the
      start corner again. */
  function VibrationsPlan(bounds: Bounds, z: real): (plan: seq<Point>)
    ensures |plan| == 5
  {
    var lo := bounds.axisMinimum;
    var hi := bounds.axisMaximum;
    [Point(lo.x, lo.y, z), Point(hi.x, lo.y, z), Point(hi.x, hi.y, z), Point(lo.x, hi.y, z), Point(lo.x, lo.y, z)]
  }

  /** The four moves of the test pattern. */
  function Rectangle(plan: seq<Point>, extruder: real, speed: real): seq<Event>
    requires |plan| == 5
  {
    [Move(plan[1], extruder, speed), Move(plan[2], extruder, speed), Move(plan[3], extruder, speed), Move(plan[4], extruder, speed)]
  }

  /** Travel, the recording around the rectangle and the file flush. */
  function VibrationsMotion(chip: string, plan: seq<Point>, extruder: real, p: VibrationsParams): seq<Event>
    requires |plan| == 5
  {
    [Move(plan[0], extruder, p.travelSpeed), Dwell(0.5), StartMeasurement(chip), Dwell(0.5)]
    + Rectangle(plan, extruder, p.velocity)
    + [Dwell(0.5), StopMeasurement(VibrationsLabel), WaitForFileWrites]
  }

  function VibrationsJobs(p: VibrationsParams): seq<UploadJob> {
    Jobs(BaseUrl(p.url), "vibrations", [VibrationsLabel])
  }

  /** What follows the motion: the restore, `wait_moves`, the lookup of the
      recording and its upload. */
  function VibrationsTail(p: VibrationsParams, s: MachineState, transport: (string, string) -> Delivery): seq<Event> {
    Exit(s.limits, s.shaper.Some?, true) + [WaitMoves, GetLatestDataFile(VibrationsLabel)]
    + UploadAll(VibrationsJobs(p), transport).events
  }

  /** What the intended routine appends to the trace of a machine in state `s`. */
  function VibrationsRun(cfg: PrinterConfig, p: VibrationsParams, s: MachineState, transport: (string, string) -> Delivery): Run {
    var chip := FindAxisAccelerometer(cfg, "xy");
    if !IsAccelerometer(cfg, chip) then Run([], Some(NoSuitableAccelerometer))
    else
      Run(Enter(s.limits, s.shaper.Some?, p.accel, true)
          + VibrationsMotion(chip.value, VibrationsPlan(cfg.bounds, p.zHeight), s.extruder, p)
          + VibrationsTail(p, s, transport),
          UploadAll(VibrationsJobs(p), transport).failure)
  }

  /** The routine as written: past the accelerometer check, evaluating the
      unbound `gcode` raises before any command is sent. */
  function VibrationsRunAsWritten(cfg: PrinterConfig, p: VibrationsParams, s: MachineState, transport: (string, string) -> Delivery): Run {
    var chip := FindAxisAccelerometer(cfg, "xy");
    if !IsAccelerometer(cfg, chip) then Run([], Some(NoSuitableAccelerometer))
    else Run([], Some(GcodeUnbound))
  }

  // ---------------------------------------------------------------------------
  // The code as written

  /** As written, the routine never moves, records or uploads anything, and
      fails whenever the accelerometer is there, where the intended routine
      runs its whole sequence. */
  lemma AsWrittenNeverMeasures(cfg: PrinterConfig, p: VibrationsParams, s: MachineState, transport: (string, string) -> Delivery)
    ensures VibrationsRunAsWritten(cfg, p, s, transport).events == []
    ensures IsAccelerometer(cfg, FindAxisAccelerometer(cfg, "xy")) ==>
              VibrationsRunAsWritten(cfg, p, s, transport).failure == Some(GcodeUnbound)
              && |VibrationsRun(cfg, p, s, transport).events| > 14
  {
  }

  /** A printer with its X/Y accelerometer configured shows the difference. */
  lemma AsWrittenCounterexample(cfg: PrinterConfig, p: VibrationsParams, s: MachineState, transport: (string, string) -> Delivery)
    requires cfg.axisAccelerometers == map["xy" := "adxl345"] && "adxl345" in cfg.chips
    ensures VibrationsRunAsWritten(cfg, p, s, transport) != VibrationsRun(cfg, p, s, transport)
  {
    assert FindAxisAccelerometer(cfg, "xy") == Some("adxl345");
  }

  // ---------------------------------------------------------------------------
  // The motion plan

  /** The travel goes to `(x_min, y_min)`; each move of the rectangle changes
      exactly one coordinate, in the order x, y, x, y, and the last one closes
      the loop at the start corner; all at the requested height. */
  lemma VibrationsPlanShape(bounds: Bounds, z: real)
    ensures var plan := VibrationsPlan(bounds, z);
            plan[0] == Point(bounds.axisMinimum.x, bounds.axisMinimum.y, z)
            && plan[1] == plan[0].(x := bounds.axisMaximum.x)
            && plan[2] == plan[1].(y := bounds.axisMaximum.y)
            && plan[3] == plan[2].(x := bounds.axisMinimum.x)
            && plan[4] == plan[3].(y := bounds.axisMinimum.y)
            && plan[4] == plan[0]
            && forall i :: 0 <= i < 5 ==> plan[i].z == z
  {
  }

  /** The corners are those of the bed: every point lies within its bounds
      when the bounds are ordered. */
  lemma VibrationsPlanWithinBounds(bounds: Bounds, z: real)
    requires bounds.axisMinimum.x <= bounds.axisMaximum.x && bounds.axisMinimum.y <= bounds.axisMaximum.y
    ensures forall q | q in VibrationsPlan(bounds, z) ::
              bounds.axisMinimum.x <= q.x <= bounds.axisMaximum.x && bounds.axisMinimum.y <= q.y <= bounds.axisMaximum.y
  {
  }

  lemma RectangleMoves(plan: seq<Point>, extruder: real, speed: real)
    requires |plan| == 5
    ensures Pick(Rectangle(plan, extruder, speed), MoveTarget) == plan[1..]
  {
    var r := Rectangle(plan, extruder, speed);
    assert r[3..][1..] == [] && r[2..][1..] == r[3..] && r[1..][1..] == r[2..];
    assert Pick(r[3..], MoveTarget) == [plan[4]];
    assert Pick(r[2..], MoveTarget) == [plan[3], plan[4]];
    assert Pick(r[1..], MoveTarget) == [plan[2], plan[3], plan[4]];
  }

  /** The toolhead visits the plan in order: the start corner, then the four
      corners of the rectangle. Only the travel move lies outside the
      recording; the four rectangle moves all lie inside it. */
  lemma MotionMoves(chip: string, plan: seq<Point>, extruder: real, p: VibrationsParams)
    requires |plan| == 5
    ensures var es := VibrationsMotion(chip, plan, extruder, p);
            |es| == 11 && es[2] == StartMeasurement(chip) && es[9] == StopMeasurement(VibrationsLabel)
            && Pick(es[..2], MoveTarget) == [plan[0]]
            && Pick(es[3..9], MoveTarget) == plan[1..]
            && Pick(es, MoveTarget) == plan
  {
    var es := VibrationsMotion(chip, plan, extruder, p);
    MotionTravelPick(chip, plan, extruder, p);
    MotionRectanglePick(chip, plan, extruder, p);
    assert es == es[..2] + [es[2]] + es[3..9] + es[9..];
    PickConcat(es[..2] + [es[2]] + es[3..9], es[9..], MoveTarget);
    PickConcat(es[..2] + [es[2]], es[3..9], MoveTarget);
    PickConcat(es[..2], [es[2]], MoveTarget);
    PickSingle(es[2], MoveTarget);
    PickNone(es[9..], MoveTarget);
    assert [plan[0]] + plan[1..] == plan;
  }

  /** The travel move and its dwell, before the recording. */
  lemma MotionTravelPick(chip: string, plan: seq<Point>, extruder: real, p: VibrationsParams)
    requires |plan| == 5
    ensures var es := VibrationsMotion(chip, plan, extruder, p);
            |es| == 11 && Pick(es[..2], MoveTarget) == [plan[0]]
  {
    var es := VibrationsMotion(chip, plan, extruder, p);
    assert es[..2] == [Move(plan[0], extruder, p.travelSpeed)] + [Dwell(0.5)];
    PickConcat([Move(plan[0], extruder, p.travelSpeed)], [Dwell(0.5)], MoveTarget);
    PickSingle(Move(plan[0], extruder, p.travelSpeed), MoveTarget);
    PickSingle(Dwell(0.5), MoveTarget);
  }

  /** The rectangle, inside the recording. */
  lemma MotionRectanglePick(chip: string, plan: seq<Point>, extruder: real, p: VibrationsParams)
    requires |plan| == 5
    ensures var es := VibrationsMotion(chip, plan, extruder, p);
            |es| == 11 && Pick(es[3..9], MoveTarget) == plan[1..]
  {
    var es := VibrationsMotion(chip, plan, extruder, p);
    var rect := Rectangle(plan, extruder, p.velocity);
    RectangleMoves(plan, extruder, p.velocity);
    assert es[3..9] == [Dwell(0.5)] + rect + [Dwell(0.5)];
    PickConcat([Dwell(0.5)] + rect, [Dwell(0.5)], MoveTarget);
    PickConcat([Dwell(0.5)], rect, MoveTarget);
    PickSingle(Dwell(0.5), MoveTarget);
  }

  /** One recording, `vibrations`, opened and closed once. */
  lemma MotionRecording(chip: string, plan: seq<Point>, extruder: real, p: VibrationsParams)
    requires |plan| == 5
    ensures Pick(VibrationsMotion(chip, plan, extruder, p), StopLabel) == [VibrationsLabel]
    ensures Bracketed(VibrationsMotion(chip, plan, extruder, p))
  {
    var es := VibrationsMotion(chip, plan, extruder, p);
    assert |es| == 11;
    PickAt(es, 9, StopLabel);
    PickSingle(es[9], StopLabel);
    BracketedSpan(es, 2, 9);
  }

  /** The motion closes the loop at the start corner. */
  lemma MotionEndsAtStart(s: MachineState, chip: string, plan: seq<Point>, extruder: real, p: VibrationsParams)
    requires |plan| == 5
    ensures Replay(s, VibrationsMotion(chip, plan, extruder, p)).position == plan[4]
  {
    var head := [Move(plan[0], extruder, p.travelSpeed), Dwell(0.5), StartMeasurement(chip), Dwell(0.5)];
    var rect := Rectangle(plan, extruder, p.velocity);
    var end := [Dwell(0.5), StopMeasurement(VibrationsLabel), WaitForFileWrites];
    assert rect == rect[..3] + [rect[3]];
    ReplayConcat(s, head, rect);
    ReplayConcat(s, head + rect, end);
    ReplayStep(Replay(s, head), rect[..3], rect[3]);
    PositionFrame(Replay(s, head + rect), end);
  }

  lemma MotionFrame(chip: string, plan: seq<Point>, extruder: real, p: VibrationsParams)
    requires |plan| == 5
    ensures Untouching(VibrationsMotion(chip, plan, extruder, p))
    ensures forall e | e in VibrationsMotion(chip, plan, extruder, p) && e.Move? :: e.extruder == extruder
  {
  }

  // ---------------------------------------------------------------------------
  // The routine

  /** A missing accelerometer is refused before anything is done. */
  lemma VibrationsChecksFirst(cfg: PrinterConfig, p: VibrationsParams, s: MachineState, transport: (string, string) -> Delivery)
    ensures var r := VibrationsRun(cfg, p, s, transport);
            (r.events == [] <==> !IsAccelerometer(cfg, FindAxisAccelerometer(cfg, "xy")))
            && (r.events == [] ==> r.failure == Some(NoSuitableAccelerometer))
  {
  }

  /** The first command raises the acceleration, sets the corner velocity to 5
      and the cruise ratio to 0 only when the toolhead reports one; shaping
      is turned off next when the printer has an input shaper. */
  lemma VibrationsRaisesFirst(cfg: PrinterConfig, p: VibrationsParams, s: MachineState, transport: (string, string) -> Delivery)
    requires IsAccelerometer(cfg, FindAxisAccelerometer(cfg, "xy"))
    ensures var es := VibrationsRun(cfg, p, s, transport).events;
            |es| >= 2
            && es[0] == SetVelocityLimit(p.accel, if s.limits.minimumCruiseRatio.Some? then Some(0.0) else None, Some(5.0))
            && (es[1] == DisableShaping <==> s.shaper.Some?)
  {
  }

  /** The tail neither moves, records nor touches limits or shaping. */
  lemma TailFrame(p: VibrationsParams, s: MachineState, transport: (string, string) -> Delivery)
    ensures forall e | e in VibrationsTail(p, s, transport) ::
              !e.Move? && !e.ManualMove? && !e.StartMeasurement? && !e.StopMeasurement?
    ensures forall e | e in [WaitMoves, GetLatestDataFile(VibrationsLabel)] + UploadAll(VibrationsJobs(p), transport).events ::
              !e.SetVelocityLimit? && !e.DisableShaping? && !e.EnableShaping?
  {
    UploadsInert(VibrationsJobs(p), transport);
  }

  /** Whatever happens to the upload, the saved limits are back in force and
      shaping is on exactly when the printer has an input shaper. */
  lemma VibrationsRestores(cfg: PrinterConfig, p: VibrationsParams, s: MachineState, transport: (string, string) -> Delivery)
    requires IsAccelerometer(cfg, FindAxisAccelerometer(cfg, "xy"))
    ensures var t := Replay(s, VibrationsRun(cfg, p, s, transport).events);
            t.limits == s.limits && t.shaper == ShaperSet(s.shaper, true)
  {
    var chip := FindAxisAccelerometer(cfg, "xy").value;
    var enter := Enter(s.limits, s.shaper.Some?, p.accel, true);
    var motion := VibrationsMotion(chip, VibrationsPlan(cfg.bounds, p.zHeight), s.extruder, p);
    var exit := Exit(s.limits, s.shaper.Some?, true);
    var post := [WaitMoves, GetLatestDataFile(VibrationsLabel)] + UploadAll(VibrationsJobs(p), transport).events;
    TailFrame(p, s, transport);
    MotionFrame(chip, VibrationsPlan(cfg.bounds, p.zHeight), s.extruder, p);
    assert Untouching(post) && Untouching([]);
    GuardedRun(s, [], p.accel, true, motion, post);
    assert [] + enter == enter;
    Regroup(enter + motion, exit, post);
    Regroup(exit, [WaitMoves, GetLatestDataFile(VibrationsLabel)], UploadAll(VibrationsJobs(p), transport).events);
  }

  /** The moves of the routine are the plan, with the extruder held where it
      was, and the toolhead ends back at the start corner. */
  lemma VibrationsMoves(cfg: PrinterConfig, p: VibrationsParams, s: MachineState, transport: (string, string) -> Delivery)
    requires IsAccelerometer(cfg, FindAxisAccelerometer(cfg, "xy"))
    ensures Pick(VibrationsRun(cfg, p, s, transport).events, MoveTarget) == VibrationsPlan(cfg.bounds, p.zHeight)
    ensures forall e | e in VibrationsRun(cfg, p, s, transport).events && e.Move? :: e.extruder == s.extruder
  {
    var chip := FindAxisAccelerometer(cfg, "xy").value;
    var plan := VibrationsPlan(cfg.bounds, p.zHeight);
    var enter := Enter(s.limits, s.shaper.Some?, p.accel, true);
    var motion := VibrationsMotion(chip, plan, s.extruder, p);
    var tail := VibrationsTail(p, s, transport);
    TailFrame(p, s, transport);
    MotionFrame(chip, plan, s.extruder, p);
    MotionMoves(chip, plan, s.extruder, p);
    assert forall e | e in tail :: MoveTarget(e).None?;
    PickMiddle(enter, motion, tail, MoveTarget);
  }

  lemma VibrationsEndsAtStart(cfg: PrinterConfig, p: VibrationsParams, s: MachineState, transport: (string, string) -> Delivery)
    requires IsAccelerometer(cfg, FindAxisAccelerometer(cfg, "xy"))
    ensures Replay(s, VibrationsRun(cfg, p, s, transport).events).position == VibrationsPlan(cfg.bounds, p.zHeight)[0]
  {
    var chip := FindAxisAccelerometer(cfg, "xy").value;
    var plan := VibrationsPlan(cfg.bounds, p.zHeight);
    var enter := Enter(s.limits, s.shaper.Some?, p.accel, true);
    var motion := VibrationsMotion(chip, plan, s.extruder, p);
    var tail := VibrationsTail(p, s, transport);
    TailFrame(p, s, transport);
    ReplayConcat(s, enter, motion);
    ReplayConcat(s, enter + motion, tail);
    MotionEndsAtStart(Replay(s, enter), chip, plan, s.extruder, p);
    PositionFrame(Replay(s, enter + motion), tail);
  }

  /** A single recording, `vibrations`, is made and closed. */
  lemma VibrationsRecording(cfg: PrinterConfig, p: VibrationsParams, s: MachineState, transport: (string, string) -> Delivery)
    requires IsAccelerometer(cfg, FindAxisAccelerometer(cfg, "xy"))
    ensures Pick(VibrationsRun(cfg, p, s, transport).events, StopLabel) == ["vibrations"]
    ensures Bracketed(VibrationsRun(cfg, p, s, transport).events)
  {
    var chip := FindAxisAccelerometer(cfg, "xy").value;
    var plan := VibrationsPlan(cfg.bounds, p.zHeight);
    var enter := Enter(s.limits, s.shaper.Some?, p.accel, true);
    var motion := VibrationsMotion(chip, plan, s.extruder, p);
    var tail := VibrationsTail(p, s, transport);
    TailFrame(p, s, transport);
    assert Quiet(tail);
    MotionRecording(chip, plan, s.extruder, p);
    Recordings(enter, motion, tail);
  }

  /** The one upload job. */
  lemma VibrationsJob(p: VibrationsParams)
    ensures VibrationsJobs(p)
            == [UploadJob("vibrations", BaseUrl(p.url) + "/process/vibrations", "vibrations.csv", "/tmp/vibrations_result.png")]
  {
    var jobs := VibrationsJobs(p);
    assert jobs[0] == Job(BaseUrl(p.url), "vibrations", VibrationsLabel);
    assert "/tmp/" + VibrationsLabel + "_result.png" == "/tmp/vibrations_result.png";
    assert VibrationsLabel + ".csv" == "vibrations.csv";
    assert BaseUrl(p.url) + "/process/" + "vibrations" == BaseUrl(p.url) + "/process/vibrations";
  }

  /** The trace up to the upload, once the accelerometer is found. */
  function VibrationsMeasured(cfg: PrinterConfig, p: VibrationsParams, s: MachineState, chip: string): seq<Event> {
    Enter(s.limits, s.shaper.Some?, p.accel, true)
    + VibrationsMotion(chip, VibrationsPlan(cfg.bounds, p.zHeight), s.extruder, p)
    + (Exit(s.limits, s.shaper.Some?, true) + [WaitMoves, GetLatestDataFile(VibrationsLabel)])
  }

  /** The trace before the upload uploads nothing. */
  lemma VibrationsEndsWithUpload(cfg: PrinterConfig, p: VibrationsParams, s: MachineState, transport: (string, string) -> Delivery)
    requires IsAccelerometer(cfg, FindAxisAccelerometer(cfg, "xy"))
    ensures var chip := FindAxisAccelerometer(cfg, "xy").value;
            VibrationsRun(cfg, p, s, transport).events
              == VibrationsMeasured(cfg, p, s, chip) + UploadAll(VibrationsJobs(p), transport).events
            && Offline(VibrationsMeasured(cfg, p, s, chip))
  {
    var chip := FindAxisAccelerometer(cfg, "xy").value;
    Regroup(Enter(s.limits, s.shaper.Some?, p.accel, true)
            + VibrationsMotion(chip, VibrationsPlan(cfg.bounds, p.zHeight), s.extruder, p),
            Exit(s.limits, s.shaper.Some?, true) + [WaitMoves, GetLatestDataFile(VibrationsLabel)],
            UploadAll(VibrationsJobs(p), transport).events);
  }

  /** The single upload: `vibrations.csv` to `<URL>/process/vibrations`, the
      graph saved to `/tmp/vibrations_result.png`, and the routine fails, with
      the upload's error, exactly when the upload does not go through. */
  lemma VibrationsUpload(cfg: PrinterConfig, p: VibrationsParams, s: MachineState, transport: (string, string) -> Delivery)
    requires IsAccelerometer(cfg, FindAxisAccelerometer(cfg, "xy"))
    ensures var d := transport(BaseUrl(p.url) + "/process/vibrations", "vibrations.csv");
            var r := VibrationsRun(cfg, p, s, transport);
            (r.failure.None? <==> d.Delivered?)
            && (d.RequestFailed? ==> r.failure == Some(ProcessFailed(d.reason)))
            && (d.ReadFailed? || d.WriteFailed? ==> r.failure == Some(SaveFailed(d.reason)))
            && Pick(r.events, SavedPath) == (if d.Delivered? then ["/tmp/vibrations_result.png"] else [])
            && Pick(r.events, PostedFile) == (if d.ReadFailed? then [] else ["vibrations.csv"])
  {
    var jobs := VibrationsJobs(p);
    var es := VibrationsRun(cfg, p, s, transport).events;
    var up := UploadAll(jobs, transport).events;
    VibrationsJob(p);
    VibrationsEndsWithUpload(cfg, p, s, transport);
    UploadsAfter(VibrationsMeasured(cfg, p, s, FindAxisAccelerometer(cfg, "xy").value), jobs, transport);
    UploadFailure(jobs, transport);
    assert jobs[1..] == [];
    assert jobs[..0] == [] && jobs[..1] == jobs;
  }

  /** Every post goes to `<URL>/process/vibrations`. */
  lemma VibrationsEndpoint(cfg: PrinterConfig, p: VibrationsParams, s: MachineState, transport: (string, string) -> Delivery)
    ensures forall e | e in VibrationsRun(cfg, p, s, transport).events && e.Post? ::
              e.endpoint == BaseUrl(p.url) + "/process/vibrations"
  {
    if IsAccelerometer(cfg, FindAxisAccelerometer(cfg, "xy")) {
      var measured := VibrationsMeasured(cfg, p, s, FindAxisAccelerometer(cfg, "xy").value);
      var up := UploadAll(VibrationsJobs(p), transport).events;
      VibrationsEndsWithUpload(cfg, p, s, transport);
      UploadsEndpoint(BaseUrl(p.url), "vibrations", [VibrationsLabel], transport);
      assert forall e | e in measured + up :: e in measured || e in up;
    }
  }

  // ---------------------------------------------------------------------------
  // The routine on the machine

  /** The four moves of the test pattern, one after another. */
  method MoveAround(m: Machine, plan: seq<Point>, extruder: real, speed: real)
    requires m.Valid() && |plan| == 5
    modifies m
    ensures m.Valid() && m.initial == old(m.initial)
    ensures m.events == old(m.events) + Rectangle(plan, extruder, speed)
    ensures m.limits == old(m.limits) && m.shaper == old(m.shaper)
  {
    m.Move(plan[1], extruder, speed);
    m.Move(plan[2], extruder, speed);
    m.Move(plan[3], extruder, speed);
    m.Move(plan[4], extruder, speed);
  }

  /** The travel move, the recording around the rectangle and the flush. */
  method TraceRectangle(m: Machine, chip: string, plan: seq<Point>, extruder: real, p: VibrationsParams)
    returns (testName: string)
    requires m.Valid() && |plan| == 5
    modifies m
    ensures m.Valid() && m.initial == old(m.initial)
    ensures m.events == old(m.events) + VibrationsMotion(chip, plan, extruder, p)
    ensures m.limits == old(m.limits) && m.shaper == old(m.shaper)
    ensures testName == VibrationsLabel
  {
    ghost var e0 := m.events;
    ghost var head := [Move(plan[0], extruder, p.travelSpeed), Dwell(0.5), StartMeasurement(chip), Dwell(0.5)];
    ghost var rect := Rectangle(plan, extruder, p.velocity);
    ghost var end := [Dwell(0.5), StopMeasurement(VibrationsLabel), WaitForFileWrites];
    OpenRecording(m, plan[0], extruder, p.travelSpeed, chip);
    MoveAround(m, plan, extruder, p.velocity);
    Regroup(e0, head, rect);
    testName := CloseRecording(m);
    Regroup(e0, head + rect, end);
  }

  /** Travel to the start corner, settle, start recording, settle. */
  method OpenRecording(m: Machine, corner: Point, extruder: real, speed: real, chip: string)
    requires m.Valid()
    modifies m
    ensures m.Valid() && m.initial == old(m.initial)
    ensures m.events == old(m.events) + [Move(corner, extruder, speed), Dwell(0.5), StartMeasurement(chip), Dwell(0.5)]
    ensures m.limits == old(m.limits) && m.shaper == old(m.shaper)
  {
    ghost var e0 := m.events;
    m.Move(corner, extruder, speed);
    m.Perform([Dwell(0.5)]);
    m.StartMeasurement(chip);
    m.Perform([Dwell(0.5)]);
    assert m.events == e0 + [Move(corner, extruder, speed), Dwell(0.5), StartMeasurement(chip), Dwell(0.5)];
  }

  /** Settle, stop recording under `vibrations`, flush the file. */
  method CloseRecording(m: Machine) returns (testName: string)
    requires m.Valid()
    modifies m
    ensures m.Valid() && m.initial == old(m.initial)
    ensures m.events == old(m.events) + [Dwell(0.5), StopMeasurement(VibrationsLabel), WaitForFileWrites]
    ensures m.limits == old(m.limits) && m.shaper == old(m.shaper)
    ensures testName == VibrationsLabel
  {
    ghost var e0 := m.events;
    m.Perform([Dwell(0.5)]);
    testName := VibrationsLabel;
    m.StopMeasurement(testName);
    m.Perform([WaitForFileWrites]);
    assert m.events == e0 + [Dwell(0.5), StopMeasurement(VibrationsLabel), WaitForFileWrites];
  }

  /** `CREATE_VIBRATIONS_PROFILE_WEB` as intended, on the machine: the trace,
      the outcome and the new state are those of `VibrationsRun`. */
  method CreateVibrationsProfile(m: Machine, cfg: PrinterConfig, p: VibrationsParams, transport: (string, string) -> Delivery)
    returns (failure: Option<RoutineError>)
    requires m.Valid()
    modifies m
    ensures m.Valid() && m.initial == old(m.initial)
    ensures m.events == old(m.events) + VibrationsRun(cfg, p, old(m.State()), transport).events
    ensures failure == VibrationsRun(cfg, p, old(m.State()), transport).failure
    ensures m.State() == Replay(old(m.State()), VibrationsRun(cfg, p, old(m.State()), transport).events)
  {
    ghost var s0 := m.State();
    ghost var e0 := m.events;
    var base := BaseUrl(p.url);
    var chip := FindAxisAccelerometer(cfg, "xy");
    if !IsAccelerometer(cfg, chip) {
      assert e0 + [] == e0;
      return Some(NoSuitableAccelerometer);
    }

    var saved, hasShaper := SaveAndRaise(m, p.accel, true);
    ghost var enter := Enter(s0.limits, s0.shaper.Some?, p.accel, true);
    var plan := VibrationsPlan(cfg.bounds, p.zHeight);
    var extruder := m.extruder;
    var testName := TraceRectangle(m, chip.value, plan, extruder, p);
    ghost var motion := VibrationsMotion(chip.value, plan, s0.extruder, p);
    Regroup(e0, enter, motion);
    Restore(m, saved, hasShaper, true);
    ghost var exit := Exit(s0.limits, s0.shaper.Some?, true);
    Regroup(e0, enter + motion, exit);
    m.Perform([WaitMoves, GetLatestDataFile(testName)]);
    Regroup(e0, enter + motion + exit, [WaitMoves, GetLatestDataFile(VibrationsLabel)]);

    var up := RunUploads(Jobs(base, "vibrations", [testName]), transport);
    UploadsInert(Jobs(base, "vibrations", [testName]), transport);
    m.Perform(up.events);
    failure := up.failure;
    ghost var guarded := enter + motion + exit + [WaitMoves, GetLatestDataFile(VibrationsLabel)];
    Regroup(e0, guarded, up.events);
    assert guarded + up.events == VibrationsRun(cfg, p, s0, transport).events by {
      Regroup(enter + motion, exit + [WaitMoves, GetLatestDataFile(VibrationsLabel)], up.events);
      Regroup(enter + motion, exit, [WaitMoves, GetLatestDataFile(VibrationsLabel)]);
    }
    ReplayConcat(m.initial, e0, guarded + up.events);
  }
}
