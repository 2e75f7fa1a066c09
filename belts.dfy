/** `COMPARE_BELTS_RESPONSES_WEB`: move to the test point, raise the
    acceleration limit (the corner velocity is left alone), sweep belt `a` and
    then belt `b`, each with its own accelerometer and recording, restore the
    limits and upload the two recordings to `/process/belts`.

    A belt without an accelerometer makes the routine raise in the middle of
    the loop, after the limits were raised and shaping was disabled, and
    nothing restores them: `BeltsFailureLeavesTestLimits` states that gap. */
module Belts {

  import opened Common
  import opened Text
  import opened Machines
  import opened Guard
  import opened TestPoints
  import opened Uploads

  /** The parameters of the command after `gcmd` has parsed them. */
  datatype BeltParams = BeltParams(
    url: string,
    freqStart: Option<real>,
    freqEnd: Option<real>,
    hzPerSec: real,
    accelPerHz: FloatParam,
    travelSpeed: real,
    zHeight: Option<real>)

  /** The sweep every belt runs. */
  datatype Sweep = Sweep(minFreq: real, maxFreq: real, hzPerSec: real, accelPerHz: real)

  /** The sweep with the `[resonance_tester]` defaults filled in. */
  function SweepOf(cfg: PrinterConfig, p: BeltParams): (sw: Sweep)
    ensures sw.accelPerHz == (if p.accelPerHz.Given? then p.accelPerHz.number else cfg.resonance.accelPerHz)
    ensures sw.maxFreq == p.freqEnd.GetOr(cfg.resonance.maxFreq)
  {
    Sweep(p.freqStart.GetOr(cfg.resonance.minFreq), p.freqEnd.GetOr(cfg.resonance.maxFreq),
          p.hzPerSec, p.accelPerHz.Or(cfg.resonance.accelPerHz))
  }

  /** The acceleration the sweep needs at its highest frequency. */
  function MaxAccel(sw: Sweep): real {
    sw.maxFreq * sw.accelPerHz
  }

  const BeltOrder: seq<char> := ['a', 'b']

  function BeltLabel(belt: char): string {
    "belt_" + [belt]
  }

  function BeltLabels(belts: seq<char>): (labels: seq<string>)
    ensures |labels| == |belts| && forall j :: 0 <= j < |belts| ==> labels[j] == BeltLabel(belts[j])
  {
    seq(|belts|, j requires 0 <= j < |belts| => BeltLabel(belts[j]))
  }

  /** The accelerometer of one belt: none configured for it raises "No
      suitable accelerometer found for belt <B>", and a chip name that is not
      an object of the printer makes `printer.lookup_object` raise. */
  function BeltChip(cfg: PrinterConfig, belt: char): (r: Result<string>)
    ensures r.Ok? <==> FindAxisAccelerometer(cfg, [belt]).Some? && IsAccelerometer(cfg, FindAxisAccelerometer(cfg, [belt]))
    ensures r.Ok? ==> Some(r.value) == FindAxisAccelerometer(cfg, [belt])
    ensures FindAxisAccelerometer(cfg, [belt]).None? ==> r == Err(NoBeltAccelerometer(UpperChar(belt)))
  {
    match FindAxisAccelerometer(cfg, [belt])
    case None => Err(NoBeltAccelerometer(UpperChar(belt)))
    case Some(chip) => if chip in cfg.chips then Ok(chip) else Err(UnknownObject(chip))
  }

  /** One pass of the belt loop. */
  function BeltEvents(chip: string, belt: char, sw: Sweep): seq<Event> {
    [StartMeasurement(chip),
     VibrateAxis([belt], sw.minFreq, sw.maxFreq, sw.hzPerSec, sw.accelPerHz),
     StopMeasurement(BeltLabel(belt)),
     GetLatestDataFile(BeltLabel(belt)),
     WaitForFileWrites,
     Dwell(1.0),
     WaitMoves]
  }

  /** The loop over `belts`, stopping at the first belt whose accelerometer
      cannot be found. */
  function BeltLoop(cfg: PrinterConfig, belts: seq<char>, sw: Sweep): Run
    decreases |belts|
  {
    if belts == [] then Run([], None)
    else
      var r := BeltLoop(cfg, belts[..|belts| - 1], sw);
      var belt := belts[|belts| - 1];
      if r.failure.Some? then r
      else match BeltChip(cfg, belt)
        case Err(e) => Run(r.events, Some(e))
        case Ok(chip) => Run(r.events + BeltEvents(chip, belt, sw), None)
  }

  function BeltJobs(p: BeltParams): seq<UploadJob> {
    Jobs(BaseUrl(p.url), "belts", BeltLabels(BeltOrder))
  }

  /** The trace up to the uploads when both belts are measured. */
  function BeltsMeasured(cfg: PrinterConfig, p: BeltParams, s: MachineState, point: Point): seq<Event> {
    [ManualMove(point, p.travelSpeed), Dwell(0.5)] + Enter(s.limits, s.shaper.Some?, MaxAccel(SweepOf(cfg, p)), false)
    + BeltLoop(cfg, BeltOrder, SweepOf(cfg, p)).events + Exit(s.limits, s.shaper.Some?, false)
  }

  /** What the routine appends to the trace of a machine in state `s`. */
  function BeltsRun(cfg: PrinterConfig, p: BeltParams, s: MachineState, transport: (string, string) -> Delivery): Run {
    var sw := SweepOf(cfg, p);
    match ResolveTestPoint(cfg.resonance.testPoints, p.zHeight, cfg.bounds)
    case Err(e) => Run([], Some(e))
    case Ok(point) =>
      var travel := [ManualMove(point, p.travelSpeed), Dwell(0.5)];
      var enter := Enter(s.limits, s.shaper.Some?, MaxAccel(sw), false);
      var loop := BeltLoop(cfg, BeltOrder, sw);
      if loop.failure.Some? then Run(travel + enter + loop.events, loop.failure)
      else
        var up := UploadAll(BeltJobs(p), transport);
        Run(BeltsMeasured(cfg, p, s, point) + up.events, up.failure)
  }

  /** Once a belt fails, the rest of the loop is skipped. */
  lemma {:induction false} BeltLoopStops(cfg: PrinterConfig, belts: seq<char>, k: nat, sw: Sweep)
    requires k <= |belts| && BeltLoop(cfg, belts[..k], sw).failure.Some?
    ensures BeltLoop(cfg, belts, sw) == BeltLoop(cfg, belts[..k], sw)
    decreases |belts| - k
  {
    if k < |belts| {
      assert belts[..|belts| - 1][..k] == belts[..k];
      BeltLoopStops(cfg, belts[..|belts| - 1], k, sw);
    } else {
      assert belts[..k] == belts;
    }
  }

  /** One more belt of the loop, while no belt has failed. */
  lemma BeltLoopStep(cfg: PrinterConfig, belts: seq<char>, i: nat, sw: Sweep)
    requires i < |belts| && BeltLoop(cfg, belts[..i], sw).failure.None?
    ensures var before := BeltLoop(cfg, belts[..i], sw).events;
            var c := BeltChip(cfg, belts[i]);
            BeltLoop(cfg, belts[..i + 1], sw)
            == if c.Err? then Run(before, Some(c.error)) else Run(before + BeltEvents(c.value, belts[i], sw), None)
    ensures BeltLabels(belts[..i + 1]) == BeltLabels(belts[..i]) + [BeltLabel(belts[i])]
  {
    assert belts[..i + 1][..i] == belts[..i];
  }

  /** The loop touches neither the limits nor shaping. */
  lemma {:induction false} BeltLoopUntouching(cfg: PrinterConfig, belts: seq<char>, sw: Sweep)
    ensures Untouching(BeltLoop(cfg, belts, sw).events) && Offline(BeltLoop(cfg, belts, sw).events)
    decreases |belts|
  {
    if belts != [] {
      BeltLoopUntouching(cfg, belts[..|belts| - 1], sw);
    }
  }

  /** The two belts, `a` and then `b`, when both accelerometers are found. */
  lemma BeltLoopBoth(cfg: PrinterConfig, sw: Sweep)
    ensures BeltLoop(cfg, BeltOrder, sw).failure.None? <==> BeltChip(cfg, 'a').Ok? && BeltChip(cfg, 'b').Ok?
    ensures BeltChip(cfg, 'a').Err? ==> BeltLoop(cfg, BeltOrder, sw) == Run([], Some(BeltChip(cfg, 'a').error))
    ensures BeltChip(cfg, 'a').Ok? && BeltChip(cfg, 'b').Err? ==>
              BeltLoop(cfg, BeltOrder, sw) == Run(BeltEvents(BeltChip(cfg, 'a').value, 'a', sw), Some(BeltChip(cfg, 'b').error))
    ensures BeltChip(cfg, 'a').Ok? && BeltChip(cfg, 'b').Ok? ==>
              BeltLoop(cfg, BeltOrder, sw).events
              == BeltEvents(BeltChip(cfg, 'a').value, 'a', sw) + BeltEvents(BeltChip(cfg, 'b').value, 'b', sw)
  {
    assert BeltOrder[..1] == ['a'];
    assert ['a'][..0] == [];
    if BeltChip(cfg, 'a').Ok? {
      var first := BeltEvents(BeltChip(cfg, 'a').value, 'a', sw);
      assert [] + first == first;
    }
  }

  /** Every sweep in `es` runs along a belt with the frequencies, rate and
      acceleration per hertz of `sw`. */
  predicate SweepsAre(es: seq<Event>, sw: Sweep) {
    forall e | e in es && e.VibrateAxis? ::
      (e.direction == "a" || e.direction == "b")
      && e.minFreq == sw.minFreq && e.maxFreq == sw.maxFreq
      && e.hzPerSec == sw.hzPerSec && e.accelPerHz == sw.accelPerHz
  }

  lemma {:induction false} BeltLoopSweeps(cfg: PrinterConfig, belts: seq<char>, sw: Sweep)
    requires forall j :: 0 <= j < |belts| ==> belts[j] == 'a' || belts[j] == 'b'
    ensures SweepsAre(BeltLoop(cfg, belts, sw).events, sw)
    decreases |belts|
  {
    if belts != [] {
      BeltLoopSweeps(cfg, belts[..|belts| - 1], sw);
    }
  }

  /** Both belts are swept from `FREQ_START` to `FREQ_END` at `HZ_PER_SEC`
      with `ACCEL_PER_HZ`; a missing bound, and a missing or empty
      `ACCEL_PER_HZ`, take the `[resonance_tester]` value. */
  lemma BeltsSweeps(cfg: PrinterConfig, p: BeltParams, s: MachineState, transport: (string, string) -> Delivery)
    ensures forall e | e in BeltsRun(cfg, p, s, transport).events && e.VibrateAxis? ::
              (e.direction == "a" || e.direction == "b")
              && e.minFreq == p.freqStart.GetOr(cfg.resonance.minFreq)
              && e.maxFreq == p.freqEnd.GetOr(cfg.resonance.maxFreq)
              && e.hzPerSec == p.hzPerSec
              && e.accelPerHz == (if p.accelPerHz.Given? then p.accelPerHz.number else cfg.resonance.accelPerHz)
  {
    var sw := SweepOf(cfg, p);
    BeltLoopSweeps(cfg, BeltOrder, sw);
    UploadsInert(BeltJobs(p), transport);
    assert SweepsAre(BeltsRun(cfg, p, s, transport).events, sw);
  }

  /** The sweep acceleration: `max_accel = FREQ_END * ACCEL_PER_HZ`, each
      falling back to the `[resonance_tester]` value when missing (or, for
      `ACCEL_PER_HZ`, empty). */
  lemma BeltsMaxAccel(cfg: PrinterConfig, p: BeltParams)
    ensures MaxAccel(SweepOf(cfg, p))
            == p.freqEnd.GetOr(cfg.resonance.maxFreq) * (if p.accelPerHz.Given? then p.accelPerHz.number else cfg.resonance.accelPerHz)
  {
  }

  /** A test point that does not resolve stops the routine before anything
      happens; otherwise the travel move and its dwell come first, and only
      then the limits are raised to the sweep acceleration. */
  lemma BeltsTravelFirst(cfg: PrinterConfig, p: BeltParams, s: MachineState, transport: (string, string) -> Delivery)
    ensures var tp := ResolveTestPoint(cfg.resonance.testPoints, p.zHeight, cfg.bounds);
            var r := BeltsRun(cfg, p, s, transport);
            (tp.Err? ==> r == Run([], Some(tp.error)))
            && (tp.Ok? ==>
                  |r.events| >= 3
                  && r.events[0] == ManualMove(tp.value, p.travelSpeed)
                  && r.events[1] == Dwell(0.5)
                  && r.events[2] == SetVelocityLimit(MaxAccel(SweepOf(cfg, p)),
                                                     if s.limits.minimumCruiseRatio.Some? then Some(0.0) else None,
                                                     None))
  {
  }

  /** The belt routine never sends the corner velocity, so the square corner
      velocity is what it was, whichever way the routine ends. */
  lemma {:induction false} BeltsKeepCornerVelocity(cfg: PrinterConfig, p: BeltParams, s: MachineState, transport: (string, string) -> Delivery)
    ensures forall e | e in BeltsRun(cfg, p, s, transport).events && e.SetVelocityLimit? :: e.cornerVelocity.None?
    ensures Replay(s, BeltsRun(cfg, p, s, transport).events).limits.squareCornerVelocity == s.limits.squareCornerVelocity
  {
    var sw := SweepOf(cfg, p);
    var tp := ResolveTestPoint(cfg.resonance.testPoints, p.zHeight, cfg.bounds);
    BeltLoopUntouching(cfg, BeltOrder, sw);
    UploadsInert(BeltJobs(p), transport);
    if tp.Ok? {
      var travel := [ManualMove(tp.value, p.travelSpeed), Dwell(0.5)];
      var enter := Enter(s.limits, s.shaper.Some?, MaxAccel(sw), false);
      var loop := BeltLoop(cfg, BeltOrder, sw).events;
      var exit := Exit(s.limits, s.shaper.Some?, false);
      var up := UploadAll(BeltJobs(p), transport).events;
      assert KeepsCorners(travel) && KeepsCorners(enter) && KeepsCorners(exit);
      assert KeepsCorners(loop) && KeepsCorners(up);
      KeepsCornersConcat(travel, enter);
      KeepsCornersConcat(travel + enter, loop);
      KeepsCornersConcat(travel + enter + loop, exit);
      KeepsCornersConcat(travel + enter + loop + exit, up);
      assert BeltsMeasured(cfg, p, s, tp.value) == travel + enter + loop + exit;
    }
    assert KeepsCorners(BeltsRun(cfg, p, s, transport).events);
    ReplayKeepsCornerVelocity(s, BeltsRun(cfg, p, s, transport).events);
  }

  /** Once both belts are measured, the limits are the saved ones again and
      shaping is on iff the printer has an input shaper, whether or not the
      uploads then succeed. */
  lemma BeltsRestore(cfg: PrinterConfig, p: BeltParams, s: MachineState, transport: (string, string) -> Delivery)
    requires ResolveTestPoint(cfg.resonance.testPoints, p.zHeight, cfg.bounds).Ok?
    requires BeltChip(cfg, 'a').Ok? && BeltChip(cfg, 'b').Ok?
    ensures var t := Replay(s, BeltsRun(cfg, p, s, transport).events);
            t.limits == s.limits && t.shaper == ShaperSet(s.shaper, true)
  {
    var sw := SweepOf(cfg, p);
    var point := ResolveTestPoint(cfg.resonance.testPoints, p.zHeight, cfg.bounds).value;
    BeltLoopBoth(cfg, sw);
    BeltLoopUntouching(cfg, BeltOrder, sw);
    UploadsInert(BeltJobs(p), transport);
    GuardedRun(s, [ManualMove(point, p.travelSpeed), Dwell(0.5)], MaxAccel(sw), false,
               BeltLoop(cfg, BeltOrder, sw).events, UploadAll(BeltJobs(p), transport).events);
  }

  /** The gap: a belt whose accelerometer cannot be found ends the routine
      with that belt's error while the sweep acceleration is still in force and
      shaping is still off. */
  lemma BeltsFailureLeavesTestLimits(cfg: PrinterConfig, p: BeltParams, s: MachineState, transport: (string, string) -> Delivery)
    requires ResolveTestPoint(cfg.resonance.testPoints, p.zHeight, cfg.bounds).Ok?
    requires BeltChip(cfg, 'a').Err? || BeltChip(cfg, 'b').Err?
    ensures var r := BeltsRun(cfg, p, s, transport);
            var t := Replay(s, r.events);
            r.failure == Some(if BeltChip(cfg, 'a').Err? then BeltChip(cfg, 'a').error else BeltChip(cfg, 'b').error)
            && t.limits == TestLimits(s.limits, MaxAccel(SweepOf(cfg, p)), false)
            && t.shaper == ShaperSet(s.shaper, false)
  {
    var sw := SweepOf(cfg, p);
    var point := ResolveTestPoint(cfg.resonance.testPoints, p.zHeight, cfg.bounds).value;
    BeltLoopBoth(cfg, sw);
    BeltLoopUntouching(cfg, BeltOrder, sw);
    GuardedGap(s, [ManualMove(point, p.travelSpeed), Dwell(0.5)], MaxAccel(sw), false, BeltLoop(cfg, BeltOrder, sw).events);
  }

  lemma BeltEventsLabel(chip: string, belt: char, sw: Sweep)
    ensures Pick(BeltEvents(chip, belt, sw), StopLabel) == [BeltLabel(belt)]
  {
    var es := BeltEvents(chip, belt, sw);
    var head := [es[0], es[1], es[2]];
    assert es == head + es[3..];
    PickConcat(head, es[3..], StopLabel);
    PickNone(es[3..], StopLabel);
    assert head[1..][1..] == [es[2]];
    PickSingle(es[2], StopLabel);
  }

  lemma BeltEventsBracketed(chip: string, belt: char, sw: Sweep)
    ensures Bracketed(BeltEvents(chip, belt, sw))
  {
    var es := BeltEvents(chip, belt, sw);
    RecordingAfterQuiet(es[3..], false);
    calc {
      RecordingAfter(es, false);
      RecordingAfter(es[1..], true);
      { assert es[1..][0] == es[1] && es[1..][1..] == es[2..]; }
      RecordingAfter(es[2..], true);
      { assert es[2..][0] == es[2] && es[2..][1..] == es[3..]; }
      RecordingAfter(es[3..], false);
    }
  }

  /** Each belt is recorded on its own under `belt_a` and then `belt_b`, and
      no recording is left running or started twice. */
  lemma BeltsRecordings(cfg: PrinterConfig, p: BeltParams, s: MachineState, transport: (string, string) -> Delivery)
    requires ResolveTestPoint(cfg.resonance.testPoints, p.zHeight, cfg.bounds).Ok?
    requires BeltChip(cfg, 'a').Ok? && BeltChip(cfg, 'b').Ok?
    ensures Pick(BeltsRun(cfg, p, s, transport).events, StopLabel) == ["belt_a", "belt_b"]
    ensures Bracketed(BeltsRun(cfg, p, s, transport).events)
  {
    var sw := SweepOf(cfg, p);
    var point := ResolveTestPoint(cfg.resonance.testPoints, p.zHeight, cfg.bounds).value;
    var loop := BeltLoop(cfg, BeltOrder, sw).events;
    assert Pick(loop, StopLabel) == ["belt_a", "belt_b"] && Bracketed(loop) by {
      var a := BeltEvents(BeltChip(cfg, 'a').value, 'a', sw);
      var b := BeltEvents(BeltChip(cfg, 'b').value, 'b', sw);
      BeltLoopBoth(cfg, sw);
      BeltEventsLabel(BeltChip(cfg, 'a').value, 'a', sw);
      BeltEventsLabel(BeltChip(cfg, 'b').value, 'b', sw);
      BeltEventsBracketed(BeltChip(cfg, 'a').value, 'a', sw);
      BeltEventsBracketed(BeltChip(cfg, 'b').value, 'b', sw);
      PickConcat(a, b, StopLabel);
      BracketedConcat(a, b);
      assert BeltLabel('a') == "belt_a" && BeltLabel('b') == "belt_b";
    }
    var pre := [ManualMove(point, p.travelSpeed), Dwell(0.5)] + Enter(s.limits, s.shaper.Some?, MaxAccel(sw), false);
    var exit := Exit(s.limits, s.shaper.Some?, false);
    var up := UploadAll(BeltJobs(p), transport).events;
    assert Quiet(exit + up) by {
      UploadsInert(BeltJobs(p), transport);
    }
    assert BeltsRun(cfg, p, s, transport).events == pre + loop + (exit + up) by {
      BeltLoopBoth(cfg, sw);
      Regroup(pre + loop, exit, up);
    }
    Recordings(pre, loop, exit + up);
  }

  /** The two jobs, in belt order. */
  lemma BeltJobsInOrder(p: BeltParams)
    ensures BeltJobs(p) == [Job(BaseUrl(p.url), "belts", "belt_a"), Job(BaseUrl(p.url), "belts", "belt_b")]
  {
    assert BeltLabel('a') == "belt_a" && BeltLabel('b') == "belt_b";
  }

  lemma BeltResultPaths(base: string)
    ensures ResultPaths([Job(base, "belts", "belt_a"), Job(base, "belts", "belt_b")])
            == ["/tmp/belt_a_result.png", "/tmp/belt_b_result.png"]
  {
    assert Job(base, "belts", "belt_a").resultPath == "/tmp/belt_a_result.png";
    assert Job(base, "belts", "belt_b").resultPath == "/tmp/belt_b_result.png";
  }

  lemma BeltFileNames(base: string)
    ensures FileNames([Job(base, "belts", "belt_a"), Job(base, "belts", "belt_b")]) == ["belt_a.csv", "belt_b.csv"]
  {
    assert Job(base, "belts", "belt_a").fileName == "belt_a.csv";
    assert Job(base, "belts", "belt_b").fileName == "belt_b.csv";
  }

  /** With both belts measured, the routine ends with its uploads. */
  lemma BeltsEndWithUploads(cfg: PrinterConfig, p: BeltParams, s: MachineState, transport: (string, string) -> Delivery)
    requires ResolveTestPoint(cfg.resonance.testPoints, p.zHeight, cfg.bounds).Ok?
    requires BeltChip(cfg, 'a').Ok? && BeltChip(cfg, 'b').Ok?
    ensures var point := ResolveTestPoint(cfg.resonance.testPoints, p.zHeight, cfg.bounds).value;
            var up := UploadAll(BeltJobs(p), transport);
            BeltsRun(cfg, p, s, transport) == Run(BeltsMeasured(cfg, p, s, point) + up.events, up.failure)
            && Offline(BeltsMeasured(cfg, p, s, point))
  {
    BeltLoopBoth(cfg, SweepOf(cfg, p));
    BeltLoopUntouching(cfg, BeltOrder, SweepOf(cfg, p));
  }

  /** Every post goes to `<URL>/process/belts`, and the jobs that get through
      before the first failure save their results, in belt order. */
  lemma BeltsUploads(cfg: PrinterConfig, p: BeltParams, s: MachineState, transport: (string, string) -> Delivery)
    requires ResolveTestPoint(cfg.resonance.testPoints, p.zHeight, cfg.bounds).Ok?
    requires BeltChip(cfg, 'a').Ok? && BeltChip(cfg, 'b').Ok?
    ensures forall e | e in BeltsRun(cfg, p, s, transport).events && e.Post? :: e.endpoint == BaseUrl(p.url) + "/process/belts"
    ensures Pick(BeltsRun(cfg, p, s, transport).events, SavedPath)
            == ResultPaths(BeltJobs(p)[..DeliveredCount(BeltJobs(p), transport)])
    ensures BeltsRun(cfg, p, s, transport).failure.None? <==> DeliveredCount(BeltJobs(p), transport) == 2
  {
    var point := ResolveTestPoint(cfg.resonance.testPoints, p.zHeight, cfg.bounds).value;
    BeltsEndWithUploads(cfg, p, s, transport);
    UploadsAfter(BeltsMeasured(cfg, p, s, point), BeltJobs(p), transport);
    UploadFailure(BeltJobs(p), transport);
    UploadsEndpoint(BaseUrl(p.url), "belts", BeltLabels(BeltOrder), transport);
  }

  /** A belt routine that ends without error has posted `belt_a.csv` and
      `belt_b.csv` and saved both results, in that order. */
  lemma BeltsAllUploaded(cfg: PrinterConfig, p: BeltParams, s: MachineState, transport: (string, string) -> Delivery)
    requires BeltsRun(cfg, p, s, transport).failure.None?
    ensures Pick(BeltsRun(cfg, p, s, transport).events, SavedPath) == ["/tmp/belt_a_result.png", "/tmp/belt_b_result.png"]
    ensures Pick(BeltsRun(cfg, p, s, transport).events, PostedFile) == ["belt_a.csv", "belt_b.csv"]
  {
    BeltLoopBoth(cfg, SweepOf(cfg, p));
    var point := ResolveTestPoint(cfg.resonance.testPoints, p.zHeight, cfg.bounds).value;
    var jobs := BeltJobs(p);
    BeltsEndWithUploads(cfg, p, s, transport);
    UploadsAfter(BeltsMeasured(cfg, p, s, point), jobs, transport);
    UploadFailure(jobs, transport);
    BeltJobsInOrder(p);
    BeltResultPaths(BaseUrl(p.url));
    BeltFileNames(BaseUrl(p.url));
    assert jobs[..2] == jobs;
  }

  /** One pass of the loop body once the belt's accelerometer is known. */
  method MeasureBelt(m: Machine, chip: string, belt: char, sw: Sweep) returns (testName: string)
    requires m.Valid()
    modifies m
    ensures m.Valid() && m.initial == old(m.initial)
    ensures m.events == old(m.events) + BeltEvents(chip, belt, sw)
    ensures m.limits == old(m.limits) && m.shaper == old(m.shaper)
    ensures testName == BeltLabel(belt)
  {
    testName := BeltLabel(belt);
    ghost var pre := m.events;
    m.StartMeasurement(chip);
    m.Perform([VibrateAxis([belt], sw.minFreq, sw.maxFreq, sw.hzPerSec, sw.accelPerHz)]);
    m.StopMeasurement(testName);
    m.Perform([GetLatestDataFile(testName), WaitForFileWrites, Dwell(1.0), WaitMoves]);
  }

  /** The `for belt in ['a', 'b']` loop: per belt, find its accelerometer,
      record the sweep and flush the file. */
  method MeasureBelts(m: Machine, cfg: PrinterConfig, sw: Sweep) returns (labels: seq<string>, failure: Option<RoutineError>)
    requires m.Valid()
    modifies m
    ensures m.Valid() && m.initial == old(m.initial)
    ensures m.events == old(m.events) + BeltLoop(cfg, BeltOrder, sw).events
    ensures failure == BeltLoop(cfg, BeltOrder, sw).failure
    ensures failure.None? ==> labels == BeltLabels(BeltOrder)
    ensures m.limits == old(m.limits) && m.shaper == old(m.shaper)
  {
    ghost var e0 := m.events;
    var belts := BeltOrder;
    labels := [];
    var i := 0;
    while i < |belts|
      invariant 0 <= i <= |belts|
      invariant m.Valid() && m.initial == old(m.initial)
      invariant m.limits == old(m.limits) && m.shaper == old(m.shaper)
      invariant BeltLoop(cfg, belts[..i], sw).failure.None?
      invariant m.events == e0 + BeltLoop(cfg, belts[..i], sw).events
      invariant labels == BeltLabels(belts[..i])
    {
      var belt := belts[i];
      BeltLoopStep(cfg, belts, i, sw);
      var chip := FindAxisAccelerometer(cfg, [belt]);
      if chip.None? {
        BeltLoopStops(cfg, belts, i + 1, sw);
        return labels, Some(NoBeltAccelerometer(UpperChar(belt)));
      }
      if chip.value !in cfg.chips {
        BeltLoopStops(cfg, belts, i + 1, sw);
        return labels, Some(UnknownObject(chip.value));
      }
      var testName := MeasureBelt(m, chip.value, belt, sw);
      labels := labels + [testName];
      i := i + 1;
    }
    assert belts[..i] == belts;
    failure := None;
  }

  /** `compare_belts_responses_web`. The ValueError-free part of parameter
      parsing is done by the caller; `transport` answers for the network and
      the local disk. */
  method CompareBeltsResponses(m: Machine, cfg: PrinterConfig, p: BeltParams, transport: (string, string) -> Delivery)
    returns (failure: Option<RoutineError>)
    requires m.Valid()
    modifies m
    ensures m.Valid() && m.initial == old(m.initial)
    ensures m.events == old(m.events) + BeltsRun(cfg, p, old(m.State()), transport).events
    ensures failure == BeltsRun(cfg, p, old(m.State()), transport).failure
    ensures m.State() == Replay(old(m.State()), BeltsRun(cfg, p, old(m.State()), transport).events)
  {
    ghost var s0 := m.State();
    ghost var e0 := m.events;
    var base := BaseUrl(p.url);
    var sw := SweepOf(cfg, p);
    var maxAccel := MaxAccel(sw);

    var tp := ResolveTestPoint(cfg.resonance.testPoints, p.zHeight, cfg.bounds);
    if tp.Err? {
      assert BeltsRun(cfg, p, s0, transport) == Run([], Some(tp.error));
      assert e0 + [] == e0;
      return Some(tp.error);
    }
    var point := tp.value;
    m.ManualMove(point, p.travelSpeed);
    m.Perform([Dwell(0.5)]);
    ghost var travel := [ManualMove(point, p.travelSpeed), Dwell(0.5)];
    Regroup(e0, [ManualMove(point, p.travelSpeed)], [Dwell(0.5)]);
    assert travel == [ManualMove(point, p.travelSpeed)] + [Dwell(0.5)];
    assert m.events == e0 + travel;

    var saved, hasShaper := SaveAndRaise(m, maxAccel, false);
    ghost var enter := Enter(s0.limits, s0.shaper.Some?, maxAccel, false);
    Regroup(e0, travel, enter);

    var labels, loopFailure := MeasureBelts(m, cfg, sw);
    ghost var loop := BeltLoop(cfg, BeltOrder, sw);
    Regroup(e0, travel + enter, loop.events);
    if loopFailure.Some? {
      assert BeltsRun(cfg, p, s0, transport) == Run(travel + enter + loop.events, loopFailure);
      assert m.events == e0 + (travel + enter + loop.events);
      ReplayConcat(m.initial, e0, travel + enter + loop.events);
      return loopFailure;
    }
    assert labels == BeltLabels(BeltOrder);
    assert saved == s0.limits && hasShaper == s0.shaper.Some?;

    Restore(m, saved, hasShaper, false);
    ghost var exit := Exit(s0.limits, s0.shaper.Some?, false);
    ghost var guarded := travel + enter + loop.events + exit;
    Regroup(e0, travel + enter + loop.events, exit);
    var up := RunUploads(Jobs(base, "belts", labels), transport);
    assert up == UploadAll(BeltJobs(p), transport);
    UploadsInert(Jobs(base, "belts", labels), transport);
    m.Perform(up.events);
    failure := up.failure;
    ghost var run := BeltsRun(cfg, p, s0, transport);
    assert run == Run(guarded + up.events, up.failure);
    Regroup(e0, guarded, up.events);
    ReplayConcat(m.initial, e0, run.events);
  }
}
