/** `EXCITATE_AXIS_AT_FREQ_WEB`: travel to the test point, turn shaping off,
    shake one axis or belt at a fixed frequency, turn shaping back on and,
    only when a graph is requested, record the shaking and upload the
    recording to `/process/excitate`. The velocity limits are never touched. */
module Excitate {

  import opened Common
  import opened Text
  import opened Machines
  import opened Guard
  import opened TestPoints
  import opened Uploads

  /** The parameters of the command after `gcmd` has parsed them. `axis` is
      the text given, before it is lowered; `accelChip` is None when absent. */
  datatype ExcitateParams = ExcitateParams(
    url: string,
    createGraph: int,
    freq: int,
    duration: int,
    accelPerHz: FloatParam,
    axis: string,
    travelSpeed: real,
    zHeight: Option<real>,
    accelChip: Option<string>)

  /** The axes `AXIS_CONFIG` knows: the two Cartesian axes and the two belts. */
  predicate KnownAxis(axis: string) {
    axis == "x" || axis == "y" || axis == "a" || axis == "b"
  }

  const ExcitationLabel: string := "excitation"

  /** `ACCEL_CHIP` with `''` read as unset. */
  function ChipParam(p: ExcitateParams): (c: Option<string>)
    ensures c.Some? <==> p.accelChip.Some? && p.accelChip.value != ""
    ensures c.Some? ==> c == p.accelChip
  {
    if p.accelChip == Some("") then None else p.accelChip
  }

  /** The accelerometer that records: the one named by `ACCEL_CHIP`, else the
      one serving both X and Y for a belt, else the one serving the axis. */
  function ExcitationChip(cfg: PrinterConfig, p: ExcitateParams): Option<string> {
    var axis := Lower(p.axis);
    if ChipParam(p).Some? then ChipParam(p)
    else FindAxisAccelerometer(cfg, if axis == "a" || axis == "b" then "xy" else axis)
  }

  function Toggle(hasShaper: bool, e: Event): seq<Event> {
    if hasShaper then [e] else []
  }

  function StartOf(recorder: Option<string>): seq<Event> {
    if recorder.Some? then [StartMeasurement(recorder.value)] else []
  }

  function StopOf(recorder: Option<string>): seq<Event> {
    if recorder.Some? then [StopMeasurement(ExcitationLabel), WaitForFileWrites, GetLatestDataFile(ExcitationLabel)] else []
  }

  /** Travel, shaping off and the optional start, up to the shaking. */
  function ExcitationLead(point: Point, p: ExcitateParams, hasShaper: bool, recorder: Option<string>): seq<Event> {
    [ManualMove(point, p.travelSpeed), Dwell(0.5)] + Toggle(hasShaper, DisableShaping) + StartOf(recorder) + [Dwell(0.5)]
  }

  function Shake(p: ExcitateParams, aph: real): Event {
    VibrateAtStaticFreq(Lower(p.axis), p.freq, p.duration, aph)
  }

  /** Shaping back on and the optional stop with its flush and file lookup. */
  function ExcitationTrail(hasShaper: bool, recorder: Option<string>): seq<Event> {
    [Dwell(0.5)] + Toggle(hasShaper, EnableShaping) + StopOf(recorder)
  }

  function ExcitationEvents(point: Point, p: ExcitateParams, aph: real, hasShaper: bool, recorder: Option<string>): seq<Event> {
    ExcitationLead(point, p, hasShaper, recorder) + [Shake(p, aph)] + ExcitationTrail(hasShaper, recorder)
  }

  function ExcitateJobs(p: ExcitateParams): seq<UploadJob> {
    Jobs(BaseUrl(p.url), "excitate", [ExcitationLabel])
  }

  /** The checks before anything happens: the axis, the accelerometer (only
      with a graph), and the test point. */
  predicate ExcitateChecksPass(cfg: PrinterConfig, p: ExcitateParams) {
    KnownAxis(Lower(p.axis))
    && (p.createGraph == 1 ==> IsAccelerometer(cfg, ExcitationChip(cfg, p)))
    && ResolveTestPoint(cfg.resonance.testPoints, p.zHeight, cfg.bounds).Ok?
  }

  /** The error of the first check that fails. */
  function ExcitateRefusal(cfg: PrinterConfig, p: ExcitateParams): RoutineError
    requires !ExcitateChecksPass(cfg, p)
  {
    if !KnownAxis(Lower(p.axis)) then InvalidExcitationAxis
    else if p.createGraph == 1 && !IsAccelerometer(cfg, ExcitationChip(cfg, p)) then ChipNotFound(ExcitationChip(cfg, p))
    else ResolveTestPoint(cfg.resonance.testPoints, p.zHeight, cfg.bounds).error
  }

  /** The recorder once the checks have passed: the chip with a graph, none without. */
  function Recorder(cfg: PrinterConfig, p: ExcitateParams): Option<string> {
    if p.createGraph == 1 then ExcitationChip(cfg, p) else None
  }

  /** The excitation once the checks have passed. */
  function ExcitateExcitation(cfg: PrinterConfig, p: ExcitateParams, s: MachineState): seq<Event>
    requires ExcitateChecksPass(cfg, p)
  {
    ExcitationEvents(ResolveTestPoint(cfg.resonance.testPoints, p.zHeight, cfg.bounds).value, p,
                     p.accelPerHz.Or(cfg.resonance.accelPerHz), s.shaper.Some?, Recorder(cfg, p))
  }

  /** What the routine appends to the trace of a machine in state `s`. */
  function ExcitateRun(cfg: PrinterConfig, p: ExcitateParams, s: MachineState, transport: (string, string) -> Delivery): Run {
    if !ExcitateChecksPass(cfg, p) then Run([], Some(ExcitateRefusal(cfg, p)))
    else if p.createGraph != 1 then Run(ExcitateExcitation(cfg, p, s), None)
    else
      var up := UploadAll(ExcitateJobs(p), transport);
      Run(ExcitateExcitation(cfg, p, s) + up.events, up.failure)
  }

  // ---------------------------------------------------------------------------
  // Checks and errors

  /** An unknown axis, in any letter case, is refused before anything else,
      and it is the only way to get that error. */
  lemma ExcitateAxisChecked(cfg: PrinterConfig, p: ExcitateParams, s: MachineState, transport: (string, string) -> Delivery)
    ensures !KnownAxis(Lower(p.axis)) ==> ExcitateRun(cfg, p, s, transport) == Run([], Some(InvalidExcitationAxis))
    ensures ExcitateRun(cfg, p, s, transport).failure == Some(InvalidExcitationAxis) <==> !KnownAxis(Lower(p.axis))
  {
    if ExcitateChecksPass(cfg, p) {
      UploadFailure(ExcitateJobs(p), transport);
    }
  }

  /** The axis is read without regard to case: `B` is the B belt. */
  lemma UpperAxisAccepted(p: ExcitateParams)
    requires p.axis == "B"
    ensures KnownAxis(Lower(p.axis)) && Lower(p.axis) == "b"
  {
    assert Lower(p.axis)[0] == LowerChar('B');
  }

  /** Every check passes, or the routine ends with no event and the error of
      the first that fails: the axis, then the chip (only with a graph), then
      the test point. */
  lemma ExcitateErrors(cfg: PrinterConfig, p: ExcitateParams, s: MachineState, transport: (string, string) -> Delivery)
    ensures var r := ExcitateRun(cfg, p, s, transport);
            var tp := ResolveTestPoint(cfg.resonance.testPoints, p.zHeight, cfg.bounds);
            (r.events == [] <==> !ExcitateChecksPass(cfg, p))
            && (KnownAxis(Lower(p.axis)) && p.createGraph == 1 && !IsAccelerometer(cfg, ExcitationChip(cfg, p)) ==>
                  r.failure == Some(ChipNotFound(ExcitationChip(cfg, p))))
            && (KnownAxis(Lower(p.axis)) && (p.createGraph == 1 ==> IsAccelerometer(cfg, ExcitationChip(cfg, p))) && tp.Err? ==>
                  r.failure == Some(tp.error))
  {
  }

  /** Without a graph, the accelerometers of the printer play no part. */
  lemma ChipIgnoredWithoutGraph(cfg: PrinterConfig, p: ExcitateParams, s: MachineState, transport: (string, string) -> Delivery,
                                axisAccelerometers: map<string, string>, chips: map<string, ChipSection>)
    requires p.createGraph != 1
    ensures ExcitateRun(cfg, p, s, transport)
            == ExcitateRun(cfg.(axisAccelerometers := axisAccelerometers, chips := chips), p, s, transport)
  {
  }

  /** A belt is recorded by the accelerometer serving both X and Y, an axis by
      its own, unless `ACCEL_CHIP` names one. */
  lemma ExcitationChipChoice(cfg: PrinterConfig, p: ExcitateParams)
    ensures ChipParam(p).Some? ==> ExcitationChip(cfg, p) == p.accelChip
    ensures ChipParam(p).None? && (Lower(p.axis) == "a" || Lower(p.axis) == "b") ==>
              (ExcitationChip(cfg, p).Some? <==> "xy" in cfg.axisAccelerometers)
    ensures ChipParam(p).None? && (Lower(p.axis) == "x" || Lower(p.axis) == "y") ==>
              (ExcitationChip(cfg, p).Some? <==> Lower(p.axis) in cfg.axisAccelerometers)
  {
  }

  // ---------------------------------------------------------------------------
  // The trace

  /** With every check passed, the trace is the excitation and, with a graph,
      the upload after it; without a graph the routine cannot fail. */
  lemma ExcitateShape(cfg: PrinterConfig, p: ExcitateParams, s: MachineState, transport: (string, string) -> Delivery)
    requires ExcitateChecksPass(cfg, p)
    ensures var r := ExcitateRun(cfg, p, s, transport);
            r.events == ExcitateExcitation(cfg, p, s) + (if p.createGraph == 1 then UploadAll(ExcitateJobs(p), transport).events else [])
            && (p.createGraph != 1 ==> r.failure.None?)
  {
    assert ExcitateExcitation(cfg, p, s) + [] == ExcitateExcitation(cfg, p, s);
  }

  lemma LeadState(s: MachineState, point: Point, p: ExcitateParams, recorder: Option<string>)
    ensures Replay(s, ExcitationLead(point, p, s.shaper.Some?, recorder))
            == s.(position := point, shaper := ShaperSet(s.shaper, false), recording := recorder.Some? || s.recording)
  {
    var a := [ManualMove(point, p.travelSpeed), Dwell(0.5)];
    var b := Toggle(s.shaper.Some?, DisableShaping);
    var c := StartOf(recorder);
    ReplayConcat(s, a + b + c, [Dwell(0.5)]);
    ReplayConcat(s, a + b, c);
    ReplayConcat(s, a, b);
    ReplayConcat(s, [ManualMove(point, p.travelSpeed)], [Dwell(0.5)]);
    ReplaySingle(s, ManualMove(point, p.travelSpeed));
    var s1 := Replay(s, a);
    ReplaySingle(s1, Dwell(0.5));
    if s.shaper.Some? {
      ReplaySingle(s1, DisableShaping);
    }
    var s2 := Replay(s1, b);
    if recorder.Some? {
      ReplaySingle(s2, StartMeasurement(recorder.value));
    }
    ReplaySingle(Replay(s2, c), Dwell(0.5));
  }

  lemma TrailState(t: MachineState, recorder: Option<string>)
    ensures Replay(t, ExcitationTrail(t.shaper.Some?, recorder))
            == t.(shaper := ShaperSet(t.shaper, true), recording := recorder.None? && t.recording)
  {
    var a := [Dwell(0.5)];
    var b := Toggle(t.shaper.Some?, EnableShaping);
    var c := StopOf(recorder);
    ReplayConcat(t, a + b, c);
    ReplayConcat(t, a, b);
    ReplaySingle(t, Dwell(0.5));
    if t.shaper.Some? {
      ReplaySingle(t, EnableShaping);
    }
    var t2 := Replay(t, a + b);
    if recorder.Some? {
      var stop := StopMeasurement(ExcitationLabel);
      ReplayConcat(t2, [stop], [WaitForFileWrites, GetLatestDataFile(ExcitationLabel)]);
      assert c == [stop] + [WaitForFileWrites, GetLatestDataFile(ExcitationLabel)];
      ReplaySingle(t2, stop);
      ReplayInert(Apply(t2, stop), [WaitForFileWrites, GetLatestDataFile(ExcitationLabel)]);
    }
  }

  /** The shaking happens with shaping off and, with a recorder, while the
      accelerometer records; afterwards the toolhead stays at the test point,
      shaping is back on where there is a shaper, the recording is over and
      the limits are as they were. */
  lemma ExcitationState(s: MachineState, point: Point, p: ExcitateParams, aph: real, recorder: Option<string>)
    ensures var lead := ExcitationLead(point, p, s.shaper.Some?, recorder);
            var t := Replay(s, lead);
            t.shaper == ShaperSet(s.shaper, false) && t.position == point
            && (recorder.Some? ==> t.recording)
            && Replay(s, ExcitationEvents(point, p, aph, s.shaper.Some?, recorder))
               == s.(position := point, shaper := ShaperSet(s.shaper, true), recording := recorder.None? && s.recording)
  {
    var lead := ExcitationLead(point, p, s.shaper.Some?, recorder);
    LeadState(s, point, p, recorder);
    var t := Replay(s, lead);
    ReplayConcat(s, lead + [Shake(p, aph)], ExcitationTrail(s.shaper.Some?, recorder));
    ReplayConcat(s, lead, [Shake(p, aph)]);
    ReplaySingle(t, Shake(p, aph));
    TrailState(t, recorder);
  }

  /** The shaking follows the lead, with the state the lead leaves. */
  lemma ShakeAt(s: MachineState, point: Point, p: ExcitateParams, aph: real, recorder: Option<string>)
    ensures var ex := ExcitationEvents(point, p, aph, s.shaper.Some?, recorder);
            var k := 3 + (if s.shaper.Some? then 1 else 0) + (if recorder.Some? then 1 else 0);
            k < |ex| && ex[k] == Shake(p, aph)
            && Replay(s, ex[..k]).shaper == ShaperSet(s.shaper, false)
            && (recorder.Some? ==> Replay(s, ex[..k]).recording)
            && Replay(s, ex[..k]).position == point
  {
    var lead := ExcitationLead(point, p, s.shaper.Some?, recorder);
    var ex := ExcitationEvents(point, p, aph, s.shaper.Some?, recorder);
    assert |lead| == 3 + (if s.shaper.Some? then 1 else 0) + (if recorder.Some? then 1 else 0);
    assert ex == lead + ([Shake(p, aph)] + ExcitationTrail(s.shaper.Some?, recorder));
    assert ex[..|lead|] == lead;
    ExcitationState(s, point, p, aph, recorder);
  }

  /** Where the shaking sits in the trace of the whole routine: after the
      travel, the `disable_shaping` of a printer with an input shaper and
      the start of a graphed run, with exactly that state in force. */
  lemma ExcitateShakesUnshaped(cfg: PrinterConfig, p: ExcitateParams, s: MachineState, transport: (string, string) -> Delivery)
    requires ExcitateChecksPass(cfg, p)
    ensures var es := ExcitateRun(cfg, p, s, transport).events;
            var k := 3 + (if s.shaper.Some? then 1 else 0) + (if p.createGraph == 1 then 1 else 0);
            k < |es|
            && es[k] == VibrateAtStaticFreq(Lower(p.axis), p.freq, p.duration, p.accelPerHz.Or(cfg.resonance.accelPerHz))
            && Replay(s, es[..k]).shaper == ShaperSet(s.shaper, false)
            && (p.createGraph == 1 ==> Replay(s, es[..k]).recording)
            && Replay(s, es[..k]).position == ResolveTestPoint(cfg.resonance.testPoints, p.zHeight, cfg.bounds).value
  {
    var point := ResolveTestPoint(cfg.resonance.testPoints, p.zHeight, cfg.bounds).value;
    var aph := p.accelPerHz.Or(cfg.resonance.accelPerHz);
    var recorder := Recorder(cfg, p);
    var ex := ExcitateExcitation(cfg, p, s);
    var post := if p.createGraph == 1 then UploadAll(ExcitateJobs(p), transport).events else [];
    var k := 3 + (if s.shaper.Some? then 1 else 0) + (if p.createGraph == 1 then 1 else 0);
    ShakeAt(s, point, p, aph, recorder);
    ExcitateShape(cfg, p, s, transport);
    assert (ex + post)[..k] == ex[..k];
    assert (ex + post)[k] == ex[k];
  }

  /** The routine leaves the limits and the position of the excitation, and
      shaping on where there is a shaper; a graphed run leaves nothing
      recording. */
  lemma ExcitateFinalState(cfg: PrinterConfig, p: ExcitateParams, s: MachineState, transport: (string, string) -> Delivery)
    requires ExcitateChecksPass(cfg, p)
    ensures var t := Replay(s, ExcitateRun(cfg, p, s, transport).events);
            t.limits == s.limits && t.extruder == s.extruder
            && t.shaper == ShaperSet(s.shaper, true)
            && t.position == ResolveTestPoint(cfg.resonance.testPoints, p.zHeight, cfg.bounds).value
            && t.recording == (p.createGraph != 1 && s.recording)
  {
    var point := ResolveTestPoint(cfg.resonance.testPoints, p.zHeight, cfg.bounds).value;
    var ex := ExcitateExcitation(cfg, p, s);
    ExcitateShape(cfg, p, s, transport);
    ExcitationState(s, point, p, p.accelPerHz.Or(cfg.resonance.accelPerHz), Recorder(cfg, p));
    if p.createGraph == 1 {
      UploadsInert(ExcitateJobs(p), transport);
      ReplayConcat(s, ex, UploadAll(ExcitateJobs(p), transport).events);
      ReplayInert(Replay(s, ex), UploadAll(ExcitateJobs(p), transport).events);
    } else {
      assert ExcitateRun(cfg, p, s, transport).events == ex;
    }
  }

  /** The routine never issues `SET_VELOCITY_LIMIT`, and it turns shaping
      off, and back on, exactly when the printer has an input shaper. */
  lemma ExcitateShaping(cfg: PrinterConfig, p: ExcitateParams, s: MachineState, transport: (string, string) -> Delivery)
    ensures var es := ExcitateRun(cfg, p, s, transport).events;
            (forall e | e in es :: !e.SetVelocityLimit?)
            && (ExcitateChecksPass(cfg, p) ==> (DisableShaping in es <==> s.shaper.Some?) && (EnableShaping in es <==> s.shaper.Some?))
  {
    if ExcitateChecksPass(cfg, p) {
      var ex := ExcitateExcitation(cfg, p, s);
      var up := if p.createGraph == 1 then UploadAll(ExcitateJobs(p), transport).events else [];
      ExcitateShape(cfg, p, s, transport);
      UploadsInert(ExcitateJobs(p), transport);
      ExcitationToggles(ResolveTestPoint(cfg.resonance.testPoints, p.zHeight, cfg.bounds).value, p,
                        p.accelPerHz.Or(cfg.resonance.accelPerHz), s.shaper.Some?, Recorder(cfg, p));
      assert forall e | e in up :: e.Post? || e.SaveResult?;
      assert forall e | e in ex + up :: e in ex || e in up;
    }
  }

  /** The excitation never limits velocity and toggles shaping exactly when
      there is an input shaper. */
  lemma ExcitationToggles(point: Point, p: ExcitateParams, aph: real, hasShaper: bool, recorder: Option<string>)
    ensures var ex := ExcitationEvents(point, p, aph, hasShaper, recorder);
            (forall e | e in ex :: !e.SetVelocityLimit?)
            && (DisableShaping in ex <==> hasShaper) && (EnableShaping in ex <==> hasShaper)
  {
    var travel := [ManualMove(point, p.travelSpeed), Dwell(0.5)];
    var off := Toggle(hasShaper, DisableShaping);
    var on := Toggle(hasShaper, EnableShaping);
    var lead := ExcitationLead(point, p, hasShaper, recorder);
    var ex := ExcitationEvents(point, p, aph, hasShaper, recorder);
    assert Steady(travel, hasShaper) && Steady(off, hasShaper) && Steady(StartOf(recorder), hasShaper);
    assert Steady([Dwell(0.5)], hasShaper) && Steady([Shake(p, aph)], hasShaper);
    assert Steady(on, hasShaper) && Steady(StopOf(recorder), hasShaper);
    SteadyConcat(travel, off, hasShaper);
    SteadyConcat(travel + off, StartOf(recorder), hasShaper);
    SteadyConcat(travel + off + StartOf(recorder), [Dwell(0.5)], hasShaper);
    SteadyConcat([Dwell(0.5)], on, hasShaper);
    SteadyConcat([Dwell(0.5)] + on, StopOf(recorder), hasShaper);
    SteadyConcat(lead, [Shake(p, aph)], hasShaper);
    SteadyConcat(lead + [Shake(p, aph)], ExcitationTrail(hasShaper, recorder), hasShaper);
    if hasShaper {
      assert ex[2] == DisableShaping;
      assert ex[|lead| + 2] == EnableShaping;
    }
  }

  /** The order of the toggles: the travel comes first, and shaping is
      disabled right after it and nowhere else; with a recorder, the stop
      comes after the re-enable, so shaping is already back on when the
      recording stops. */
  lemma ExcitationOrder(s: MachineState, point: Point, p: ExcitateParams, aph: real, recorder: Option<string>)
    ensures var ex := ExcitationEvents(point, p, aph, s.shaper.Some?, recorder);
            var h := if s.shaper.Some? then 1 else 0;
            var k := 5 + 2 * h + (if recorder.Some? then 1 else 0);
            ex[0] == ManualMove(point, p.travelSpeed)
            && (s.shaper.Some? ==> ex[2] == DisableShaping)
            && (forall i :: 0 <= i < |ex| && ex[i] == DisableShaping ==> i == 2)
            && (recorder.Some? ==>
                  k < |ex| && ex[k] == StopMeasurement(ExcitationLabel)
                  && (s.shaper.Some? ==> ex[k - 1] == EnableShaping)
                  && Replay(s, ex[..k]).shaper == ShaperSet(s.shaper, true))
  {
    var hasShaper := s.shaper.Some?;
    var lead := ExcitationLead(point, p, hasShaper, recorder);
    var ex := ExcitationEvents(point, p, aph, hasShaper, recorder);
    var trail := ExcitationTrail(hasShaper, None);
    assert |lead| == 3 + (if hasShaper then 1 else 0) + (if recorder.Some? then 1 else 0);
    assert forall i :: 0 <= i < |ex| && i != 2 ==> ex[i] != DisableShaping;
    if recorder.Some? {
      var k := |lead| + 1 + |trail|;
      assert ex[..k] == lead + [Shake(p, aph)] + trail;
      LeadState(s, point, p, recorder);
      var t := Replay(s, lead);
      ReplayConcat(s, lead + [Shake(p, aph)], trail);
      ReplayConcat(s, lead, [Shake(p, aph)]);
      ReplaySingle(t, Shake(p, aph));
      TrailState(t, None);
    }
  }

  /** The routine: shaping is disabled just after the travel to the test
      point and nowhere else, and with a graph it is back on by the time the
      recording stops. */
  lemma ExcitateToggleOrder(cfg: PrinterConfig, p: ExcitateParams, s: MachineState, transport: (string, string) -> Delivery)
    requires ExcitateChecksPass(cfg, p)
    ensures var es := ExcitateRun(cfg, p, s, transport).events;
            var point := ResolveTestPoint(cfg.resonance.testPoints, p.zHeight, cfg.bounds).value;
            var h := if s.shaper.Some? then 1 else 0;
            var k := 6 + 2 * h;
            |es| > 2 && es[0] == ManualMove(point, p.travelSpeed)
            && (s.shaper.Some? ==> es[2] == DisableShaping)
            && (forall i :: 0 <= i < |es| && es[i] == DisableShaping ==> i == 2)
            && (p.createGraph == 1 ==>
                  k < |es| && es[k] == StopMeasurement(ExcitationLabel)
                  && (s.shaper.Some? ==> es[k - 1] == EnableShaping)
                  && Replay(s, es[..k]).shaper == ShaperSet(s.shaper, true))
  {
    var point := ResolveTestPoint(cfg.resonance.testPoints, p.zHeight, cfg.bounds).value;
    var ex := ExcitateExcitation(cfg, p, s);
    var up := if p.createGraph == 1 then UploadAll(ExcitateJobs(p), transport).events else [];
    ExcitateShape(cfg, p, s, transport);
    UploadsInert(ExcitateJobs(p), transport);
    ExcitationOrder(s, point, p, p.accelPerHz.Or(cfg.resonance.accelPerHz), Recorder(cfg, p));
    ExtendedByUploads(ex, up, 6 + 2 * (if s.shaper.Some? then 1 else 0));
  }

  /** Appending uploads keeps every index and prefix of the excitation and
      adds no shaping toggle. */
  lemma ExtendedByUploads(ex: seq<Event>, up: seq<Event>, k: nat)
    requires forall e | e in up :: e.Post? || e.SaveResult?
    ensures forall i :: 0 <= i < |ex| ==> (ex + up)[i] == ex[i]
    ensures k <= |ex| ==> (ex + up)[..k] == ex[..k]
    ensures forall i :: 0 <= i < |ex + up| && (ex + up)[i] == DisableShaping ==> i < |ex|
  {
    forall i | |ex| <= i < |ex + up| ensures (ex + up)[i] != DisableShaping {
      assert (ex + up)[i] == up[i - |ex|];
      assert up[i - |ex|] in up;
    }
  }

  /** No velocity limit, and no shaping toggle unless there is a shaper. */
  predicate Steady(es: seq<Event>, hasShaper: bool) {
    forall e | e in es :: !e.SetVelocityLimit? && (!hasShaper ==> e != DisableShaping && e != EnableShaping)
  }

  lemma SteadyConcat(a: seq<Event>, b: seq<Event>, hasShaper: bool)
    requires Steady(a, hasShaper) && Steady(b, hasShaper)
    ensures Steady(a + b, hasShaper)
  {
    assert forall e | e in a + b :: e in a || e in b;
  }

  /** The excitation alone: one recording, by the recorder and under the
      label `excitation`, when it has a recorder, none otherwise, and nothing
      of the upload side. */
  lemma ExcitationRecords(point: Point, p: ExcitateParams, aph: real, hasShaper: bool, recorder: Option<string>)
    ensures var ex := ExcitationEvents(point, p, aph, hasShaper, recorder);
            Bracketed(ex) && Offline(ex)
            && Pick(ex, StopLabel) == (if recorder.Some? then [ExcitationLabel] else [])
            && (forall e | e in ex && e.StartMeasurement? :: Some(e.chip) == recorder)
  {
    ExcitationBracketed(point, p, aph, hasShaper, recorder);
    ExcitationOffline(point, p, aph, hasShaper, recorder);
  }

  lemma ExcitationBracketed(point: Point, p: ExcitateParams, aph: real, hasShaper: bool, recorder: Option<string>)
    ensures var ex := ExcitationEvents(point, p, aph, hasShaper, recorder);
            Bracketed(ex) && Pick(ex, StopLabel) == (if recorder.Some? then [ExcitationLabel] else [])
  {
    var ex := ExcitationEvents(point, p, aph, hasShaper, recorder);
    var pre := [ManualMove(point, p.travelSpeed), Dwell(0.5)] + Toggle(hasShaper, DisableShaping);
    var mid := [Dwell(0.5)] + [Shake(p, aph)] + ([Dwell(0.5)] + Toggle(hasShaper, EnableShaping));
    var rec := StartOf(recorder) + mid + StopOf(recorder);
    assert ex == pre + rec + [];
    assert Quiet(pre) && Quiet(mid);
    Recordings(pre, rec, []);
    RecordingSpan(recorder, mid);
  }

  lemma ExcitationOffline(point: Point, p: ExcitateParams, aph: real, hasShaper: bool, recorder: Option<string>)
    ensures var ex := ExcitationEvents(point, p, aph, hasShaper, recorder);
            Offline(ex) && (forall e | e in ex && e.StartMeasurement? :: Some(e.chip) == recorder)
  {
    var travel := [ManualMove(point, p.travelSpeed), Dwell(0.5)];
    var off := Toggle(hasShaper, DisableShaping);
    var on := Toggle(hasShaper, EnableShaping);
    assert RecordsBy(travel, recorder) && RecordsBy(off, recorder) && RecordsBy(StartOf(recorder), recorder);
    assert RecordsBy([Dwell(0.5)], recorder) && RecordsBy([Shake(p, aph)], recorder);
    assert RecordsBy(on, recorder) && RecordsBy(StopOf(recorder), recorder);
    RecordsByConcat(travel, off, recorder);
    RecordsByConcat(travel + off, StartOf(recorder), recorder);
    RecordsByConcat(travel + off + StartOf(recorder), [Dwell(0.5)], recorder);
    RecordsByConcat([Dwell(0.5)], on, recorder);
    RecordsByConcat([Dwell(0.5)] + on, StopOf(recorder), recorder);
    RecordsByConcat(ExcitationLead(point, p, hasShaper, recorder), [Shake(p, aph)], recorder);
    RecordsByConcat(ExcitationLead(point, p, hasShaper, recorder) + [Shake(p, aph)], ExcitationTrail(hasShaper, recorder), recorder);
  }

  /** Nothing posted or saved, and every recording started by `recorder`. */
  predicate RecordsBy(es: seq<Event>, recorder: Option<string>) {
    Offline(es) && forall e | e in es && e.StartMeasurement? :: Some(e.chip) == recorder
  }

  lemma RecordsByConcat(a: seq<Event>, b: seq<Event>, recorder: Option<string>)
    requires RecordsBy(a, recorder) && RecordsBy(b, recorder)
    ensures RecordsBy(a + b, recorder)
  {
    assert forall e | e in a + b :: e in a || e in b;
  }

  /** A start, a stretch that records nothing and a stop. */
  lemma RecordingSpan(recorder: Option<string>, mid: seq<Event>)
    requires Quiet(mid)
    ensures var rec := StartOf(recorder) + mid + StopOf(recorder);
            Bracketed(rec) && Pick(rec, StopLabel) == (if recorder.Some? then [ExcitationLabel] else [])
  {
    var rec := StartOf(recorder) + mid + StopOf(recorder);
    if recorder.Some? {
      var j := 1 + |mid|;
      assert rec[0] == StartMeasurement(recorder.value);
      assert rec[j] == StopMeasurement(ExcitationLabel);
      assert forall i :: 0 < i < j ==> rec[i] == mid[i - 1];
      BracketedSpan(rec, 0, j);
      PickAt(rec, j, StopLabel);
      PickSingle(rec[j], StopLabel);
    } else {
      assert rec == mid;
      RecordingAfterQuiet(mid, false);
      PickNone(mid, StopLabel);
    }
  }

  /** A graphed run records once, under the label `excitation`, with the
      accelerometer chosen above; an ungraphed run records nothing and
      uploads nothing. */
  lemma ExcitateRecording(cfg: PrinterConfig, p: ExcitateParams, s: MachineState, transport: (string, string) -> Delivery)
    requires ExcitateChecksPass(cfg, p)
    ensures var es := ExcitateRun(cfg, p, s, transport).events;
            Bracketed(es)
            && Pick(es, StopLabel) == (if p.createGraph == 1 then [ExcitationLabel] else [])
            && (forall e | e in es && e.StartMeasurement? :: Some(e.chip) == ExcitationChip(cfg, p))
            && (p.createGraph != 1 ==> Offline(es))
  {
    var point := ResolveTestPoint(cfg.resonance.testPoints, p.zHeight, cfg.bounds).value;
    var ex := ExcitateExcitation(cfg, p, s);
    ExcitationRecords(point, p, p.accelPerHz.Or(cfg.resonance.accelPerHz), s.shaper.Some?, Recorder(cfg, p));
    ExcitateShape(cfg, p, s, transport);
    if p.createGraph == 1 {
      UploadsInert(ExcitateJobs(p), transport);
      RecordsThenUploads(ex, UploadAll(ExcitateJobs(p), transport).events, Recorder(cfg, p));
    }
  }

  /** Uploads after a recorded stretch add no recording. */
  lemma RecordsThenUploads(ex: seq<Event>, up: seq<Event>, recorder: Option<string>)
    requires Bracketed(ex) && forall e | e in ex && e.StartMeasurement? :: Some(e.chip) == recorder
    requires forall e | e in up :: e.Post? || e.SaveResult?
    ensures Bracketed(ex + up) && Pick(ex + up, StopLabel) == Pick(ex, StopLabel)
    ensures forall e | e in ex + up && e.StartMeasurement? :: Some(e.chip) == recorder
  {
    assert Quiet(up);
    assert ex + up + [] == ex + up;
    Recordings([], ex, up);
    assert [] + ex + up == ex + up;
    assert forall e | e in ex + up :: e in ex || e in up;
  }

  // ---------------------------------------------------------------------------
  // The upload

  lemma ExcitateJob(p: ExcitateParams)
    ensures ExcitateJobs(p)
            == [UploadJob("excitation", BaseUrl(p.url) + "/process/excitate", "excitation.csv", "/tmp/excitation_result.png")]
  {
    var jobs := ExcitateJobs(p);
    assert jobs[0] == Job(BaseUrl(p.url), "excitate", ExcitationLabel);
    assert "/tmp/" + ExcitationLabel + "_result.png" == "/tmp/excitation_result.png";
    assert ExcitationLabel + ".csv" == "excitation.csv";
    assert BaseUrl(p.url) + "/process/" + "excitate" == BaseUrl(p.url) + "/process/excitate";
  }

  /** A graphed run posts `excitation.csv` to `<URL>/process/excitate` and
      saves `/tmp/excitation_result.png`; it fails exactly when that upload
      does, with the processing error for a failed request and the saving
      error for a file that cannot be read or written. */
  lemma ExcitateUpload(cfg: PrinterConfig, p: ExcitateParams, s: MachineState, transport: (string, string) -> Delivery)
    requires ExcitateChecksPass(cfg, p) && p.createGraph == 1
    ensures var d := transport(BaseUrl(p.url) + "/process/excitate", "excitation.csv");
            var r := ExcitateRun(cfg, p, s, transport);
            (r.failure.None? <==> d.Delivered?)
            && (d.RequestFailed? ==> r.failure == Some(ProcessFailed(d.reason)))
            && (d.ReadFailed? || d.WriteFailed? ==> r.failure == Some(SaveFailed(d.reason)))
            && Pick(r.events, SavedPath) == (if d.Delivered? then ["/tmp/excitation_result.png"] else [])
            && Pick(r.events, PostedFile) == (if d.ReadFailed? then [] else ["excitation.csv"])
            && (forall e | e in r.events && e.Post? :: e.endpoint == BaseUrl(p.url) + "/process/excitate")
  {
    var ex := ExcitateExcitation(cfg, p, s);
    ExcitateJob(p);
    ExcitateShape(cfg, p, s, transport);
    ExcitationRecords(ResolveTestPoint(cfg.resonance.testPoints, p.zHeight, cfg.bounds).value, p,
                      p.accelPerHz.Or(cfg.resonance.accelPerHz), s.shaper.Some?, Recorder(cfg, p));
    OneUpload(ex, ExcitateJobs(p)[0], transport);
  }

  /** One upload after a stretch that posts nothing: it fails exactly when
      its delivery does, and it posts and saves what that delivery allows. */
  lemma OneUpload(pre: seq<Event>, job: UploadJob, transport: (string, string) -> Delivery)
    requires Offline(pre)
    ensures var d := transport(job.endpoint, job.fileName);
            var r := UploadAll([job], transport);
            (r.failure.None? <==> d.Delivered?)
            && (d.RequestFailed? ==> r.failure == Some(ProcessFailed(d.reason)))
            && (d.ReadFailed? || d.WriteFailed? ==> r.failure == Some(SaveFailed(d.reason)))
            && Pick(pre + r.events, SavedPath) == (if d.Delivered? then [job.resultPath] else [])
            && Pick(pre + r.events, PostedFile) == (if d.ReadFailed? then [] else [job.fileName])
            && (forall e | e in pre + r.events && e.Post? :: e.endpoint == job.endpoint)
  {
    var up := UploadAll([job], transport).events;
    OneUploadRun(job, transport);
    PickConcat(pre, up, SavedPath);
    PickConcat(pre, up, PostedFile);
    PickNone(pre, SavedPath);
    PickNone(pre, PostedFile);
    OneUploadPicks(job, transport);
    assert forall e | e in pre + up :: e in pre || e in up;
  }

  /** The events and the outcome of a single upload. */
  lemma OneUploadRun(job: UploadJob, transport: (string, string) -> Delivery)
    ensures var post := Post(job.endpoint, job.fileName);
            UploadAll([job], transport)
            == match transport(job.endpoint, job.fileName)
               case Delivered => Run([post, SaveResult(job.resultPath)], None)
               case ReadFailed(why) => Run([], Some(SaveFailed(why)))
               case RequestFailed(why) => Run([post], Some(ProcessFailed(why)))
               case WriteFailed(why) => Run([post], Some(SaveFailed(why)))
  {
    assert [job][1..] == [];
    assert [job][0] == job;
  }

  lemma OneUploadPicks(job: UploadJob, transport: (string, string) -> Delivery)
    ensures var d := transport(job.endpoint, job.fileName);
            var up := UploadAll([job], transport).events;
            Pick(up, SavedPath) == (if d.Delivered? then [job.resultPath] else [])
            && Pick(up, PostedFile) == (if d.ReadFailed? then [] else [job.fileName])
  {
    var post := Post(job.endpoint, job.fileName);
    var save := SaveResult(job.resultPath);
    OneUploadRun(job, transport);
    PickSingle(post, SavedPath);
    PickSingle(post, PostedFile);
    if transport(job.endpoint, job.fileName).Delivered? {
      assert [post, save] == [post] + [save];
      PickConcat([post], [save], SavedPath);
      PickConcat([post], [save], PostedFile);
      PickSingle(save, SavedPath);
      PickSingle(save, PostedFile);
    }
  }

  // ---------------------------------------------------------------------------
  // The routine on the machine

  /** Travel, `disable_shaping` when there is an input shaper, and the start
      of the optional recording. */
  method Approach(m: Machine, point: Point, p: ExcitateParams, recorder: Option<string>) returns (hasShaper: bool)
    requires m.Valid()
    modifies m
    ensures m.Valid() && m.initial == old(m.initial)
    ensures hasShaper == old(m.shaper).Some? && m.shaper.Some? == hasShaper
    ensures m.events == old(m.events) + ExcitationLead(point, p, hasShaper, recorder)
  {
    ghost var e0 := m.events;
    hasShaper := Travel(m, point, p.travelSpeed);
    ghost var e1 := m.events;
    if recorder.Some? {
      m.StartMeasurement(recorder.value);
    }
    assert m.events == e1 + StartOf(recorder);
    m.Perform([Dwell(0.5)]);
    Regroup(e0, [ManualMove(point, p.travelSpeed), Dwell(0.5)] + Toggle(hasShaper, DisableShaping), StartOf(recorder));
    Regroup(e0, [ManualMove(point, p.travelSpeed), Dwell(0.5)] + Toggle(hasShaper, DisableShaping) + StartOf(recorder), [Dwell(0.5)]);
  }

  /** Travel to the point, settle, and `disable_shaping` when there is an
      input shaper. */
  method Travel(m: Machine, point: Point, speed: real) returns (hasShaper: bool)
    requires m.Valid()
    modifies m
    ensures m.Valid() && m.initial == old(m.initial)
    ensures hasShaper == old(m.shaper).Some? && m.shaper.Some? == hasShaper
    ensures m.events == old(m.events) + ([ManualMove(point, speed), Dwell(0.5)] + Toggle(hasShaper, DisableShaping))
  {
    ghost var e0 := m.events;
    m.ManualMove(point, speed);
    m.Perform([Dwell(0.5)]);
    assert m.events == e0 + [ManualMove(point, speed), Dwell(0.5)];
    hasShaper := m.shaper.Some?;
    if hasShaper {
      m.DisableShaping();
    }
  }

  /** `enable_shaping` when there is an input shaper, then the stop, the
      flush and the file lookup of the optional recording. */
  method Leave(m: Machine, hasShaper: bool, recorder: Option<string>)
    requires m.Valid() && m.shaper.Some? == hasShaper
    modifies m
    ensures m.Valid() && m.initial == old(m.initial)
    ensures m.events == old(m.events) + ExcitationTrail(hasShaper, recorder)
  {
    ghost var e0 := m.events;
    m.Perform([Dwell(0.5)]);
    if hasShaper {
      m.EnableShaping();
    }
    ghost var e1 := m.events;
    assert e1 == e0 + ([Dwell(0.5)] + Toggle(hasShaper, EnableShaping));
    if recorder.Some? {
      m.StopMeasurement(ExcitationLabel);
      m.Perform([WaitForFileWrites, GetLatestDataFile(ExcitationLabel)]);
    }
    assert m.events == e1 + StopOf(recorder);
  }

  /** The excitation: approach, shake, leave. */
  method Excite(m: Machine, point: Point, p: ExcitateParams, aph: real, recorder: Option<string>)
    requires m.Valid()
    modifies m
    ensures m.Valid() && m.initial == old(m.initial)
    ensures m.events == old(m.events) + ExcitationEvents(point, p, aph, old(m.shaper).Some?, recorder)
  {
    ghost var e0 := m.events;
    var hasShaper := Approach(m, point, p, recorder);
    ghost var lead := ExcitationLead(point, p, hasShaper, recorder);
    m.Perform([Shake(p, aph)]);
    Regroup(e0, lead, [Shake(p, aph)]);
    Leave(m, hasShaper, recorder);
    Regroup(e0, lead + [Shake(p, aph)], ExcitationTrail(hasShaper, recorder));
  }

  method ExcitateAxisAtFreq(m: Machine, cfg: PrinterConfig, p: ExcitateParams, transport: (string, string) -> Delivery)
    returns (failure: Option<RoutineError>)
    requires m.Valid()
    modifies m
    ensures m.Valid() && m.initial == old(m.initial)
    ensures m.events == old(m.events) + ExcitateRun(cfg, p, old(m.State()), transport).events
    ensures failure == ExcitateRun(cfg, p, old(m.State()), transport).failure
    ensures m.State() == Replay(old(m.State()), ExcitateRun(cfg, p, old(m.State()), transport).events)
  {
    ghost var s0 := m.State();
    ghost var e0 := m.events;
    var axis := Lower(p.axis);
    if !KnownAxis(axis) {
      assert e0 + [] == e0;
      return Some(InvalidExcitationAxis);
    }
    var graph := p.createGraph == 1;
    var chip := ExcitationChip(cfg, p);
    if graph && !IsAccelerometer(cfg, chip) {
      assert e0 + [] == e0;
      return Some(ChipNotFound(chip));
    }
    var tp := ResolveTestPoint(cfg.resonance.testPoints, p.zHeight, cfg.bounds);
    if tp.Err? {
      assert e0 + [] == e0;
      return Some(tp.error);
    }
    var aph := p.accelPerHz.Or(cfg.resonance.accelPerHz);
    Excite(m, tp.value, p, aph, if graph then chip else None);
    ghost var ex := ExcitationEvents(tp.value, p, aph, s0.shaper.Some?, if graph then chip else None);
    if graph {
      var up := RunUploads(ExcitateJobs(p), transport);
      UploadsInert(ExcitateJobs(p), transport);
      m.Perform(up.events);
      failure := up.failure;
      Regroup(e0, ex, up.events);
      ReplayConcat(m.initial, e0, ex + up.events);
    } else {
      failure := None;
      ReplayConcat(m.initial, e0, ex);
    }
  }
}
