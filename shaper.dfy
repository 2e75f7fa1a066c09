/** `AXES_SHAPER_CALIBRATION_WEB`: one recording per axis under test, each
    started and at once stopped, a flush, the lookup of every recorded file,
    and one upload per file to `/process/shaper`. The routine moves nothing
    and touches neither the velocity limits nor input shaping. */
module Shaper {

  import opened Common
  import opened Text
  import opened Machines
  import opened Guard
  import opened Uploads

  /** The parameters the routine acts on. `MAX_SMOOTHING` and `RAW_NAME` are
      read by the source but never used, so they are not here. */
  datatype ShaperParams = ShaperParams(
    url: string,
    axis: string,
    accelChip: Option<string>,
    skipX: int,
    skipY: int)

  predicate ValidShaperAxis(axis: string) {
    axis == "x" || axis == "y" || axis == "both"
  }

  const LabelPrefix: string := "shaper_calibrate_"

  /** The labels of the recordings, in recording order: for `both`, X then
      Y, each unless skipped; for one axis, that axis whatever the skips. */
  function ShaperLabels(axis: string, skipX: int, skipY: int): seq<string> {
    if axis == "both" then
      (if skipX == 0 then [LabelPrefix + "x"] else []) + (if skipY == 0 then [LabelPrefix + "y"] else [])
    else [LabelPrefix + axis]
  }

  /** The accelerometer: the one `ACCEL_CHIP` names, else the one serving the
      axis selector as given (`x`, `y` or `both`). */
  function ShaperChip(cfg: PrinterConfig, p: ShaperParams): Option<string> {
    if p.accelChip.Some? then p.accelChip else FindAxisAccelerometer(cfg, Lower(p.axis))
  }

  predicate ShaperChecksPass(cfg: PrinterConfig, p: ShaperParams) {
    ValidShaperAxis(Lower(p.axis)) && IsAccelerometer(cfg, ShaperChip(cfg, p))
  }

  /** A start and its stop for every label. */
  function Captures(chip: string, labels: seq<string>): seq<Event> {
    if labels == [] then [] else [StartMeasurement(chip), StopMeasurement(labels[0])] + Captures(chip, labels[1..])
  }

  /** The file lookup for every label. */
  function Lookups(labels: seq<string>): seq<Event> {
    if labels == [] then [] else [GetLatestDataFile(labels[0])] + Lookups(labels[1..])
  }

  function ShaperMeasured(chip: string, labels: seq<string>): seq<Event> {
    Captures(chip, labels) + [WaitForFileWrites] + Lookups(labels)
  }

  function ShaperJobs(p: ShaperParams): seq<UploadJob> {
    Jobs(BaseUrl(p.url), "shaper", ShaperLabels(Lower(p.axis), p.skipX, p.skipY))
  }

  /** What the routine appends to the trace. */
  function ShaperRun(cfg: PrinterConfig, p: ShaperParams, transport: (string, string) -> Delivery): Run {
    if !ValidShaperAxis(Lower(p.axis)) then Run([], Some(IncorrectShaperAxis))
    else if !IsAccelerometer(cfg, ShaperChip(cfg, p)) then Run([], Some(NoValidAccelerometer))
    else
      var up := UploadAll(ShaperJobs(p), transport);
      Run(ShaperMeasured(ShaperChip(cfg, p).value, ShaperLabels(Lower(p.axis), p.skipX, p.skipY)) + up.events, up.failure)
  }

  // ---------------------------------------------------------------------------
  // Labels

  /** For `both`, the label of an axis is there exactly when that axis is not
      skipped, X before Y; for one axis, the label does not depend on the skips. */
  lemma ShaperLabelsChosen(axis: string, skipX: int, skipY: int)
    ensures var labels := ShaperLabels(axis, skipX, skipY);
            |labels| <= 2
            && (axis == "both" ==>
                  (LabelPrefix + "x" in labels <==> skipX == 0)
                  && (LabelPrefix + "y" in labels <==> skipY == 0)
                  && (skipX == 0 && skipY == 0 ==> labels == [LabelPrefix + "x", LabelPrefix + "y"]))
            && (axis != "both" ==> labels == [LabelPrefix + axis] && forall x, y :: ShaperLabels(axis, x, y) == labels)
  {
    if axis == "both" {
      assert (LabelPrefix + "x")[|LabelPrefix|] == 'x';
      assert (LabelPrefix + "y")[|LabelPrefix|] == 'y';
    }
  }

  // ---------------------------------------------------------------------------
  // Checks

  /** The axis is checked first, then the accelerometer; the routine does
      something exactly when both pass. */
  lemma ShaperChecksFirst(cfg: PrinterConfig, p: ShaperParams, transport: (string, string) -> Delivery)
    ensures var r := ShaperRun(cfg, p, transport);
            (r.events == [] <==> !ShaperChecksPass(cfg, p))
            && (!ValidShaperAxis(Lower(p.axis)) ==> r.failure == Some(IncorrectShaperAxis))
            && (ValidShaperAxis(Lower(p.axis)) && !IsAccelerometer(cfg, ShaperChip(cfg, p)) ==> r.failure == Some(NoValidAccelerometer))
  {
  }

  /** An explicit `ACCEL_CHIP` is used without any lookup, and it must name
      an accelerometer section of the printer. */
  lemma ExplicitChipUsed(cfg: PrinterConfig, p: ShaperParams)
    requires p.accelChip.Some?
    ensures ShaperChip(cfg, p) == p.accelChip
    ensures ShaperChecksPass(cfg, p) <==> ValidShaperAxis(Lower(p.axis)) && p.accelChip.value in cfg.chips
  {
  }

  // ---------------------------------------------------------------------------
  // The trace

  lemma {:induction false} CapturesConcat(chip: string, a: seq<string>, b: seq<string>)
    ensures Captures(chip, a + b) == Captures(chip, a) + Captures(chip, b)
  {
    if a != [] {
      assert (a + b)[1..] == a[1..] + b;
      CapturesConcat(chip, a[1..], b);
    } else {
      assert a + b == b;
    }
  }

  lemma {:induction false} LookupsConcat(a: seq<string>, b: seq<string>)
    ensures Lookups(a + b) == Lookups(a) + Lookups(b)
  {
    if a != [] {
      assert (a + b)[1..] == a[1..] + b;
      LookupsConcat(a[1..], b);
    } else {
      assert a + b == b;
    }
  }

  /** Every start at an even place, immediately followed by the stop of its label. */
  lemma {:induction false} CapturesLayout(chip: string, labels: seq<string>)
    ensures var c := Captures(chip, labels);
            |c| == 2 * |labels|
            && (forall i :: 0 <= i < |labels| ==> c[2 * i] == StartMeasurement(chip) && c[2 * i + 1] == StopMeasurement(labels[i]))
            && (forall e | e in c :: e.StartMeasurement? || e.StopMeasurement?)
  {
    if labels != [] {
      var rest := Captures(chip, labels[1..]);
      CapturesLayout(chip, labels[1..]);
      var c := Captures(chip, labels);
      assert c == [StartMeasurement(chip), StopMeasurement(labels[0])] + rest;
      forall i | 1 <= i < |labels|
        ensures c[2 * i] == StartMeasurement(chip) && c[2 * i + 1] == StopMeasurement(labels[i])
      {
        assert c[2 * i] == rest[2 * (i - 1)];
        assert c[2 * i + 1] == rest[2 * (i - 1) + 1];
      }
    }
  }

  /** The recordings are the labels, in order, each closed before the next. */
  lemma {:induction false} CapturesRecord(chip: string, labels: seq<string>)
    ensures Pick(Captures(chip, labels), StopLabel) == labels
    ensures RecordingAfter(Captures(chip, labels), false) == Some(false)
  {
    if labels != [] {
      var head := [StartMeasurement(chip), StopMeasurement(labels[0])];
      var rest := Captures(chip, labels[1..]);
      CapturesRecord(chip, labels[1..]);
      PickConcat(head, rest, StopLabel);
      PickConcat([head[0]], [head[1]], StopLabel);
      assert head == [head[0]] + [head[1]];
      PickSingle(head[0], StopLabel);
      PickSingle(head[1], StopLabel);
      RecordingAfterConcat(head, rest, false);
      assert head[1..][1..] == [];
      assert labels == [labels[0]] + labels[1..];
    }
  }

  lemma {:induction false} LookupsLayout(labels: seq<string>)
    ensures |Lookups(labels)| == |labels|
    ensures forall i :: 0 <= i < |labels| ==> Lookups(labels)[i] == GetLatestDataFile(labels[i])
    ensures Pick(Lookups(labels), LookedUp) == labels
  {
    if labels != [] {
      LookupsLayout(labels[1..]);
      PickConcat([GetLatestDataFile(labels[0])], Lookups(labels[1..]), LookedUp);
      PickSingle(GetLatestDataFile(labels[0]), LookedUp);
      assert labels == [labels[0]] + labels[1..];
    }
  }

  /** Every start is followed at once by a stop. */
  predicate Paired(es: seq<Event>) {
    forall i :: 0 <= i < |es| && es[i].StartMeasurement? ==> i + 1 < |es| && es[i + 1].StopMeasurement?
  }

  lemma {:induction false} CapturesPaired(chip: string, labels: seq<string>)
    ensures Paired(Captures(chip, labels))
  {
    if labels != [] {
      var rest := Captures(chip, labels[1..]);
      CapturesPaired(chip, labels[1..]);
      var c := Captures(chip, labels);
      assert c == [StartMeasurement(chip), StopMeasurement(labels[0])] + rest;
      forall i | 2 <= i < |c| && c[i].StartMeasurement?
        ensures i + 1 < |c| && c[i + 1].StopMeasurement?
      {
        assert c[i] == rest[i - 2];
        assert rest[i - 2].StartMeasurement?;
        assert c[i + 1] == rest[i - 1];
      }
    }
  }

  lemma {:induction false} LookupsOnly(labels: seq<string>)
    ensures forall e | e in Lookups(labels) :: e.GetLatestDataFile?
  {
    if labels != [] {
      LookupsOnly(labels[1..]);
    }
  }

  /** The recording part moves nothing, touches neither the limits nor
      shaping, and uploads nothing. */
  lemma MeasuredFrame(chip: string, labels: seq<string>)
    ensures var pre := ShaperMeasured(chip, labels);
            Offline(pre) && Untouching(pre) && (forall e | e in pre :: !e.Move? && !e.ManualMove?)
  {
    var c := Captures(chip, labels);
    var rest := [WaitForFileWrites] + Lookups(labels);
    assert ShaperMeasured(chip, labels) == c + rest;
    CapturesLayout(chip, labels);
    LookupsOnly(labels);
    assert forall e | e in rest :: e == WaitForFileWrites || e.GetLatestDataFile?;
    assert forall e | e in c + rest :: e in c || e in rest;
  }

  /** In the recording part, the recordings are the labels in order, each
      closed, and the lookups are the labels in order. */
  lemma MeasuredPicks(chip: string, labels: seq<string>)
    ensures var pre := ShaperMeasured(chip, labels);
            Pick(pre, StopLabel) == labels && Pick(pre, LookedUp) == labels && Bracketed(pre)
  {
    var c := Captures(chip, labels);
    var l := Lookups(labels);
    var rest := [WaitForFileWrites] + l;
    assert ShaperMeasured(chip, labels) == c + rest;
    CapturesLayout(chip, labels);
    CapturesRecord(chip, labels);
    LookupsLayout(labels);
    LookupsOnly(labels);
    assert Quiet(rest);
    PickConcat(c, rest, StopLabel);
    PickNone(rest, StopLabel);
    RecordingAfterConcat(c, rest, false);
    RecordingAfterQuiet(rest, false);
    PickConcat(c, rest, LookedUp);
    PickNone(c, LookedUp);
    PickConcat([WaitForFileWrites], l, LookedUp);
    PickSingle(WaitForFileWrites, LookedUp);
  }

  /** The same facts once uploads, which are only posts and saves, follow. */
  lemma MeasuredThenUploads(chip: string, labels: seq<string>, up: seq<Event>)
    requires forall e | e in up :: e.Post? || e.SaveResult?
    ensures var es := ShaperMeasured(chip, labels) + up;
            Untouching(es) && (forall e | e in es :: !e.Move? && !e.ManualMove?)
            && Pick(es, StopLabel) == labels && Pick(es, LookedUp) == labels && Bracketed(es)
  {
    var pre := ShaperMeasured(chip, labels);
    MeasuredFrame(chip, labels);
    MeasuredPicks(chip, labels);
    PickConcat(pre, up, StopLabel);
    PickNone(up, StopLabel);
    PickConcat(pre, up, LookedUp);
    PickNone(up, LookedUp);
    RecordingAfterConcat(pre, up, false);
    RecordingAfterQuiet(up, false);
  }

  /** In the recording part and any uploads after it, every start is
      immediately followed by a stop. */
  lemma MeasuredPaired(chip: string, labels: seq<string>, up: seq<Event>)
    requires forall e | e in up :: e.Post? || e.SaveResult?
    ensures Paired(ShaperMeasured(chip, labels) + up)
  {
    var c := Captures(chip, labels);
    var rest := [WaitForFileWrites] + Lookups(labels) + up;
    var es := ShaperMeasured(chip, labels) + up;
    CapturesPaired(chip, labels);
    LookupsOnly(labels);
    assert es == c + rest;
    assert forall e | e in rest :: !e.StartMeasurement?;
    assert forall j :: |c| <= j < |es| ==> es[j] == rest[j - |c|];
    assert forall j :: 0 <= j < |c| ==> es[j] == c[j];
    forall i | 0 <= i < |es| && es[i].StartMeasurement?
      ensures i + 1 < |es| && es[i + 1].StopMeasurement?
    {
      assert c[i + 1] == es[i + 1];
    }
  }

  /** In the recording part and any uploads after it, every file lookup
      comes after the flush. */
  lemma MeasuredFlushFirst(chip: string, labels: seq<string>, up: seq<Event>)
    requires forall e | e in up :: e.Post? || e.SaveResult?
    ensures var es := ShaperMeasured(chip, labels) + up;
            forall i :: 0 <= i < |es| && es[i].GetLatestDataFile? ==> WaitForFileWrites in es[..i]
  {
    var c := Captures(chip, labels);
    var es := ShaperMeasured(chip, labels) + up;
    CapturesLayout(chip, labels);
    assert es == c + ([WaitForFileWrites] + Lookups(labels) + up);
    assert es[|c|] == WaitForFileWrites;
    assert forall j :: 0 <= j < |c| ==> es[j] == c[j];
    assert forall j :: 0 <= j < |c| ==> c[j] in c;
    assert forall j :: 0 <= j < |c| ==> !es[j].GetLatestDataFile?;
    forall i | 0 <= i < |es| && es[i].GetLatestDataFile?
      ensures WaitForFileWrites in es[..i]
    {
      assert es[..i][|c|] == WaitForFileWrites;
    }
  }

  /** With the checks passed, the trace is the recording part, then the uploads. */
  lemma ShaperShape(cfg: PrinterConfig, p: ShaperParams, transport: (string, string) -> Delivery)
    requires ShaperChecksPass(cfg, p)
    ensures ShaperRun(cfg, p, transport).events
            == ShaperMeasured(ShaperChip(cfg, p).value, ShaperLabels(Lower(p.axis), p.skipX, p.skipY))
               + UploadAll(ShaperJobs(p), transport).events
    ensures forall e | e in UploadAll(ShaperJobs(p), transport).events :: e.Post? || e.SaveResult?
  {
    UploadsInert(ShaperJobs(p), transport);
  }

  /** Every start is immediately followed by a stop, and every file lookup
      comes after the flush. */
  lemma ShaperOrdering(cfg: PrinterConfig, p: ShaperParams, transport: (string, string) -> Delivery)
    ensures var es := ShaperRun(cfg, p, transport).events;
            Paired(es)
            && (forall i :: 0 <= i < |es| && es[i].GetLatestDataFile? ==> WaitForFileWrites in es[..i])
  {
    if ShaperChecksPass(cfg, p) {
      ShaperShape(cfg, p, transport);
      var chip := ShaperChip(cfg, p).value;
      var labels := ShaperLabels(Lower(p.axis), p.skipX, p.skipY);
      MeasuredPaired(chip, labels, UploadAll(ShaperJobs(p), transport).events);
      MeasuredFlushFirst(chip, labels, UploadAll(ShaperJobs(p), transport).events);
    }
  }

  /** The recorded labels, the looked-up files and the uploaded jobs are the
      same list in the same order, and every recording is closed. */
  lemma ShaperRecordings(cfg: PrinterConfig, p: ShaperParams, transport: (string, string) -> Delivery)
    requires ShaperChecksPass(cfg, p)
    ensures var es := ShaperRun(cfg, p, transport).events;
            var labels := ShaperLabels(Lower(p.axis), p.skipX, p.skipY);
            Pick(es, StopLabel) == labels
            && Pick(es, LookedUp) == labels
            && Bracketed(es)
            && |ShaperJobs(p)| == |labels|
            && (forall i :: 0 <= i < |labels| ==> ShaperJobs(p)[i].testName == labels[i])
  {
    ShaperShape(cfg, p, transport);
    MeasuredThenUploads(ShaperChip(cfg, p).value, ShaperLabels(Lower(p.axis), p.skipX, p.skipY),
                        UploadAll(ShaperJobs(p), transport).events);
  }

  /** The routine moves nothing and never touches the limits or shaping. */
  lemma ShaperUntouching(cfg: PrinterConfig, p: ShaperParams, s: MachineState, transport: (string, string) -> Delivery)
    ensures var es := ShaperRun(cfg, p, transport).events;
            var t := Replay(s, es);
            Untouching(es) && t.limits == s.limits && t.shaper == s.shaper
            && t.position == s.position && t.extruder == s.extruder
  {
    var es := ShaperRun(cfg, p, transport).events;
    if ShaperChecksPass(cfg, p) {
      ShaperShape(cfg, p, transport);
      MeasuredThenUploads(ShaperChip(cfg, p).value, ShaperLabels(Lower(p.axis), p.skipX, p.skipY),
                          UploadAll(ShaperJobs(p), transport).events);
    }
    ReplayFrame(s, es);
    PositionFrame(s, es);
  }

  /** `both` with both axes skipped records and uploads nothing, and succeeds. */
  lemma BothSkipped(cfg: PrinterConfig, p: ShaperParams, transport: (string, string) -> Delivery)
    requires ShaperChecksPass(cfg, p) && Lower(p.axis) == "both" && p.skipX != 0 && p.skipY != 0
    ensures ShaperRun(cfg, p, transport) == Run([WaitForFileWrites], None)
  {
    assert ShaperLabels(Lower(p.axis), p.skipX, p.skipY) == [];
  }

  // ---------------------------------------------------------------------------
  // The uploads

  /** One post per label to `<URL>/process/shaper`, fail-fast: the routine
      fails exactly when some upload does; the results saved are
      `/tmp/<label>_result.png` for the labels delivered, in order, and the
      files posted are `<label>.csv`. */
  lemma ShaperUploads(cfg: PrinterConfig, p: ShaperParams, transport: (string, string) -> Delivery)
    requires ShaperChecksPass(cfg, p)
    ensures var r := ShaperRun(cfg, p, transport);
            var labels := ShaperLabels(Lower(p.axis), p.skipX, p.skipY);
            var jobs := ShaperJobs(p);
            var n := DeliveredCount(jobs, transport);
            var saved := Pick(r.events, SavedPath);
            var posted := Pick(r.events, PostedFile);
            (forall e | e in r.events && e.Post? :: e.endpoint == BaseUrl(p.url) + "/process/shaper")
            && (r.failure.None? <==> n == |labels|)
            && |saved| == n
            && (forall i :: 0 <= i < n ==> saved[i] == "/tmp/" + labels[i] + "_result.png")
            && |posted| == PostedCount(jobs, transport)
            && (forall i :: 0 <= i < |posted| ==> posted[i] == labels[i] + ".csv")
  {
    ShaperUploadOutcome(cfg, p, transport);
    ShaperUploadFiles(cfg, p, transport);
  }

  lemma ShaperUploadOutcome(cfg: PrinterConfig, p: ShaperParams, transport: (string, string) -> Delivery)
    requires ShaperChecksPass(cfg, p)
    ensures var r := ShaperRun(cfg, p, transport);
            (forall e | e in r.events && e.Post? :: e.endpoint == BaseUrl(p.url) + "/process/shaper")
            && (r.failure.None? <==> DeliveredCount(ShaperJobs(p), transport) == |ShaperLabels(Lower(p.axis), p.skipX, p.skipY)|)
  {
    var labels := ShaperLabels(Lower(p.axis), p.skipX, p.skipY);
    var pre := ShaperMeasured(ShaperChip(cfg, p).value, labels);
    var up := UploadAll(ShaperJobs(p), transport).events;
    ShaperShape(cfg, p, transport);
    MeasuredFrame(ShaperChip(cfg, p).value, labels);
    UploadFailure(ShaperJobs(p), transport);
    UploadsEndpoint(BaseUrl(p.url), "shaper", labels, transport);
    assert forall e | e in pre + up :: e in pre || e in up;
  }

  lemma ShaperUploadFiles(cfg: PrinterConfig, p: ShaperParams, transport: (string, string) -> Delivery)
    requires ShaperChecksPass(cfg, p)
    ensures var r := ShaperRun(cfg, p, transport);
            var labels := ShaperLabels(Lower(p.axis), p.skipX, p.skipY);
            var jobs := ShaperJobs(p);
            var n := DeliveredCount(jobs, transport);
            var saved := Pick(r.events, SavedPath);
            var posted := Pick(r.events, PostedFile);
            |saved| == n
            && (forall i :: 0 <= i < n ==> saved[i] == "/tmp/" + labels[i] + "_result.png")
            && |posted| == PostedCount(jobs, transport)
            && (forall i :: 0 <= i < |posted| ==> posted[i] == labels[i] + ".csv")
  {
    var labels := ShaperLabels(Lower(p.axis), p.skipX, p.skipY);
    var jobs := ShaperJobs(p);
    ShaperShape(cfg, p, transport);
    MeasuredFrame(ShaperChip(cfg, p).value, labels);
    UploadsAfter(ShaperMeasured(ShaperChip(cfg, p).value, labels), jobs, transport);
  }

  // ---------------------------------------------------------------------------
  // The routine on the machine

  /** `start_measurement` and at once `stop_measurement` under `testName`. */
  method Capture(m: Machine, chip: string, testName: string)
    requires m.Valid()
    modifies m
    ensures m.Valid() && m.initial == old(m.initial)
    ensures m.events == old(m.events) + Captures(chip, [testName])
  {
    m.StartMeasurement(chip);
    m.StopMeasurement(testName);
    assert [testName][1..] == [];
  }

  /** The recordings, under the skip flags; answers their labels. */
  method CaptureAxes(m: Machine, chip: string, axis: string, skipX: int, skipY: int) returns (names: seq<string>)
    requires m.Valid()
    modifies m
    ensures m.Valid() && m.initial == old(m.initial)
    ensures names == ShaperLabels(axis, skipX, skipY)
    ensures m.events == old(m.events) + Captures(chip, names)
  {
    ghost var e0 := m.events;
    names := [];
    if axis == "both" {
      if skipX == 0 {
        Capture(m, chip, LabelPrefix + "x");
        names := [LabelPrefix + "x"];
      }
      ghost var e1 := m.events;
      assert e1 == e0 + Captures(chip, names);
      if skipY == 0 {
        Capture(m, chip, LabelPrefix + "y");
        CapturesConcat(chip, names, [LabelPrefix + "y"]);
        names := names + [LabelPrefix + "y"];
      }
    } else {
      Capture(m, chip, LabelPrefix + axis);
      names := [LabelPrefix + axis];
    }
  }

  /** The file lookups, under the same skip flags; answers the data-file list. */
  method CollectDataFiles(m: Machine, axis: string, skipX: int, skipY: int) returns (dataFiles: seq<string>)
    requires m.Valid()
    modifies m
    ensures m.Valid() && m.initial == old(m.initial)
    ensures dataFiles == ShaperLabels(axis, skipX, skipY)
    ensures m.events == old(m.events) + Lookups(dataFiles)
  {
    ghost var e0 := m.events;
    dataFiles := [];
    if axis == "both" {
      if skipX == 0 {
        m.Perform([GetLatestDataFile(LabelPrefix + "x")]);
        dataFiles := [LabelPrefix + "x"];
      }
      ghost var e1 := m.events;
      assert e1 == e0 + Lookups(dataFiles);
      if skipY == 0 {
        m.Perform([GetLatestDataFile(LabelPrefix + "y")]);
        LookupsConcat(dataFiles, [LabelPrefix + "y"]);
        dataFiles := dataFiles + [LabelPrefix + "y"];
      }
    } else {
      m.Perform([GetLatestDataFile(LabelPrefix + axis)]);
      dataFiles := [LabelPrefix + axis];
    }
  }

  method AxesShaperCalibration(m: Machine, cfg: PrinterConfig, p: ShaperParams, transport: (string, string) -> Delivery)
    returns (failure: Option<RoutineError>)
    requires m.Valid()
    modifies m
    ensures m.Valid() && m.initial == old(m.initial)
    ensures m.events == old(m.events) + ShaperRun(cfg, p, transport).events
    ensures failure == ShaperRun(cfg, p, transport).failure
    ensures m.State() == Replay(old(m.State()), ShaperRun(cfg, p, transport).events)
  {
    ghost var e0 := m.events;
    var base := BaseUrl(p.url);
    var axis := Lower(p.axis);
    if !ValidShaperAxis(axis) {
      assert e0 + [] == e0;
      return Some(IncorrectShaperAxis);
    }
    var chip := ShaperChip(cfg, p);
    if !IsAccelerometer(cfg, chip) {
      assert e0 + [] == e0;
      return Some(NoValidAccelerometer);
    }
    var names := CaptureAxes(m, chip.value, axis, p.skipX, p.skipY);
    m.Perform([WaitForFileWrites]);
    var dataFiles := CollectDataFiles(m, axis, p.skipX, p.skipY);
    ghost var measured := ShaperMeasured(chip.value, names);
    assert m.events == e0 + measured;
    var up := RunUploads(Jobs(base, "shaper", dataFiles), transport);
    UploadsInert(Jobs(base, "shaper", dataFiles), transport);
    m.Perform(up.events);
    failure := up.failure;
    Regroup(e0, measured, up.events);
    ReplayConcat(m.initial, e0, measured + up.events);
  }
}
