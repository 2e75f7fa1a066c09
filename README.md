# Shake&Tune web-service routines, modelled in Dafny

Shake&Tune adds calibration macros to a Klipper 3D printer. This model covers the
`*_WEB` variants of five macros and the small Flask service they upload to:

- `AXES_MAP_CALIBRATION_WEB`
- `COMPARE_BELTS_RESPONSES_WEB`
- `CREATE_VIBRATIONS_PROFILE_WEB`
- `EXCITATE_AXIS_AT_FREQ_WEB`
- `AXES_SHAPER_CALIBRATION_WEB`

Each macro works the same way:
1. it checks its parameters and the printer's configuration;
2. it drives the toolhead, the input shaper and an accelerometer;
3. it posts the accelerometer recordings to the service;
4. it saves each returned graph under `/tmp`.

For each posted CSV file, the service:
1. checks the upload;
2. dispatches on the macro type to a graph engine;
3. sends back the first image the engine wrote;
4. cleans up its temporary files.

## How the model is built

- `Machines`: every toolhead, shaper, accelerometer and upload call is one
  `Machines.Event`.
  - The class `Machines.Machine` performs the calls one at a time. It appends each one to its `events` trace.
  - Its class invariant is `Valid()`: the fields (limits, shaping, position, extruder, recording) always equal `Replay(initial, events)`.
  - `Replay` folds `Apply`, the meaning of one event, over a trace.
- Each routine has two parts:
  - a specification function `XRun(cfg, params, state, transport)`, which returns the trace it appends and the error it raises, if any;
  - a method that follows the Python statement by statement on a `Machine` and ensures that `m.events == old(m.events) + XRun(..).events`.

  The lemmas prove the macros' promises about `XRun`: ordering, restored
  limits, recordings and uploads.
- `Guard` is the save / raise / restore protocol for the velocity limits and input
  shaping. Three routines share it.
- `TestPoints` is the test-point resolution that the belt and excitation routines both contain.
- `Uploads`: the fail-fast upload loop, with the network and the local disk as an oracle
  `transport(endpoint, fileName) -> Delivery`.
- `Gateway` models `app.py`:
  - the extension check and the dispatch table, as pure functions;
  - the response to one request, as a function of what its collaborators do;
  - a `Disk` class for the files the request writes and removes;
  - `ProcessData`, the imperative request handler with its cleanup loop.

Two points on how the routines' own code is read:
- The shaper routine calibrates nothing. It starts each recording and stops it at once, with no vibration in between (`axes_shaper_calibration_web.py:43-44`, `:47-48` and `:51-52`).
- `enable_shaping` is called whenever an `input_shaper` object exists (`excitate_axis_at_freq_web.py:96`, and likewise in the other routines). The model takes its effect to be shaping on; Klipper's own restore, which leaves a shaper that was off before still off, is not modelled (see Machines.Machine.EnableShaping under "## Left out").

## Model

| member | source | states |
|---|---|---|
| Uploads.BaseUrl | shaketune/commands/axes_map_calibration_web.py:15-16 | The base URL ends in anything but `/`, and the given URL is the base plus a run of `/` only. |
| Uploads.Jobs | shaketune/commands/axes_map_calibration_web.py:120-133 | One job per label, in label order: it posts `<label>.csv` to `<base>/process/<kind>` and saves to `/tmp/<label>_result.png`. |
| Uploads.RunUploads | shaketune/commands/axes_shaper_calibration_web.py:69-87 | The upload `for` loop with its `try`/`raise` computes exactly the fail-fast `UploadAll` run. |
| Uploads.DeliveredCount | shaketune/commands/axes_shaper_calibration_web.py:69-87 | The number of leading jobs that went through: all of them delivered, and the next one did not. |
| Uploads.UploadSaved | shaketune/commands/axes_shaper_calibration_web.py:79-80 | The results written are those of the delivered prefix, in order. |
| Uploads.UploadPosted | shaketune/commands/axes_shaper_calibration_web.py:71-75 | The files posted, in order, are those of the delivered jobs plus the first failing job unless its recording could not be opened; no job after it is posted. |
| Uploads.UploadFailure | shaketune/commands/axes_shaper_calibration_web.py:84-87 | There is no error iff every job is delivered. A failed request raises "Failed to process data"; a failed open or write raises "Failed to save results". |
| Uploads.UploadsInert | shaketune/commands/axes_shaper_calibration_web.py:69-87 | The uploads consist only of posts and result writes, and they change no machine state. |
| Uploads.UploadsEndpoint | shaketune/commands/axes_shaper_calibration_web.py:72-75 | Every post goes to `<base>/process/<kind>`. |
| Uploads.UploadsAfter | shaketune/commands/compare_belts_responses_web.py:109-127 | After a trace with no upload, the saved results and posted files are exactly those of the upload loop. |
| Common.FindAxisAccelerometer | shaketune/commands/axes_shaper_calibration_web.py:30-31 | An accelerometer is found for a selector iff one is configured for it. |
| TestPoints.ResolveTestPoint | shaketune/commands/compare_belts_responses_web.py:41-57 | The point resolves iff exactly one point is configured and, if it is the sentinel `(-1,-1,-1)`, `Z_HEIGHT` is given. Otherwise the error is "too many", "none" or "Z_HEIGHT required". A `Z_HEIGHT` override sets z. A configured point keeps its x and y. The sentinel gives the bed centre. |
| TestPoints.CentreWithinBounds | shaketune/commands/excitate_axis_at_freq_web.py:62-70 | The centre that the sentinel gives lies within ordered bed bounds. |
| TestPoints.ConfiguredPointKept | shaketune/commands/excitate_axis_at_freq_web.py:71-75 | A configured point is used as is, with z replaced iff `Z_HEIGHT` is given. |
| Machines.Machine.constructor | shaketune/commands/axes_map_calibration_web.py:45-47 | A machine starts with an empty trace and the given limits, shaping, position and extruder. |
| Machines.Machine.SetVelocityLimit | shaketune/commands/axes_map_calibration_web.py:49-56 | `SET_VELOCITY_LIMIT` is logged, and the state becomes `Apply` of it: only the limits it names change. |
| Machines.Machine.DisableShaping | shaketune/commands/axes_map_calibration_web.py:59-61 | `disable_shaping` is logged, and shaping becomes off. |
| Machines.Machine.EnableShaping | shaketune/commands/axes_map_calibration_web.py:104-106 | `enable_shaping` is logged, and shaping becomes on. |
| Machines.Machine.Move | shaketune/commands/axes_map_calibration_web.py:70 | `toolhead.move` is logged, and the position and extruder become its target. |
| Machines.Machine.ManualMove | shaketune/commands/compare_belts_responses_web.py:59 | `toolhead.manual_move` is logged, and the position becomes the point. |
| Machines.Machine.StartMeasurement | shaketune/commands/axes_map_calibration_web.py:77 | The start is logged, and the accelerometer is recording. |
| Machines.Machine.StopMeasurement | shaketune/commands/axes_map_calibration_web.py:81 | The stop is logged under its label, and the accelerometer is not recording. |
| Machines.Machine.Perform | shaketune/commands/axes_map_calibration_web.py:71 | Dwells, waits, file lookups, the vibration helpers and the upload side are logged and change no state. |
| Machines.ReplayConcat | shaketune/commands/axes_map_calibration_web.py:44-116 | Replaying two traces in turn is replaying their concatenation. |
| Machines.ReplayFrame | shaketune/commands/axes_shaper_calibration_web.py:11-89 | A trace without `SET_VELOCITY_LIMIT` keeps the limits, and one without shaping calls keeps the shaping. |
| Machines.ReplayKeepsCornerVelocity | shaketune/commands/compare_belts_responses_web.py:63-70 | A trace whose velocity-limit commands never name the corner velocity keeps it. |
| Machines.Recordings | shaketune/commands/axes_map_calibration_web.py:77-100 | Events with no start or stop around a span change neither its recorded labels nor its start/stop bracketing. |
| Machines.BracketedSpan | shaketune/commands/axes_map_calibration_web.py:77-81 | A single start followed later by a single stop is a well-bracketed recording. |
| Guard.EnterRaises | shaketune/commands/axes_map_calibration_web.py:45-61 | After the save-and-raise commands, the limits are the test limits and shaping is off if a shaper exists. |
| Guard.GuardRestores | shaketune/commands/axes_map_calibration_web.py:104-114 | Raise, then a test trace that touches neither limits nor shaping, then restore: the limits are the saved ones, and shaping is on iff a shaper exists. |
| Guard.GuardedRun | shaketune/commands/create_vibrations_profile_web.py:36-92 | The same holds with untouching traces before and after the protected part. |
| Guard.GuardedGap | shaketune/commands/compare_belts_responses_web.py:63-84 | Raise and then a run that stops before the restore: the test limits stay, and shaping stays off. |
| Guard.CruiseRatioOnlyWhenReported | shaketune/commands/axes_map_calibration_web.py:49-56 | Every raise and restore command names `MINIMUM_CRUISE_RATIO` iff the toolhead reported one, and names the corner velocity iff the routine relaxes corners. |
| Guard.SaveAndRaise | shaketune/commands/axes_map_calibration_web.py:45-61 | It returns the saved limits and whether a shaper exists, logs the raise commands, and leaves the test limits with shaping off. |
| Guard.Restore | shaketune/commands/axes_map_calibration_web.py:104-114 | It logs the re-enable and the restoring `SET_VELOCITY_LIMIT`, and the state is their replay. |
| AxesMap.AcceptedIsIdentity | shaketune/commands/axes_map_calibration_web.py:36-40 | An accepted `axes_map` is `x,y,z` up to whitespace. |
| AxesMap.AcceptedIffIdentity | shaketune/commands/axes_map_calibration_web.py:36-40 | When the only whitespace is the space, the map is accepted iff its visible text is `x,y,z`. |
| AxesMap.SpacedIdentityAccepted | shaketune/commands/axes_map_calibration_web.py:37 | `" x, y, z "`, with spaces around and between the axes, is accepted. |
| AxesMap.SwappedAxesRejected | shaketune/commands/axes_map_calibration_web.py:37-40 | `y,x,z` is rejected. |
| AxesMap.AxesMapPlanShape | shaketune/commands/axes_map_calibration_web.py:65-100 | The plan starts at `(mid_x-15, mid_y-15, z)`. Each segment adds 30 to one coordinate, in the order X, Y, Z. |
| AxesMap.SegmentRecords | shaketune/commands/axes_map_calibration_web.py:77-83 | A segment records one label, moves once to its target, and is bracketed by its own start and stop. |
| AxesMap.MotionMoves | shaketune/commands/axes_map_calibration_web.py:70-100 | The targets moved to are the four plan points, in order. |
| AxesMap.MotionRecordings | shaketune/commands/axes_map_calibration_web.py:77-100 | The motion records `axesmap_X`, `axesmap_Y`, `axesmap_Z` in that order, with balanced starts and stops. |
| AxesMap.MotionFrame | shaketune/commands/axes_map_calibration_web.py:67-100 | The motion touches neither limits nor shaping, uploads nothing, and keeps the extruder position. |
| AxesMap.AxesMapChecksFirst | shaketune/commands/axes_map_calibration_web.py:29-40 | Nothing is sent iff a check fails. A missing chip raises the multi-accelerometer error, and an `axes_map` already set raises its own error. |
| AxesMap.AxesMapRaisesFirst | shaketune/commands/axes_map_calibration_web.py:49-61 | The first command is `SET_VELOCITY_LIMIT ACCEL=<ACCEL> SQUARE_CORNER_VELOCITY=5`, with `MINIMUM_CRUISE_RATIO=0` iff one was reported. The next disables shaping iff a shaper exists. |
| AxesMap.AxesMapRestores | shaketune/commands/axes_map_calibration_web.py:104-114 | When the checks pass, the run ends with the saved limits, and shaping is on iff a shaper exists. |
| AxesMap.AxesMapMoves | shaketune/commands/axes_map_calibration_web.py:70-100 | The whole run moves exactly through the plan, in order. |
| AxesMap.AxesMapHoldsExtruder | shaketune/commands/axes_map_calibration_web.py:67-97 | Every move keeps the extruder at its starting position. |
| AxesMap.AxesMapEndsAtTop | shaketune/commands/axes_map_calibration_web.py:97 | The toolhead ends at the top of the Z segment. |
| AxesMap.AxesMapRecordings | shaketune/commands/axes_map_calibration_web.py:77-100 | The run records the three labels in order, with balanced starts and stops. |
| AxesMap.AxesMapEndsWithUploads | shaketune/commands/axes_map_calibration_web.py:116-138 | Everything up to `wait_moves` comes before the uploads, and none of it is an upload. |
| AxesMap.AxesMapUploads | shaketune/commands/axes_map_calibration_web.py:120-138 | Every post goes to `<base>/process/axes_map`. The results written are those of the delivered prefix. There is no error iff all three are delivered. |
| AxesMap.AxesMapAllUploaded | shaketune/commands/axes_map_calibration_web.py:120-133 | On success, the run posts `<label>.csv` and writes `/tmp/<label>_result.png` for each of the three labels, in order. |
| AxesMap.RecordSegment | shaketune/commands/axes_map_calibration_web.py:77-82 | It logs exactly one segment and leaves the limits and shaping alone. |
| AxesMap.TraceAxes | shaketune/commands/axes_map_calibration_web.py:70-102 | It logs exactly the planned motion and returns the three labels. |
| AxesMap.AxesMapCalibration | shaketune/commands/axes_map_calibration_web.py:14-140 | The routine appends exactly `AxesMapRun` and raises its error. The new state is the replay of that trace. |
| Belts.BeltsSweeps | shaketune/commands/compare_belts_responses_web.py:24-89 | Every sweep of the run is along belt `a` or `b`, from `FREQ_START` to `FREQ_END` at `HZ_PER_SEC` with `ACCEL_PER_HZ`. An unset `FREQ_START` or `FREQ_END`, and an unset or empty `ACCEL_PER_HZ`, take the `[resonance_tester]` value. |
| Belts.BeltsMaxAccel | shaketune/commands/compare_belts_responses_web.py:38 | `max_accel` is `FREQ_END * accel_per_hz`, with the defaults filled in. |
| Belts.BeltChip | shaketune/commands/compare_belts_responses_web.py:82-85 | A belt's chip is found iff one is configured for it and the printer has that object. If none is configured, the error is "No suitable accelerometer found for belt <B>". |
| Belts.BeltLoopStops | shaketune/commands/compare_belts_responses_web.py:80-84 | Once a belt fails, the remaining belts add nothing. |
| Belts.BeltLoopStep | shaketune/commands/compare_belts_responses_web.py:80-95 | One more belt either raises its lookup error or appends its own measurement. |
| Belts.BeltLoopBoth | shaketune/commands/compare_belts_responses_web.py:80-95 | The loop succeeds iff both belts have chips. If `a` fails, nothing is recorded; if `b` fails, only `a` is; otherwise `a` is measured, then `b`. |
| Belts.BeltsTravelFirst | shaketune/commands/compare_belts_responses_web.py:59-70 | A test-point error raises before anything. Otherwise the run begins with the travel to the point, a dwell, then `SET_VELOCITY_LIMIT ACCEL=max_accel`, with the cruise ratio 0 iff one was reported and never a corner velocity. |
| Belts.BeltsKeepCornerVelocity | shaketune/commands/compare_belts_responses_web.py:63-105 | No command of the run names the corner velocity, which ends as it began. |
| Belts.BeltsRestore | shaketune/commands/compare_belts_responses_web.py:97-105 | With both belts found, the run ends with the saved limits, and shaping is on iff a shaper exists. |
| Belts.BeltsFailureLeavesTestLimits | shaketune/commands/compare_belts_responses_web.py:63-84 | When a belt has no chip, the routine raises that belt's error. The raised acceleration stays, and shaping stays off: the restore is not exception-safe. |
| Belts.BeltsRecordings | shaketune/commands/compare_belts_responses_web.py:80-95 | The run records `belt_a`, then `belt_b`, with balanced starts and stops. |
| Belts.BeltJobsInOrder | shaketune/commands/compare_belts_responses_web.py:109-116 | The uploads are for `belt_a`, then `belt_b`, to `/process/belts`. |
| Belts.BeltsUploads | shaketune/commands/compare_belts_responses_web.py:109-127 | Every post goes to `<base>/process/belts`. The results written are those of the delivered prefix. There is no error iff both are delivered. |
| Belts.BeltsAllUploaded | shaketune/commands/compare_belts_responses_web.py:109-122 | On success, the run posts `belt_a.csv` and `belt_b.csv` and writes `/tmp/belt_a_result.png` and `/tmp/belt_b_result.png`. |
| Belts.MeasureBelt | shaketune/commands/compare_belts_responses_web.py:88-95 | It logs one belt's measurement, leaves the limits and shaping alone, and returns `belt_<b>`. |
| Belts.MeasureBelts | shaketune/commands/compare_belts_responses_web.py:77-95 | The `for` loop logs exactly `BeltLoop` and raises its error. On success it returns the labels `belt_a` and `belt_b`. |
| Belts.CompareBeltsResponses | shaketune/commands/compare_belts_responses_web.py:13-127 | The routine appends exactly `BeltsRun` and raises its error. The new state is the replay of that trace. |
| Vibrations.AsWrittenNeverMeasures | shaketune/commands/create_vibrations_profile_web.py:29-47 | As written, the routine never sends a command. Once the accelerometer is found it raises, while the intended routine runs its whole sequence. |
| Vibrations.AsWrittenCounterexample | shaketune/commands/create_vibrations_profile_web.py:42 | With an X/Y accelerometer configured, the code as written and the intended routine differ. |
| Vibrations.VibrationsPlanShape | shaketune/commands/create_vibrations_profile_web.py:63-74 | The travel goes to `(x_min, y_min)`. Each rectangle move changes one coordinate (x, y, x, y), and the last returns to the start. All are at the requested height. |
| Vibrations.VibrationsPlanWithinBounds | shaketune/commands/create_vibrations_profile_web.py:55-74 | Every corner lies within the ordered bed bounds. |
| Vibrations.RectangleMoves | shaketune/commands/create_vibrations_profile_web.py:71-74 | The four moves go to the four corners after the start, in order. |
| Vibrations.MotionMoves | shaketune/commands/create_vibrations_profile_web.py:63-77 | The travel is before the start and all four rectangle moves are between the start and the stop. The targets are the plan, in order. |
| Vibrations.MotionRecording | shaketune/commands/create_vibrations_profile_web.py:67-77 | One start/stop pair, labelled `vibrations`, spans the motion. |
| Vibrations.MotionEndsAtStart | shaketune/commands/create_vibrations_profile_web.py:74 | The motion ends back at the start corner. |
| Vibrations.VibrationsChecksFirst | shaketune/commands/create_vibrations_profile_web.py:30-34 | Nothing is sent iff the X/Y accelerometer is missing, and then the error is "No suitable accelerometer". |
| Vibrations.VibrationsRaisesFirst | shaketune/commands/create_vibrations_profile_web.py:37-52 | The first command is `SET_VELOCITY_LIMIT ACCEL=<ACCEL> SQUARE_CORNER_VELOCITY=5`, with the cruise ratio 0 iff one was reported. The next disables shaping iff a shaper exists. |
| Vibrations.VibrationsRestores | shaketune/commands/create_vibrations_profile_web.py:80-90 | The run ends with the saved limits, and shaping is on iff a shaper exists. |
| Vibrations.VibrationsMoves | shaketune/commands/create_vibrations_profile_web.py:63-74 | The run moves exactly through the plan, keeping the extruder. |
| Vibrations.VibrationsEndsAtStart | shaketune/commands/create_vibrations_profile_web.py:74 | The toolhead ends at the start corner. |
| Vibrations.VibrationsRecording | shaketune/commands/create_vibrations_profile_web.py:67-77 | The run records only `vibrations`, with balanced starts and stops. |
| Vibrations.VibrationsJob | shaketune/commands/create_vibrations_profile_web.py:96-106 | The single job posts `vibrations.csv` to `<base>/process/vibrations` and saves to `/tmp/vibrations_result.png`. |
| Vibrations.VibrationsUpload | shaketune/commands/create_vibrations_profile_web.py:96-113 | There is no error iff the upload is delivered, and the error depends on how it failed. The result is written iff it was delivered. The file is posted unless the recording could not be opened. |
| Vibrations.VibrationsEndpoint | shaketune/commands/create_vibrations_profile_web.py:98-101 | Every post goes to `<base>/process/vibrations`. |
| Vibrations.MoveAround | shaketune/commands/create_vibrations_profile_web.py:71-74 | It logs exactly the four rectangle moves. |
| Vibrations.TraceRectangle | shaketune/commands/create_vibrations_profile_web.py:63-78 | It logs exactly the motion, leaves the limits and shaping alone, and returns the label. |
| Vibrations.CreateVibrationsProfile | shaketune/commands/create_vibrations_profile_web.py:14-115 | The intended routine appends exactly `VibrationsRun` and raises its error. The new state is the replay of that trace. |
| Excitate.ChipParam | shaketune/commands/excitate_axis_at_freq_web.py:29-30 | `ACCEL_CHIP=''` counts as unset. |
| Excitate.ExcitateAxisChecked | shaketune/commands/excitate_axis_at_freq_web.py:24-36 | An axis other than x, y, a or b (in any case) raises before anything is sent, and that is the only way to get that error. |
| Excitate.UpperAxisAccepted | shaketune/commands/excitate_axis_at_freq_web.py:24 | `AXIS=B` is lowered to the known axis `b`. |
| Excitate.ExcitateErrors | shaketune/commands/excitate_axis_at_freq_web.py:34-75 | Nothing is sent iff a check fails. A missing chip is an error only with a graph, and a test-point error comes after the other checks. |
| Excitate.ChipIgnoredWithoutGraph | shaketune/commands/excitate_axis_at_freq_web.py:38-45 | Without `CREATE_GRAPH=1`, the accelerometer configuration does not affect the run. |
| Excitate.ExcitationChipChoice | shaketune/commands/excitate_axis_at_freq_web.py:38-44 | An explicit chip is used. Otherwise belts `a` and `b` use the `xy` accelerometer, and axes `x` and `y` use their own. |
| Excitate.ExcitateShape | shaketune/commands/excitate_axis_at_freq_web.py:77-123 | Once the checks pass, the trace is the excitation followed by the upload iff a graph is requested. Without a graph, nothing fails. |
| Excitate.ExcitationState | shaketune/commands/excitate_axis_at_freq_web.py:77-102 | The excitation ends at the test point, with shaping on iff a shaper exists and the recording stopped. |
| Excitate.ExcitateShakesUnshaped | shaketune/commands/excitate_axis_at_freq_web.py:77-93 | The shake is at the test point, with the resolved `accel_per_hz`, while shaping is off and, with a graph, while recording. |
| Excitate.ExcitateFinalState | shaketune/commands/excitate_axis_at_freq_web.py:77-102 | The limits and extruder are unchanged. The position is the test point. Shaping is on iff a shaper exists. |
| Excitate.ExcitateShaping | shaketune/commands/excitate_axis_at_freq_web.py:80-97 | The velocity limits are never set. Shaping is disabled and re-enabled iff a shaper exists. |
| Excitate.ExcitationRecords | shaketune/commands/excitate_axis_at_freq_web.py:87-102 | The recording is started and stopped iff a graph is requested, with the label `excitation`, by the recorder chip. Nothing is uploaded yet. |
| Excitate.ExcitationOrder | shaketune/commands/excitate_axis_at_freq_web.py:77-101 | The travel move comes first. With a shaper, `DisableShaping` follows at index 2, right after the travel and its dwell, and it appears nowhere else. With a recorder, `EnableShaping` comes right before the stop, and the state replayed up to the stop already has shaping on iff a shaper exists. |
| Excitate.ExcitateToggleOrder | shaketune/commands/excitate_axis_at_freq_web.py:77-101 | The same order for the whole run once its checks pass: travel first, shaping off only at index 2, and with a graph, shaping back on before `StopMeasurement("excitation")` at index 6 + 2h (h = 1 with a shaper). |
| Excitate.ExcitateRecording | shaketune/commands/excitate_axis_at_freq_web.py:87-102 | The run records `excitation` iff a graph is requested, always with the chosen chip. Without a graph it uploads nothing. |
| Excitate.ExcitateJob | shaketune/commands/excitate_axis_at_freq_web.py:106-116 | The single job posts `excitation.csv` to `<base>/process/excitate` and saves `/tmp/excitation_result.png`. |
| Excitate.ExcitateUpload | shaketune/commands/excitate_axis_at_freq_web.py:106-123 | There is no error iff the upload is delivered, and the error depends on how it failed. The result is written iff it was delivered. All posts go to `/process/excitate`. |
| Excitate.Approach | shaketune/commands/excitate_axis_at_freq_web.py:77-91 | It logs the travel, the disable and the optional start, and returns whether a shaper exists. |
| Excitate.Leave | shaketune/commands/excitate_axis_at_freq_web.py:93-102 | It logs the dwell, the re-enable, then the optional stop, flush and lookup. |
| Excitate.Excite | shaketune/commands/excitate_axis_at_freq_web.py:77-102 | It logs exactly the excitation. |
| Excitate.ExcitateAxisAtFreq | shaketune/commands/excitate_axis_at_freq_web.py:15-125 | The routine appends exactly `ExcitateRun` and raises its error. The new state is the replay of that trace. |
| Shaper.ShaperLabelsChosen | shaketune/commands/axes_shaper_calibration_web.py:40-65 | For `both`, X is recorded iff `SKIP_X=0` and Y iff `SKIP_Y=0`, X first. A single axis gets its own label whatever the skips. |
| Shaper.ShaperChecksFirst | shaketune/commands/axes_shaper_calibration_web.py:17-34 | Nothing is sent iff a check fails. A bad axis raises its error before the accelerometer check. |
| Shaper.ExplicitChipUsed | shaketune/commands/axes_shaper_calibration_web.py:30-34 | An explicit `ACCEL_CHIP` bypasses the lookup. The checks pass iff the axis is valid and that chip exists. |
| Shaper.CapturesLayout | shaketune/commands/axes_shaper_calibration_web.py:40-52 | Each label gets a start immediately followed by its stop, in order. |
| Shaper.LookupsLayout | shaketune/commands/axes_shaper_calibration_web.py:58-65 | One file lookup per label, in the same order. |
| Shaper.ShaperOrdering | shaketune/commands/axes_shaper_calibration_web.py:43-61 | Every start is immediately followed by its stop. Every file lookup comes after `wait_for_file_writes`. |
| Shaper.ShaperRecordings | shaketune/commands/axes_shaper_calibration_web.py:40-69 | The labels recorded, those looked up and those uploaded are the same list, in the same order. |
| Shaper.ShaperUntouching | shaketune/commands/axes_shaper_calibration_web.py:11-89 | The routine changes neither limits, shaping, position nor extruder. |
| Shaper.BothSkipped | shaketune/commands/axes_shaper_calibration_web.py:40-65 | `both` with both axes skipped records and uploads nothing. |
| Shaper.ShaperUploads | shaketune/commands/axes_shaper_calibration_web.py:69-87 | Every post goes to `/process/shaper`. There is no error iff all files are delivered. It writes `/tmp/<label>_result.png` for each delivered label, in order. It posts each label's `<label>.csv` in order, up to and including the first failed delivery (unless that file could not be opened), and stops there. |
| Shaper.CaptureAxes | shaketune/commands/axes_shaper_calibration_web.py:40-52 | It logs the start/stop pairs and returns the labels. |
| Shaper.CollectDataFiles | shaketune/commands/axes_shaper_calibration_web.py:58-65 | It builds `data_files`, the label list, and logs one lookup for each. |
| Shaper.AxesShaperCalibration | shaketune/commands/axes_shaper_calibration_web.py:11-89 | The routine appends exactly `ShaperRun` and raises its error. The new state is the replay of that trace. |
| Gateway.AllowedFileIff | shaketune/webservice/app.py:30-31 | A file is allowed iff it has a `.` and the text after the last `.` lowercases to `csv`. |
| Gateway.AllowedBySplit | shaketune/webservice/app.py:30-31 | `stem.ext` is allowed iff `ext` lowercases to `csv`, whatever the stem. |
| Gateway.UpperCaseAllowed | shaketune/webservice/app.py:31 | `a.CSV` is allowed. |
| Gateway.BareExtensionAllowed | shaketune/webservice/app.py:31 | `.csv` is allowed. |
| Gateway.LastExtensionJudged | shaketune/webservice/app.py:31 | `a.csv.txt` is refused. |
| Gateway.NoDotRefused | shaketune/webservice/app.py:31 | A name without a dot, such as `csv`, is refused. |
| Gateway.EngineFor | shaketune/webservice/app.py:59-72 | The dispatch table: there is an engine iff the macro type is one of the six known kinds, and the static engine serves exactly `static` and `excitate`. |
| Gateway.DispatchClosed | shaketune/webservice/app.py:59-72 | `excitate` and `static` both go to the static engine, and they are the only two known kinds that share an engine. |
| Gateway.EnginesServed | shaketune/webservice/app.py:59-70 | The six kinds reach exactly the five engines. |
| Gateway.ArtifactsExact | shaketune/webservice/app.py:78-84 | A path is an artifact iff it names a listed `.png` or `.pdf`. There is none iff no listed name is one. |
| Gateway.CollectGraphs | shaketune/webservice/app.py:78-81 | The `listdir` loop builds exactly the artifact list. |
| Gateway.PrecheckOrder | shaketune/webservice/app.py:39-47 | The 400 answers come in order: no file field, then an empty name, then a wrong extension. Nothing else blocks at this stage. |
| Gateway.ResponseOutcomes | shaketune/webservice/app.py:39-91 | The status is 200, 400 or 500. 200 comes iff every check passes, nothing fails and an image was written. The image served is one the engine wrote, as `image/png`. |
| Gateway.ErrorsAnswered | shaketune/webservice/app.py:49-91 | A failed save, a failed `mkdtemp` or an engine crash answers 500 with its message. No image answers 500 "No graphs were generated". |
| Gateway.UnknownKindRefused | shaketune/webservice/app.py:59-72 | After the save and `mkdtemp`, an unknown kind answers 400 "Unknown macro type: <kind>", whatever the engine would do. |
| Gateway.Disk.Save | shaketune/webservice/app.py:53 | The upload is added to the files. |
| Gateway.Disk.MakeScratch | shaketune/webservice/app.py:56 | A fresh, empty scratch directory appears. |
| Gateway.Disk.Remove | shaketune/webservice/app.py:96 | `os.remove` succeeds iff the file exists, and the file is then gone. |
| Gateway.Disk.RemoveEntry | shaketune/webservice/app.py:98-99 | Removing a directory entry succeeds iff it is there, and only that entry goes. |
| Gateway.Disk.RemoveDir | shaketune/webservice/app.py:102 | `os.rmdir` succeeds iff the directory exists and is empty. |
| Gateway.Cleanup | shaketune/webservice/app.py:93-104 | The upload is removed if present, and a missing upload stops the cleanup silently. With no scratch directory, no directory changes. A scratch directory holding exactly the listed entries is removed. |
| Gateway.ProcessData | shaketune/webservice/app.py:37-104 | The handler answers exactly `ProcessResponse` whatever the cleanup does. A refused upload leaves the disk alone. Otherwise the upload and the scratch directory are both gone afterwards. |

## Left out

- HTTP and the file system are abstracted:
  - Uploads: `requests.post` and opening and writing files are the `transport` oracle. The text of an exception is a parameter of the delivery.
  - Gateway: Flask routing, `secure_filename` (its result is a parameter), the streaming in `send_file` (and its own errors), the 16 MiB `MAX_CONTENT_LENGTH` limit the framework enforces, and `os.listdir` failures are not modelled.
- Gateway: `health_check` is a constant answer (`{"status": "healthy"}`, 200) and has no member.
- Gateway.Cleanup: the output directory is flat. Nested sub-directories that an engine might create are not modelled, and neither is the bottom-up walk of `os.walk` over them.
- Gateway.ResponseOutcomes: "the first graph" is the first in the order the listing gives. `os.listdir` order is unspecified, so the contract only states that the image served is one of those written.
- Gateway: the graph creators are opaque. Only the names of the files an engine writes and the error it raises are modelled; their signal processing is floating-point analysis.
- The collaborators' internals are not modelled:
  - `Accelerometer` and `find_axis_accelerometer`, by configuration maps;
  - `vibrate_axis` and `vibrate_axis_at_static_freq`, as single trace events;
  - the contents of `AXIS_CONFIG`.
- The vibration helpers `vibrate_axis` and `vibrate_axis_at_static_freq` are assumed inert: the model takes it that they leave the toolhead position, the velocity limits and input shaping as they found them. Their code is not part of this model. These lemmas rely on that assumption, through `Machines.Inert` and `Guard.Untouching`: Excitate.ExcitationState, Excitate.ExcitateFinalState, Excitate.ExcitateShakesUnshaped, Belts.BeltsKeepCornerVelocity, Belts.BeltsRestore, Belts.BeltsFailureLeavesTestLimits and Guard.GuardRestores.
- Excitate.ExcitateShakesUnshaped: the shake is logged with the axis name. It does not use the direction vector `AXIS_CONFIG` gives for that name.
- Parameter parsing by `gcmd` is not modelled:
  - the `minval`/`maxval` bounds;
  - default values;
  - the `CREATE_GRAPH` range (the model treats every value other than 1 as "no graph").

  Only the parsed values are inputs.
- Dwell durations, `wait_moves` and `ConsoleOutput` are not modelled. The first two appear only as trace markers; console messages do not appear at all.
- The routines run on one thread, and the reactor's timing is not modelled.
- Machines.Machine.EnableShaping: re-enabling turns shaping on. Klipper's restore of the shaper's saved parameters is not modelled. In Klipper, a shaper that was inactive when it was disabled saves nothing and stays inactive, so the "shaping is on iff a shaper exists" conclusions of the restore lemmas hold for a shaper that was active at the start.
- Text.Lower: lowercasing is ASCII-only. Python's full Unicode `str.lower` is not modelled.
- TestPoints.ResolveTestPoint: an empty list of test points is modelled as its own error. In the source it is the `IndexError` of `test_points[0]`.
- Shaper: `MAX_SMOOTHING` and `RAW_NAME` are read and never used, so they are not parameters of the model.
- Shaper.ShaperChip: unlike the excitation routine, an `ACCEL_CHIP` of `''` is not treated as unset. That follows the code.
- The `ACCEL_PER_HZ == ''` normalisation is modelled as the `Empty` parameter value. `gcmd.get_float` would never return `''`, so in the source that branch cannot be taken.
- Vibrations: the text of the NameError is not modelled. The as-written routine only ends with `GcodeUnbound`.

## Findings

| source | as written | input that shows it | evidently intended | confidence | as-written member | corrected member |
|---|---|---|---|---|---|---|
| shaketune/commands/create_vibrations_profile_web.py:42 | The routine calls `gcode.run_script_from_command(...)`, but `gcode` is never bound in the function. The first `SET_VELOCITY_LIMIT` raises `NameError`, so nothing is ever measured. | Any printer with an accelerometer configured for `xy` and its chip present, e.g. `axisAccelerometers = {"xy": "adxl345"}` | Look up `gcode` with `printer.lookup_object('gcode')`, as the sibling routines do, then run the full raise / shape-off / rectangle / restore / upload sequence. | not executed | Vibrations.AsWrittenCounterexample | Vibrations.CreateVibrationsProfile |
