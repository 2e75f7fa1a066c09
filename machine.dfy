/** The printer as the calibration routines see it: the toolhead with its
    velocity limits, the optional input shaper, the accelerometer, and the
    upload side, all recorded in one ordered trace of events.

    `Apply` is the meaning of one event for the machine state and `Replay` the
    meaning of a whole trace; the class `Machine` performs the collaborator
    calls one at a time and keeps its fields equal to the replay of its trace. */
module Machines {

  import opened Common

  /** What `toolhead.get_status` reports about motion limits; the cruise ratio
      only on Klipper versions that have it. */
  datatype Limits = Limits(maxAccel: real, squareCornerVelocity: real, minimumCruiseRatio: Option<real>)

  /** One collaborator call, in the order the routine makes it. */
  datatype Event =
    | SetVelocityLimit(accel: real, cruiseRatio: Option<real>, cornerVelocity: Option<real>)
    | DisableShaping
    | EnableShaping
    | Move(target: Point, extruder: real, speed: real)
    | ManualMove(point: Point, speed: real)
    | Dwell(seconds: real)
    | WaitMoves
    | StartMeasurement(chip: string)
    | StopMeasurement(testName: string)
    | WaitForFileWrites
    | GetLatestDataFile(testName: string)
    | VibrateAxis(direction: string, minFreq: real, maxFreq: real, hzPerSec: real, accelPerHz: real)
    | VibrateAtStaticFreq(axis: string, freq: int, duration: int, accelPerHz: real)
    | Post(endpoint: string, fileName: string)
    | SaveResult(path: string)

  /** The part of the printer the events change. `shaper` is None when the
      printer has no `input_shaper` object, otherwise whether shaping is on. */
  datatype MachineState = MachineState(
    limits: Limits,
    shaper: Option<bool>,
    position: Point,
    extruder: real,
    recording: bool)

  /** Events that change nothing the model keeps: waits, lookups, the opaque
      vibration helpers and the upload side. */
  predicate Inert(e: Event) {
    e.Dwell? || e.WaitMoves? || e.WaitForFileWrites? || e.GetLatestDataFile?
    || e.VibrateAxis? || e.VibrateAtStaticFreq? || e.Post? || e.SaveResult?
  }

  /** `SET_VELOCITY_LIMIT` changes exactly the parameters it names. */
  function Apply(s: MachineState, e: Event): (t: MachineState)
    ensures Inert(e) ==> t == s
  {
    match e
    case SetVelocityLimit(accel, cruiseRatio, cornerVelocity) =>
      s.(limits := Limits(accel,
                          cornerVelocity.GetOr(s.limits.squareCornerVelocity),
                          if cruiseRatio.Some? then cruiseRatio else s.limits.minimumCruiseRatio))
    case DisableShaping => s.(shaper := if s.shaper.Some? then Some(false) else None)
    case EnableShaping => s.(shaper := if s.shaper.Some? then Some(true) else None)
    case Move(target, extruder, _) => s.(position := target, extruder := extruder)
    case ManualMove(point, _) => s.(position := point)
    case StartMeasurement(_) => s.(recording := true)
    case StopMeasurement(_) => s.(recording := false)
    case _ => s
  }

  function Replay(s: MachineState, es: seq<Event>): MachineState
    decreases |es|
  {
    if es == [] then s else Apply(Replay(s, es[..|es| - 1]), es[|es| - 1])
  }

  lemma ReplayStep(s: MachineState, es: seq<Event>, e: Event)
    ensures Replay(s, es + [e]) == Apply(Replay(s, es), e)
  {
    assert (es + [e])[..|es|] == es;
  }

  lemma ReplaySingle(s: MachineState, e: Event)
    ensures Replay(s, [e]) == Apply(s, e)
  {
    ReplayStep(s, [], e);
    assert [] + [e] == [e];
  }

  lemma {:induction false} ReplayConcat(s: MachineState, a: seq<Event>, b: seq<Event>)
    ensures Replay(s, a + b) == Replay(Replay(s, a), b)
    decreases |b|
  {
    if b == [] {
      assert a + b == a;
    } else {
      var front := b[..|b| - 1];
      assert (a + b)[..|a + b| - 1] == a + front;
      assert (a + b)[|a + b| - 1] == b[|b| - 1];
      ReplayConcat(s, a, front);
    }
  }

  lemma {:induction false} ReplayInert(s: MachineState, es: seq<Event>)
    requires forall e | e in es :: Inert(e)
    ensures Replay(s, es) == s
    decreases |es|
  {
    if es != [] {
      assert forall e | e in es[..|es| - 1] :: e in es;
      ReplayInert(s, es[..|es| - 1]);
    }
  }

  /** A trace without `SET_VELOCITY_LIMIT` leaves the limits alone, and one
      without shaping calls leaves the shaper alone. */
  lemma {:induction false} ReplayFrame(s: MachineState, es: seq<Event>)
    ensures (forall e | e in es :: !e.SetVelocityLimit?) ==> Replay(s, es).limits == s.limits
    ensures (forall e | e in es :: !e.DisableShaping? && !e.EnableShaping?) ==> Replay(s, es).shaper == s.shaper
    decreases |es|
  {
    if es != [] {
      assert forall e | e in es[..|es| - 1] :: e in es;
      ReplayFrame(s, es[..|es| - 1]);
    }
  }

  /** A trace without moves leaves the toolhead and the extruder where they are. */
  lemma {:induction false} PositionFrame(s: MachineState, es: seq<Event>)
    requires forall e | e in es :: !e.Move? && !e.ManualMove?
    ensures Replay(s, es).position == s.position && Replay(s, es).extruder == s.extruder
  {
    if es != [] {
      assert forall e | e in es[..|es| - 1] :: e in es;
      PositionFrame(s, es[..|es| - 1]);
    }
  }

  /** A trace whose every `SET_VELOCITY_LIMIT` leaves the corner velocity
      out keeps the square corner velocity. */
  lemma {:induction false} ReplayKeepsCornerVelocity(s: MachineState, es: seq<Event>)
    requires KeepsCorners(es)
    ensures Replay(s, es).limits.squareCornerVelocity == s.limits.squareCornerVelocity
    decreases |es|
  {
    if es != [] {
      assert forall e | e in es[..|es| - 1] :: e in es;
      ReplayKeepsCornerVelocity(s, es[..|es| - 1]);
    }
  }

  predicate KeepsCorners(es: seq<Event>) {
    forall e | e in es && e.SetVelocityLimit? :: e.cornerVelocity.None?
  }

  lemma KeepsCornersConcat(a: seq<Event>, b: seq<Event>)
    requires KeepsCorners(a) && KeepsCorners(b)
    ensures KeepsCorners(a + b)
  {
    assert forall e | e in a + b :: e in a || e in b;
  }

  /** Regrouping a trace, stated once so that long proofs can cite it. */
  lemma Regroup(a: seq<Event>, b: seq<Event>, c: seq<Event>)
    ensures a + b + c == a + (b + c)
  {
  }

  /** The values of one kind of event, in trace order. */
  function Pick<T>(es: seq<Event>, f: Event -> Option<T>): seq<T>
  {
    if es == [] then []
    else (match f(es[0]) case Some(v) => [v] case None => []) + Pick(es[1..], f)
  }

  lemma {:induction false} PickConcat<T>(a: seq<Event>, b: seq<Event>, f: Event -> Option<T>)
    ensures Pick(a + b, f) == Pick(a, f) + Pick(b, f)
  {
    if a == [] {
      assert a + b == b;
    } else {
      var head := match f(a[0]) case Some(v) => [v] case None => [];
      calc {
        Pick(a + b, f);
        { assert (a + b)[0] == a[0]; assert (a + b)[1..] == a[1..] + b; }
        head + Pick(a[1..] + b, f);
        { PickConcat(a[1..], b, f); }
        head + (Pick(a[1..], f) + Pick(b, f));
        (head + Pick(a[1..], f)) + Pick(b, f);
      }
    }
  }

  lemma {:induction false} PickNone<T>(es: seq<Event>, f: Event -> Option<T>)
    requires forall e | e in es :: f(e).None?
    ensures Pick(es, f) == []
  {
    if es != [] {
      assert forall e | e in es[1..] :: e in es;
      PickNone(es[1..], f);
    }
  }

  lemma PickSingle<T>(e: Event, f: Event -> Option<T>)
    ensures Pick([e], f) == match f(e) case Some(v) => [v] case None => []
  {
    assert [e][1..] == [];
  }

  /** The values of a trace are those of its middle part when what
      surrounds it has none. */
  lemma PickMiddle<T>(pre: seq<Event>, mid: seq<Event>, post: seq<Event>, f: Event -> Option<T>)
    requires forall e | e in pre :: f(e).None?
    requires forall e | e in post :: f(e).None?
    ensures Pick(pre + mid + post, f) == Pick(mid, f)
  {
    PickConcat(pre, mid, f);
    PickConcat(pre + mid, post, f);
    PickNone(pre, f);
    PickNone(post, f);
  }

  /** The values of a trace in which only the event at `k` has one. */
  lemma PickAt<T>(es: seq<Event>, k: nat, f: Event -> Option<T>)
    requires k < |es|
    requires forall i :: 0 <= i < |es| && i != k ==> f(es[i]).None?
    ensures Pick(es, f) == Pick([es[k]], f)
  {
    var front := es[..k];
    var back := es[k + 1..];
    assert es == front + [es[k]] + back;
    assert forall e | e in front :: f(e).None?;
    assert forall e | e in back :: f(e).None?;
    PickConcat(front + [es[k]], back, f);
    PickConcat(front, [es[k]], f);
    PickNone(front, f);
    PickNone(back, f);
  }

  function StopLabel(e: Event): Option<string> {
    if e.StopMeasurement? then Some(e.testName) else None
  }

  function MoveTarget(e: Event): Option<Point> {
    if e.Move? then Some(e.target) else None
  }

  function LookedUp(e: Event): Option<string> {
    if e.GetLatestDataFile? then Some(e.testName) else None
  }

  function PostedFile(e: Event): Option<string> {
    if e.Post? then Some(e.fileName) else None
  }

  function PostEndpoint(e: Event): Option<string> {
    if e.Post? then Some(e.endpoint) else None
  }

  function SavedPath(e: Event): Option<string> {
    if e.SaveResult? then Some(e.path) else None
  }

  /** Whether the accelerometer is recording after `es`, or None when `es`
      starts a recording that is already running or stops one that is not. */
  function RecordingAfter(es: seq<Event>, active: bool): Option<bool>
  {
    if es == [] then Some(active)
    else if es[0].StartMeasurement? then (if active then None else RecordingAfter(es[1..], true))
    else if es[0].StopMeasurement? then (if active then RecordingAfter(es[1..], false) else None)
    else RecordingAfter(es[1..], active)
  }

  /** Every start is closed by a stop before the next start, and nothing is left recording. */
  predicate Bracketed(es: seq<Event>) {
    RecordingAfter(es, false) == Some(false)
  }

  lemma {:induction false} RecordingAfterConcat(a: seq<Event>, b: seq<Event>, active: bool)
    ensures RecordingAfter(a + b, active) ==
            match RecordingAfter(a, active) case None => None case Some(mid) => RecordingAfter(b, mid)
  {
    if a == [] {
      assert a + b == b;
    } else {
      assert (a + b)[0] == a[0];
      assert (a + b)[1..] == a[1..] + b;
      RecordingAfterConcat(a[1..], b, true);
      RecordingAfterConcat(a[1..], b, false);
    }
  }

  lemma {:induction false} RecordingAfterQuiet(es: seq<Event>, active: bool)
    requires forall e | e in es :: !e.StartMeasurement? && !e.StopMeasurement?
    ensures RecordingAfter(es, active) == Some(active)
  {
    if es != [] {
      assert forall e | e in es[1..] :: e in es;
      RecordingAfterQuiet(es[1..], active);
    }
  }

  /** A stretch of trace that neither starts nor stops a recording. */
  predicate Quiet(es: seq<Event>) {
    forall e | e in es :: !e.StartMeasurement? && !e.StopMeasurement?
  }

  /** The recordings of a trace are those of its middle part when what
      surrounds it records nothing. */
  lemma Recordings(pre: seq<Event>, mid: seq<Event>, post: seq<Event>)
    requires Quiet(pre) && Quiet(post)
    ensures Pick(pre + mid + post, StopLabel) == Pick(mid, StopLabel)
    ensures Bracketed(pre + mid + post) == Bracketed(mid)
  {
    PickConcat(pre, mid, StopLabel);
    PickConcat(pre + mid, post, StopLabel);
    PickNone(pre, StopLabel);
    PickNone(post, StopLabel);
    RecordingAfterQuiet(pre, false);
    RecordingAfterQuiet(post, false);
    RecordingAfterQuiet(post, true);
    RecordingAfterConcat(pre, mid, false);
    RecordingAfterConcat(pre + mid, post, false);
  }

  lemma BracketedConcat(a: seq<Event>, b: seq<Event>)
    requires Bracketed(a) && Bracketed(b)
    ensures Bracketed(a + b)
  {
    RecordingAfterConcat(a, b, false);
  }

  /** A trace that starts a recording at `k`, stops it at `j` and neither
      starts nor stops one anywhere else is bracketed. */
  lemma BracketedSpan(es: seq<Event>, k: nat, j: nat)
    requires k < j < |es|
    requires es[k].StartMeasurement? && es[j].StopMeasurement?
    requires forall i :: 0 <= i < |es| && i != k && i != j ==> !es[i].StartMeasurement? && !es[i].StopMeasurement?
    ensures Bracketed(es)
  {
    var a := es[..k];
    var c := es[k + 1..j];
    var e := es[j + 1..];
    assert es == a + [es[k]] + c + [es[j]] + e;
    assert Quiet(a) && Quiet(c) && Quiet(e);
    RecordingAfterQuiet(a, false);
    RecordingAfterQuiet(c, true);
    RecordingAfterQuiet(e, false);
    RecordingAfterConcat(a + [es[k]] + c + [es[j]], e, false);
    RecordingAfterConcat(a + [es[k]] + c, [es[j]], false);
    RecordingAfterConcat(a + [es[k]], c, false);
    RecordingAfterConcat(a, [es[k]], false);
    assert [es[k]][1..] == [] && [es[j]][1..] == [];
  }

  /** The printer and its collaborators, performing one call at a time. */
  class Machine {
    var limits: Limits
    var shaper: Option<bool>
    var position: Point
    var extruder: real
    var recording: bool
    var events: seq<Event>
    ghost var initial: MachineState

    function State(): MachineState
      reads this
    {
      MachineState(limits, shaper, position, extruder, recording)
    }

    /** The fields are what the trace so far makes of the initial state. */
    ghost predicate Valid()
      reads this
    {
      State() == Replay(initial, events)
    }

    constructor (limits: Limits, shaper: Option<bool>, position: Point, extruder: real)
      ensures Valid() && events == []
      ensures State() == MachineState(limits, shaper, position, extruder, false)
    {
      this.limits := limits;
      this.shaper := shaper;
      this.position := position;
      this.extruder := extruder;
      this.recording := false;
      this.events := [];
      this.initial := MachineState(limits, shaper, position, extruder, false);
    }

    /** `gcode.run_script_from_command('SET_VELOCITY_LIMIT ...')`. */
    method SetVelocityLimit(accel: real, cruiseRatio: Option<real>, cornerVelocity: Option<real>)
      requires Valid()
      modifies this
      ensures Valid() && initial == old(initial)
      ensures events == old(events) + [Event.SetVelocityLimit(accel, cruiseRatio, cornerVelocity)]
      ensures State() == Apply(old(State()), Event.SetVelocityLimit(accel, cruiseRatio, cornerVelocity))
    {
      var e := Event.SetVelocityLimit(accel, cruiseRatio, cornerVelocity);
      ReplayStep(initial, events, e);
      limits := Limits(accel,
                       cornerVelocity.GetOr(limits.squareCornerVelocity),
                       if cruiseRatio.Some? then cruiseRatio else limits.minimumCruiseRatio);
      events := events + [e];
    }

    /** `input_shaper.disable_shaping()`. */
    method DisableShaping()
      requires Valid() && shaper.Some?
      modifies this
      ensures Valid() && initial == old(initial)
      ensures events == old(events) + [Event.DisableShaping]
      ensures State() == old(State()).(shaper := Some(false))
    {
      ReplayStep(initial, events, Event.DisableShaping);
      shaper := Some(false);
      events := events + [Event.DisableShaping];
    }

    /** `input_shaper.enable_shaping()`. */
    method EnableShaping()
      requires Valid() && shaper.Some?
      modifies this
      ensures Valid() && initial == old(initial)
      ensures events == old(events) + [Event.EnableShaping]
      ensures State() == old(State()).(shaper := Some(true))
    {
      ReplayStep(initial, events, Event.EnableShaping);
      shaper := Some(true);
      events := events + [Event.EnableShaping];
    }

    /** `toolhead.move([x, y, z, E], speed)`. */
    method Move(target: Point, e: real, speed: real)
      requires Valid()
      modifies this
      ensures Valid() && initial == old(initial)
      ensures events == old(events) + [Event.Move(target, e, speed)]
      ensures State() == old(State()).(position := target, extruder := e)
    {
      ReplayStep(initial, events, Event.Move(target, e, speed));
      position, extruder := target, e;
      events := events + [Event.Move(target, e, speed)];
    }

    /** `toolhead.manual_move((x, y, z), speed)`; the extruder stays where it is. */
    method ManualMove(point: Point, speed: real)
      requires Valid()
      modifies this
      ensures Valid() && initial == old(initial)
      ensures events == old(events) + [Event.ManualMove(point, speed)]
      ensures State() == old(State()).(position := point)
    {
      ReplayStep(initial, events, Event.ManualMove(point, speed));
      position := point;
      events := events + [Event.ManualMove(point, speed)];
    }

    /** `accelerometer.start_measurement()`. */
    method StartMeasurement(chip: string)
      requires Valid()
      modifies this
      ensures Valid() && initial == old(initial)
      ensures events == old(events) + [Event.StartMeasurement(chip)]
      ensures State() == old(State()).(recording := true)
    {
      ReplayStep(initial, events, Event.StartMeasurement(chip));
      recording := true;
      events := events + [Event.StartMeasurement(chip)];
    }

    /** `accelerometer.stop_measurement(label, append_time=True)`. */
    method StopMeasurement(testName: string)
      requires Valid()
      modifies this
      ensures Valid() && initial == old(initial)
      ensures events == old(events) + [Event.StopMeasurement(testName)]
      ensures State() == old(State()).(recording := false)
    {
      ReplayStep(initial, events, Event.StopMeasurement(testName));
      recording := false;
      events := events + [Event.StopMeasurement(testName)];
    }

    /** Records calls that change nothing the model keeps (waits, lookups,
        the vibration helpers, the upload side). */
    method Perform(es: seq<Event>)
      requires Valid()
      requires forall e | e in es :: Inert(e)
      modifies this
      ensures Valid() && initial == old(initial)
      ensures events == old(events) + es
      ensures State() == old(State())
    {
      ReplayConcat(initial, events, es);
      ReplayInert(State(), es);
      events := events + es;
    }
  }
}
