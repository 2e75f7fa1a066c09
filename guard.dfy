/** The save / raise / restore protocol that the axes-map, belt and vibration
    routines wrap around their measurements.

    The routine reads `max_accel`, `square_corner_velocity` and, when the
    toolhead reports it, `minimum_cruise_ratio`; it issues one
    `SET_VELOCITY_LIMIT` with the test acceleration (cruise ratio 0 only when it
    was reported, corner velocity 5 only for the routines that relax it),
    disables input shaping when the printer has an input shaper, and at the end
    re-enables shaping and issues a `SET_VELOCITY_LIMIT` with the saved values.
    The belt routine leaves the corner velocity out of both commands. */
module Guard {

  import opened Common
  import opened Machines

  const RelaxedCornerVelocity: real := 5.0

  /** The command that raises the limits for a test. */
  function Mutation(saved: Limits, accel: real, relaxCorners: bool): Event {
    SetVelocityLimit(accel,
                     if saved.minimumCruiseRatio.Some? then Some(0.0) else None,
                     if relaxCorners then Some(RelaxedCornerVelocity) else None)
  }

  /** The command that puts the saved limits back. */
  function Restoration(saved: Limits, relaxCorners: bool): Event {
    SetVelocityLimit(saved.maxAccel,
                     saved.minimumCruiseRatio,
                     if relaxCorners then Some(saved.squareCornerVelocity) else None)
  }

  function Enter(saved: Limits, hasShaper: bool, accel: real, relaxCorners: bool): seq<Event> {
    [Mutation(saved, accel, relaxCorners)] + (if hasShaper then [DisableShaping] else [])
  }

  function Exit(saved: Limits, hasShaper: bool, relaxCorners: bool): seq<Event> {
    (if hasShaper then [EnableShaping] else []) + [Restoration(saved, relaxCorners)]
  }

  /** The limits in force while the test runs. */
  function TestLimits(saved: Limits, accel: real, relaxCorners: bool): Limits {
    Limits(accel,
           if relaxCorners then RelaxedCornerVelocity else saved.squareCornerVelocity,
           if saved.minimumCruiseRatio.Some? then Some(0.0) else None)
  }

  /** The shaper after shaping was disabled (`on == false`) or enabled. */
  function ShaperSet(shaper: Option<bool>, on: bool): Option<bool> {
    if shaper.Some? then Some(on) else None
  }

  /** A stretch of trace that neither sets limits nor toggles shaping. */
  predicate Untouching(es: seq<Event>) {
    forall e | e in es :: !e.SetVelocityLimit? && !e.DisableShaping? && !e.EnableShaping?
  }

  /** Entering puts the test limits in force and shaping off. */
  lemma EnterRaises(s: MachineState, accel: real, relaxCorners: bool)
    ensures Replay(s, Enter(s.limits, s.shaper.Some?, accel, relaxCorners)).limits == TestLimits(s.limits, accel, relaxCorners)
    ensures Replay(s, Enter(s.limits, s.shaper.Some?, accel, relaxCorners)).shaper == ShaperSet(s.shaper, false)
  {
    var m := Mutation(s.limits, accel, relaxCorners);
    ReplayStep(s, [], m);
    assert [] + [m] == [m];
    if s.shaper.Some? {
      ReplayStep(s, [m], DisableShaping);
    } else {
      assert [m] + [] == [m];
    }
  }

  /** The limits and shaping a test leaves behind after Enter, a middle part
      that touches neither, and Exit: the saved limits, and shaping on exactly
      when the printer has an input shaper. */
  lemma GuardRestores(s: MachineState, accel: real, relaxCorners: bool, test: seq<Event>)
    requires Untouching(test)
    ensures var t := Replay(s, Enter(s.limits, s.shaper.Some?, accel, relaxCorners) + test + Exit(s.limits, s.shaper.Some?, relaxCorners));
            t.limits == s.limits && t.shaper == ShaperSet(s.shaper, true)
  {
    var enter := Enter(s.limits, s.shaper.Some?, accel, relaxCorners);
    var exit := Exit(s.limits, s.shaper.Some?, relaxCorners);
    EnterRaises(s, accel, relaxCorners);
    var s1 := Replay(s, enter);
    ReplayConcat(s, enter, test);
    ReplayFrame(s1, test);
    var s2 := Replay(s1, test);
    ReplayConcat(s, enter + test, exit);
    var r := Restoration(s.limits, relaxCorners);
    if s.shaper.Some? {
      ReplayStep(s2, [], EnableShaping);
      assert [] + [EnableShaping] == [EnableShaping];
      ReplayStep(s2, [EnableShaping], r);
    } else {
      ReplayStep(s2, [], r);
      assert [] + [r] == [r];
    }
  }

  /** A whole guarded routine: whatever comes before the raise, during the
      test and after the restore, as long as none of it touches limits or
      shaping, leaves the saved limits and shaping on iff the printer has an
      input shaper. */
  lemma GuardedRun(s: MachineState, pre: seq<Event>, accel: real, relaxCorners: bool, test: seq<Event>, post: seq<Event>)
    requires Untouching(pre) && Untouching(test) && Untouching(post)
    ensures var t := Replay(s, pre + Enter(s.limits, s.shaper.Some?, accel, relaxCorners) + test
                                  + Exit(s.limits, s.shaper.Some?, relaxCorners) + post);
            t.limits == s.limits && t.shaper == ShaperSet(s.shaper, true)
  {
    var enter := Enter(s.limits, s.shaper.Some?, accel, relaxCorners);
    var exit := Exit(s.limits, s.shaper.Some?, relaxCorners);
    ReplayFrame(s, pre);
    var s1 := Replay(s, pre);
    GuardRestores(s1, accel, relaxCorners, test);
    ReplayConcat(s1, enter, test);
    ReplayConcat(s1, enter + test, exit);
    ReplayConcat(s, pre, enter);
    ReplayConcat(s, pre + enter, test);
    ReplayConcat(s, pre + enter + test, exit);
    ReplayConcat(s, pre + enter + test + exit, post);
    ReplayFrame(Replay(s, pre + enter + test + exit), post);
  }

  /** A routine that fails between the raise and the restore leaves the test
      limits in force and shaping off. */
  lemma GuardedGap(s: MachineState, pre: seq<Event>, accel: real, relaxCorners: bool, test: seq<Event>)
    requires Untouching(pre) && Untouching(test)
    ensures var t := Replay(s, pre + Enter(s.limits, s.shaper.Some?, accel, relaxCorners) + test);
            t.limits == TestLimits(s.limits, accel, relaxCorners) && t.shaper == ShaperSet(s.shaper, false)
  {
    var enter := Enter(s.limits, s.shaper.Some?, accel, relaxCorners);
    ReplayFrame(s, pre);
    var s1 := Replay(s, pre);
    EnterRaises(s1, accel, relaxCorners);
    ReplayConcat(s, pre, enter);
    ReplayConcat(s, pre + enter, test);
    ReplayFrame(Replay(s1, enter), test);
  }

  /** The cruise ratio appears in the raise and the restore exactly when the
      toolhead reported one; nothing is invented for a printer without it. */
  lemma CruiseRatioOnlyWhenReported(saved: Limits, hasShaper: bool, accel: real, relaxCorners: bool)
    ensures forall e | e in Enter(saved, hasShaper, accel, relaxCorners) + Exit(saved, hasShaper, relaxCorners) && e.SetVelocityLimit? ::
              e.cruiseRatio.Some? <==> saved.minimumCruiseRatio.Some?
    ensures forall e | e in Enter(saved, hasShaper, accel, relaxCorners) + Exit(saved, hasShaper, relaxCorners) && e.SetVelocityLimit? ::
              e.cornerVelocity.Some? <==> relaxCorners
  {
  }

  /** `SET_VELOCITY_LIMIT` with the test values, then `disable_shaping` when
      the printer has an input shaper; answers what was saved. */
  method SaveAndRaise(m: Machine, accel: real, relaxCorners: bool) returns (saved: Limits, hasShaper: bool)
    requires m.Valid()
    modifies m
    ensures m.Valid() && m.initial == old(m.initial)
    ensures saved == old(m.limits) && hasShaper == old(m.shaper).Some?
    ensures m.events == old(m.events) + Enter(saved, hasShaper, accel, relaxCorners)
    ensures m.State() == Replay(old(m.State()), Enter(saved, hasShaper, accel, relaxCorners))
    ensures m.limits == TestLimits(saved, accel, relaxCorners) && m.shaper == ShaperSet(old(m.shaper), false)
    ensures m.position == old(m.position) && m.extruder == old(m.extruder) && m.recording == old(m.recording)
  {
    ghost var s0 := m.State();
    ghost var e0 := m.events;
    saved := m.limits;
    var cornerVelocity := if relaxCorners then Some(RelaxedCornerVelocity) else None;
    if saved.minimumCruiseRatio.Some? {
      m.SetVelocityLimit(accel, Some(0.0), cornerVelocity);
    } else {
      m.SetVelocityLimit(accel, None, cornerVelocity);
    }
    hasShaper := m.shaper.Some?;
    if hasShaper {
      m.DisableShaping();
    }
    assert m.events == e0 + Enter(saved, hasShaper, accel, relaxCorners);
    ReplayConcat(m.initial, e0, Enter(saved, hasShaper, accel, relaxCorners));
    EnterRaises(s0, accel, relaxCorners);
  }

  /** `enable_shaping` when the printer has an input shaper, then
      `SET_VELOCITY_LIMIT` with the saved values. */
  method Restore(m: Machine, saved: Limits, hasShaper: bool, relaxCorners: bool)
    requires m.Valid() && hasShaper == m.shaper.Some?
    modifies m
    ensures m.Valid() && m.initial == old(m.initial)
    ensures m.events == old(m.events) + Exit(saved, hasShaper, relaxCorners)
    ensures m.State() == Replay(old(m.State()), Exit(saved, hasShaper, relaxCorners))
    ensures m.position == old(m.position) && m.extruder == old(m.extruder) && m.recording == old(m.recording)
  {
    ghost var e0 := m.events;
    if hasShaper {
      m.EnableShaping();
    }
    if saved.minimumCruiseRatio.Some? {
      m.SetVelocityLimit(saved.maxAccel, saved.minimumCruiseRatio,
                         if relaxCorners then Some(saved.squareCornerVelocity) else None);
    } else {
      m.SetVelocityLimit(saved.maxAccel, None,
                         if relaxCorners then Some(saved.squareCornerVelocity) else None);
    }
    assert m.events == e0 + Exit(saved, hasShaper, relaxCorners);
    ReplayConcat(m.initial, e0, Exit(saved, hasShaper, relaxCorners));
  }
}
