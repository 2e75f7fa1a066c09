/** Values shared by every calibration routine: optional values, points, the
    printer configuration the routines look up, and the errors they raise. */
module Common {

  datatype Option<+T> = None | Some(value: T) {
    function GetOr(default: T): T {
      match this
      case Some(v) => v
      case None => default
    }
  }

  datatype Result<+T> = Ok(value: T) | Err(error: RoutineError)

  /** A toolhead coordinate triple (x, y, z). */
  datatype Point = Point(x: real, y: real, z: real)

  /** The kinematic travel range reported by `toolhead.kin.get_status`. */
  datatype Bounds = Bounds(axisMinimum: Point, axisMaximum: Point)

  /** What `[resonance_tester]` supplies as defaults. */
  datatype ResonanceTester = ResonanceTester(minFreq: real, maxFreq: real, accelPerHz: real, testPoints: seq<Point>)

  /** The raw configuration section of an accelerometer chip. */
  datatype ChipSection = ChipSection(axesMap: Option<string>)

  /** The read-only part of the printer a routine consults.
      `axisAccelerometers` is what `Accelerometer.find_axis_accelerometer` answers for
      a selector (absent: it answers None); `chips` holds the accelerometer objects
      `printer.lookup_object` can find, with their raw configuration sections. */
  datatype PrinterConfig = PrinterConfig(
    axisAccelerometers: map<string, string>,
    chips: map<string, ChipSection>,
    bounds: Bounds,
    resonance: ResonanceTester)

  function FindAxisAccelerometer(cfg: PrinterConfig, selector: string): (chip: Option<string>)
    ensures chip.Some? <==> selector in cfg.axisAccelerometers
  {
    if selector in cfg.axisAccelerometers then Some(cfg.axisAccelerometers[selector]) else None
  }

  /** `printer.lookup_object(chip, None) is not None`; a chip name of None finds nothing. */
  predicate IsAccelerometer(cfg: PrinterConfig, chip: Option<string>) {
    chip.Some? && chip.value in cfg.chips
  }

  /** A numeric parameter that may be absent or given as the empty string. */
  datatype FloatParam = Absent | Empty | Given(number: real) {
    /** The parameter with `''` normalised to unset and the default put in. */
    function Or(default: real): (v: real)
      ensures this.Given? ==> v == this.number
      ensures !this.Given? ==> v == default
    {
      if this.Given? then this.number else default
    }
  }

  /** The `gcmd.error`s the routines raise, one per distinct message. */
  datatype RoutineError =
    | MultiAccelerometerUnsupported
    | AxesMapAlreadySet(chip: string)
    | TooManyTestPoints
    | NoTestPoint
    | ZHeightRequired
    | NoBeltAccelerometer(belt: char)
    | UnknownObject(name: string)
    | NoSuitableAccelerometer
    | GcodeUnbound
    | InvalidExcitationAxis
    | ChipNotFound(chipName: Option<string>)
    | IncorrectShaperAxis
    | NoValidAccelerometer
    | ProcessFailed(reason: string)
    | SaveFailed(reason: string)

  function Midpoint(a: real, b: real): real {
    (a + b) / 2.0
  }
}
