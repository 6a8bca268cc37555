/**
 * The PSUControl_RPiGPIO plugin: pin resolution between the configured
 * numbering and the driver's numbering, the claim/release lifecycle of the
 * on/off and sense lines, and the switch and sense operations.
 *
 * Each operation of the plugin class is specified by a pure function below
 * that gives the calls it makes, the pins it records and whether an
 * uncaught IndexError leaves it.
 */
module PsuControl {
  import opened Wrappers
  import opened PinMaps
  import opened GpioDriver

  /** The plugin's settings, as loaded into its `config` dictionary. */
  datatype Config = Config(
    gpioMode: string,     // GPIOMode: "BOARD" or "BCM"; anything else is unrecognised
    onoffPin: int,        // onoffGPIOPin: 0 or less disables switching
    invertOnoff: bool,    // invertonoffGPIOPin
    sensePin: int,        // senseGPIOPin: 0 or less disables sensing
    invertSense: bool,    // invertsenseGPIOPin
    sensePud: string)     // senseGPIOPinPUD: "PULL_UP", "PULL_DOWN" or anything for none

  /**
   * The plugin's settings defaults: BOARD numbering, both lines disabled,
   * nothing inverted and no pull resistor.
   */
  function Defaults(): (c: Config)
    ensures ParseMode(c.gpioMode) == Some(Board)
    ensures c.onoffPin <= 0 && c.sensePin <= 0
    ensures !c.invertOnoff && !c.invertSense && PullFor(c.sensePud) == PudOff
  {
    Config("BOARD", 0, false, 0, false, "")
  }

  /** The numbering a GPIOMode string names, if any. */
  function ParseMode(s: string): (r: Option<Mode>)
    ensures r == Some(Board) <==> s == "BOARD"
    ensures r == Some(Bcm) <==> s == "BCM"
  {
    if s == "BOARD" then Some(Board)
    else if s == "BCM" then Some(Bcm)
    else None
  }

  /**
   * `_gpio_get_pin`: the configured pin number restated in the numbering the
   * driver is in. With no driver mode, or an unrecognised GPIOMode, it is 0.
   */
  function GetPin(mode: Option<Mode>, gpioMode: string, revision: int, pin: int): (r: Result<int, PinError>)
    ensures mode.None? || ParseMode(gpioMode).None? ==> r == Ok(0)
    ensures mode.Some? && mode == ParseMode(gpioMode) ==> r == Ok(pin)
    ensures r.Err? ==> mode.Some? && ParseMode(gpioMode).Some? && mode != ParseMode(gpioMode)
  {
    if (mode == Some(Board) && gpioMode == "BOARD") || (mode == Some(Bcm) && gpioMode == "BCM") then Ok(pin)
    else if mode == Some(Board) && gpioMode == "BCM" then BcmToBoard(revision, pin)
    else if mode == Some(Bcm) && gpioMode == "BOARD" then BoardToBcm(revision, pin)
    else Ok(0)
  }

  /** Level the on/off line is claimed with. */
  function InitialLevel(invert: bool): Level {
    if !invert then Low else High
  }

  /** Level written to switch the supply on (`on`) or off. */
  function SwitchLevel(on: bool, invert: bool): Level {
    if on then (if !invert then High else Low)
    else (if invert then High else Low)
  }

  /** Pull resistor requested for the sense line. */
  function PullFor(pud: string): Pull {
    if pud == "PULL_UP" then PudUp
    else if pud == "PULL_DOWN" then PudDown
    else PudOff
  }

  /** The sensed supply state for a raw read: bool(raw), inverted if asked. */
  function SenseValue(raw: int, invert: bool): bool {
    var r := raw != 0;
    if invert then !r else r
  }

  /** How a line is claimed. */
  datatype LineRequest = AsOutput(initial: Level) | AsInput(pull: Pull)

  function ClaimCall(pin: int, request: LineRequest): Call {
    match request
    case AsOutput(initial) => OutputClaimed(pin, initial)
    case AsInput(pull) => InputClaimed(pin, pull)
  }

  /** The effect of part of an operation on the driver and on the record. */
  datatype Step = Step(calls: seq<Call>, recorded: seq<int>, escaped: bool)

  /**
   * One `try` block of `setup`: resolve the configured pin, claim it, and
   * record the configured number if the claim did not raise. A ValueError
   * from resolution or a failing claim is logged; an IndexError escapes.
   */
  function ClaimLine(pin: int, request: LineRequest, gpioMode: string, revision: int, mode: Option<Mode>, fails: bool): (s: Step)
    ensures pin <= 0 ==> s == Step([], [], false)
    ensures s.calls != [] ==>
      && pin > 0 && GetPin(mode, gpioMode, revision, pin).Ok?
      && s.calls == [ClaimCall(GetPin(mode, gpioMode, revision, pin).value, request)]
    ensures s.recorded != [] ==> s.recorded == [pin] && !fails && s.calls != []
    ensures |s.recorded| <= 1
    ensures s.escaped ==> s.calls == [] && s.recorded == []
  {
    if pin <= 0 then Step([], [], false)
    else match GetPin(mode, gpioMode, revision, pin)
      case Ok(p) => Step([ClaimCall(p, request)], if fails then [] else [pin], false)
      case Err(e) => Step([], [], e == IndexError)
  }

  /** What `setup` leaves behind. */
  datatype SetupResult = SetupResult(mode: Option<Mode>, calls: seq<Call>, recorded: seq<int>, escaped: bool)

  /** Whether `setup` gets past its mode block. */
  function ModeReady(c: Config, mode: Option<Mode>): bool {
    mode.Some? || ParseMode(c.gpioMode).Some?
  }

  /** The driver mode after the mode block of `setup`. */
  function ModeAfter(c: Config, mode: Option<Mode>): Option<Mode> {
    if mode.Some? then mode else ParseMode(c.gpioMode)
  }

  /** The `setmode` call the mode block of `setup` makes, if any. */
  function ModeCalls(c: Config, mode: Option<Mode>): seq<Call> {
    if mode.None? && ParseMode(c.gpioMode).Some? then [ModeSet(ParseMode(c.gpioMode).value)] else []
  }

  /** The on/off block of `setup`, in driver mode `mode`. */
  function OnOffClaim(c: Config, revision: int, mode: Option<Mode>, fails: bool): Step {
    ClaimLine(c.onoffPin, AsOutput(InitialLevel(c.invertOnoff)), c.gpioMode, revision, mode, fails)
  }

  /** The sense block of `setup`, in driver mode `mode`. */
  function SenseClaim(c: Config, revision: int, mode: Option<Mode>, fails: bool): Step {
    ClaimLine(c.sensePin, AsInput(PullFor(c.sensePud)), c.gpioMode, revision, mode, fails)
  }

  /**
   * `setup` from driver mode `mode`: the driver mode afterwards, the calls it
   * makes, the configured pins it appends to the record, and whether an
   * IndexError leaves it. The on/off block runs first; an IndexError there
   * skips the sense block.
   */
  function SetupRun(c: Config, revision: int, mode: Option<Mode>, onoffFails: bool, senseFails: bool): (r: SetupResult)
    ensures |r.calls| >= 1 && r.calls[0] == WarningsSet(false)
    ensures r.mode == if mode.Some? then mode else ParseMode(c.gpioMode)
    ensures |r.recorded| <= 2
    ensures r.escaped ==> ModeReady(c, mode)
  {
    var m := ModeAfter(c, mode);
    var out := OnOffClaim(c, revision, m, onoffFails);
    var inp := SenseClaim(c, revision, m, senseFails);
    if !ModeReady(c, mode) then SetupResult(mode, [WarningsSet(false)], [], false)
    else if out.escaped then SetupResult(m, [WarningsSet(false)] + ModeCalls(c, mode) + out.calls, out.recorded, true)
    else SetupResult(m, [WarningsSet(false)] + ModeCalls(c, mode) + out.calls + inp.calls, out.recorded + inp.recorded, inp.escaped)
  }

  /** Driver calls made by an operation and whether an IndexError leaves it. */
  datatype Effect = Effect(calls: seq<Call>, escaped: bool)

  /** `_gpio_get_pin` with the driver mode, GPIOMode and board revision fixed. */
  function Resolver(mode: Option<Mode>, gpioMode: string, revision: int): int -> Result<int, PinError> {
    pin => GetPin(mode, gpioMode, revision, pin)
  }

  /**
   * The loop of `cleanup`: a release of each recorded pin, in order, on the
   * pin `resolve` gives for it (`Resolver` for the plugin's own state). A
   * resolution ValueError skips that pin's release; an IndexError ends the
   * loop and leaves the method.
   */
  function ReleaseAll(pins: seq<int>, resolve: int -> Result<int, PinError>): (e: Effect)
    ensures |e.calls| <= |pins|
    ensures forall k | 0 <= k < |e.calls| :: e.calls[k].Released?
    ensures e.escaped ==> pins != []
  {
    if pins == [] then Effect([], false)
    else match resolve(pins[0])
      case Ok(p) =>
        var rest := ReleaseAll(pins[1..], resolve);
        Effect([Released(p)] + rest.calls, rest.escaped)
      case Err(ValueError) => ReleaseAll(pins[1..], resolve)
      case Err(IndexError) => Effect([], true)
  }

  /** `turn_psu_on` (`on`) and `turn_psu_off`. */
  function SwitchRun(c: Config, revision: int, mode: Option<Mode>, on: bool): (e: Effect)
    ensures e.calls != [] ==>
      && c.onoffPin > 0 && GetPin(mode, c.gpioMode, revision, c.onoffPin).Ok?
      && e.calls == [Written(GetPin(mode, c.gpioMode, revision, c.onoffPin).value, SwitchLevel(on, c.invertOnoff))]
    ensures e.escaped ==> e.calls == []
  {
    if c.onoffPin <= 0 then Effect([], false)
    else match GetPin(mode, c.gpioMode, revision, c.onoffPin)
      case Ok(p) => Effect([Written(p, SwitchLevel(on, c.invertOnoff))], false)
      case Err(e) => Effect([], e == IndexError)
  }

  /** What `get_psu_state` does and returns. */
  datatype Sensed = Sensed(calls: seq<Call>, value: bool, escaped: bool)

  /** `get_psu_state`; the read raises when `fails` and otherwise returns `raw`. */
  function SenseRun(c: Config, revision: int, mode: Option<Mode>, fails: bool, raw: int): (s: Sensed)
    ensures s.calls != [] ==>
      && c.sensePin > 0 && GetPin(mode, c.gpioMode, revision, c.sensePin).Ok?
      && s.calls == [Read(GetPin(mode, c.gpioMode, revision, c.sensePin).value)]
    ensures s.value ==> s.calls != [] && !fails
    ensures s.escaped ==> s.calls == [] && !s.value
  {
    if c.sensePin <= 0 then Sensed([], false, false)
    else match GetPin(mode, c.gpioMode, revision, c.sensePin)
      case Ok(p) => Sensed([Read(p)], if fails then false else SenseValue(raw, c.invertSense), false)
      case Err(e) => Sensed([], false, e == IndexError)
  }

  lemma AppendAssoc<T>(a: seq<T>, b: seq<T>, c: seq<T>, d: seq<T>, e: seq<T>)
    ensures a + (b + c + d + e) == a + b + c + d + e
  {
    assert a + (b + c + d + e) == (a + (b + c + d)) + e;
    assert a + (b + c + d) == (a + (b + c)) + d;
  }

  /** The plugin object. */
  class PsuControlRPiGpio {
    /** The driver module the plugin talks to. */
    const gpio: Gpio
    var config: Config
    /** `_configuredGPIOPins`: configured numbers of the lines claimed so far. */
    var configuredPins: seq<int>

    /** Only enabled pin numbers are ever recorded. */
    ghost predicate Valid()
      reads this
    {
      forall i :: 0 <= i < |configuredPins| ==> configuredPins[i] > 0
    }

    constructor (gpio: Gpio, config: Config)
      ensures this.gpio == gpio && this.config == config && configuredPins == []
      ensures Valid()
    {
      this.gpio := gpio;
      this.config := config;
      configuredPins := [];
    }

    /** `setup`; `escaped` says an IndexError left it. */
    method Setup(onoffFails: bool, senseFails: bool) returns (escaped: bool)
      requires Valid()
      modifies this, gpio
      ensures Valid() && config == old(config)
      ensures var r := SetupRun(config, gpio.revision, old(gpio.mode), onoffFails, senseFails);
        && gpio.mode == r.mode
        && gpio.calls == old(gpio.calls) + r.calls
        && configuredPins == old(configuredPins) + r.recorded
        && escaped == r.escaped
    {
      gpio.SetWarnings(false);
      var ready := SetupMode();
      if !ready {
        return false;
      }
      ghost var out, inp;
      escaped, out := SetupOnOff(onoffFails);
      if escaped {
        return;
      }
      escaped, inp := SetupSense(senseFails);
      AppendAssoc(old(gpio.calls), [WarningsSet(false)], ModeCalls(config, old(gpio.mode)), out.calls, inp.calls);
    }

    /**
     * The mode block of `setup`: set the driver mode from GPIOMode if none is
     * set; `ready` is false when none is set and GPIOMode is unrecognised.
     */
    method SetupMode() returns (ready: bool)
      modifies gpio
      ensures ready == ModeReady(config, old(gpio.mode))
      ensures gpio.mode == ModeAfter(config, old(gpio.mode))
      ensures gpio.calls == old(gpio.calls) + ModeCalls(config, old(gpio.mode))
    {
      ready := true;
      if gpio.mode.None? {
        if config.gpioMode == "BOARD" {
          gpio.SetMode(Board);
        } else if config.gpioMode == "BCM" {
          gpio.SetMode(Bcm);
        } else {
          ready := false;
        }
      }
    }

    /** The on/off block of `setup`: claim the line as an output at its off level. */
    method SetupOnOff(fails: bool) returns (escaped: bool, ghost s: Step)
      requires Valid()
      modifies this, gpio
      ensures Valid() && config == old(config) && gpio.mode == old(gpio.mode)
      ensures s == OnOffClaim(config, gpio.revision, gpio.mode, fails)
      ensures gpio.calls == old(gpio.calls) + s.calls
      ensures configuredPins == old(configuredPins) + s.recorded
      ensures escaped == s.escaped
    {
      s := OnOffClaim(config, gpio.revision, gpio.mode, fails);
      escaped := false;
      if config.onoffPin > 0 {
        var initial := if !config.invertOnoff then Low else High;
        match GetPin(gpio.mode, config.gpioMode, gpio.revision, config.onoffPin) {
          case Ok(p) =>
            var ok := gpio.SetupOutput(p, initial, fails);
            if ok {
              configuredPins := configuredPins + [config.onoffPin];
            }
          case Err(ValueError) =>
          case Err(IndexError) =>
            escaped := true;
        }
      }
    }

    /** The sense block of `setup`: claim the line as an input with its pull. */
    method SetupSense(fails: bool) returns (escaped: bool, ghost s: Step)
      requires Valid()
      modifies this, gpio
      ensures Valid() && config == old(config) && gpio.mode == old(gpio.mode)
      ensures s == SenseClaim(config, gpio.revision, gpio.mode, fails)
      ensures gpio.calls == old(gpio.calls) + s.calls
      ensures configuredPins == old(configuredPins) + s.recorded
      ensures escaped == s.escaped
    {
      s := SenseClaim(config, gpio.revision, gpio.mode, fails);
      escaped := false;
      if config.sensePin > 0 {
        var pull;
        if config.sensePud == "PULL_UP" {
          pull := PudUp;
        } else if config.sensePud == "PULL_DOWN" {
          pull := PudDown;
        } else {
          pull := PudOff;
        }
        match GetPin(gpio.mode, config.gpioMode, gpio.revision, config.sensePin) {
          case Ok(p) =>
            var ok := gpio.SetupInput(p, pull, fails);
            if ok {
              configuredPins := configuredPins + [config.sensePin];
            }
          case Err(ValueError) =>
          case Err(IndexError) =>
            escaped := true;
        }
      }
    }

    /**
     * `cleanup`; the release at position i of the record raises when i is in
     * `fails`. `escaped` says an IndexError left it before the record was
     * emptied.
     */
    method Cleanup(fails: set<nat>) returns (escaped: bool)
      requires Valid()
      modifies this, gpio
      ensures Valid() && config == old(config) && gpio.mode == old(gpio.mode)
      ensures var r := ReleaseAll(old(configuredPins), Resolver(gpio.mode, config.gpioMode, gpio.revision));
        && gpio.calls == old(gpio.calls) + [WarningsSet(false)] + r.calls
        && escaped == r.escaped
        && configuredPins == if escaped then old(configuredPins) else []
      // recorded pins are positive, so only one past the header's 40 positions raises
      ensures escaped ==> exists p :: p in old(configuredPins) && p >= HeaderSize
    {
      gpio.SetWarnings(false);
      var mode, gpioMode, revision := gpio.mode, config.gpioMode, gpio.revision;
      ghost var resolve := Resolver(mode, gpioMode, revision);
      var rest := configuredPins;
      ghost var done: seq<Call> := [];
      var i := 0;
      while rest != []
        invariant i + |rest| == |configuredPins|
        invariant gpio.mode == mode
        invariant forall x | x in rest :: x in configuredPins
        invariant gpio.calls == old(gpio.calls) + [WarningsSet(false)] + done
        invariant ReleaseAll(configuredPins, resolve)
          == Effect(done + ReleaseAll(rest, resolve).calls,
                    ReleaseAll(rest, resolve).escaped)
        modifies gpio
      {
        var pin := rest[0];
        ghost var next := ReleaseAll(rest[1..], resolve);
        match GetPin(mode, gpioMode, revision, pin) {
          case Ok(p) =>
            var _ := gpio.Cleanup(p, i in fails);
            assert ReleaseAll(rest, resolve) == Effect([Released(p)] + next.calls, next.escaped);
            assert done + ([Released(p)] + next.calls) == (done + [Released(p)]) + next.calls;
            done := done + [Released(p)];
          case Err(ValueError) =>
            assert ReleaseAll(rest, resolve) == next;
          case Err(IndexError) =>
            assert pin in configuredPins;
            return true;
        }
        rest, i := rest[1..], i + 1;
      }
      configuredPins := [];
      escaped := false;
    }

    /** `turn_psu_on`; the write raises when `fails`. */
    method TurnPsuOn(fails: bool) returns (escaped: bool)
      modifies gpio
      ensures gpio.mode == old(gpio.mode)
      ensures var r := SwitchRun(config, gpio.revision, gpio.mode, true);
        gpio.calls == old(gpio.calls) + r.calls && escaped == r.escaped
    {
      escaped := false;
      if config.onoffPin <= 0 {
        return;
      }
      var o := if !config.invertOnoff then High else Low;
      match GetPin(gpio.mode, config.gpioMode, gpio.revision, config.onoffPin)
      case Ok(p) =>
        var _ := gpio.Output(p, o, fails);
      case Err(ValueError) =>
      case Err(IndexError) =>
        escaped := true;
    }

    /** `turn_psu_off`; the write raises when `fails`. */
    method TurnPsuOff(fails: bool) returns (escaped: bool)
      modifies gpio
      ensures gpio.mode == old(gpio.mode)
      ensures var r := SwitchRun(config, gpio.revision, gpio.mode, false);
        gpio.calls == old(gpio.calls) + r.calls && escaped == r.escaped
    {
      escaped := false;
      if config.onoffPin <= 0 {
        return;
      }
      var o := if config.invertOnoff then High else Low;
      match GetPin(gpio.mode, config.gpioMode, gpio.revision, config.onoffPin)
      case Ok(p) =>
        var _ := gpio.Output(p, o, fails);
      case Err(ValueError) =>
      case Err(IndexError) =>
        escaped := true;
    }

    /**
     * `get_psu_state`; the read raises when `fails` and otherwise returns
     * `raw`.
     */
    method GetPsuState(fails: bool, raw: int) returns (state: bool, escaped: bool)
      modifies gpio
      ensures gpio.mode == old(gpio.mode)
      ensures var r := SenseRun(config, gpio.revision, gpio.mode, fails, raw);
        gpio.calls == old(gpio.calls) + r.calls && state == r.value && escaped == r.escaped
    {
      state, escaped := false, false;
      if config.sensePin <= 0 {
        return;
      }
      match GetPin(gpio.mode, config.gpioMode, gpio.revision, config.sensePin)
      case Ok(p) =>
        var ok, r := gpio.Input(p, fails, raw);
        if !ok {
          return false, false;
        }
        state := r != 0;
        if config.invertSense {
          state := !state;
        }
      case Err(ValueError) =>
      case Err(IndexError) =>
        escaped := true;
    }
  }
}
