/**
 * An abstract stand-in for the RPi.GPIO driver: the process-wide numbering
 * mode, the board revision it reports, and a trace of every call made to it.
 * Whether a call raises a RuntimeError or ValueError is an input (`fails`),
 * and so is the level a read returns.
 */
module GpioDriver {
  import opened Wrappers

  /** GPIO.BOARD and GPIO.BCM. */
  datatype Mode = Board | Bcm

  /** GPIO.LOW and GPIO.HIGH. */
  datatype Level = Low | High

  /** GPIO.PUD_OFF, GPIO.PUD_UP and GPIO.PUD_DOWN. */
  datatype Pull = PudOff | PudUp | PudDown

  /** One call made to the driver, recorded whether or not it raised. */
  datatype Call =
    | WarningsSet(enabled: bool)            // GPIO.setwarnings(enabled)
    | ModeSet(mode: Mode)                   // GPIO.setmode(mode)
    | OutputClaimed(pin: int, initial: Level) // GPIO.setup(pin, GPIO.OUT, initial=initial)
    | InputClaimed(pin: int, pull: Pull)    // GPIO.setup(pin, GPIO.IN, pull_up_down=pull)
    | Written(pin: int, level: Level)       // GPIO.output(pin, level)
    | Read(pin: int)                        // GPIO.input(pin)
    | Released(pin: int)                    // GPIO.cleanup(pin)

  class Gpio {
    /** GPIO.RPI_REVISION. */
    const revision: int
    /** What GPIO.getmode() returns. */
    var mode: Option<Mode>
    /** Every call made so far, oldest first. */
    var calls: seq<Call>

    constructor (revision: int)
      ensures this.revision == revision && mode == None && calls == []
    {
      this.revision := revision;
      mode := None;
      calls := [];
    }

    method SetWarnings(enabled: bool)
      modifies this
      ensures mode == old(mode) && calls == old(calls) + [WarningsSet(enabled)]
    {
      calls := calls + [WarningsSet(enabled)];
    }

    method SetMode(m: Mode)
      modifies this
      ensures mode == Some(m) && calls == old(calls) + [ModeSet(m)]
    {
      mode := Some(m);
      calls := calls + [ModeSet(m)];
    }

    method SetupOutput(pin: int, initial: Level, fails: bool) returns (ok: bool)
      modifies this
      ensures ok == !fails
      ensures mode == old(mode) && calls == old(calls) + [OutputClaimed(pin, initial)]
    {
      calls := calls + [OutputClaimed(pin, initial)];
      ok := !fails;
    }

    method SetupInput(pin: int, pull: Pull, fails: bool) returns (ok: bool)
      modifies this
      ensures ok == !fails
      ensures mode == old(mode) && calls == old(calls) + [InputClaimed(pin, pull)]
    {
      calls := calls + [InputClaimed(pin, pull)];
      ok := !fails;
    }

    method Output(pin: int, level: Level, fails: bool) returns (ok: bool)
      modifies this
      ensures ok == !fails
      ensures mode == old(mode) && calls == old(calls) + [Written(pin, level)]
    {
      calls := calls + [Written(pin, level)];
      ok := !fails;
    }

    /** A read that succeeds returns `raw`, the level the line is at. */
    method Input(pin: int, fails: bool, raw: int) returns (ok: bool, value: int)
      modifies this
      ensures ok == !fails && (ok ==> value == raw)
      ensures mode == old(mode) && calls == old(calls) + [Read(pin)]
    {
      calls := calls + [Read(pin)];
      ok := !fails;
      value := if ok then raw else 0;
    }

    method Cleanup(pin: int, fails: bool) returns (ok: bool)
      modifies this
      ensures ok == !fails
      ensures mode == old(mode) && calls == old(calls) + [Released(pin)]
    {
      calls := calls + [Released(pin)];
      ok := !fails;
    }
  }
}
