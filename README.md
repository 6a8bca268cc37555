# PSU Control — RPi.GPIO plugin, modelled in Dafny

This project models the OctoPrint plugin class `PSUControl_RPiGPIO`
(`octoprint_psucontrol_rpigpio/__init__.py`). The plugin switches a printer's
power supply through one GPIO output line of a Raspberry Pi and reads its
state back through an optional GPIO input line. The model covers:

- the three per-revision pin tables. Each maps a physical header position
  (BOARD numbering) to a chip pin (BCM numbering), with `-1` meaning "no chip
  pin here".
- the two translators between the numberings, `_gpio_board_to_bcm` and
  `_gpio_bcm_to_board`.
- pin resolution, `_gpio_get_pin`. It compares the driver's numbering mode
  with the configured `GPIOMode` string.
- the line lifecycle. `setup` sets the driver mode if none is set, claims the
  on/off line and then the sense line, and records each claimed pin in
  `_configuredGPIOPins`. `cleanup` releases every recorded pin and empties
  the list.
- the facade `turn_psu_on`, `turn_psu_off` and `get_psu_state`.

Files:

- `wrappers.dfy`: the `Option` and `Result` datatypes.
- `pin_maps.dfy`, module `PinMaps`: the tables and the translators, with
  Python's list semantics.
  - `list[pin]` accepts -41..40 and raises an uncaught `IndexError`
    otherwise.
  - `list.index` returns the first match or raises `ValueError`.
  - The module also proves injectivity of the tables and both round trips.
- `gpio_driver.dfy`, module `GpioDriver`: the `RPi.GPIO` module as a class.
  - Fields: the numbering mode, the board revision and a trace of every call
    the plugin makes.
  - Whether a driver call raises `RuntimeError` is an input (`fails`) of each
    claim, write, read and release. A read's raw value is an input too.
- `psu_control.dfy`, module `PsuControl`: the plugin, in two parts.
  - A class `PsuControlRPiGpio` holds the driver, the configuration record
    and `_configuredGPIOPins`. Its methods follow the source statement by
    statement.
  - Each method is proved against a pure function of the old state:
    `SetupRun`, `ReleaseAll`, `SwitchRun` and `SenseRun`. Each function
    gives the driver calls issued, the pins recorded, and whether an
    `IndexError` escaped. `ReleaseAll` takes the pin resolution as a
    parameter; `Cleanup` passes `Resolver`, which is `_gpio_get_pin` with the
    driver's state fixed.
- `psu_control_properties.dfy`, module `PsuControlProperties`: lemmas about
  those functions. They relate the trace to the configuration and relate
  `setup` to `cleanup`.

Pin numbers are mathematical integers. Python's `int` is unbounded too, so no
wrap-around arises.

Behaviours of the code worth knowing:

- `_gpio_bcm_to_board(-1)` does not fail. `list.index(-1)` finds the sentinel
  at position 0, so the result is `0` (`PinMaps.BcmToBoardOfSentinel`).
- The sentinel `-1` can reach the driver. Take a driver in BCM mode,
  `GPIOMode` "BOARD" and a header position without a chip pin: the plugin
  asks the driver to claim pin `-1` (`SentinelReachesDriver`).
- On revision 3 with `GPIOMode` "BOARD", on/off pin 12 resolves to chip pin
  18 only when the driver is already in BCM mode. When `setup` sets the mode
  itself, the driver is in BOARD mode and is handed 12
  (`Position12OnRevision3`).
- `setup` has no guard against a second call. It sets no mode the second
  time and appends the same pins again (`SetupTwiceRecordsTwice`).
- `setup` handles the on/off pin before the sense pin. It records the
  configured number, which is a chip pin when `GPIOMode` is "BCM".
- `_gpio_get_pin` returns `0` both when the driver mode is unset and when
  `GPIOMode` is unrecognised.
- An out-of-range pin makes `_pin_to_gpio[pin]` raise `IndexError`. The
  handlers catch only `RuntimeError` and `ValueError`, so the exception
  leaves `setup`, `cleanup`, `turn_psu_on`, `turn_psu_off` or
  `get_psu_state`. The model reports it as an `escaped` flag.
- Because of that escape, `cleanup` leaves `_configuredGPIOPins` unchanged
  when such an entry is reached. Driver failures never stop it from emptying
  the list.
- `get_psu_state` with the sense pin disabled returns `0` and logs nothing.

## Model

| member | source | states |
|---|---|---|
| PinMaps.PinMap | octoprint_psucontrol_rpigpio/__init__.py:15-17 | every revision's table has 41 entries; entry 0 is the sentinel; every entry is the sentinel or a chip pin 0..27 |
| PinMaps.RevisionSelection | octoprint_psucontrol_rpigpio/__init__.py:75-80 | revision 1 selects the first table, revision 2 the second, any other value the third (each as an if-and-only-if on a distinguishing entry) |
| PinMaps.RevisionDifferences | octoprint_psucontrol_rpigpio/__init__.py:15-17 | the revision 1 and 2 tables differ exactly at positions 3, 5 and 13; revision 3 agrees with revision 2 on positions 0..26; revision 2 has no chip pin from position 27 on |
| PinMaps.PinMapInjective | octoprint_psucontrol_rpigpio/__init__.py:15-17 | in every table, no two positions hold the same chip pin |
| PinMaps.FirstIndexOf | octoprint_psucontrol_rpigpio/__init__.py:93 | `list.index`: the result holds the value and no earlier position does; absent exactly when no position holds the value |
| PinMaps.BoardToBcm | octoprint_psucontrol_rpigpio/__init__.py:74-82 | raises IndexError exactly when the pin is outside -41..40; a position 0..40 gives that table entry |
| PinMaps.BcmToBoard | octoprint_psucontrol_rpigpio/__init__.py:85-93 | returns the smallest position holding the chip pin; raises ValueError exactly when no position holds it |
| PinMaps.BoardToBcmToBoard | octoprint_psucontrol_rpigpio/__init__.py:74-93 | translating a position with a chip pin to BCM and back gives the position |
| PinMaps.BcmToBoardToBcm | octoprint_psucontrol_rpigpio/__init__.py:74-93 | translating a chip pin present in the table to BOARD and back gives the chip pin |
| PinMaps.BcmToBoardOfSentinel | octoprint_psucontrol_rpigpio/__init__.py:93 | searching for the sentinel succeeds with position 0 |
| PsuControl.Defaults | octoprint_psucontrol_rpigpio/__init__.py:24-32 | GPIOMode parses to BOARD; both pins are disabled; neither line is inverted; the empty sense PUD gives no pull |
| PsuControl.ParseMode | octoprint_psucontrol_rpigpio/__init__.py:111-116 | BOARD numbering exactly for "BOARD", BCM numbering exactly for "BCM" |
| PsuControl.GetPin | octoprint_psucontrol_rpigpio/__init__.py:96-104 | 0 when the driver mode is unset or GPIOMode is unrecognised; the pin itself when the two agree; an exception only when both are known and differ |
| PsuControl.ClaimLine | octoprint_psucontrol_rpigpio/__init__.py:118-145 | a disabled pin makes no call and records nothing; a claim is made only for an enabled pin that resolves, on the resolved pin; the configured number is recorded only after a claim that did not fail; an escape claims and records nothing |
| PsuControl.SetupRun | octoprint_psucontrol_rpigpio/__init__.py:107-145 | the first call disables warnings; the mode afterwards is the old one if set, else the parsed GPIOMode; at most two pins are recorded; IndexError escapes only once the mode step let setup go on |
| PsuControl.ReleaseAll | octoprint_psucontrol_rpigpio/__init__.py:151-156 | for any pin resolution: at most one driver call per recorded pin, every call a release, and an escape only from a non-empty list |
| PsuControl.SwitchRun | octoprint_psucontrol_rpigpio/__init__.py:160-189 | a driver call only for an enabled on/off pin that resolves: one write of the polarity level to the resolved pin; an escape writes nothing |
| PsuControl.SenseRun | octoprint_psucontrol_rpigpio/__init__.py:192-208 | a read only for an enabled sense pin that resolves, of the resolved pin; true only after a read that did not fail; an escape reads nothing and returns false |
| GpioDriver.Gpio.constructor | octoprint_psucontrol_rpigpio/__init__.py:55 | a freshly imported driver has no numbering mode and an empty trace |
| GpioDriver.Gpio.SetWarnings | octoprint_psucontrol_rpigpio/__init__.py:108 | appends the call to the trace; the mode is unchanged |
| GpioDriver.Gpio.SetMode | octoprint_psucontrol_rpigpio/__init__.py:110-114 | the mode becomes the given one; the call is appended |
| GpioDriver.Gpio.SetupOutput | octoprint_psucontrol_rpigpio/__init__.py:126 | appends the output claim with its initial level; succeeds exactly when the failure input is false |
| GpioDriver.Gpio.SetupInput | octoprint_psucontrol_rpigpio/__init__.py:142 | appends the input claim with its pull; succeeds exactly when the failure input is false |
| GpioDriver.Gpio.Output | octoprint_psucontrol_rpigpio/__init__.py:171 | appends the write with its level; succeeds exactly when the failure input is false |
| GpioDriver.Gpio.Input | octoprint_psucontrol_rpigpio/__init__.py:198 | appends the read; on success returns the raw value |
| GpioDriver.Gpio.Cleanup | octoprint_psucontrol_rpigpio/__init__.py:154 | appends the release; succeeds exactly when the failure input is false |
| PsuControl.PsuControlRPiGpio.constructor | octoprint_psucontrol_rpigpio/__init__.py:19-21 | the plugin starts with the given driver and configuration and no recorded pins |
| PsuControl.PsuControlRPiGpio.Setup | octoprint_psucontrol_rpigpio/__init__.py:107-145 | the new driver mode, the calls appended, the pins appended to `_configuredGPIOPins` and whether IndexError escaped are those of `SetupRun` from the old mode; recorded pins stay positive |
| PsuControl.PsuControlRPiGpio.SetupMode | octoprint_psucontrol_rpigpio/__init__.py:108-116 | sets the mode from GPIOMode only when none is set; reports whether setup may go on |
| PsuControl.PsuControlRPiGpio.SetupOnOff | octoprint_psucontrol_rpigpio/__init__.py:118-129 | the on/off block: claim calls, recorded pin and escape are those of `OnOffClaim`; the mode is unchanged |
| PsuControl.PsuControlRPiGpio.SetupSense | octoprint_psucontrol_rpigpio/__init__.py:131-145 | the sense block: claim calls, recorded pin and escape are those of `SenseClaim`; the mode is unchanged |
| PsuControl.PsuControlRPiGpio.Cleanup | octoprint_psucontrol_rpigpio/__init__.py:148-157 | the releases issued after the warnings call are those of `ReleaseAll` on the old list, whatever releases fail; the list is emptied unless IndexError escaped, and then kept; since recorded pins are positive, an escape needs a recorded pin of 41 or more |
| PsuControl.PsuControlRPiGpio.TurnPsuOn | octoprint_psucontrol_rpigpio/__init__.py:160-173 | the calls and escape are those of `SwitchRun` with `on` true; the mode is unchanged |
| PsuControl.PsuControlRPiGpio.TurnPsuOff | octoprint_psucontrol_rpigpio/__init__.py:176-189 | the calls and escape are those of `SwitchRun` with `on` false; the mode is unchanged |
| PsuControl.PsuControlRPiGpio.GetPsuState | octoprint_psucontrol_rpigpio/__init__.py:192-208 | the calls, the value returned and the escape are those of `SenseRun` |
| PsuControlProperties.GetPinCases | octoprint_psucontrol_rpigpio/__init__.py:96-104 | identity when the modes agree; BCM-to-BOARD translation for a BOARD driver with BCM configured; BOARD-to-BCM translation for the converse; 0 when the driver mode is unset or GPIOMode is unrecognised |
| PsuControlProperties.GetPinErrors | octoprint_psucontrol_rpigpio/__init__.py:74-104 | resolution raises IndexError exactly for a BCM driver, "BOARD" configured and a pin outside -41..40; ValueError exactly for a BOARD driver, "BCM" configured and a chip pin in no position |
| PsuControlProperties.ResolvedPinNamesSamePosition | octoprint_psucontrol_rpigpio/__init__.py:96-104 | a configured number that names a header position with a chip pin resolves, in either driver mode, to the number naming the same position |
| PsuControlProperties.Position12OnRevision3 | octoprint_psucontrol_rpigpio/__init__.py:97-102 | on revision 3 with BOARD configured, position 12 resolves to chip pin 18 for a BCM driver and stays 12 for a BOARD driver |
| PsuControlProperties.Chip18IsPosition12 | octoprint_psucontrol_rpigpio/__init__.py:85-93 | on revision 3, chip pin 18 is at header position 12 |
| PsuControlProperties.Chip18OnRevision3 | octoprint_psucontrol_rpigpio/__init__.py:99-100 | on revision 3 with BCM configured, a BOARD driver is handed position 12 for chip pin 18 |
| PsuControlProperties.SetupSetsModeOnlyWhenUnset | octoprint_psucontrol_rpigpio/__init__.py:108-116 | after setup the mode is the old one if set, else the parsed GPIOMode; the only mode call is the second call, made exactly when the mode was unset and GPIOMode recognised, and with the configured mode |
| PsuControlProperties.SetupCallsLayout | octoprint_psucontrol_rpigpio/__init__.py:107-145 | once the mode step lets setup go on, the trace is the warnings call, the mode call if any, the on/off block's output claims, then the sense block's input claims unless the on/off block escaped |
| PsuControlProperties.SetupWithoutModeClaimsNothing | octoprint_psucontrol_rpigpio/__init__.py:110-116 | with no mode and GPIOMode unrecognised, setup only disables warnings and records nothing |
| PsuControlProperties.SetupRecordsEnabledPins | octoprint_psucontrol_rpigpio/__init__.py:118-145 | every recorded pin is positive; the record is a sub-list of [on/off pin, sense pin] in that order; with both pins disabled nothing is claimed or recorded |
| PsuControlProperties.SetupClaimsOnlyEnabledPins | octoprint_psucontrol_rpigpio/__init__.py:118-145 | in every mode and whatever fails, a disabled on/off pin means no output claim and a disabled sense pin means no input claim |
| PsuControlProperties.SetupClaimsOnOff | octoprint_psucontrol_rpigpio/__init__.py:118-129 | a resolvable on/off pin is claimed as an output at the off level on its resolved pin; the configured number is recorded first when the claim succeeds and not at all when it fails |
| PsuControlProperties.FailedOnOffClaimIsSkipped | octoprint_psucontrol_rpigpio/__init__.py:120-145 | a failing on/off claim leaves the same mode, record and escape as a disabled on/off pin; the calls differ by that one claim |
| PsuControlProperties.FailedOnOffTraces | octoprint_psucontrol_rpigpio/__init__.py:118-145 | the two setup runs compared above, call by call |
| PsuControlProperties.SetupEscapesOnIndexError | octoprint_psucontrol_rpigpio/__init__.py:107-145 | setup lets an exception out exactly when the mode step goes on and an enabled pin's resolution raises IndexError (if-and-only-if) |
| PsuControlProperties.OnOffValueErrorIsSkipped | octoprint_psucontrol_rpigpio/__init__.py:118-145 | a resolution ValueError on the on/off pin is caught at :128 and the sense block still runs: the whole result equals setup with the on/off pin disabled |
| PsuControlProperties.SetupClaimsSense | octoprint_psucontrol_rpigpio/__init__.py:131-145 | a resolvable sense pin is claimed last, as an input with the configured pull; its configured number ends the record on success; on failure the record is the on/off block's |
| PsuControlProperties.PullSettings | octoprint_psucontrol_rpigpio/__init__.py:134-139 | the pull `PullFor` picks: PULL_UP gives the pull-up, PULL_DOWN the pull-down, anything else no pull (each as an if-and-only-if) |
| PsuControlProperties.InitialLevelIsOffLevel | octoprint_psucontrol_rpigpio/__init__.py:121-124 | `InitialLevel`, the level the output is claimed at, is the level `turn_psu_off` writes: LOW exactly when not inverted |
| PsuControlProperties.ClaimedPinsEmpty | octoprint_psucontrol_rpigpio/__init__.py:126-142 | the claimed-pin list of a trace is empty exactly when no call in it is a claim |
| PsuControlProperties.ReleasedPinsEmpty | octoprint_psucontrol_rpigpio/__init__.py:154 | the released-pin list of a trace is empty exactly when no call in it is a release |
| PsuControlProperties.SetupTwiceRecordsTwice | octoprint_psucontrol_rpigpio/__init__.py:107-145 | a second setup on the mode the first left sets no mode and records the same pins again |
| PsuControlProperties.ReleaseAllInOrder | octoprint_psucontrol_rpigpio/__init__.py:151-156 | for any pin resolution: when every entry resolves, one release per entry, in list order, on its resolved pin, with no escape |
| PsuControlProperties.ReleaseAllOnlyResolvedPins | octoprint_psucontrol_rpigpio/__init__.py:151-156 | at most one release per entry, each the resolution of some entry; escape exactly when some entry raises IndexError |
| PsuControlProperties.ReleaseAllReleasesResolvedPins | octoprint_psucontrol_rpigpio/__init__.py:151-156 | at most one release per entry; every call is a release of a pin some entry resolves to |
| PsuControlProperties.ReleaseAllEscapes | octoprint_psucontrol_rpigpio/__init__.py:151-156 | release escapes exactly when some entry raises IndexError |
| PsuControlProperties.ReleaseAllAppend | octoprint_psucontrol_rpigpio/__init__.py:151-156 | releasing a list whose first part does not escape issues the first part's releases, then the second part's, with the second part's escape |
| PsuControlProperties.ReleaseAllReachesEveryEntry | octoprint_psucontrol_rpigpio/__init__.py:151-156 | unless an entry raises IndexError, every entry that resolves is released, whatever happens to the others |
| PsuControlProperties.ClaimThenRelease | octoprint_psucontrol_rpigpio/__init__.py:118-157 | releasing what one claim recorded gives back exactly the line it claimed, or nothing if the claim failed |
| PsuControlProperties.CompletedSetupClaims | octoprint_psucontrol_rpigpio/__init__.py:118-145 | a setup that made both claims records, and claims, the on/off block's pins followed by the sense block's |
| PsuControlProperties.CleanupReleasesWhatSetupClaimed | octoprint_psucontrol_rpigpio/__init__.py:107-157 | cleanup after a setup releases one line per record, only lines setup claimed, without escape; with no failed claim exactly the claimed lines, in order |
| PsuControlProperties.BothLinesClaimedThenReleased | octoprint_psucontrol_rpigpio/__init__.py:107-157 | both pins enabled and claimed: two pins recorded, and cleanup releases exactly those two lines |
| PsuControlProperties.SwitchPolarity | octoprint_psucontrol_rpigpio/__init__.py:165-184 | `SwitchLevel`, the level `turn_psu_on` and `turn_psu_off` write, is HIGH exactly when on differs from inverted; on and off write different levels |
| PsuControlProperties.SwitchCalls | octoprint_psucontrol_rpigpio/__init__.py:160-189 | no driver call when the on/off pin is disabled; otherwise one write of the polarity level to the resolved pin; escape exactly on IndexError |
| PsuControlProperties.OnThenOff | octoprint_psucontrol_rpigpio/__init__.py:160-189 | on then off writes HIGH then LOW to the resolved pin, LOW then HIGH when inverted |
| PsuControlProperties.SenseResults | octoprint_psucontrol_rpigpio/__init__.py:192-208 | disabled: false, no call; otherwise one read of the resolved pin, false on a read error, else bool(raw) XOR inverted |
| PsuControlProperties.SenseEscapesOnIndexError | octoprint_psucontrol_rpigpio/__init__.py:192-208 | reading the state lets an exception out exactly when the sense pin is enabled and its resolution raises IndexError; a ValueError is caught at :199 |
| PsuControlProperties.SenseInversion | octoprint_psucontrol_rpigpio/__init__.py:203-206 | for `SenseValue`, flipping the invert setting negates every successful reading |
| PsuControlProperties.DefaultsAreInert | octoprint_psucontrol_rpigpio/__init__.py:24-32 | with the defaults, setup claims and records nothing and puts an unset driver in BOARD mode; switching calls nothing; the state reads false |
| PsuControlProperties.SentinelReachesDriver | octoprint_psucontrol_rpigpio/__init__.py:101-102 | a BCM driver with BOARD configured and on/off pin 1 is asked to claim chip pin -1 |

## Left out

- `on_startup` (lines 52-71) is not modelled. It imports `RPi.GPIO`
  dynamically, checks its version string and registers with PSUControl's
  helper; all of that is host plumbing and foreign calls. The driver is a
  constructor argument of the plugin class instead.
- The settings plumbing is not modelled: `reload_settings`,
  `on_settings_initialized`, `on_settings_save`, `get_settings_version` and
  `on_settings_migrate` (lines 35-49, 211-221). They read and persist
  OctoPrint's store. The configuration record is a field the caller supplies;
  `Defaults` gives the values of `get_settings_defaults`.
- `get_template_configs`, `get_update_information`, `__plugin_load__` and
  the module metadata are left out; they are UI and update data.
- Logging is left out; it has no effect on state.
- `GPIO.setwarnings(False)` is kept only as a trace entry.
- The hardware and `RPi.GPIO`'s own checks are not modelled. The driver is
  its mode, its revision and its call trace. Any `RuntimeError` from a claim,
  write, read or release is a failure input. A driver `ValueError` from a
  claim, write, read or release behaves the same way and is folded into
  that input.
- `GPIO.setmode` is modelled as never failing.
- Exceptions other than `RuntimeError`, `ValueError` and `IndexError` are not
  modelled, for example a `TypeError` from a non-integer setting. The
  configuration fields have fixed types.
- PsuControl.PsuControlRPiGpio.GetPsuState: returns `false` where the source
  returns the integer `0` for a disabled sense pin. The two are equal in
  Python, but the model does not tell them apart.
- PsuControl.PsuControlRPiGpio.Cleanup: which releases fail is given as the
  set of loop positions that fail. The trace does not depend on it, because
  the source ignores release failures.
