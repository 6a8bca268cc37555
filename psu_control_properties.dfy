/**
 * Properties of the plugin model: pin resolution, the setup/cleanup
 * bookkeeping, and the switch and sense operations.
 */
module PsuControlProperties {
  import opened Wrappers
  import opened PinMaps
  import opened GpioDriver
  import opened PsuControl

  // ---------------------------------------------------------------------
  // Pin resolution

  /**
   * Number n, read in numbering `numbering`, names header position
   * `position` of the given revision.
   */
  ghost predicate Names(revision: int, numbering: Mode, n: int, position: int) {
    && 0 < position < HeaderSize
    && match numbering
       case Board => n == position
       case Bcm => n != NoChipPin && PinMap(revision)[position] == n
  }

  /** The four cases of `_gpio_get_pin`. */
  lemma GetPinCases(mode: Option<Mode>, gpioMode: string, revision: int, pin: int)
    ensures mode.Some? && ParseMode(gpioMode) == mode ==> GetPin(mode, gpioMode, revision, pin) == Ok(pin)
    ensures mode == Some(Board) && ParseMode(gpioMode) == Some(Bcm) ==> GetPin(mode, gpioMode, revision, pin) == BcmToBoard(revision, pin)
    ensures mode == Some(Bcm) && ParseMode(gpioMode) == Some(Board) ==> GetPin(mode, gpioMode, revision, pin) == BoardToBcm(revision, pin)
    ensures mode.None? || ParseMode(gpioMode).None? ==> GetPin(mode, gpioMode, revision, pin) == Ok(0)
  {
  }

  /** Exactly when resolution raises, and what it raises. */
  lemma GetPinErrors(mode: Option<Mode>, gpioMode: string, revision: int, pin: int)
    ensures GetPin(mode, gpioMode, revision, pin) == Err(IndexError)
      <==> mode == Some(Bcm) && gpioMode == "BOARD" && !(-HeaderSize <= pin < HeaderSize)
    ensures GetPin(mode, gpioMode, revision, pin) == Err(ValueError)
      <==> mode == Some(Board) && gpioMode == "BCM" && forall k :: 0 <= k < HeaderSize ==> PinMap(revision)[k] != pin
  {
  }

  /**
   * Resolution keeps the header position: a configured number that names a
   * GPIO position resolves, without error, to the number naming the same
   * position in the driver's numbering.
   */
  lemma ResolvedPinNamesSamePosition(m: Mode, gpioMode: string, revision: int, pin: int, position: int)
    requires ParseMode(gpioMode).Some? && Names(revision, ParseMode(gpioMode).value, pin, position)
    requires PinMap(revision)[position] != NoChipPin
    ensures GetPin(Some(m), gpioMode, revision, pin).Ok?
    ensures Names(revision, m, GetPin(Some(m), gpioMode, revision, pin).value, position)
  {
    var configured := ParseMode(gpioMode).value;
    if m == Board && configured == Bcm {
      BoardToBcmToBoard(revision, position);
    }
  }

  /**
   * A 40-pin board configured in BOARD numbering: header position 12 is
   * chip pin 18, and a driver already in BOARD mode is handed 12 itself.
   */
  lemma Position12OnRevision3()
    ensures GetPin(Some(Bcm), "BOARD", 3, 12) == Ok(18)
    ensures GetPin(Some(Board), "BOARD", 3, 12) == Ok(12)
  {
    assert Rev3Map[12] == 18;
  }

  /** On a 40-pin board chip pin 18 sits at header position 12. */
  lemma Chip18IsPosition12()
    ensures BcmToBoard(3, 18) == Ok(12)
  {
    assert BoardToBcm(3, 12) == Ok(18) by {
      assert Rev3Map[12] == 18;
    }
    BoardToBcmToBoard(3, 12);
  }

  /** The same line configured in BCM numbering is header position 12. */
  lemma Chip18OnRevision3()
    ensures GetPin(Some(Board), "BCM", 3, 18) == Ok(12)
  {
    Chip18IsPosition12();
    GetPinCases(Some(Board), "BCM", 3, 18);
  }

  // ---------------------------------------------------------------------
  // Trace helpers

  /** The pins of the claim calls in a trace, in order. */
  function ClaimedPins(calls: seq<Call>): seq<int> {
    if calls == [] then []
    else if calls[0].OutputClaimed? || calls[0].InputClaimed? then [calls[0].pin] + ClaimedPins(calls[1..])
    else ClaimedPins(calls[1..])
  }

  /** The pins of the release calls in a trace, in order. */
  function ReleasedPins(calls: seq<Call>): seq<int> {
    if calls == [] then []
    else if calls[0].Released? then [calls[0].pin] + ReleasedPins(calls[1..])
    else ReleasedPins(calls[1..])
  }

  /** A trace has claimed pins exactly when one of its calls is a claim. */
  lemma {:induction false} ClaimedPinsEmpty(calls: seq<Call>)
    ensures ClaimedPins(calls) == [] <==> forall i | 0 <= i < |calls| :: !calls[i].OutputClaimed? && !calls[i].InputClaimed?
  {
    if calls != [] {
      ClaimedPinsEmpty(calls[1..]);
      if ClaimedPins(calls) == [] {
        forall i | 0 <= i < |calls|
          ensures !calls[i].OutputClaimed? && !calls[i].InputClaimed?
        {
          if i > 0 {
            assert calls[i] == calls[1..][i - 1];
          }
        }
      }
    }
  }

  /** A trace has released pins exactly when one of its calls is a release. */
  lemma {:induction false} ReleasedPinsEmpty(calls: seq<Call>)
    ensures ReleasedPins(calls) == [] <==> forall i | 0 <= i < |calls| :: !calls[i].Released?
  {
    if calls != [] {
      ReleasedPinsEmpty(calls[1..]);
      if ReleasedPins(calls) == [] {
        forall i | 0 <= i < |calls|
          ensures !calls[i].Released?
        {
          if i > 0 {
            assert calls[i] == calls[1..][i - 1];
          }
        }
      }
    }
  }

  lemma {:induction false} ClaimedPinsAppend(a: seq<Call>, b: seq<Call>)
    ensures ClaimedPins(a + b) == ClaimedPins(a) + ClaimedPins(b)
  {
    if a == [] {
      assert a + b == b;
    } else {
      assert (a + b)[0] == a[0] && (a + b)[1..] == a[1..] + b;
      ClaimedPinsAppend(a[1..], b);
    }
  }

  // ---------------------------------------------------------------------
  // setup

  /**
   * The driver mode is set only when it is unset, and then to exactly the
   * configured mode; a mode already set is kept.
   */
  lemma SetupSetsModeOnlyWhenUnset(c: Config, revision: int, mode: Option<Mode>, onoffFails: bool, senseFails: bool)
    ensures var r := SetupRun(c, revision, mode, onoffFails, senseFails);
      && r.mode == (if mode.Some? then mode else ParseMode(c.gpioMode))
      && |r.calls| >= 1 && r.calls[0] == WarningsSet(false)
      && (forall i | 1 < i < |r.calls| :: !r.calls[i].ModeSet?)
      && (mode.None? && ParseMode(c.gpioMode).Some? <==> |r.calls| >= 2 && r.calls[1].ModeSet?)
      && (|r.calls| >= 2 && r.calls[1].ModeSet? ==> Some(r.calls[1].mode) == ParseMode(c.gpioMode))
  {
    if ModeReady(c, mode) {
      var r := SetupRun(c, revision, mode, onoffFails, senseFails);
      var out := OnOffClaim(c, revision, ModeAfter(c, mode), onoffFails);
      var tail := if out.escaped then [] else SenseClaim(c, revision, ModeAfter(c, mode), senseFails).calls;
      SetupCallsLayout(c, revision, mode, onoffFails, senseFails);
      var claims := out.calls + tail;
      assert r.calls == [WarningsSet(false)] + ModeCalls(c, mode) + claims;
      assert forall x | x in claims :: !x.ModeSet? by {
        assert forall x | x in out.calls :: x.OutputClaimed?;
        assert forall x | x in tail :: x.InputClaimed?;
      }
      ModeCallOnlySecond(ModeCalls(c, mode), claims);
    }
  }

  /**
   * A trace made of the warnings call, at most one mode call and then calls
   * of other kinds has its mode call, if any, at index 1 and nowhere else.
   */
  lemma ModeCallOnlySecond(modeCalls: seq<Call>, claims: seq<Call>)
    requires |modeCalls| <= 1 && forall x | x in modeCalls :: x.ModeSet?
    requires forall x | x in claims :: !x.ModeSet?
    ensures var t := [WarningsSet(false)] + modeCalls + claims;
      && (forall i | 1 < i < |t| :: !t[i].ModeSet?)
      && (modeCalls != [] <==> |t| >= 2 && t[1].ModeSet?)
      && (modeCalls != [] ==> t[1] == modeCalls[0])
  {
    var t := [WarningsSet(false)] + modeCalls + claims;
    forall i | 1 < i < |t|
      ensures !t[i].ModeSet?
    {
      assert t[i] == claims[i - 1 - |modeCalls|];
    }
    if modeCalls == [] && |t| >= 2 {
      assert t[1] == claims[0];
    }
  }

  /**
   * In a trace of non-claim calls, output claims and then input claims, an
   * empty output part means no output claim and an empty input part no
   * input claim.
   */
  lemma ClaimKinds(pre: seq<Call>, outputs: seq<Call>, inputs: seq<Call>)
    requires forall x | x in pre :: !x.OutputClaimed? && !x.InputClaimed?
    requires forall x | x in outputs :: x.OutputClaimed?
    requires forall x | x in inputs :: x.InputClaimed?
    ensures outputs == [] ==> forall i | 0 <= i < |pre + outputs + inputs| :: !(pre + outputs + inputs)[i].OutputClaimed?
    ensures inputs == [] ==> forall i | 0 <= i < |pre + outputs + inputs| :: !(pre + outputs + inputs)[i].InputClaimed?
  {
    var t := pre + outputs + inputs;
    assert forall x | x in t :: x in pre || x in outputs || x in inputs;
  }

  /**
   * The calls of a setup run that gets past the mode block: the warnings
   * call, the mode call if any, the output claims of the on/off block, and
   * the input claims of the sense block unless the on/off block escaped.
   */
  lemma SetupCallsLayout(c: Config, revision: int, mode: Option<Mode>, onoffFails: bool, senseFails: bool)
    requires ModeReady(c, mode)
    ensures var out := OnOffClaim(c, revision, ModeAfter(c, mode), onoffFails);
      var tail := if out.escaped then [] else SenseClaim(c, revision, ModeAfter(c, mode), senseFails).calls;
      && SetupRun(c, revision, mode, onoffFails, senseFails).calls == [WarningsSet(false)] + ModeCalls(c, mode) + out.calls + tail
      && (forall i | 0 <= i < |out.calls| :: out.calls[i].OutputClaimed?)
      && (forall i | 0 <= i < |tail| :: tail[i].InputClaimed?)
  {
    var out := OnOffClaim(c, revision, ModeAfter(c, mode), onoffFails);
    if out.escaped {
      assert [WarningsSet(false)] + ModeCalls(c, mode) + out.calls + [] == [WarningsSet(false)] + ModeCalls(c, mode) + out.calls;
    }
  }

  /** With no driver mode and GPIOMode unrecognised, nothing is claimed. */
  lemma SetupWithoutModeClaimsNothing(c: Config, revision: int, onoffFails: bool, senseFails: bool)
    requires ParseMode(c.gpioMode).None?
    ensures SetupRun(c, revision, None, onoffFails, senseFails) == SetupResult(None, [WarningsSet(false)], [], false)
  {
  }

  /**
   * Only enabled pins are recorded, as configured: at most the on/off pin
   * and then the sense pin, in that order.
   */
  lemma SetupRecordsEnabledPins(c: Config, revision: int, mode: Option<Mode>, onoffFails: bool, senseFails: bool)
    ensures var r := SetupRun(c, revision, mode, onoffFails, senseFails);
      && (forall i | 0 <= i < |r.recorded| :: r.recorded[i] > 0)
      && (r.recorded == [] || r.recorded == [c.onoffPin] || r.recorded == [c.sensePin] || r.recorded == [c.onoffPin, c.sensePin])
      && (c.onoffPin <= 0 && c.sensePin <= 0 ==> r.recorded == [] && ClaimedPins(r.calls) == [])
  {
    var r := SetupRun(c, revision, mode, onoffFails, senseFails);
    if ModeReady(c, mode) && c.onoffPin <= 0 && c.sensePin <= 0 {
      var pre := [WarningsSet(false)] + ModeCalls(c, mode);
      assert r.calls == pre;
      ClaimedPinsAppend([WarningsSet(false)], ModeCalls(c, mode));
    }
  }

  /**
   * A line is claimed only if its configured number is positive: with the
   * on/off pin disabled no output is claimed, with the sense pin disabled no
   * input, whatever the driver mode and the failures.
   */
  lemma SetupClaimsOnlyEnabledPins(c: Config, revision: int, mode: Option<Mode>, onoffFails: bool, senseFails: bool)
    ensures var r := SetupRun(c, revision, mode, onoffFails, senseFails);
      && (c.onoffPin <= 0 ==> forall i | 0 <= i < |r.calls| :: !r.calls[i].OutputClaimed?)
      && (c.sensePin <= 0 ==> forall i | 0 <= i < |r.calls| :: !r.calls[i].InputClaimed?)
  {
    if ModeReady(c, mode) {
      var r := SetupRun(c, revision, mode, onoffFails, senseFails);
      var out := OnOffClaim(c, revision, ModeAfter(c, mode), onoffFails);
      var tail := if out.escaped then [] else SenseClaim(c, revision, ModeAfter(c, mode), senseFails).calls;
      SetupCallsLayout(c, revision, mode, onoffFails, senseFails);
      var pre := [WarningsSet(false)] + ModeCalls(c, mode);
      ClaimKinds(pre, out.calls, tail);
    }
  }

  /**
   * A resolvable on/off pin is claimed as an output on its resolved pin and
   * at the off level; the configured number is recorded first exactly when
   * the claim succeeds.
   */
  lemma SetupClaimsOnOff(c: Config, revision: int, mode: Option<Mode>, onoffFails: bool, senseFails: bool, p: int)
    requires ModeReady(c, mode) && c.onoffPin > 0
    requires GetPin(ModeAfter(c, mode), c.gpioMode, revision, c.onoffPin) == Ok(p)
    ensures var r := SetupRun(c, revision, mode, onoffFails, senseFails);
      && OutputClaimed(p, InitialLevel(c.invertOnoff)) in r.calls
      && (!onoffFails ==> |r.recorded| >= 1 && r.recorded[0] == c.onoffPin)
      && (onoffFails ==> c.onoffPin != c.sensePin ==> c.onoffPin !in r.recorded)
  {
    var r := SetupRun(c, revision, mode, onoffFails, senseFails);
    assert r.calls[1 + |ModeCalls(c, mode)|] == OutputClaimed(p, InitialLevel(c.invertOnoff));
  }

  /**
   * A failing on/off claim is no obstacle to the sense claim: it leaves the
   * same record and outcome as a disabled on/off pin, and the calls differ
   * by the failed claim only.
   */
  lemma FailedOnOffClaimIsSkipped(c: Config, revision: int, mode: Option<Mode>, senseFails: bool, p: int)
    requires ModeReady(c, mode) && c.onoffPin > 0
    requires GetPin(ModeAfter(c, mode), c.gpioMode, revision, c.onoffPin) == Ok(p)
    ensures var failed := SetupRun(c, revision, mode, true, senseFails);
      var disabled := SetupRun(c.(onoffPin := 0), revision, mode, true, senseFails);
      && failed.mode == disabled.mode
      && failed.recorded == disabled.recorded
      && failed.escaped == disabled.escaped
      && multiset(failed.calls) == multiset(disabled.calls) + multiset{OutputClaimed(p, InitialLevel(c.invertOnoff))}
  {
    var pre := [WarningsSet(false)] + ModeCalls(c, mode);
    var claim := OutputClaimed(p, InitialLevel(c.invertOnoff));
    var inp := SenseClaim(c, revision, ModeAfter(c, mode), senseFails);
    FailedOnOffTraces(c, revision, mode, senseFails, p);
    MultisetSplice(pre, claim, inp.calls);
  }

  /** Taking one element out of the middle of a sequence removes one occurrence of it. */
  lemma MultisetSplice<T>(pre: seq<T>, x: T, post: seq<T>)
    ensures multiset(pre + [x] + post) == multiset(pre + post) + multiset{x}
  {
    calc {
      multiset(pre + [x] + post);
      multiset(pre + [x]) + multiset(post);
      multiset(pre) + multiset{x} + multiset(post);
      multiset(pre + post) + multiset{x};
    }
  }

  /** The two setup runs compared above, laid out call by call. */
  lemma FailedOnOffTraces(c: Config, revision: int, mode: Option<Mode>, senseFails: bool, p: int)
    requires ModeReady(c, mode) && c.onoffPin > 0
    requires GetPin(ModeAfter(c, mode), c.gpioMode, revision, c.onoffPin) == Ok(p)
    ensures var failed := SetupRun(c, revision, mode, true, senseFails);
      var disabled := SetupRun(c.(onoffPin := 0), revision, mode, true, senseFails);
      var pre := [WarningsSet(false)] + ModeCalls(c, mode);
      var inp := SenseClaim(c, revision, ModeAfter(c, mode), senseFails);
      && failed == SetupResult(ModeAfter(c, mode), pre + [OutputClaimed(p, InitialLevel(c.invertOnoff))] + inp.calls, inp.recorded, inp.escaped)
      && disabled == SetupResult(ModeAfter(c, mode), pre + inp.calls, inp.recorded, inp.escaped)
  {
    var d := c.(onoffPin := 0);
    var m := ModeAfter(c, mode);
    assert ModeReady(d, mode) && ModeAfter(d, mode) == m && ModeCalls(d, mode) == ModeCalls(c, mode);
    assert SenseClaim(d, revision, m, senseFails) == SenseClaim(c, revision, m, senseFails);
    assert OnOffClaim(c, revision, m, true) == Step([OutputClaimed(p, InitialLevel(c.invertOnoff))], [], false);
    assert OnOffClaim(d, revision, m, true) == Step([], [], false);
    assert [] + SenseClaim(c, revision, m, senseFails).recorded == SenseClaim(c, revision, m, senseFails).recorded;
    assert [WarningsSet(false)] + ModeCalls(c, mode) + [] == [WarningsSet(false)] + ModeCalls(c, mode);
  }

  /**
   * `setup` lets an exception out exactly when resolving an enabled pin
   * raises IndexError, once the mode step has let it go on; resolution
   * ValueErrors and driver failures are caught.
   */
  lemma SetupEscapesOnIndexError(c: Config, revision: int, mode: Option<Mode>, onoffFails: bool, senseFails: bool)
    ensures SetupRun(c, revision, mode, onoffFails, senseFails).escaped
      <==> && ModeReady(c, mode)
           && ((c.onoffPin > 0 && GetPin(ModeAfter(c, mode), c.gpioMode, revision, c.onoffPin) == Err(IndexError))
               || (c.sensePin > 0 && GetPin(ModeAfter(c, mode), c.gpioMode, revision, c.sensePin) == Err(IndexError)))
  {
  }

  /**
   * A ValueError while resolving the on/off pin is caught and the sense block
   * runs: setup goes on exactly as with the on/off pin disabled.
   */
  lemma OnOffValueErrorIsSkipped(c: Config, revision: int, mode: Option<Mode>, onoffFails: bool, senseFails: bool)
    requires ModeReady(c, mode) && c.onoffPin > 0
    requires GetPin(ModeAfter(c, mode), c.gpioMode, revision, c.onoffPin) == Err(ValueError)
    ensures SetupRun(c, revision, mode, onoffFails, senseFails) == SetupRun(c.(onoffPin := 0), revision, mode, onoffFails, senseFails)
  {
  }

  /**
   * A resolvable sense pin is claimed as an input on its resolved pin with
   * the configured pull, unless an IndexError left the on/off block.
   */
  lemma SetupClaimsSense(c: Config, revision: int, mode: Option<Mode>, onoffFails: bool, senseFails: bool, q: int)
    requires ModeReady(c, mode) && c.sensePin > 0
    requires !OnOffClaim(c, revision, ModeAfter(c, mode), onoffFails).escaped
    requires GetPin(ModeAfter(c, mode), c.gpioMode, revision, c.sensePin) == Ok(q)
    ensures var r := SetupRun(c, revision, mode, onoffFails, senseFails);
      && r.calls[|r.calls| - 1] == InputClaimed(q, PullFor(c.sensePud))
      && (!senseFails ==> |r.recorded| >= 1 && r.recorded[|r.recorded| - 1] == c.sensePin)
      && (senseFails ==> r.recorded == OnOffClaim(c, revision, ModeAfter(c, mode), onoffFails).recorded)
  {
  }

  /** On an unrecognised pull setting the sense line gets no pull resistor. */
  lemma PullSettings(pud: string)
    ensures PullFor(pud) == PudUp <==> pud == "PULL_UP"
    ensures PullFor(pud) == PudDown <==> pud == "PULL_DOWN"
    ensures PullFor(pud) == PudOff <==> pud != "PULL_UP" && pud != "PULL_DOWN"
  {
  }

  /**
   * The on/off line is claimed at the level that switches the supply off:
   * LOW unless the switch is inverted.
   */
  lemma InitialLevelIsOffLevel(invert: bool)
    ensures InitialLevel(invert) == SwitchLevel(false, invert)
    ensures InitialLevel(invert) == Low <==> !invert
  {
  }

  /**
   * `setup` does not de-duplicate: run again on the mode it left, it records
   * the same pins again and does not set the mode again.
   */
  lemma SetupTwiceRecordsTwice(c: Config, revision: int, mode: Option<Mode>, onoffFails: bool, senseFails: bool)
    ensures var first := SetupRun(c, revision, mode, onoffFails, senseFails);
      var second := SetupRun(c, revision, first.mode, onoffFails, senseFails);
      && second.mode == first.mode
      && second.recorded == first.recorded
      && ModeCalls(c, first.mode) == []
  {
  }

  // ---------------------------------------------------------------------
  // cleanup

  /**
   * When every recorded pin resolves, one release is issued per entry, in
   * list order, on the pin the entry resolves to, and nothing escapes.
   */
  lemma {:induction false} ReleaseAllInOrder(pins: seq<int>, resolve: int -> Result<int, PinError>)
    requires forall i | 0 <= i < |pins| :: resolve(pins[i]).Ok?
    ensures var e := ReleaseAll(pins, resolve);
      && !e.escaped
      && |e.calls| == |pins|
      && forall i | 0 <= i < |pins| :: e.calls[i] == Released(resolve(pins[i]).value)
  {
    if pins != [] {
      assert forall i | 0 <= i < |pins[1..]| :: pins[1..][i] == pins[i + 1];
      ReleaseAllInOrder(pins[1..], resolve);
    }
  }

  /**
   * Release never touches a pin that no entry resolves to; it escapes
   * exactly when some entry raises IndexError.
   */
  lemma ReleaseAllOnlyResolvedPins(pins: seq<int>, resolve: int -> Result<int, PinError>)
    ensures var e := ReleaseAll(pins, resolve);
      && |e.calls| <= |pins|
      && (forall k | 0 <= k < |e.calls| :: e.calls[k].Released?
            && exists i :: 0 <= i < |pins| && resolve(pins[i]) == Ok(e.calls[k].pin))
      && (e.escaped <==> exists i :: 0 <= i < |pins| && resolve(pins[i]) == Err(IndexError))
  {
    ReleaseAllReleasesResolvedPins(pins, resolve);
    ReleaseAllEscapes(pins, resolve);
  }

  /** Some entry of `pins` resolves to `p`. */
  ghost predicate ResolvesTo(pins: seq<int>, resolve: int -> Result<int, PinError>, p: int) {
    exists i :: 0 <= i < |pins| && resolve(pins[i]) == Ok(p)
  }

  /** What an entry of the tail resolves to, an entry of the whole list resolves to. */
  lemma ResolvesToInTail(pins: seq<int>, resolve: int -> Result<int, PinError>, p: int)
    requires pins != [] && ResolvesTo(pins[1..], resolve, p)
    ensures ResolvesTo(pins, resolve, p)
  {
    var i :| 0 <= i < |pins[1..]| && resolve(pins[1..][i]) == Ok(p);
    assert pins[1..][i] == pins[i + 1];
  }

  /** Each release is of the pin some entry resolves to, at most one per entry. */
  lemma {:induction false} ReleaseAllReleasesResolvedPins(pins: seq<int>, resolve: int -> Result<int, PinError>)
    ensures var e := ReleaseAll(pins, resolve);
      && |e.calls| <= |pins|
      && forall k | 0 <= k < |e.calls| :: e.calls[k].Released? && ResolvesTo(pins, resolve, e.calls[k].pin)
  {
    if pins != [] {
      var tail := pins[1..];
      ReleaseAllReleasesResolvedPins(tail, resolve);
      var rest := ReleaseAll(tail, resolve);
      var e := ReleaseAll(pins, resolve);
      var h := resolve(pins[0]);
      if h != Err(IndexError) {
        var head := if h.Ok? then [Released(h.value)] else [];
        assert e.calls == head + rest.calls;
        forall k | 0 <= k < |e.calls|
          ensures e.calls[k].Released? && ResolvesTo(pins, resolve, e.calls[k].pin)
        {
          if k < |head| {
            assert resolve(pins[0]) == Ok(e.calls[k].pin);
          } else {
            assert e.calls[k] == rest.calls[k - |head|];
            ResolvesToInTail(pins, resolve, e.calls[k].pin);
          }
        }
      }
    }
  }

  /** Release escapes exactly when some entry raises IndexError. */
  lemma {:induction false} ReleaseAllEscapes(pins: seq<int>, resolve: int -> Result<int, PinError>)
    ensures ReleaseAll(pins, resolve).escaped
      <==> exists i :: 0 <= i < |pins| && resolve(pins[i]) == Err(IndexError)
  {
    if pins != [] {
      var tail := pins[1..];
      ReleaseAllEscapes(tail, resolve);
      var rest := ReleaseAll(tail, resolve);
      var e := ReleaseAll(pins, resolve);
      var h := resolve(pins[0]);
      if h == Err(IndexError) {
        assert e.escaped;
      } else {
        assert e.escaped == rest.escaped;
        if rest.escaped {
          var i :| 0 <= i < |tail| && resolve(tail[i]) == Err(IndexError);
          assert tail[i] == pins[i + 1];
        }
        forall i | 0 <= i < |pins| && resolve(pins[i]) == Err(IndexError)
          ensures rest.escaped
        {
          assert pins[i] == tail[i - 1];
        }
      }
    }
  }

  /** No entry of `pins` raises IndexError. */
  ghost predicate NoneRaises(pins: seq<int>, resolve: int -> Result<int, PinError>) {
    forall i | 0 <= i < |pins| :: resolve(pins[i]) != Err(IndexError)
  }

  /** Every entry of `pins` that resolves has its release in `calls`. */
  ghost predicate ReleasesEvery(pins: seq<int>, resolve: int -> Result<int, PinError>, calls: seq<Call>) {
    forall i | 0 <= i < |pins| && resolve(pins[i]).Ok? ::
      Released(resolve(pins[i]).value) in calls
  }

  lemma NoneRaisesTail(pins: seq<int>, resolve: int -> Result<int, PinError>)
    requires pins != [] && NoneRaises(pins, resolve)
    ensures NoneRaises(pins[1..], resolve)
  {
    forall i | 0 <= i < |pins[1..]|
      ensures resolve(pins[1..][i]) != Err(IndexError)
    {
      assert pins[1..][i] == pins[i + 1];
    }
  }

  /** Releasing every resolving entry of the tail, and the head's, releases every resolving entry. */
  lemma ReleasesEveryCons(pins: seq<int>, resolve: int -> Result<int, PinError>, head: seq<Call>, rest: seq<Call>)
    requires pins != [] && ReleasesEvery(pins[1..], resolve, rest)
    requires resolve(pins[0]).Ok? ==> head == [Released(resolve(pins[0]).value)]
    ensures ReleasesEvery(pins, resolve, head + rest)
  {
    forall i | 0 <= i < |pins| && resolve(pins[i]).Ok?
      ensures Released(resolve(pins[i]).value) in head + rest
    {
      var x := Released(resolve(pins[i]).value);
      if i == 0 {
        assert (head + rest)[0] == x;
      } else {
        assert pins[i] == pins[1..][i - 1];
        var j :| 0 <= j < |rest| && rest[j] == x;
        assert (head + rest)[|head| + j] == x;
      }
    }
  }

  /**
   * A ValueError on one entry does not skip the others: unless some entry
   * raises IndexError, every entry that resolves is released.
   */
  lemma {:induction false} ReleaseAllReachesEveryEntry(pins: seq<int>, resolve: int -> Result<int, PinError>)
    requires NoneRaises(pins, resolve)
    ensures var e := ReleaseAll(pins, resolve);
      !e.escaped && ReleasesEvery(pins, resolve, e.calls)
  {
    if pins != [] {
      NoneRaisesTail(pins, resolve);
      ReleaseAllReachesEveryEntry(pins[1..], resolve);
      var rest := ReleaseAll(pins[1..], resolve);
      var e := ReleaseAll(pins, resolve);
      var h := resolve(pins[0]);
      var head := if h.Ok? then [Released(h.value)] else [];
      assert e.calls == head + rest.calls;
      ReleasesEveryCons(pins, resolve, head, rest.calls);
    }
  }

  lemma {:induction false} ReleasedPinsAppend(a: seq<Call>, b: seq<Call>)
    ensures ReleasedPins(a + b) == ReleasedPins(a) + ReleasedPins(b)
  {
    if a == [] {
      assert a + b == b;
    } else {
      assert (a + b)[0] == a[0] && (a + b)[1..] == a[1..] + b;
      ReleasedPinsAppend(a[1..], b);
    }
  }

  /** Releasing a list in two parts is releasing the parts one after the other. */
  lemma {:induction false} ReleaseAllAppend(a: seq<int>, b: seq<int>, resolve: int -> Result<int, PinError>)
    requires !ReleaseAll(a, resolve).escaped
    ensures ReleaseAll(a + b, resolve)
      == Effect(ReleaseAll(a, resolve).calls + ReleaseAll(b, resolve).calls,
                ReleaseAll(b, resolve).escaped)
  {
    if a == [] {
      assert a + b == b;
    } else {
      var ab := a + b;
      assert ab[0] == a[0] && ab[1..] == a[1..] + b;
      var h := resolve(a[0]);
      var head := if h.Ok? then [Released(h.value)] else [];
      var ra := ReleaseAll(a[1..], resolve);
      var rab := ReleaseAll(a[1..] + b, resolve);
      var rb := ReleaseAll(b, resolve);
      assert ReleaseAll(a, resolve) == Effect(head + ra.calls, ra.escaped);
      assert ReleaseAll(ab, resolve) == Effect(head + rab.calls, rab.escaped);
      ReleaseAllAppend(a[1..], b, resolve);
      assert head + (ra.calls + rb.calls) == (head + ra.calls) + rb.calls;
    }
  }

  /** What one claim records, release gives back: the line it claimed. */
  lemma ClaimThenRelease(pin: int, request: LineRequest, gpioMode: string, revision: int, mode: Option<Mode>, fails: bool)
    ensures var s := ClaimLine(pin, request, gpioMode, revision, mode, fails);
      var e := ReleaseAll(s.recorded, Resolver(mode, gpioMode, revision));
      && !e.escaped
      && |e.calls| == |s.recorded|
      && ReleasedPins(e.calls) == (if fails then [] else ClaimedPins(s.calls))
  {
    var s := ClaimLine(pin, request, gpioMode, revision, mode, fails);
    if s.recorded != [] {
      var e := ReleaseAll(s.recorded, Resolver(mode, gpioMode, revision));
      var p := GetPin(mode, gpioMode, revision, pin).value;
      assert s.recorded == [pin];
      assert [pin][0] == pin && [pin][1..] == [];
      assert ReleaseAll([], Resolver(mode, gpioMode, revision)) == Effect([], false);
      assert e.calls == [Released(p)];
      assert ReleasedPins(e.calls) == [p];
    }
  }

  /**
   * A setup run that got past the mode step and did not escape made both
   * claims: the lines it claimed and the pins it recorded are those of the
   * on/off claim followed by those of the sense claim.
   */
  lemma CompletedSetupClaims(c: Config, revision: int, mode: Option<Mode>, onoffFails: bool, senseFails: bool)
    requires ModeReady(c, mode) && !SetupRun(c, revision, mode, onoffFails, senseFails).escaped
    ensures var r := SetupRun(c, revision, mode, onoffFails, senseFails);
      var out := OnOffClaim(c, revision, ModeAfter(c, mode), onoffFails);
      var inp := SenseClaim(c, revision, ModeAfter(c, mode), senseFails);
      && r.mode == ModeAfter(c, mode)
      && r.recorded == out.recorded + inp.recorded
      && ClaimedPins(r.calls) == ClaimedPins(out.calls) + ClaimedPins(inp.calls)
  {
    var m := ModeAfter(c, mode);
    var out := OnOffClaim(c, revision, m, onoffFails);
    var inp := SenseClaim(c, revision, m, senseFails);
    var pre := [WarningsSet(false)] + ModeCalls(c, mode);
    var r := SetupRun(c, revision, mode, onoffFails, senseFails);
    assert r.calls == pre + out.calls + inp.calls;
    ClaimedPinsAppend(pre + out.calls, inp.calls);
    ClaimedPinsAppend(pre, out.calls);
    assert ClaimedPins(pre) == [] by {
      ClaimedPinsAppend([WarningsSet(false)], ModeCalls(c, mode));
    }
  }

  /**
   * With the configuration and driver mode `setup` left, `cleanup` releases
   * only lines `setup` claimed, one per recorded pin, and nothing escapes;
   * when no claim failed it releases exactly the claimed lines, in order.
   */
  lemma CleanupReleasesWhatSetupClaimed(c: Config, revision: int, mode: Option<Mode>, onoffFails: bool, senseFails: bool)
    requires !SetupRun(c, revision, mode, onoffFails, senseFails).escaped
    ensures var r := SetupRun(c, revision, mode, onoffFails, senseFails);
      var e := ReleaseAll(r.recorded, Resolver(r.mode, c.gpioMode, revision));
      && !e.escaped
      && |e.calls| == |r.recorded|
      && (forall x | x in ReleasedPins(e.calls) :: x in ClaimedPins(r.calls))
      && (!onoffFails && !senseFails ==> ReleasedPins(e.calls) == ClaimedPins(r.calls))
  {
    if ModeReady(c, mode) {
      var m := ModeAfter(c, mode);
      var out := OnOffClaim(c, revision, m, onoffFails);
      var inp := SenseClaim(c, revision, m, senseFails);
      CompletedSetupClaims(c, revision, mode, onoffFails, senseFails);
      ClaimThenRelease(c.onoffPin, AsOutput(InitialLevel(c.invertOnoff)), c.gpioMode, revision, m, onoffFails);
      ClaimThenRelease(c.sensePin, AsInput(PullFor(c.sensePud)), c.gpioMode, revision, m, senseFails);
      ReleaseAllAppend(out.recorded, inp.recorded, Resolver(m, c.gpioMode, revision));
      var eo := ReleaseAll(out.recorded, Resolver(m, c.gpioMode, revision));
      var ei := ReleaseAll(inp.recorded, Resolver(m, c.gpioMode, revision));
      ReleasedPinsAppend(eo.calls, ei.calls);
    }
  }

  /**
   * Both pins enabled and resolvable and both claims succeeding: two pins
   * are recorded, and `cleanup` releases those two lines.
   */
  lemma BothLinesClaimedThenReleased(c: Config, revision: int, mode: Option<Mode>, p: int, q: int)
    requires ModeReady(c, mode) && c.onoffPin > 0 && c.sensePin > 0
    requires GetPin(ModeAfter(c, mode), c.gpioMode, revision, c.onoffPin) == Ok(p)
    requires GetPin(ModeAfter(c, mode), c.gpioMode, revision, c.sensePin) == Ok(q)
    ensures var r := SetupRun(c, revision, mode, false, false);
      var e := ReleaseAll(r.recorded, Resolver(r.mode, c.gpioMode, revision));
      && r.recorded == [c.onoffPin, c.sensePin]
      && e == Effect([Released(p), Released(q)], false)
  {
    var r := SetupRun(c, revision, mode, false, false);
    assert r.recorded == [c.onoffPin, c.sensePin];
    ReleaseAllAppend([c.onoffPin], [c.sensePin], Resolver(r.mode, c.gpioMode, revision));
  }

  // ---------------------------------------------------------------------
  // Switching

  /** The level written is on XOR inverted. */
  lemma SwitchPolarity(on: bool, invert: bool)
    ensures SwitchLevel(on, invert) == High <==> on != invert
    ensures SwitchLevel(!on, invert) != SwitchLevel(on, invert)
  {
  }

  /**
   * A disabled on/off pin means no driver call; otherwise one write to the
   * resolved pin, and a resolution ValueError is swallowed.
   */
  lemma SwitchCalls(c: Config, revision: int, mode: Option<Mode>, on: bool)
    ensures c.onoffPin <= 0 ==> SwitchRun(c, revision, mode, on) == Effect([], false)
    ensures c.onoffPin > 0 && GetPin(mode, c.gpioMode, revision, c.onoffPin).Ok? ==>
      SwitchRun(c, revision, mode, on) == Effect([Written(GetPin(mode, c.gpioMode, revision, c.onoffPin).value, SwitchLevel(on, c.invertOnoff))], false)
    ensures SwitchRun(c, revision, mode, on).escaped <==> c.onoffPin > 0 && GetPin(mode, c.gpioMode, revision, c.onoffPin) == Err(IndexError)
  {
  }

  /** On then off writes HIGH then LOW, or LOW then HIGH when inverted. */
  lemma OnThenOff(c: Config, revision: int, mode: Option<Mode>, p: int)
    requires c.onoffPin > 0 && GetPin(mode, c.gpioMode, revision, c.onoffPin) == Ok(p)
    ensures SwitchRun(c, revision, mode, true).calls + SwitchRun(c, revision, mode, false).calls
      == if c.invertOnoff then [Written(p, Low), Written(p, High)] else [Written(p, High), Written(p, Low)]
  {
  }

  // ---------------------------------------------------------------------
  // Sensing

  /**
   * A disabled sense pin reads as off without a driver call; a failing read
   * reads as off; otherwise the state is bool(raw) XOR inverted.
   */
  lemma SenseResults(c: Config, revision: int, mode: Option<Mode>, fails: bool, raw: int)
    ensures c.sensePin <= 0 ==> SenseRun(c, revision, mode, fails, raw) == Sensed([], false, false)
    ensures var s := SenseRun(c, revision, mode, fails, raw);
      c.sensePin > 0 && GetPin(mode, c.gpioMode, revision, c.sensePin).Ok? ==>
        && s.calls == [Read(GetPin(mode, c.gpioMode, revision, c.sensePin).value)]
        && !s.escaped
        && (fails ==> !s.value)
        && (!fails ==> (s.value <==> (raw != 0) != c.invertSense))
  {
  }

  /**
   * `get_psu_state` lets an exception out exactly when resolving an enabled
   * sense pin raises IndexError; a resolution ValueError is caught.
   */
  lemma SenseEscapesOnIndexError(c: Config, revision: int, mode: Option<Mode>, fails: bool, raw: int)
    ensures SenseRun(c, revision, mode, fails, raw).escaped
      <==> c.sensePin > 0 && GetPin(mode, c.gpioMode, revision, c.sensePin) == Err(IndexError)
  {
  }

  /** Inverting the sense setting negates every successful reading. */
  lemma SenseInversion(c: Config, revision: int, mode: Option<Mode>, raw: int)
    requires c.sensePin > 0 && GetPin(mode, c.gpioMode, revision, c.sensePin).Ok?
    ensures SenseRun(c.(invertSense := !c.invertSense), revision, mode, false, raw).value
      == !SenseRun(c, revision, mode, false, raw).value
  {
  }

  // ---------------------------------------------------------------------
  // Defaults

  /**
   * With the settings defaults nothing is claimed, switching makes no driver
   * call and the supply reads as off; an unset driver is put in BOARD mode.
   */
  lemma DefaultsAreInert(revision: int, mode: Option<Mode>, onoffFails: bool, senseFails: bool, on: bool, fails: bool, raw: int)
    ensures var r := SetupRun(Defaults(), revision, mode, onoffFails, senseFails);
      && r.recorded == [] && ClaimedPins(r.calls) == []
      && (mode.None? ==> r.mode == Some(Board))
    ensures SwitchRun(Defaults(), revision, mode, on) == Effect([], false)
    ensures SenseRun(Defaults(), revision, mode, fails, raw) == Sensed([], false, false)
  {
    SetupRecordsEnabledPins(Defaults(), revision, mode, onoffFails, senseFails);
  }

  /**
   * The chip-pin sentinel can reach the driver: a driver in BCM mode with
   * BOARD numbering configured and on/off pin 1 (a power pin) is asked to
   * claim chip pin -1.
   */
  lemma SentinelReachesDriver(revision: int)
    ensures OutputClaimed(NoChipPin, Low) in SetupRun(Config("BOARD", 1, false, 0, false, ""), revision, Some(Bcm), false, false).calls
  {
    assert PinMap(revision)[1] == NoChipPin by {
      assert Rev1Map[1] == NoChipPin && Rev2Map[1] == NoChipPin && Rev3Map[1] == NoChipPin;
    }
    var r := SetupRun(Config("BOARD", 1, false, 0, false, ""), revision, Some(Bcm), false, false);
    assert r.calls[1] == OutputClaimed(NoChipPin, Low);
  }
}
