/**
 * The stateful `XboxController` of xboxcontroller.py. The driver read
 * (`getState`) is a snapshot parameter (`None` when the device is not
 * connected), the rumble write returns the two motor words it would send, and
 * every `dispatch_event` appends to the `events` log.
 */
module Controller {
  import opened Wrappers
  import opened Bits
  import opened XInput
  import opened Normalize
  import opened Differ

  /** The default thresholds of the constructor. */
  const DEADZONE: real := 0.08
  const DAMPEN: real := 0.000000005

  /** Why `update` raises. */
  datatype UpdateError =
    | NotConnected(device: int)   // RuntimeError: joystick not connected
    | NoLastState                 // AttributeError: the controller was built disconnected

  /** Every axis has an entry, in [-1, 1]; the triggers in [0, 1]. */
  ghost predicate AxesInRange(m: map<Axis, real>)
  {
    && LTrigger in m && RTrigger in m && LX in m && LY in m && RX in m && RY in m
    && (forall a :: a in m ==> -1.0 <= m[a] <= 1.0)
    && 0.0 <= m[LTrigger] && 0.0 <= m[RTrigger]
  }

  /** Storing a value in range keeps every stored axis in range. */
  lemma AxesInRangeUpdate(m: map<Axis, real>, a: Axis, v: real)
    requires AxesInRange(m) && -1.0 <= v <= 1.0 && (IsTrigger(a) ==> 0.0 <= v)
    ensures AxesInRange(m[a := v])
  {
  }

  lemma SeqAssoc(a: seq<Event>, b: seq<Event>, c: seq<Event>)
    ensures a + b + c == a + (b + c)
  {
  }

  /** The if-chain of `getDPad` on the four D-pad buttons. */
  function DPadAngle(l: bool, r: bool, u: bool, d: bool): (angle: int)
    ensures angle == CompassAngle(l, r, u, d)
    ensures angle == -1 <==> (l && r) || (u && d) || !(l || r || u || d)
    ensures angle != -1 ==> 0 <= angle <= 315 && angle % 45 == 0
  {
    if !l && !r && u && !d then 0
    else if !l && r && u && !d then 45
    else if !l && r && !u && !d then 90
    else if !l && r && !u && d then 135
    else if !l && !r && !u && d then 180
    else if l && !r && !u && d then 225
    else if l && !r && !u && !d then 270
    else if l && !r && u && !d then 315
    else -1
  }

  /** The eight compass directions (x to the right, y up), clockwise from up. */
  const Compass: seq<(int, int)> := [(0, 1), (1, 1), (1, 0), (1, -1), (0, -1), (-1, -1), (-1, 0), (-1, 1)]

  function IndexOf(s: seq<(int, int)>, x: (int, int)): (i: nat)
    requires x in s
    ensures i < |s| && s[i] == x
  {
    if s[0] == x then 0 else 1 + IndexOf(s[1..], x)
  }

  /**
   * The reference reading of the D-pad: the bearing of the pressed direction
   * in degrees clockwise from up, or -1 when no direction or two opposite
   * directions are pressed.
   */
  function CompassAngle(l: bool, r: bool, u: bool, d: bool): int
  {
    if (l && r) || (u && d) || !(l || r || u || d) then -1
    else
      var dx := (if r then 1 else 0) - (if l then 1 else 0);
      var dy := (if u then 1 else 0) - (if d then 1 else 0);
      45 * IndexOf(Compass, (dx, dy))
  }

  /** `max(0.0, min(1.0, value))` */
  function Clamp01(v: real): (r: real)
    ensures 0.0 <= r <= 1.0
    ensures 0.0 <= v <= 1.0 ==> r == v
    ensures v > 1.0 ==> r == 1.0
    ensures v < 0.0 ==> r == 0.0
  {
    var m := if 1.0 < v then 1.0 else v;
    if 0.0 > m then 0.0 else m
  }

  /** `int(r * 65535)`: truncation, which is the floor for r >= 0. */
  function MotorWord(r: real): (w: int)
    requires 0.0 <= r <= 1.0
    ensures 0 <= w <= 65535
    ensures w as real <= r * 65535.0 < w as real + 1.0
  {
    (r * 65535.0).Floor
  }

  class XboxController {
    const deviceNumber: int
    const deadzone: real
    const dampen: real
    const mode: Mode

    var lastState: Option<State>
    var receivedPackets: int
    var missedPackets: int
    var axes: map<Axis, real>
    var buttons: seq<int>
    var rumble: seq<real>
    /** Every event dispatched so far, in order. */
    var events: seq<Event>

    ghost predicate Valid()
      reads this
    {
      && |buttons| == 17
      && (forall i :: 0 <= i < 17 ==> buttons[i] == 0 || buttons[i] == 1)
      && |rumble| == 2
      && 0.0 <= rumble[0] <= 1.0 && 0.0 <= rumble[1] <= 1.0
      && AxesInRange(axes)
    }

    /** The settings the differ reads. */
    function Settings(): Config
    {
      Config(mode, deadzone, dampen)
    }

    /** `__init__`: `initial` is what `getState()` returned for the device. */
    constructor (deviceNumber: int, deadzone: real, dampen: real, normalizeAxes: int, initial: Option<State>)
      requires -2 <= normalizeAxes < 2
      ensures Valid()
      ensures this.deviceNumber == deviceNumber && this.deadzone == deadzone && this.dampen == dampen
      ensures mode == ModeFor(normalizeAxes)
      ensures lastState == initial && receivedPackets == 0 && missedPackets == 0
      ensures axes == map[LTrigger := 0.0, RTrigger := 0.0, LX := 0.0, LY := 0.0, RX := 0.0, RY := 0.0]
      ensures buttons == seq(17, _ => 0) && rumble == [0.0, 0.0] && events == []
    {
      this.deviceNumber := deviceNumber;
      this.deadzone := deadzone;
      this.dampen := dampen;
      mode := ModeFor(normalizeAxes);
      lastState := initial;
      receivedPackets := 0;
      missedPackets := 0;
      axes := map[LTrigger := 0.0, RTrigger := 0.0, LX := 0.0, LY := 0.0, RX := 0.0, RY := 0.0];
      buttons := seq(17, _ => 0);
      rumble := [0.0, 0.0];
      events := [];
    }

    function IsConnected(): (connected: bool)
      reads this
      ensures connected <==> lastState.Some?
    {
      lastState.Some?
    }

    /**
     * `update`: read a snapshot; when its packet number differs from the last
     * one, count it and dispatch the change; in every case keep it as the
     * last state.
     */
    method Update(snapshot: Option<State>) returns (outcome: Outcome<UpdateError>)
      requires Valid()
      modifies this
      ensures Valid()
      ensures snapshot.None? ==> outcome == Fail(NotConnected(deviceNumber)) && unchanged(this)
      ensures snapshot.Some? && old(lastState).None? ==> outcome == Fail(NoLastState) && unchanged(this)
      ensures snapshot.Some? && old(lastState).Some? ==>
                outcome == Pass && lastState == snapshot && rumble == old(rumble)
      ensures snapshot.Some? && old(lastState).Some? &&
              snapshot.value.packetNumber == old(lastState).value.packetNumber ==>
                && receivedPackets == old(receivedPackets) && missedPackets == old(missedPackets)
                && axes == old(axes) && buttons == old(buttons) && events == old(events)
      ensures snapshot.Some? && old(lastState).Some? &&
              snapshot.value.packetNumber != old(lastState).value.packetNumber ==>
                && receivedPackets == old(receivedPackets) + 1
                && missedPackets == old(missedPackets) + PacketGap(old(lastState).value, snapshot.value)
                && events == old(events) + ChangeEvents(Settings(), old(lastState).value, snapshot.value)
                && axes == AxesAfter(old(axes), Settings(), old(lastState).value.gamepad, snapshot.value.gamepad)
                && buttons == ButtonsAfter(old(buttons), old(lastState).value.gamepad.buttons,
                                           snapshot.value.gamepad.buttons)
    {
      if snapshot.None? {
        outcome := Fail(NotConnected(deviceNumber));
      } else if lastState.None? {
        outcome := Fail(NoLastState);
      } else {
        var state := snapshot.value;
        if state.packetNumber != lastState.value.packetNumber {
          HandleNewPacket(state);
        }
        lastState := snapshot;
        outcome := Pass;
      }
    }

    /** The branch of `update` taken for a new packet number: count it, then dispatch the change. */
    method HandleNewPacket(state: State)
      requires Valid() && lastState.Some?
      modifies this`receivedPackets, this`missedPackets, this`axes, this`buttons, this`events
      ensures Valid()
      ensures receivedPackets == old(receivedPackets) + 1
      ensures missedPackets == old(missedPackets) + PacketGap(lastState.value, state)
      ensures events == old(events) + ChangeEvents(Settings(), lastState.value, state)
      ensures axes == AxesAfter(old(axes), Settings(), lastState.value.gamepad, state.gamepad)
      ensures buttons == ButtonsAfter(old(buttons), lastState.value.gamepad.buttons, state.gamepad.buttons)
    {
      UpdatePacketCount(state);
      HandleChangedState(state);
      SeqAssoc(old(events), MissedEvents(lastState.value, state), StateEvents(Settings(), lastState.value, state));
    }

    /** `updatePacketCount`: one more packet received, and the gap since the last one counted as missed. */
    method UpdatePacketCount(state: State)
      requires lastState.Some?
      modifies this`receivedPackets, this`missedPackets, this`events
      ensures receivedPackets == old(receivedPackets) + 1
      ensures missedPackets == old(missedPackets) + PacketGap(lastState.value, state)
      ensures events == old(events) + MissedEvents(lastState.value, state)
    {
      receivedPackets := receivedPackets + 1;
      var missed := state.packetNumber - lastState.value.packetNumber - 1;
      if missed != 0 {
        events := events + [MissedPacket(missed)];
      }
      missedPackets := missedPackets + missed;
    }

    /** `handleChangedState`: `onStateChanged`, then the axis events, then the button events. */
    method HandleChangedState(state: State)
      requires Valid() && lastState.Some?
      modifies this`axes, this`buttons, this`events
      ensures Valid()
      ensures events == old(events) + StateEvents(Settings(), lastState.value, state)
      ensures axes == AxesAfter(old(axes), Settings(), lastState.value.gamepad, state.gamepad)
      ensures buttons == ButtonsAfter(old(buttons), lastState.value.gamepad.buttons, state.gamepad.buttons)
    {
      events := events + [StateChanged(state)];
      DispatchAxisEvents(state);
      DispatchButtonEvents(state);
      ghost var ax := AxisEvents(Settings(), lastState.value.gamepad, state.gamepad, AxisOrder);
      ghost var bt := ButtonEvents(lastState.value.gamepad.buttons, state.gamepad.buttons);
      SeqAssoc(old(events), [StateChanged(state)], ax);
      SeqAssoc(old(events), [StateChanged(state)] + ax, bt);
    }

    /** One pass of the loop in `dispatchAxisEvents`, on one axis field. */
    method ScanAxis(axis: Axis, last: Gamepad, cur: Gamepad)
      requires Valid()
      modifies this`axes, this`events
      ensures Valid()
      ensures axes == match AxisChange(Settings(), last, cur, axis)
                      case Some(v) => old(axes)[axis := v]
                      case None => old(axes)
      ensures events == old(events) + AxisEventFor(Settings(), last, cur, axis)
    {
      var lastVal := Translate(mode, Sample(last, axis), DataSize(axis));
      var val := Translate(mode, Sample(cur, axis), DataSize(axis));
      var change := NextAxisValue(IsTrigger(axis), lastVal, val, deadzone, dampen);
      assert change == AxisChange(Settings(), last, cur, axis);
      if change.Some? {
        AxesInRangeUpdate(axes, axis, change.value);
        axes := axes[axis := change.value];
        events := events + [AxisMoved(axis, change.value)];
      }
    }

    /** `dispatchAxisEvents`: scan the axis fields in declaration order. */
    method DispatchAxisEvents(state: State)
      requires Valid() && lastState.Some?
      modifies this`axes, this`events
      ensures Valid()
      ensures axes == AxesAfter(old(axes), Settings(), lastState.value.gamepad, state.gamepad)
      ensures events == old(events) + AxisEvents(Settings(), lastState.value.gamepad, state.gamepad, AxisOrder)
    {
      var last := lastState.value.gamepad;
      var cur := state.gamepad;
      ghost var cfg := Settings();
      var i := 0;
      while i < |AxisOrder|
        invariant 0 <= i <= |AxisOrder|
        invariant Valid()
        invariant axes == AxesScanned(old(axes), cfg, last, cur, AxisOrder[..i])
        invariant events == old(events) + AxisEvents(cfg, last, cur, AxisOrder[..i])
      {
        var axis := AxisOrder[i];
        ScanAxis(axis, last, cur);
        AxisScanStep(old(axes), cfg, last, cur, AxisOrder, i);
        SeqAssoc(old(events), AxisEvents(cfg, last, cur, AxisOrder[..i]), AxisEventFor(cfg, last, cur, axis));
        i := i + 1;
      }
      assert AxisOrder[..|AxisOrder|] == AxisOrder;
      AxesScannedAll(old(axes), cfg, last, cur);
    }

    /**
     * `dispatchButtonEvents`: decode `new ^ old` and the new mask MSB-first
     * into 16 entries each and dispatch ordinal i + 1 for every set entry i.
     */
    method DispatchButtonEvents(state: State)
      requires Valid() && lastState.Some?
      modifies this`buttons, this`events
      ensures Valid()
      ensures buttons == ButtonsAfter(old(buttons), lastState.value.gamepad.buttons, state.gamepad.buttons)
      ensures events == old(events) + ButtonEvents(lastState.value.gamepad.buttons, state.gamepad.buttons)
    {
      var o := lastState.value.gamepad.buttons;
      var n := state.gamepad.buttons;
      var changed, buttonsState := DecodeButtonMasks(o, n);
      // zip(changed, count(1), buttons_state): both lists have 16 entries
      var i := 0;
      while i < 16
        invariant 0 <= i <= 16
        invariant buttons == ButtonsScanned(old(buttons), o, n, i)
        invariant events == old(events) + ButtonEventsUpTo(o, n, i)
      {
        ScanButton(o, n, i + 1, changed[i], buttonsState[i]);
        SeqAssoc(old(events), ButtonEventsUpTo(o, n, i),
                 if Differs(o, n, i + 1) then [ButtonChanged(i + 1, Bit(n, 15 - i))] else []);
        i := i + 1;
      }
      ButtonsScannedAll(old(buttons), o, n);
      ButtonsAfterBits(old(buttons), o, n);
    }

    /**
     * One entry of the filtered zip in `dispatchButtonEvents`: ordinal k with
     * its entries of the decoded change list and of the decoded new mask.
     */
    method ScanButton(o: U16, n: U16, k: int, changed: int, pressed: int)
      requires 1 <= k <= 16 && |buttons| == 17
      requires changed == Bit(Xor(n, o), 16 - k) && pressed == Bit(n, 16 - k)
      modifies this`buttons, this`events
      ensures buttons == if Differs(o, n, k) then old(buttons)[k := Bit(n, 16 - k)] else old(buttons)
      ensures events == old(events) + if Differs(o, n, k) then [ButtonChanged(k, Bit(n, 16 - k))] else []
    {
      ButtonDecodeStep(o, n, changed, k - 1);
      if changed != 0 {
        DispatchButtonEvent(k, pressed);
      }
    }

    /** `dispatchButtonEvent`: store the new state of one button and report it. */
    method DispatchButtonEvent(number: int, pressed: int)
      requires 0 <= number < |buttons|
      modifies this`buttons, this`events
      ensures buttons == old(buttons)[number := pressed]
      ensures events == old(events) + [ButtonChanged(number, pressed)]
    {
      buttons := buttons[number := pressed];
      events := events + [ButtonChanged(number, pressed)];
    }

    /**
     * `setRumble`: clamp the value into the slot of the given hand (no slot
     * for any other value) and return the two motor words sent to the device.
     */
    method SetRumble(hand: int, value: real) returns (leftMotor: int, rightMotor: int)
      requires Valid()
      modifies this`rumble
      ensures Valid()
      ensures rumble == if hand == LEFT then old(rumble)[0 := Clamp01(value)]
                        else if hand == RIGHT then old(rumble)[1 := Clamp01(value)]
                        else old(rumble)
      ensures 0 <= leftMotor <= 65535 && 0 <= rightMotor <= 65535
      ensures leftMotor == MotorWord(rumble[0]) && rightMotor == MotorWord(rumble[1])
    {
      if hand == LEFT {
        rumble := rumble[0 := Clamp01(value)];
      } else if hand == RIGHT {
        rumble := rumble[1 := Clamp01(value)];
      }
      leftMotor, rightMotor := MotorWord(rumble[0]), MotorWord(rumble[1]);
    }

    /** `getX`: the stored X position of the given stick, in [-1, 1]; `None` for an unknown hand. */
    function GetX(hand: int): (x: Option<real>)
      reads this
      requires Valid()
      ensures x.Some? <==> hand == LEFT || hand == RIGHT
      ensures x.Some? ==> -1.0 <= x.value <= 1.0
      ensures hand == LEFT ==> x == Some(axes[LX])
      ensures hand == RIGHT ==> x == Some(axes[RX])
    {
      if hand == LEFT then Some(axes[LX])
      else if hand == RIGHT then Some(axes[RX])
      else None
    }

    /** `getY`: the stored Y position of the given stick, in [-1, 1]; `None` for an unknown hand. */
    function GetY(hand: int): (y: Option<real>)
      reads this
      requires Valid()
      ensures y.Some? <==> hand == LEFT || hand == RIGHT
      ensures y.Some? ==> -1.0 <= y.value <= 1.0
      ensures hand == LEFT ==> y == Some(axes[LY])
      ensures hand == RIGHT ==> y == Some(axes[RY])
    {
      if hand == LEFT then Some(axes[LY])
      else if hand == RIGHT then Some(axes[RY])
      else None
    }

    /** `getTrigger`: the stored trigger value of the given hand, in [0, 1]; `None` for an unknown hand. */
    function GetTrigger(hand: int): (t: Option<real>)
      reads this
      requires Valid()
      ensures t.Some? <==> hand == LEFT || hand == RIGHT
      ensures t.Some? ==> 0.0 <= t.value <= 1.0
      ensures hand == LEFT ==> t == Some(axes[LTrigger])
      ensures hand == RIGHT ==> t == Some(axes[RTrigger])
    {
      if hand == LEFT then Some(axes[LTrigger])
      else if hand == RIGHT then Some(axes[RTrigger])
      else None
    }

    /** The stored state (0 or 1) of one button ordinal. */
    function ButtonState(number: int): (pressed: int)
      reads this
      requires Valid() && 0 <= number < 17
      ensures pressed == 0 || pressed == 1
      ensures pressed == buttons[number]
    {
      buttons[number]
    }

    function GetYButton(): (pressed: int)
      reads this
      requires Valid()
      ensures (pressed == 0 || pressed == 1) && pressed == buttons[BUTTON_Y]
    {
      ButtonState(BUTTON_Y)
    }

    function GetXButton(): (pressed: int)
      reads this
      requires Valid()
      ensures (pressed == 0 || pressed == 1) && pressed == buttons[BUTTON_X]
    {
      ButtonState(BUTTON_X)
    }

    function GetBButton(): (pressed: int)
      reads this
      requires Valid()
      ensures (pressed == 0 || pressed == 1) && pressed == buttons[BUTTON_B]
    {
      ButtonState(BUTTON_B)
    }

    function GetAButton(): (pressed: int)
      reads this
      requires Valid()
      ensures (pressed == 0 || pressed == 1) && pressed == buttons[BUTTON_A]
    {
      ButtonState(BUTTON_A)
    }

    /** `getBumper`: the stored bumper state of the given hand; `None` for an unknown hand. */
    function GetBumper(hand: int): (pressed: Option<int>)
      reads this
      requires Valid()
      ensures pressed.Some? <==> hand == LEFT || hand == RIGHT
      ensures pressed.Some? ==> pressed.value == 0 || pressed.value == 1
      ensures hand == LEFT ==> pressed == Some(buttons[BUMPER_L])
      ensures hand == RIGHT ==> pressed == Some(buttons[BUMPER_R])
    {
      if hand == LEFT then Some(ButtonState(BUMPER_L))
      else if hand == RIGHT then Some(ButtonState(BUMPER_R))
      else None
    }

    function GetStartButton(): (pressed: int)
      reads this
      requires Valid()
      ensures (pressed == 0 || pressed == 1) && pressed == buttons[START]
    {
      ButtonState(START)
    }

    function GetBackButton(): (pressed: int)
      reads this
      requires Valid()
      ensures (pressed == 0 || pressed == 1) && pressed == buttons[BACK]
    {
      ButtonState(BACK)
    }

    /** `getDPad`: the compass bearing of the stored D-pad buttons, or -1. */
    function GetDPad(): (angle: int)
      reads this
      requires Valid()
      ensures angle == CompassAngle(buttons[DPAD_L] != 0, buttons[DPAD_R] != 0, buttons[DPAD_U] != 0, buttons[DPAD_D] != 0)
      ensures angle == -1 || (0 <= angle <= 315 && angle % 45 == 0)
    {
      DPadAngle(buttons[DPAD_L] != 0, buttons[DPAD_R] != 0, buttons[DPAD_U] != 0, buttons[DPAD_D] != 0)
    }
  }

  // ---------------------------------------------------------------------
  // Client runs of the session
  // ---------------------------------------------------------------------

  const IdlePad: Gamepad := Gamepad(0, 0, 0, 0, 0, 0, 0)

  /** A controller with the default settings, built on `initial`, as the packet runs below see it. */
  method NewController(initial: State) returns (c: XboxController)
    ensures fresh(c) && c.Valid()
    ensures c.lastState == Some(initial) && c.receivedPackets == 0 && c.missedPackets == 0 && c.events == []
  {
    c := new XboxController(0, DEADZONE, DAMPEN, 1, Some(initial));
  }

  /** Reading packet 5 again after construction on packet 5 changes nothing. */
  method RepeatedPacketExample() returns (received: int, missed: int, log: seq<Event>)
    ensures received == 0 && missed == 0 && log == []
  {
    var c := NewController(State(5, IdlePad));
    var r := c.Update(Some(State(5, IdlePad)));
    received, missed, log := c.receivedPackets, c.missedPackets, c.events;
  }

  /**
   * Packet numbers 5 (at construction) then 8 with an idle pad: one packet
   * received, two missed, and no axis or button events.
   */
  method PacketSequenceExample() returns (received: int, missed: int, log: seq<Event>)
    ensures received == 1 && missed == 2
    ensures log == [MissedPacket(2), StateChanged(State(8, IdlePad))]
  {
    var c := NewController(State(5, IdlePad));
    PacketGapOfIdlePad(c.Settings());
    var r := c.Update(Some(State(8, IdlePad)));
    received, missed, log := c.receivedPackets, c.missedPackets, c.events;
  }

  lemma PacketGapOfIdlePad(cfg: Config)
    ensures PacketGap(State(5, IdlePad), State(8, IdlePad)) == 2
    ensures ChangeEvents(cfg, State(5, IdlePad), State(8, IdlePad)) == [MissedPacket(2), StateChanged(State(8, IdlePad))]
  {
    UnchangedGamepadOnlyStateChanged(cfg, State(5, IdlePad), State(8, IdlePad), map[], seq(17, _ => 0));
  }

  /**
   * The packet number wrapping from 2^32 - 1 to 0 is counted as a gap of
   * -2^32: `onMissedPacket` fires with that number and the missed-packet
   * counter decreases.
   */
  method PacketWrapExample() returns (missed: int, log: seq<Event>)
    ensures missed == -0x1_0000_0000 && missed < 0
    ensures log == [MissedPacket(-0x1_0000_0000), StateChanged(State(0, IdlePad))]
  {
    var c := NewController(State(0xFFFF_FFFF, IdlePad));
    UnchangedGamepadOnlyStateChanged(c.Settings(), State(0xFFFF_FFFF, IdlePad), State(0, IdlePad), c.axes, c.buttons);
    var r := c.Update(Some(State(0, IdlePad)));
    missed, log := c.missedPackets, c.events;
  }

  /**
   * A button held when the controller is built is never reported: `buttons`
   * starts all zero whatever the first snapshot holds, and later packets with
   * the same mask have no change to dispatch.
   */
  method HeldButtonAtStartExample() returns (reported: int, held: int)
    ensures held == 1 && reported == 0
  {
    var pad := Gamepad(ButtonMask(BUTTON_A), 0, 0, 0, 0, 0, 0);
    var c := new XboxController(0, DEADZONE, DAMPEN, 1, Some(State(1, pad)));
    UnchangedGamepadOnlyStateChanged(c.Settings(), State(1, pad), State(2, pad), c.axes, c.buttons);
    var r := c.Update(Some(State(2, pad)));
    reported := c.GetAButton();
    held := Bit(pad.buttons, 16 - BUTTON_A);
  }

  /** Pressing D-pad up and right on an idle controller reads as 45 degrees. */
  method DPadExample() returns (angle: int, log: seq<Event>)
    ensures angle == 45
    ensures log == [StateChanged(State(1, Gamepad(0x0009, 0, 0, 0, 0, 0, 0))),
                    ButtonChanged(DPAD_R, 1), ButtonChanged(DPAD_U, 1)]
  {
    var pad := Gamepad(0x0009, 0, 0, 0, 0, 0, 0);
    var c := new XboxController(0, DEADZONE, DAMPEN, 1, Some(State(0, IdlePad)));
    var cur := State(1, pad);
    DPadUpRightChange(c.Settings());
    DPadUpRightButtons();
    var r := c.Update(Some(cur));
    assert c.buttons == ButtonsAfter(seq(17, _ => 0), 0, 0x0009);
    angle, log := c.GetDPad(), c.events;
    assert DPadAngle(false, true, true, false) == 45;
  }

  lemma DPadUpRightChange(cfg: Config)
    ensures var cur := State(1, Gamepad(0x0009, 0, 0, 0, 0, 0, 0));
            ChangeEvents(cfg, State(0, IdlePad), cur) == [StateChanged(cur), ButtonChanged(DPAD_R, 1), ButtonChanged(DPAD_U, 1)]
  {
    var pad := Gamepad(0x0009, 0, 0, 0, 0, 0, 0);
    AxisEventsSameSamples(cfg, IdlePad, pad);
    DPadUpRightEvents();
    assert MissedEvents(State(0, IdlePad), State(1, pad)) == [];
  }

  lemma DPadUpRightButtons()
    ensures var b := ButtonsAfter(seq(17, _ => 0), 0, 0x0009);
            b[DPAD_L] == 0 && b[DPAD_R] == 1 && b[DPAD_U] == 1 && b[DPAD_D] == 0
  {
    BitOfZero(3);
    BitOfZero(2);
    BitOfZero(1);
    BitOfZero(0);
    assert Bit(0x0009, 3) == 1 && Bit(0x0009, 2) == 0 && Bit(0x0009, 1) == 0 && Bit(0x0009, 0) == 1;
  }

  lemma {:induction false} NoHighButtonsOfDPadUpRight(k: nat)
    requires k <= 12
    ensures ButtonEventsUpTo(0, 0x0009, k) == []
  {
    if k > 0 {
      NoHighButtonsOfDPadUpRight(k - 1);
      Pow2Table();
      BitBeyond(0x0009, 4, 16 - k);
      BitOfZero(16 - k);
    }
  }

  lemma DPadUpRightEvents()
    ensures ButtonEvents(0, 0x0009) == [ButtonChanged(DPAD_R, 1), ButtonChanged(DPAD_U, 1)]
  {
    NoHighButtonsOfDPadUpRight(12);
    BitOfZero(3);
    BitOfZero(2);
    BitOfZero(1);
    BitOfZero(0);
    assert Bit(0x0009, 3) == 1 && Bit(0x0009, 2) == 0 && Bit(0x0009, 1) == 0 && Bit(0x0009, 0) == 1;
    assert ButtonEventsUpTo(0, 0x0009, 13) == [ButtonChanged(DPAD_R, 1)];
    assert ButtonEventsUpTo(0, 0x0009, 15) == [ButtonChanged(DPAD_R, 1)];
  }
}
