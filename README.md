# xboxcontroller in Dafny

A verified model of `src/cc/xboxcontroller/xboxcontroller.py`. That module reads Xbox 360 controllers through XInput and turns successive driver snapshots into pyglet events. The model covers:

- the bit decoder `genBitValues` / `getBitValues`, written as loops, including the in-place list reversal (`bits.dfy`);
- the `XINPUT_GAMEPAD` / `XINPUT_STATE` records with their ctypes widths, and the `Hand` and `Button` constants (`xinput.dfy`);
- the two axis translators and the per-axis rule of `dispatchAxisEvents`: dampening, dead zone, stick doubling and clamping (`normalize.dfy`);
- everything one state change emits and stores, written as pure specification functions over the previous and the new snapshot (`differ.dfy`);
- the stateful `XboxController` class (`controller.dfy`). It has the fields `lastState`, `receivedPackets`, `missedPackets`, `axes`, `buttons` (17 entries) and `rumble` (2 entries), plus an `events` log. Its methods `Update`, `HandleNewPacket`, `UpdatePacketCount`, `HandleChangedState`, `DispatchAxisEvents` (one `ScanAxis` per field), `DispatchButtonEvents` (one `ScanButton` per ordinal), `DispatchButtonEvent` and `SetRumble` change those fields in place. Each method is proved against the specification functions of `differ.dfy`, and its getters are functions of the fields.

The model makes these substitutions:

- The driver read (`getState`) is a parameter: an `Option<State>`, where `None` means the device is not connected.
- Every `dispatch_event` appends an `Event` to the `events` log.
- Python floats are exact reals. Python's arbitrary-size ints are `int`/`nat`, and the ctypes field widths are subset types.

It follows the code where a reader might expect otherwise:

- **Axis scan order.** The axes are scanned in the declaration order of `XINPUT_GAMEPAD` without `buttons`: LTrigger, RTrigger, LX, LY, RX, RY. So trigger events come before stick events (`Differ.TriggersBeforeSticks`).
- **Missed packets.** The missed-packet gap is `new - old - 1` with no wrap-around handling. When the packet number wraps, `onMissedPacket` fires with a negative number and `missed_packets` decreases (`Controller.PacketWrapExample`).
- **Buttons at construction.** `buttons` starts as all zeros, whatever the first snapshot holds. Later snapshots are compared with that snapshot, not with `buttons`. So a button that is already held when the controller is built is never reported (`Controller.HeldButtonAtStartExample`).
- **No last state.** A controller built while disconnected has no last state. There `update` fails with an `AttributeError` when the device is connected, and with a `RuntimeError` when it is not. The model returns `Fail(NoLastState)` or `Fail(NotConnected(device))` and changes nothing.
- **No truncation in `getBitValues`.** It does not truncate: a number wider than `size` bits yields all of its bits (`Bits.BitValuesTooWide`). The length-and-entry property holds for `n < 2^size`. The 16-bit button masks always meet that bound.

## Model

| member | source | states |
|---|---|---|
| Bits.GenBitValues | src/cc/xboxcontroller/xboxcontroller.py:100-104 | the shifting loop yields the bits of `number` least significant first, up to its top 1 bit; entry k is bit k |
| Bits.ReverseInPlace | src/cc/xboxcontroller/xboxcontroller.py:90 | the array afterwards holds its old contents in reverse order |
| Bits.GetBitValues | src/cc/xboxcontroller/xboxcontroller.py:88-93 | the result is the reversed bit list padded on the left with `size - len` zeros (none if negative); for `number < 2^size` it has `size` entries and entry i is bit `size-1-i` |
| Bits.LsbBitsAt | src/cc/xboxcontroller/xboxcontroller.py:100-104 | entry k of the generated list is bit k of the number |
| Bits.LsbBitsLength | src/cc/xboxcontroller/xboxcontroller.py:102-104 | the loop stops at the bit length: `2^(len-1) <= n < 2^len` for n > 0, and the list is empty for 0 |
| Bits.LsbBitsFit | src/cc/xboxcontroller/xboxcontroller.py:92 | a number below `2^size` yields at most `size` bits, so the padding count is not negative |
| Bits.BitValuesAt | src/cc/xboxcontroller/xboxcontroller.py:88-93 | for `n < 2^size`, `getBitValues(n, size)` has length `size` and entry i is bit `size-1-i` of n |
| Bits.BitValuesOfZero | src/cc/xboxcontroller/xboxcontroller.py:88-93 | `getBitValues(0, size)` is `size` zeros |
| Bits.BitValuesTooWide | src/cc/xboxcontroller/xboxcontroller.py:92 | for `n >= 2^size` the result is longer than `size`: all bits of n, unpadded |
| Bits.BitValuesRoundTrip | src/cc/xboxcontroller/xboxcontroller.py:88-104 | reading the decoded list back, most significant first, gives n again |
| Bits.BitValuesDoctests | src/cc/xboxcontroller/xboxcontroller.py:74-86 | `getBitValues(1) == [0]*31 + [1]`, `getBitValues(3, 2) == [1, 1]`, `getBitValues(3, 4) == [0, 0, 1, 1]` |
| Bits.XorBit | src/cc/xboxcontroller/xboxcontroller.py:282 | bit k of `a ^ b` is 1 exactly when bits k of a and b differ |
| Bits.XorFits | src/cc/xboxcontroller/xboxcontroller.py:282 | the XOR of two 16-bit masks is a 16-bit mask |
| XInput.DataSize | src/cc/xboxcontroller/xboxcontroller.py:19-28 | `ctypes.sizeof` of an axis field: 1 byte for the two triggers, 2 for the four sticks |
| XInput.ButtonMask | src/cc/xboxcontroller/xboxcontroller.py:112-127 | button ordinal n reads exactly one mask bit, bit `16-n` |
| XInput.ButtonConstantsMatchXInputMasks | src/cc/xboxcontroller/xboxcontroller.py:112-127 | the ordinals Y..DPAD_U select the XInput masks 0x8000 (Y) down to 0x0001 (DPAD_U) |
| Normalize.ModeFor | src/cc/xboxcontroller/xboxcontroller.py:177-180 | `choices[normalize_axes]` picks the scaling translator exactly for the odd indices 1 and -1 |
| Normalize.Denominator | src/cc/xboxcontroller/xboxcontroller.py:185-186 | `2**(8*data_size) - 1` is at least 255 |
| Normalize.TranslateUsingDataSize | src/cc/xboxcontroller/xboxcontroller.py:182-186 | the result times `2^(8*data_size) - 1` is the raw value |
| Normalize.Translate | src/cc/xboxcontroller/xboxcontroller.py:179-189 | identity returns the value; scaling divides by the field's largest unsigned value; both keep the sign |
| Normalize.TranslateMonotone | src/cc/xboxcontroller/xboxcontroller.py:182-189 | translation never reverses the order of two samples of the same width |
| Normalize.ScaleUnsignedByte | src/cc/xboxcontroller/xboxcontroller.py:182-186 | a scaled trigger byte lies in [0, 1] |
| Normalize.ScaleSignedShort | src/cc/xboxcontroller/xboxcontroller.py:182-186 | a scaled stick short lies in [-0.5 - 1/131070, 0.5) |
| Normalize.Clamp | src/cc/xboxcontroller/xboxcontroller.py:277 | `max(-1.0, min(v, 1))` lies in [-1, 1], is v inside it and the nearer bound outside it |
| Normalize.AxisUpdate | src/cc/xboxcontroller/xboxcontroller.py:269-277 | an axis fires iff it moved by more than dampen and its dead-zoned endpoints differ; it then reports `clamp(gain * deadzoned(val))`, in [-1, 1], 0 inside the dead zone, with the sign of the sample, and `clamp(2*val)` for a stick outside the dead zone |
| Normalize.NextAxisValue | src/cc/xboxcontroller/xboxcontroller.py:269-277 | the loop body, reassigning `last_val` and `val` step by step, reaches exactly the `AxisUpdate` decision and value, so it inherits that range, dead-zone and sign guarantee |
| Differ.AxisChange | src/cc/xboxcontroller/xboxcontroller.py:264-277 | the value an axis reports lies in [-1, 1], is non-negative for a trigger, and no axis fires when its raw sample is unchanged |
| Differ.AxesAfter | src/cc/xboxcontroller/xboxcontroller.py:278 | storing the fired values keeps the set of axis keys |
| Differ.AxesScannedAt | src/cc/xboxcontroller/xboxcontroller.py:263-278 | after scanning an order of axes, each scanned axis holds its reported value (or its old one) and every other axis is untouched |
| Differ.AxesScannedAll | src/cc/xboxcontroller/xboxcontroller.py:261-278 | the scan over all six fields stores exactly `AxesAfter` |
| Differ.AxisEventsConcat | src/cc/xboxcontroller/xboxcontroller.py:263 | the events of a scan over `p + q` are those of `p` followed by those of `q` |
| Differ.AxisEventsMembership | src/cc/xboxcontroller/xboxcontroller.py:263-279 | `onAxis(a, v)` is in the log iff a was scanned and fired with value v |
| Differ.AxisEventsDistinct | src/cc/xboxcontroller/xboxcontroller.py:263-279 | every event of the scan is an `onAxis`, and no axis reports twice |
| Differ.TriggersBeforeSticks | src/cc/xboxcontroller/xboxcontroller.py:261-263 | in the field order every trigger event precedes every stick event |
| Differ.AxisEventsKinds | src/cc/xboxcontroller/xboxcontroller.py:263-279 | a scan over axes of one kind (all triggers or all sticks) reports only axes of that kind |
| Differ.AxisEventsAgreeWithAxes | src/cc/xboxcontroller/xboxcontroller.py:278-279 | each `onAxis(a, v)` leaves v stored in `axes[a]` |
| Differ.AxisEventsSameSamplesUpTo | src/cc/xboxcontroller/xboxcontroller.py:264-269 | two samples with equal axis fields emit no `onAxis` event |
| Differ.AxisEventsSameSamples | src/cc/xboxcontroller/xboxcontroller.py:260-279 | with equal axis fields the scan emits nothing and leaves `axes` as it was |
| Differ.ButtonsAfter | src/cc/xboxcontroller/xboxcontroller.py:290-291 | the new `buttons` list keeps its 17 entries |
| Differ.ButtonsScanned | src/cc/xboxcontroller/xboxcontroller.py:286-291 | dispatching ordinals 1..k in turn keeps 17 entries |
| Differ.ButtonsScannedAt | src/cc/xboxcontroller/xboxcontroller.py:286-291 | after ordinals 1..k, each changed ordinal holds its new bit and every other entry, index 0 included, is untouched |
| Differ.ButtonsScannedAll | src/cc/xboxcontroller/xboxcontroller.py:281-291 | dispatching all 16 ordinals stores exactly `ButtonsAfter` |
| Differ.DecodeMask | src/cc/xboxcontroller/xboxcontroller.py:283-284 | `getBitValues(mask, 16)` of a mask below 2^16 has exactly 16 entries and entry i is bit 15-i |
| Differ.DecodeButtonMasks | src/cc/xboxcontroller/xboxcontroller.py:282-284 | the changed list and the new-state list both have 16 entries; entry i is bit 15-i of `new ^ old` and of the new mask respectively |
| Differ.ButtonEventsMembership | src/cc/xboxcontroller/xboxcontroller.py:281-292 | `onButton(n, p)` is emitted iff 1 <= n <= 16, bit `16-n` differs between the masks (is set in `new ^ old`), and p is bit `16-n` of the new mask |
| Differ.ButtonEventsAscending | src/cc/xboxcontroller/xboxcontroller.py:285-288 | button events come in strictly ascending ordinal order |
| Differ.ButtonChangesSymmetric | src/cc/xboxcontroller/xboxcontroller.py:282 | the changed ordinals do not depend on which mask is old and which is new |
| Differ.ButtonEventsOfUnchangedMask | src/cc/xboxcontroller/xboxcontroller.py:282-288 | an unchanged mask emits no button events |
| Differ.PressOneButton | src/cc/xboxcontroller/xboxcontroller.py:281-292 | pressing one button on an idle pad emits exactly `onButton(n, 1)` for it |
| Differ.ButtonsTrackMask | src/cc/xboxcontroller/xboxcontroller.py:290-291 | if `buttons[1..16]` mirrored the old mask, it mirrors the new one afterwards; index 0 never changes |
| Differ.ChangeEventsOrder | src/cc/xboxcontroller/xboxcontroller.py:236-258 | one change dispatches missed packet, state changed, axes, buttons in that order; `onStateChanged(cur)` is present at index 1 after a non-zero gap and 0 otherwise, and nowhere else; `onMissedPacket` comes first iff the gap is non-zero and never elsewhere |
| Differ.UnchangedGamepadOnlyStateChanged | src/cc/xboxcontroller/xboxcontroller.py:236-258 | a new packet with the same sample emits only the packet events and leaves `axes` and `buttons` as they were |
| Controller.DPadAngle | src/cc/xboxcontroller/xboxcontroller.py:380-397 | the if-chain equals the compass bearing of the pressed direction; -1 iff two opposite directions or none are pressed; otherwise a multiple of 45 in 0..315 |
| Controller.Clamp01 | src/cc/xboxcontroller/xboxcontroller.py:306-308 | `max(0.0, min(1.0, value))` lies in [0, 1], is the value inside it and the nearer bound outside it |
| Controller.MotorWord | src/cc/xboxcontroller/xboxcontroller.py:313-314 | `int(r * 65535)` lies in 0..65535 and is the floor of `r * 65535` |
| Controller.XboxController.constructor | src/cc/xboxcontroller/xboxcontroller.py:158-180 | keeps the settings and the first snapshot, zero counters, all six axes 0, 17 buttons 0, two rumble slots 0, and the translator for `normalize_axes` |
| Controller.XboxController.IsConnected | src/cc/xboxcontroller/xboxcontroller.py:206-207 | connected iff a last state is present |
| Controller.XboxController.Update | src/cc/xboxcontroller/xboxcontroller.py:231-240 | fails and changes nothing without a snapshot or a last state; with the same packet number nothing but `lastState` changes; otherwise one more packet received, the gap added to missed, the change events appended, and `axes`/`buttons` updated as `AxesAfter`/`ButtonsAfter`; `lastState` becomes the snapshot |
| Controller.XboxController.HandleNewPacket | src/cc/xboxcontroller/xboxcontroller.py:236-239 | a new packet number counts one received packet and the gap, appends the missed-packet, state and change events in that order, and updates `axes`/`buttons` as `AxesAfter`/`ButtonsAfter` |
| Controller.XboxController.UpdatePacketCount | src/cc/xboxcontroller/xboxcontroller.py:245-250 | received grows by 1, missed by `new - old - 1`, and `onMissedPacket` is logged only for a non-zero gap |
| Controller.XboxController.HandleChangedState | src/cc/xboxcontroller/xboxcontroller.py:255-258 | logs `onStateChanged`, then the axis events, then the button events, and updates `axes` and `buttons` |
| Controller.XboxController.ScanAxis | src/cc/xboxcontroller/xboxcontroller.py:264-279 | one loop pass stores and logs the axis's value exactly when it fires, and leaves `axes` and the log alone otherwise |
| Controller.XboxController.DispatchAxisEvents | src/cc/xboxcontroller/xboxcontroller.py:260-279 | the loop over the six fields leaves `axes == AxesAfter(old axes)` and appends the scan's events in field order |
| Controller.XboxController.DispatchButtonEvents | src/cc/xboxcontroller/xboxcontroller.py:281-288 | the zip over the decoded XOR and new mask leaves `buttons == ButtonsAfter(old buttons)` and appends the button events in ordinal order |
| Controller.XboxController.ScanButton | src/cc/xboxcontroller/xboxcontroller.py:286-292 | one entry of the filtered zip stores and logs ordinal k with its new bit exactly when bit `16-k` differs between the masks, and changes nothing otherwise |
| Controller.XboxController.DispatchButtonEvent | src/cc/xboxcontroller/xboxcontroller.py:290-292 | stores the pressed value at the ordinal and logs `onButton` |
| Controller.XboxController.SetRumble | src/cc/xboxcontroller/xboxcontroller.py:303-315 | clamps the value into the slot of the given hand only (no slot for other hands) and returns both motor words, in 0..65535 |
| Controller.XboxController.GetX | src/cc/xboxcontroller/xboxcontroller.py:324-328 | LX or RX for the left or right hand, in [-1, 1]; `None` for any other hand |
| Controller.XboxController.GetY | src/cc/xboxcontroller/xboxcontroller.py:337-341 | LY or RY for the left or right hand, in [-1, 1]; `None` for any other hand |
| Controller.XboxController.GetTrigger | src/cc/xboxcontroller/xboxcontroller.py:350-354 | LTrigger or RTrigger for the left or right hand, in [0, 1]; `None` for any other hand |
| Controller.XboxController.GetYButton | src/cc/xboxcontroller/xboxcontroller.py:356-357 | the stored Y entry, 0 or 1 |
| Controller.XboxController.GetXButton | src/cc/xboxcontroller/xboxcontroller.py:359-360 | the stored X entry, 0 or 1 |
| Controller.XboxController.GetBButton | src/cc/xboxcontroller/xboxcontroller.py:362-363 | the stored B entry, 0 or 1 |
| Controller.XboxController.GetAButton | src/cc/xboxcontroller/xboxcontroller.py:365-366 | the stored A entry, 0 or 1 |
| Controller.XboxController.GetBumper | src/cc/xboxcontroller/xboxcontroller.py:368-372 | the left or right bumper entry, 0 or 1; `None` for any other hand |
| Controller.XboxController.GetStartButton | src/cc/xboxcontroller/xboxcontroller.py:374-375 | the stored START entry, 0 or 1 |
| Controller.XboxController.GetBackButton | src/cc/xboxcontroller/xboxcontroller.py:377-378 | the stored BACK entry, 0 or 1 |
| Controller.XboxController.GetDPad | src/cc/xboxcontroller/xboxcontroller.py:380-397 | the compass bearing of the stored D-pad buttons, a multiple of 45 in 0..315, or -1 |
| Controller.RepeatedPacketExample | src/cc/xboxcontroller/xboxcontroller.py:236 | re-reading the construction packet counts and logs nothing |
| Controller.PacketSequenceExample | src/cc/xboxcontroller/xboxcontroller.py:245-258 | packets 5 then 8 on an idle pad: 1 received, 2 missed, log `[onMissedPacket(2), onStateChanged]` |
| Controller.PacketGapOfIdlePad | src/cc/xboxcontroller/xboxcontroller.py:247-258 | an idle pad going from packet 5 to 8 has gap 2 and dispatches only the packet events |
| Controller.PacketWrapExample | src/cc/xboxcontroller/xboxcontroller.py:247-250 | packet number wrapping from 2^32-1 to 0 logs `onMissedPacket(-2^32)` and the missed counter goes negative |
| Controller.HeldButtonAtStartExample | src/cc/xboxcontroller/xboxcontroller.py:174 | a button held at construction reads 0 after later packets with the same mask |
| Controller.DPadExample | src/cc/xboxcontroller/xboxcontroller.py:380-397 | pressing D-pad up and right from idle logs `onButton(13, 1)`, `onButton(16, 1)` and `getDPad` returns 45 |
| Controller.DPadUpRightChange | src/cc/xboxcontroller/xboxcontroller.py:255-292 | the change from an idle pad to mask 0x0009 dispatches exactly state changed, DPAD_R pressed, DPAD_U pressed |
| Controller.DPadUpRightButtons | src/cc/xboxcontroller/xboxcontroller.py:290-291 | after that change the D-pad entries read L=0, R=1, U=1, D=0 |
| Controller.NoHighButtonsOfDPadUpRight | src/cc/xboxcontroller/xboxcontroller.py:281-288 | mask 0x0009 from 0 changes none of ordinals 1..12 |
| Controller.DPadUpRightEvents | src/cc/xboxcontroller/xboxcontroller.py:281-292 | mask 0x0009 from 0 emits `onButton(DPAD_R, 1)` then `onButton(DPAD_U, 1)` |

## Left out

- The ctypes memory layout and every `xinput` foreign call are not modelled: `XInputGetState`, `XInputGetBatteryInformation` and `XInputSetState`. The driver read is a snapshot parameter, and the rumble write returns the two motor words it would send.
- `getState`'s `RuntimeError` for an unknown driver error code is left out, because it depends on the foreign call's return code.
- `getBatteryInformation` is left out: its only input comes from a foreign call.
- `enumerateDevices` is left out: it probes hardware.
- `structDict` is left out: it is ctypes reflection.
- The pyglet `EventDispatcher` machinery and the listener stubs are left out. Listener registration and callbacks belong to a foreign library. Dispatched events are an append-only log.
- IEEE float rounding is left out; axis and rumble values are exact reals.
- Normalize.ModeFor: an index outside -2..1 raises `IndexError` in Python; here it is a precondition instead of an error path.
- Bits.GenBitValues: on a negative number Python's `while number:` loop never ends, because `-1 >> 1 == -1`, so `getBitValues` hangs too. The model takes `nat` here and in `Bits.GetBitValues`; every caller in the controller passes a 16-bit button mask or the XOR of two.
- Bits.BitValuesDoctests: the `0xDEADBEEF` doctest is not restated. The entry-by-entry property `Bits.BitValuesAt` covers it.
- The demo scripts and `setup.py` are not modelled: they are polling loops and packaging.
