/**
 * What one state change of an `XboxController` emits and stores, as pure
 * functions of the previous and the new `XINPUT_STATE`: the events of
 * `updatePacketCount`, `handleChangedState`, `dispatchAxisEvents` and
 * `dispatchButtonEvents`, in the order in which they are dispatched, and the
 * new contents of the `axes` dictionary and the `buttons` list.
 */
module Differ {
  import opened Wrappers
  import opened Bits
  import opened XInput
  import opened Normalize

  /** The four pyglet event types the controller dispatches, with their arguments. */
  datatype Event =
    | MissedPacket(count: int)              // onMissedPacket(number)
    | StateChanged(state: State)            // onStateChanged(state)
    | AxisMoved(axis: Axis, value: real)    // onAxis(axis, value)
    | ButtonChanged(number: int, pressed: int)  // onButton(button, state)

  /** The settings fixed at construction that the differ reads. */
  datatype Config = Config(mode: Mode, deadzone: real, dampen: real)

  // ---------------------------------------------------------------------
  // Axes
  // ---------------------------------------------------------------------

  /** The value `onAxis` reports for axis a, if it fires. */
  function AxisChange(cfg: Config, last: Gamepad, cur: Gamepad, a: Axis): (r: Option<real>)
    ensures r.Some? ==> -1.0 <= r.value <= 1.0
    ensures r.Some? && IsTrigger(a) ==> 0.0 <= r.value
    ensures Sample(last, a) == Sample(cur, a) ==> r.None?
  {
    AxisUpdate(IsTrigger(a),
               Translate(cfg.mode, Sample(last, a), DataSize(a)),
               Translate(cfg.mode, Sample(cur, a), DataSize(a)),
               cfg.deadzone, cfg.dampen)
  }

  function AxisEventFor(cfg: Config, last: Gamepad, cur: Gamepad, a: Axis): seq<Event>
  {
    match AxisChange(cfg, last, cur, a)
    case Some(v) => [AxisMoved(a, v)]
    case None => []
  }

  /** The `onAxis` events of a scan over `order`, in scan order. */
  function AxisEvents(cfg: Config, last: Gamepad, cur: Gamepad, order: seq<Axis>): seq<Event>
    decreases |order|
  {
    if order == [] then []
    else AxisEvents(cfg, last, cur, order[..|order| - 1]) + AxisEventFor(cfg, last, cur, order[|order| - 1])
  }

  /** The `axes` dictionary after a scan: each axis that fired holds its reported value. */
  function AxesAfter(axes: map<Axis, real>, cfg: Config, last: Gamepad, cur: Gamepad): (m: map<Axis, real>)
    ensures m.Keys == axes.Keys
  {
    map a | a in axes :: AxisChange(cfg, last, cur, a).GetOr(axes[a])
  }

  /** The `axes` dictionary after scanning the axes of `order` in turn, one store per fired axis. */
  function AxesScanned(axes: map<Axis, real>, cfg: Config, last: Gamepad, cur: Gamepad, order: seq<Axis>): map<Axis, real>
    decreases |order|
  {
    if order == [] then axes
    else
      var before := AxesScanned(axes, cfg, last, cur, order[..|order| - 1]);
      match AxisChange(cfg, last, cur, order[|order| - 1])
      case Some(v) => before[order[|order| - 1] := v]
      case None => before
  }

  /** Scanning stores, for each scanned axis, the value it reported, if any. */
  lemma {:induction false} AxesScannedAt(axes: map<Axis, real>, cfg: Config, last: Gamepad, cur: Gamepad, order: seq<Axis>)
    requires forall a :: a in order ==> a in axes
    ensures AxesScanned(axes, cfg, last, cur, order).Keys == axes.Keys
    ensures forall a :: a in axes ==>
              AxesScanned(axes, cfg, last, cur, order)[a]
                == if a in order then AxisChange(cfg, last, cur, a).GetOr(axes[a]) else axes[a]
    decreases |order|
  {
    if order != [] {
      var prefix := order[..|order| - 1];
      assert forall a :: a in order ==> a in prefix || a == order[|order| - 1];
      AxesScannedAt(axes, cfg, last, cur, prefix);
    }
  }

  /** A scan over every axis field stores exactly `AxesAfter`. */
  lemma AxesScannedAll(axes: map<Axis, real>, cfg: Config, last: Gamepad, cur: Gamepad)
    requires LTrigger in axes && RTrigger in axes && LX in axes && LY in axes && RX in axes && RY in axes
    ensures AxesScanned(axes, cfg, last, cur, AxisOrder) == AxesAfter(axes, cfg, last, cur)
  {
    forall a: Axis
      ensures a in axes && a in AxisOrder
    {
      match a
      case LTrigger => assert AxisOrder[0] == a;
      case RTrigger => assert AxisOrder[1] == a;
      case LX => assert AxisOrder[2] == a;
      case LY => assert AxisOrder[3] == a;
      case RX => assert AxisOrder[4] == a;
      case RY => assert AxisOrder[5] == a;
    }
    AxesScannedAt(axes, cfg, last, cur, AxisOrder);
  }

  /** Scanning one more axis of `order`: one more store and one more event, if it fires. */
  lemma AxisScanStep(axes: map<Axis, real>, cfg: Config, last: Gamepad, cur: Gamepad, order: seq<Axis>, i: nat)
    requires i < |order|
    ensures AxesScanned(axes, cfg, last, cur, order[..i + 1]) ==
              match AxisChange(cfg, last, cur, order[i])
              case Some(v) => AxesScanned(axes, cfg, last, cur, order[..i])[order[i] := v]
              case None => AxesScanned(axes, cfg, last, cur, order[..i])
    ensures AxisEvents(cfg, last, cur, order[..i + 1]) ==
              AxisEvents(cfg, last, cur, order[..i]) + AxisEventFor(cfg, last, cur, order[i])
  {
    assert order[..i + 1][..i] == order[..i];
  }

  lemma {:induction false} AxisEventsConcat(cfg: Config, last: Gamepad, cur: Gamepad, p: seq<Axis>, q: seq<Axis>)
    ensures AxisEvents(cfg, last, cur, p + q) == AxisEvents(cfg, last, cur, p) + AxisEvents(cfg, last, cur, q)
    decreases |q|
  {
    if q != [] {
      assert (p + q)[..|p + q| - 1] == p + q[..|q| - 1];
      AxisEventsConcat(cfg, last, cur, p, q[..|q| - 1]);
    } else {
      assert p + q == p;
    }
  }

  /** An `onAxis(a, v)` event is emitted exactly for the scanned axes that fire, with their value. */
  lemma {:induction false} AxisEventsMembership(cfg: Config, last: Gamepad, cur: Gamepad, order: seq<Axis>, e: Event)
    ensures e in AxisEvents(cfg, last, cur, order) <==>
              e.AxisMoved? && e.axis in order && AxisChange(cfg, last, cur, e.axis) == Some(e.value)
    decreases |order|
  {
    if order != [] {
      var init := order[..|order| - 1];
      AxisEventsMembership(cfg, last, cur, init, e);
      assert order == init + [order[|order| - 1]];
    }
  }

  /** Every event of the axis scan reports an axis; no axis fires twice when the order has no repeats. */
  lemma {:induction false} AxisEventsDistinct(cfg: Config, last: Gamepad, cur: Gamepad, order: seq<Axis>)
    requires forall i, j :: 0 <= i < j < |order| ==> order[i] != order[j]
    ensures forall e :: e in AxisEvents(cfg, last, cur, order) ==> e.AxisMoved?
    ensures forall i, j :: 0 <= i < j < |AxisEvents(cfg, last, cur, order)| ==>
              AxisEvents(cfg, last, cur, order)[i].axis != AxisEvents(cfg, last, cur, order)[j].axis
    decreases |order|
  {
    forall e | e in AxisEvents(cfg, last, cur, order) ensures e.AxisMoved? {
      AxisEventsMembership(cfg, last, cur, order, e);
    }
    if order != [] {
      var init := order[..|order| - 1];
      var a := order[|order| - 1];
      AxisEventsDistinct(cfg, last, cur, init);
      var r := AxisEvents(cfg, last, cur, order);
      var front := AxisEvents(cfg, last, cur, init);
      forall i | 0 <= i < |front| ensures front[i].axis != a {
        AxisEventsMembership(cfg, last, cur, init, front[i]);
      }
    }
  }

  predicate IsTriggerEvent(e: Event)
  {
    e.AxisMoved? && IsTrigger(e.axis)
  }

  /** In the declared field order the trigger events all come before the stick events. */
  lemma TriggersBeforeSticks(cfg: Config, last: Gamepad, cur: Gamepad)
    ensures forall i, j :: 0 <= i < j < |AxisEvents(cfg, last, cur, AxisOrder)| &&
                           IsTriggerEvent(AxisEvents(cfg, last, cur, AxisOrder)[j]) ==>
                           IsTriggerEvent(AxisEvents(cfg, last, cur, AxisOrder)[i])
  {
    var triggers, sticks := [LTrigger, RTrigger], [LX, LY, RX, RY];
    assert AxisOrder == triggers + sticks;
    AxisEventsConcat(cfg, last, cur, triggers, sticks);
    var t, s := AxisEvents(cfg, last, cur, triggers), AxisEvents(cfg, last, cur, sticks);
    var r := AxisEvents(cfg, last, cur, AxisOrder);
    assert r == t + s;
    AxisEventsKinds(cfg, last, cur, triggers, true);
    AxisEventsKinds(cfg, last, cur, sticks, false);
    TriggersThenSticks(t, s);
  }

  /** A scan over axes of one kind reports only axes of that kind. */
  lemma AxisEventsKinds(cfg: Config, last: Gamepad, cur: Gamepad, order: seq<Axis>, trigger: bool)
    requires forall a :: a in order ==> IsTrigger(a) == trigger
    ensures forall i :: 0 <= i < |AxisEvents(cfg, last, cur, order)| ==>
              IsTriggerEvent(AxisEvents(cfg, last, cur, order)[i]) == trigger
  {
    var r := AxisEvents(cfg, last, cur, order);
    forall i | 0 <= i < |r| ensures IsTriggerEvent(r[i]) == trigger {
      AxisEventsMembership(cfg, last, cur, order, r[i]);
    }
  }

  /** Trigger events followed by non-trigger events: no trigger event comes after another kind. */
  lemma TriggersThenSticks(t: seq<Event>, s: seq<Event>)
    requires forall i :: 0 <= i < |t| ==> IsTriggerEvent(t[i])
    requires forall i :: 0 <= i < |s| ==> !IsTriggerEvent(s[i])
    ensures forall i, j :: 0 <= i < j < |t + s| && IsTriggerEvent((t + s)[j]) ==> IsTriggerEvent((t + s)[i])
  {
  }

  /** Each `onAxis(a, v)` of the scan leaves v stored in `axes[a]`. */
  lemma AxisEventsAgreeWithAxes(axes: map<Axis, real>, cfg: Config, last: Gamepad, cur: Gamepad, e: Event)
    requires e in AxisEvents(cfg, last, cur, AxisOrder) && e.AxisMoved? && e.axis in axes
    ensures AxesAfter(axes, cfg, last, cur)[e.axis] == e.value
  {
    AxisEventsMembership(cfg, last, cur, AxisOrder, e);
  }

  /** Two samples that agree on every axis field emit no `onAxis` event. */
  lemma {:induction false} AxisEventsSameSamplesUpTo(cfg: Config, last: Gamepad, cur: Gamepad, order: seq<Axis>)
    requires forall a :: Sample(last, a) == Sample(cur, a)
    ensures AxisEvents(cfg, last, cur, order) == []
    decreases |order|
  {
    if order != [] {
      AxisEventsSameSamplesUpTo(cfg, last, cur, order[..|order| - 1]);
    }
  }

  lemma AxisEventsSameSamples(cfg: Config, last: Gamepad, cur: Gamepad)
    requires forall a :: Sample(last, a) == Sample(cur, a)
    ensures AxisEvents(cfg, last, cur, AxisOrder) == []
    ensures forall m: map<Axis, real> :: AxesAfter(m, cfg, last, cur) == m
  {
    AxisEventsSameSamplesUpTo(cfg, last, cur, AxisOrder);
  }

  // ---------------------------------------------------------------------
  // Buttons
  // ---------------------------------------------------------------------

  /** Button ordinal n is bit 16 - n of the mask, so it differs when that bit does. */
  predicate Differs(o: U16, n: U16, k: int)
    requires 1 <= k <= 16
  {
    Bit(o, 16 - k) != Bit(n, 16 - k)
  }

  /** The `onButton` events for ordinals 1..k, ascending. */
  function ButtonEventsUpTo(o: U16, n: U16, k: nat): seq<Event>
    requires k <= 16
  {
    if k == 0 then []
    else ButtonEventsUpTo(o, n, k - 1) +
         (if Differs(o, n, k) then [ButtonChanged(k, Bit(n, 16 - k))] else [])
  }

  /** The number of button ordinals, 1..16. */
  const ButtonCount: nat := 16

  /** The `onButton` events of a change of the button mask from o to n. */
  function ButtonEvents(o: U16, n: U16): seq<Event>
  {
    ButtonEventsUpTo(o, n, ButtonCount)
  }

  /** The `buttons` list after the change: changed ordinals take their new bit, the rest (and index 0) stay. */
  function ButtonsAfter(buttons: seq<int>, o: U16, n: U16): (r: seq<int>)
    requires |buttons| == 17
    ensures |r| == 17
  {
    seq(17, i requires 0 <= i < 17 => if 1 <= i && Differs(o, n, i) then Bit(n, 16 - i) else buttons[i])
  }

  /** The `buttons` list after dispatching ordinals 1..k in turn, one store per changed ordinal. */
  function ButtonsScanned(buttons: seq<int>, o: U16, n: U16, k: nat): (r: seq<int>)
    requires |buttons| == 17 && k <= 16
    ensures |r| == 17
  {
    if k == 0 then buttons
    else
      var before := ButtonsScanned(buttons, o, n, k - 1);
      if Differs(o, n, k) then before[k := Bit(n, 16 - k)] else before
  }

  /** Dispatching every ordinal in turn stores exactly `ButtonsAfter`. */
  lemma {:induction false} ButtonsScannedAt(buttons: seq<int>, o: U16, n: U16, k: nat)
    requires |buttons| == 17 && k <= 16
    ensures forall i :: 0 <= i < 17 ==>
              ButtonsScanned(buttons, o, n, k)[i]
                == if 1 <= i <= k && Differs(o, n, i) then Bit(n, 16 - i) else buttons[i]
  {
    if k > 0 {
      ButtonsScannedAt(buttons, o, n, k - 1);
    }
  }

  /**
   * The two `getBitValues(_, 16)` calls of `dispatchButtonEvents`: the
   * changed list and the new-state list, entry i for bit 15 - i.
   */
  method DecodeButtonMasks(o: U16, n: U16) returns (changed: seq<int>, buttonsState: seq<int>)
    ensures |changed| == 16 && forall i :: 0 <= i < 16 ==> changed[i] == Bit(Xor(n, o), 15 - i)
    ensures |buttonsState| == 16 && forall i :: 0 <= i < 16 ==> buttonsState[i] == Bit(n, 15 - i)
  {
    MasksFit(o, n);
    changed := DecodeMask(Xor(n, o));
    buttonsState := DecodeMask(n);
  }

  /** `getBitValues(mask, 16)` of a 16-bit mask: entry i is bit 15 - i. */
  method DecodeMask(m: nat) returns (bits: seq<int>)
    requires m < Pow2(16)
    ensures |bits| == 16 && forall i :: 0 <= i < 16 ==> bits[i] == Bit(m, 15 - i)
  {
    bits := GetBitValues(m, 16);
  }

  /** Both masks and their xor fit the 16 bits that `getBitValues(_, 16)` decodes. */
  lemma MasksFit(o: U16, n: U16)
    ensures o < Pow2(16) && n < Pow2(16) && Xor(n, o) < Pow2(16)
  {
    Pow2Table();
    XorFits(n, o, 16);
  }

  /** Entry i of the decoded `new ^ old` is set exactly when ordinal i + 1 changed. */
  lemma ButtonDecodeStep(o: U16, n: U16, changed: int, i: nat)
    requires i < 16 && changed == Bit(Xor(n, o), 15 - i)
    ensures changed != 0 <==> Differs(o, n, i + 1)
  {
    XorBit(n, o, 15 - i);
  }

  /** The new `buttons` list holds only 0 and 1 when the old one did. */
  lemma ButtonsAfterBits(buttons: seq<int>, o: U16, n: U16)
    requires |buttons| == 17 && forall i :: 0 <= i < 17 ==> buttons[i] == 0 || buttons[i] == 1
    ensures forall i :: 0 <= i < 17 ==> ButtonsAfter(buttons, o, n)[i] == 0 || ButtonsAfter(buttons, o, n)[i] == 1
  {
  }

  lemma ButtonsScannedAll(buttons: seq<int>, o: U16, n: U16)
    requires |buttons| == 17
    ensures ButtonsScanned(buttons, o, n, ButtonCount) == ButtonsAfter(buttons, o, n)
  {
    ButtonsScannedAt(buttons, o, n, ButtonCount);
  }

  /**
   * `onButton(k, p)` is emitted exactly for the ordinals whose bit differs
   * between the masks (the set bits of `n ^ o`), with p the new bit.
   */
  lemma {:induction false} ButtonEventsMembership(o: U16, n: U16, k: nat, e: Event)
    requires k <= 16
    ensures e in ButtonEventsUpTo(o, n, k) <==>
              e.ButtonChanged? && 1 <= e.number <= k && Differs(o, n, e.number) && e.pressed == Bit(n, 16 - e.number)
    ensures e in ButtonEventsUpTo(o, n, k) ==> Bit(Xor(n, o), 16 - e.number) == 1
  {
    if k > 0 {
      ButtonEventsMembership(o, n, k - 1, e);
    }
    if e in ButtonEventsUpTo(o, n, k) {
      XorBit(n, o, 16 - e.number);
    }
  }

  /** The button events come in strictly ascending ordinal order. */
  lemma {:induction false} ButtonEventsAscending(o: U16, n: U16, k: nat)
    requires k <= 16
    ensures forall i :: 0 <= i < |ButtonEventsUpTo(o, n, k)| ==>
              ButtonEventsUpTo(o, n, k)[i].ButtonChanged? && 1 <= ButtonEventsUpTo(o, n, k)[i].number <= k
    ensures forall i, j :: 0 <= i < j < |ButtonEventsUpTo(o, n, k)| ==>
              ButtonEventsUpTo(o, n, k)[i].number < ButtonEventsUpTo(o, n, k)[j].number
  {
    if k > 0 {
      ButtonEventsAscending(o, n, k - 1);
    }
  }

  /** The ordinals reported by a list of button events. */
  function Ordinals(es: seq<Event>): seq<int>
  {
    seq(|es|, i requires 0 <= i < |es| => if es[i].ButtonChanged? then es[i].number else 0)
  }

  /** Changed ordinals do not depend on which mask is old and which is new. */
  lemma {:induction false} ButtonChangesSymmetric(a: U16, b: U16, k: nat)
    requires k <= 16
    ensures Ordinals(ButtonEventsUpTo(a, b, k)) == Ordinals(ButtonEventsUpTo(b, a, k))
  {
    if k > 0 {
      ButtonChangesSymmetric(a, b, k - 1);
      var ra, rb := ButtonEventsUpTo(a, b, k - 1), ButtonEventsUpTo(b, a, k - 1);
      var ta := if Differs(a, b, k) then [ButtonChanged(k, Bit(b, 16 - k))] else [];
      var tb := if Differs(b, a, k) then [ButtonChanged(k, Bit(a, 16 - k))] else [];
      assert Ordinals(ra + ta) == Ordinals(ra) + Ordinals(ta);
      assert Ordinals(rb + tb) == Ordinals(rb) + Ordinals(tb);
    }
  }

  /** No change of mask, no button events. */
  lemma {:induction false} ButtonEventsOfUnchangedMask(m: U16, k: nat)
    requires k <= 16
    ensures ButtonEventsUpTo(m, m, k) == []
  {
    if k > 0 { ButtonEventsOfUnchangedMask(m, k - 1); }
  }

  /** Pressing one button from an idle pad reports exactly that button, pressed. */
  lemma PressOneButton(b: int)
    requires 1 <= b <= 16
    ensures ButtonEvents(0, ButtonMask(b)) == [ButtonChanged(b, 1)]
  {
    PressOneButtonUpTo(b, 16);
  }

  lemma {:induction false} PressOneButtonUpTo(b: int, k: nat)
    requires 1 <= b <= 16 && k <= 16
    ensures ButtonEventsUpTo(0, ButtonMask(b), k) == if b <= k then [ButtonChanged(b, 1)] else []
  {
    if k > 0 {
      PressOneButtonUpTo(b, k - 1);
      BitOfZero(16 - k);
    }
  }

  /** If `buttons` mirrored the old mask, it mirrors the new one afterwards; index 0 is never touched. */
  lemma ButtonsTrackMask(buttons: seq<int>, o: U16, n: U16)
    requires |buttons| == 17
    requires forall k :: 1 <= k <= 16 ==> buttons[k] == Bit(o, 16 - k)
    ensures forall k :: 1 <= k <= 16 ==> ButtonsAfter(buttons, o, n)[k] == Bit(n, 16 - k)
    ensures ButtonsAfter(buttons, o, n)[0] == buttons[0]
  {
  }

  // ---------------------------------------------------------------------
  // A whole state change
  // ---------------------------------------------------------------------

  /** `state.packet_number - self._last_state.packet_number - 1`, with no wrap-around handling. */
  function PacketGap(last: State, cur: State): int
  {
    cur.packetNumber - last.packetNumber - 1
  }

  /** What `updatePacketCount` dispatches: `onMissedPacket` only for a non-zero gap. */
  function MissedEvents(last: State, cur: State): seq<Event>
  {
    if PacketGap(last, cur) != 0 then [MissedPacket(PacketGap(last, cur))] else []
  }

  /** What `handleChangedState` dispatches: `onStateChanged`, the axis events, the button events. */
  function StateEvents(cfg: Config, last: State, cur: State): seq<Event>
  {
    [StateChanged(cur)]
    + AxisEvents(cfg, last.gamepad, cur.gamepad, AxisOrder)
    + ButtonEvents(last.gamepad.buttons, cur.gamepad.buttons)
  }

  /**
   * Everything one `update` dispatches when the packet number changed:
   * `onMissedPacket` (if the gap is non-zero), `onStateChanged`, the axis
   * events in field order, the button events in ordinal order.
   */
  function ChangeEvents(cfg: Config, last: State, cur: State): seq<Event>
  {
    MissedEvents(last, cur) + StateEvents(cfg, last, cur)
  }

  /** The position of an event kind in the dispatch order. */
  function Rank(e: Event): nat
  {
    match e
    case MissedPacket(_) => 0
    case StateChanged(_) => 1
    case AxisMoved(_, _) => 2
    case ButtonChanged(_, _) => 3
  }

  /**
   * The dispatch order: missed packet, state changed, axes, buttons; exactly
   * one `onStateChanged`, and `onMissedPacket` first exactly when the gap is non-zero.
   */
  lemma ChangeEventsOrder(cfg: Config, last: State, cur: State)
    ensures forall i, j :: 0 <= i < j < |ChangeEvents(cfg, last, cur)| ==>
              Rank(ChangeEvents(cfg, last, cur)[i]) <= Rank(ChangeEvents(cfg, last, cur)[j])
    ensures forall i :: 0 <= i < |ChangeEvents(cfg, last, cur)| && ChangeEvents(cfg, last, cur)[i].StateChanged? ==>
              ChangeEvents(cfg, last, cur)[i] == StateChanged(cur) && i == (if PacketGap(last, cur) != 0 then 1 else 0)
    ensures (ChangeEvents(cfg, last, cur)[0] == MissedPacket(PacketGap(last, cur))) <==> PacketGap(last, cur) != 0
    ensures |ChangeEvents(cfg, last, cur)| > (if PacketGap(last, cur) != 0 then 1 else 0) &&
            ChangeEvents(cfg, last, cur)[if PacketGap(last, cur) != 0 then 1 else 0] == StateChanged(cur)
    ensures forall i :: 0 <= i < |ChangeEvents(cfg, last, cur)| && ChangeEvents(cfg, last, cur)[i].MissedPacket? ==> i == 0
  {
    var r := ChangeEvents(cfg, last, cur);
    var m := MissedEvents(last, cur);
    var ax := AxisEvents(cfg, last.gamepad, cur.gamepad, AxisOrder);
    var bt := ButtonEvents(last.gamepad.buttons, cur.gamepad.buttons);
    assert r == m + [StateChanged(cur)] + ax + bt;
    forall i | 0 <= i < |ax| ensures Rank(ax[i]) == 2 {
      AxisEventsMembership(cfg, last.gamepad, cur.gamepad, AxisOrder, ax[i]);
    }
    ButtonEventsAscending(last.gamepad.buttons, cur.gamepad.buttons, 16);
    forall i | 0 <= i < |r| ensures Rank(r[i]) == if i < |m| then 0 else if i == |m| then 1
                                                   else if i < |m| + 1 + |ax| then 2 else 3 {
      if i > |m| && i < |m| + 1 + |ax| {
        assert r[i] == ax[i - |m| - 1];
      } else if i >= |m| + 1 + |ax| {
        assert r[i] == bt[i - |m| - 1 - |ax|];
      }
    }
  }

  /**
   * A new packet carrying the same gamepad sample emits only the packet
   * events, and leaves `axes` and `buttons` as they were.
   */
  lemma UnchangedGamepadOnlyStateChanged(cfg: Config, last: State, cur: State, axes: map<Axis, real>, buttons: seq<int>)
    requires cur.gamepad == last.gamepad && |buttons| == 17
    ensures ChangeEvents(cfg, last, cur) ==
              (if PacketGap(last, cur) != 0 then [MissedPacket(PacketGap(last, cur))] else []) + [StateChanged(cur)]
    ensures AxesAfter(axes, cfg, last.gamepad, cur.gamepad) == axes
    ensures ButtonsAfter(buttons, last.gamepad.buttons, cur.gamepad.buttons) == buttons
  {
    AxisEventsSameSamplesUpTo(cfg, last.gamepad, cur.gamepad, AxisOrder);
    ButtonEventsOfUnchangedMask(cur.gamepad.buttons, 16);
  }
}
