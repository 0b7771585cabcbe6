/**
 * Axis normalisation (`translateUsingDataSize`, `translateIdentity`) and the
 * per-axis rule of `dispatchAxisEvents`: dampening, dead zone, stick doubling
 * and clamping. Python floats are modelled as exact reals.
 */
module Normalize {
  import opened Wrappers
  import opened Bits
  import opened XInput

  /** The two translators an `XboxController` can be built with. */
  datatype Mode = Identity | Scale

  /**
   * `[translateIdentity, translateUsingDataSize][normalize_axes]`: Python's
   * list indexing, negative indices included; any other index raises.
   */
  function ModeFor(normalizeAxes: int): (m: Mode)
    requires -2 <= normalizeAxes < 2
    ensures m == Scale <==> normalizeAxes % 2 == 1
  {
    if normalizeAxes == 0 || normalizeAxes == -2 then Identity else Scale
  }

  /** `2**(8 * data_size) - 1`: the largest unsigned value of that many bytes. */
  function Denominator(dataSize: nat): (d: nat)
    requires dataSize >= 1
    ensures d >= 255
  {
    Pow2Monotone(8, 8 * dataSize);
    Pow2Table();
    Pow2(8 * dataSize) - 1
  }

  /** `translateUsingDataSize`: divides by the largest unsigned value of the field's width. */
  function TranslateUsingDataSize(value: int, dataSize: nat): (r: real)
    requires dataSize >= 1
    ensures r * (Denominator(dataSize) as real) == value as real
  {
    value as real / Denominator(dataSize) as real
  }

  /** `translateIdentity`: the raw sample itself. */
  function TranslateIdentity(value: int): real
  {
    value as real
  }

  /** `self.translate(value, data_size)` for the translator chosen at construction. */
  function Translate(mode: Mode, value: int, dataSize: nat): (r: real)
    requires dataSize >= 1
    ensures mode == Identity ==> r == value as real
    ensures mode == Scale ==> r * (Denominator(dataSize) as real) == value as real
    ensures value >= 0 ==> r >= 0.0
    ensures value <= 0 ==> r <= 0.0
  {
    match mode
    case Identity => TranslateIdentity(value)
    case Scale => TranslateUsingDataSize(value, dataSize)
  }

  /** Translation never reverses the order of two samples of the same width. */
  lemma TranslateMonotone(mode: Mode, a: int, b: int, dataSize: nat)
    requires dataSize >= 1 && a <= b
    ensures Translate(mode, a, dataSize) <= Translate(mode, b, dataSize)
  {
    if mode == Scale {
      var d := Denominator(dataSize) as real;
      var ra, rb := Translate(mode, a, dataSize), Translate(mode, b, dataSize);
      assert ra * d == a as real && rb * d == b as real;
      SubTimes(rb, ra, d);
      NonNegativeFactor(rb - ra, d);
    }
  }

  lemma SubTimes(x: real, y: real, d: real)
    ensures (x - y) * d == x * d - y * d
  {
  }

  lemma NonNegativeFactor(x: real, d: real)
    requires d > 0.0 && x * d >= 0.0
    ensures x >= 0.0
  {
  }

  /** Scaled trigger bytes lie in [0, 1]. */
  lemma ScaleUnsignedByte(v: U8)
    ensures 0.0 <= Translate(Scale, v, 1) <= 1.0
  {
    Pow2Table();
  }

  /** Scaled stick shorts lie in [-32768/65535, 32767/65535], just inside [-0.5 - 1/131070, 0.5). */
  lemma ScaleSignedShort(v: I16)
    ensures -1.0 / 2.0 - 1.0 / 131070.0 <= Translate(Scale, v, 2) < 1.0 / 2.0
  {
    Pow2Table();
    assert Denominator(2) == 65535;
  }

  function Abs(x: real): real
  {
    if x < 0.0 then -x else x
  }

  /** `if abs(v) < deadzone: v = 0` */
  function Deadzoned(v: real, deadzone: real): real
  {
    if Abs(v) < deadzone then 0.0 else v
  }

  /** `max(-1.0, min(v, 1))` */
  function Clamp(v: real): (r: real)
    ensures -1.0 <= r <= 1.0
    ensures -1.0 <= v <= 1.0 ==> r == v
    ensures v > 1.0 ==> r == 1.0
    ensures v < -1.0 ==> r == -1.0
  {
    var m := if v < 1.0 then v else 1.0;
    if -1.0 > m then -1.0 else m
  }

  /** Sticks are doubled to reach [-1, 1] from their [-0.5, 0.5] scale; triggers are not. */
  function Gain(trigger: bool): real
  {
    if trigger then 1.0 else 2.0
  }

  /**
   * One iteration of the loop in `dispatchAxisEvents` on translated samples:
   * `None` when the axis is skipped, `Some(v)` when `onAxis` fires with v
   * (which is also the value stored in `axes`).
   */
  function AxisUpdate(trigger: bool, last: real, val: real, deadzone: real, dampen: real): (r: Option<real>)
    // skipped exactly when it moved by no more than dampen, or when the
    // dead-zoned endpoints are equal
    ensures r.Some? <==> Abs(last - val) > dampen && Deadzoned(last, deadzone) != Deadzoned(val, deadzone)
    ensures r.Some? ==> r.value == Clamp(Gain(trigger) * Deadzoned(val, deadzone))
    ensures r.Some? ==> -1.0 <= r.value <= 1.0
    // a sample inside the dead zone is reported as exactly 0
    ensures r.Some? && Abs(val) < deadzone ==> r.value == 0.0
    // the sign of the sample is kept
    ensures r.Some? && val >= 0.0 ==> r.value >= 0.0
    ensures r.Some? && val <= 0.0 ==> r.value <= 0.0
    // a stick outside the dead zone reports the doubled sample, clamped
    ensures r.Some? && !trigger && Abs(val) >= deadzone ==> r.value == Clamp(2.0 * val)
  {
    if Abs(last - val) > dampen then
      var l := Deadzoned(last, deadzone);
      var v := Deadzoned(val, deadzone);
      if l != v then Some(Clamp(Gain(trigger) * v)) else None
    else
      None
  }

  /**
   * The body of the loop in `dispatchAxisEvents` on translated samples:
   * skip small moves, zero both endpoints inside the dead zone, skip when
   * they are then equal, double a stick, clamp.
   */
  method NextAxisValue(trigger: bool, lastVal: real, val: real, deadzone: real, dampen: real)
    returns (r: Option<real>)
    ensures r == AxisUpdate(trigger, lastVal, val, deadzone, dampen)
  {
    r := None;
    if Abs(lastVal - val) > dampen {
      var l, v := lastVal, val;
      if Abs(l) < deadzone {
        l := 0.0;
      }
      if Abs(v) < deadzone {
        v := 0.0;
      }
      if l != v {
        if !trigger {
          v := v * 2.0;
        }
        r := Some(Clamp(v));
      }
    }
  }
}
