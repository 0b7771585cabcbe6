/**
 * The XInput records read from the driver (`XINPUT_GAMEPAD`, `XINPUT_STATE`)
 * with their ctypes field widths, and the `Hand` and `Button` constants of
 * xboxcontroller.py.
 */
module XInput {
  import opened Bits

  /** ctypes.c_ubyte */
  type U8 = x: int | 0 <= x < 0x100
  /** ctypes.c_ushort */
  type U16 = x: int | 0 <= x < 0x1_0000
  /** ctypes.c_short */
  type I16 = x: int | -0x8000 <= x < 0x8000
  /** ctypes.c_ulong on Windows (32 bits) */
  type U32 = x: int | 0 <= x < 0x1_0000_0000

  /** `XINPUT_GAMEPAD`: the button bitmask, two trigger bytes and four stick shorts. */
  datatype Gamepad = Gamepad(buttons: U16, lTrigger: U8, rTrigger: U8, lx: I16, ly: I16, rx: I16, ry: I16)

  /** `XINPUT_STATE`: a driver packet number and the gamepad sample. */
  datatype State = State(packetNumber: U32, gamepad: Gamepad)

  /** The analog fields of `XINPUT_GAMEPAD`, i.e. every field but `buttons`. */
  datatype Axis = LTrigger | RTrigger | LX | LY | RX | RY

  /** The order in which the axis fields are declared, and so scanned. */
  const AxisOrder: seq<Axis> := [LTrigger, RTrigger, LX, LY, RX, RY]

  predicate IsTrigger(a: Axis) {
    a == LTrigger || a == RTrigger
  }

  /** The raw sample of one axis field. */
  function Sample(g: Gamepad, a: Axis): int
  {
    match a
    case LTrigger => g.lTrigger
    case RTrigger => g.rTrigger
    case LX => g.lx
    case LY => g.ly
    case RX => g.rx
    case RY => g.ry
  }

  /** `ctypes.sizeof` of the field's type: one byte for triggers, two for sticks. */
  function DataSize(a: Axis): (n: nat)
    ensures n == (if IsTrigger(a) then 1 else 2)
  {
    match a
    case LTrigger => 1
    case RTrigger => 1
    case _ => 2
  }

  // class Hand
  const LEFT: int := 0
  const RIGHT: int := 1

  // class Button: ordinal n stands for bit 16 - n of the button mask
  const BUTTON_Y: int := 1
  const BUTTON_X: int := 2
  const BUTTON_B: int := 3
  const BUTTON_A: int := 4
  const BUTTON_L: int := 5
  const BUMPER_R: int := 7
  const BUMPER_L: int := 8
  const STICK_R: int := 9
  const STICK_L: int := 10
  const BACK: int := 11
  const START: int := 12
  const DPAD_R: int := 13
  const DPAD_L: int := 14
  const DPAD_D: int := 15
  const DPAD_U: int := 16

  /** The mask bit that button ordinal n reads: `getBitValues(mask, 16)[n - 1]`. */
  function ButtonMask(n: int): (m: nat)
    requires 1 <= n <= 16
    ensures m < 0x1_0000 && Bit(m, 16 - n) == 1
    ensures forall k :: 0 <= k < 16 && k != 16 - n ==> Bit(m, k) == 0
  {
    PowerBits(16 - n);
    Pow2Monotone(16 - n, 15);
    Pow2Table();
    Pow2(16 - n)
  }

  /** 2^0 .. 2^16, unfolded once so that the mask constants can be computed. */
  lemma Pow2Table()
    ensures Pow2(0) == 1 && Pow2(1) == 2 && Pow2(2) == 4 && Pow2(3) == 8
    ensures Pow2(4) == 0x10 && Pow2(5) == 0x20 && Pow2(6) == 0x40 && Pow2(7) == 0x80
    ensures Pow2(8) == 0x100 && Pow2(9) == 0x200 && Pow2(10) == 0x400 && Pow2(11) == 0x800
    ensures Pow2(12) == 0x1000 && Pow2(13) == 0x2000 && Pow2(14) == 0x4000 && Pow2(15) == 0x8000
    ensures Pow2(16) == 0x1_0000
  {
    assert Pow2(4) == 0x10;
    assert Pow2(8) == 0x100;
    assert Pow2(12) == 0x1000;
  }

  lemma {:induction false} PowerBits(j: nat)
    ensures Bit(Pow2(j), j) == 1
    ensures forall k :: 0 <= k && k != j ==> Bit(Pow2(j), k) == 0
  {
    if j == 0 {
      forall k | 0 < k ensures Bit(Pow2(0), k) == 0 {
        BitOfZero(k - 1);
      }
    } else {
      PowerBits(j - 1);
      assert Pow2(j) / 2 == Pow2(j - 1);
    }
  }

  /** The button constants name the XInput mask bits of the Microsoft layout. */
  lemma ButtonConstantsMatchXInputMasks()
    ensures ButtonMask(BUTTON_Y) == 0x8000 && ButtonMask(BUTTON_X) == 0x4000
    ensures ButtonMask(BUTTON_B) == 0x2000 && ButtonMask(BUTTON_A) == 0x1000
    ensures ButtonMask(BUMPER_R) == 0x0200 && ButtonMask(BUMPER_L) == 0x0100
    ensures ButtonMask(STICK_R) == 0x0080 && ButtonMask(STICK_L) == 0x0040
    ensures ButtonMask(BACK) == 0x0020 && ButtonMask(START) == 0x0010
    ensures ButtonMask(DPAD_R) == 0x0008 && ButtonMask(DPAD_L) == 0x0004
    ensures ButtonMask(DPAD_D) == 0x0002 && ButtonMask(DPAD_U) == 0x0001
  {
    Pow2Table();
  }
}
