/**
 * The bit decoder of xboxcontroller.py: `genBitValues` yields the bits of a
 * non-negative integer least-significant first, up to its most significant
 * 1 bit; `getBitValues` reverses that list in place and pads it with zeros on
 * the left up to `size` entries. Python's `^` on non-negative integers is
 * modelled here too, because the button differ decodes an XOR of two masks.
 */
module Bits {

  /** 2 to the power k. */
  function Pow2(k: nat): (r: nat)
    ensures r >= 1
  {
    if k == 0 then 1 else 2 * Pow2(k - 1)
  }

  /** Bit k of n (the coefficient of 2^k), 0 or 1. */
  function Bit(n: nat, k: nat): (b: int)
    ensures b == 0 || b == 1
  {
    if k == 0 then n % 2 else Bit(n / 2, k - 1)
  }

  /** What `genBitValues(n)` yields: least significant bit first, no leading zeros. */
  function LsbBits(n: nat): seq<int>
    decreases n
  {
    if n == 0 then [] else [n % 2] + LsbBits(n / 2)
  }

  function Zeros(k: nat): (z: seq<int>)
    ensures |z| == k && forall i :: 0 <= i < k ==> z[i] == 0
  {
    seq(k, _ => 0)
  }

  function Reversed(s: seq<int>): (r: seq<int>)
    ensures |r| == |s|
  {
    seq(|s|, i requires 0 <= i < |s| => s[|s| - 1 - i])
  }

  /**
   * What `getBitValues(n, size)` returns: the reversed bit list, preceded by
   * `size - len` zeros, where `[0] * negative` is the empty list.
   */
  function BitValues(n: nat, size: nat): seq<int>
  {
    var msb := Reversed(LsbBits(n));
    Zeros(if size >= |msb| then size - |msb| else 0) + msb
  }

  /** The value of a most-significant-first list of bits. */
  function FromBits(s: seq<int>): int
  {
    if s == [] then 0 else 2 * FromBits(s[..|s| - 1]) + s[|s| - 1]
  }

  /** Python's `a ^ b` on non-negative integers, bit by bit. */
  function Xor(a: nat, b: nat): nat
    decreases a + b
  {
    if a == 0 && b == 0 then 0
    else (if a % 2 == b % 2 then 0 else 1) + 2 * Xor(a / 2, b / 2)
  }

  // ---------------------------------------------------------------------
  // The loops of genBitValues and getBitValues
  // ---------------------------------------------------------------------

  /** `genBitValues`: shift `number` right until it is zero, yielding `number & 1`. */
  method GenBitValues(number: nat) returns (bits: seq<int>)
    ensures bits == LsbBits(number)
    ensures forall k :: 0 <= k < |bits| ==> bits[k] == Bit(number, k)
  {
    var n := number;
    bits := [];
    while n != 0
      invariant bits + LsbBits(n) == LsbBits(number)
      decreases n
    {
      bits := bits + [n % 2];
      n := n / 2;
    }
    forall k | 0 <= k < |bits| ensures bits[k] == Bit(number, k) {
      LsbBitsAt(number, k);
    }
  }

  /** `res.reverse()`: reverses the list in place. */
  method ReverseInPlace(a: array<int>)
    modifies a
    ensures a[..] == Reversed(old(a[..]))
  {
    var lo, hi := 0, a.Length - 1;
    while lo < hi
      invariant 0 <= lo <= hi + 1 && hi == a.Length - 1 - lo
      invariant forall k :: 0 <= k < lo ==> a[k] == old(a[a.Length - 1 - k]) && a[a.Length - 1 - k] == old(a[k])
      invariant forall k :: lo <= k <= hi ==> a[k] == old(a[k])
    {
      a[lo], a[hi] := a[hi], a[lo];
      lo, hi := lo + 1, hi - 1;
    }
  }

  /**
   * `getBitValues(number, size)`. When `number` fits in `size` bits, the
   * result has exactly `size` entries and entry i is bit `size - 1 - i`.
   */
  method GetBitValues(number: nat, size: nat) returns (res: seq<int>)
    ensures res == BitValues(number, size)
    ensures number < Pow2(size) ==>
              |res| == size && forall i :: 0 <= i < size ==> res[i] == Bit(number, size - 1 - i)
  {
    var bits := GenBitValues(number);
    var a := new int[|bits|](i requires 0 <= i < |bits| => bits[i]);
    assert a[..] == bits;
    ReverseInPlace(a);
    var pad := if size >= a.Length then size - a.Length else 0;
    res := Zeros(pad) + a[..];
    if number < Pow2(size) {
      LsbBitsFit(number, size);
      forall i | 0 <= i < size ensures |res| == size && res[i] == Bit(number, size - 1 - i) {
        BitValuesAt(number, size, i);
      }
    }
  }

  // ---------------------------------------------------------------------
  // Lemmas
  // ---------------------------------------------------------------------

  lemma {:induction false} Pow2Monotone(i: nat, j: nat)
    requires i <= j
    ensures Pow2(i) <= Pow2(j)
  {
    if i < j { Pow2Monotone(i, j - 1); }
  }

  /** Entry k of the least-significant-first list is bit k. */
  lemma {:induction false} LsbBitsAt(n: nat, k: nat)
    requires k < |LsbBits(n)|
    ensures LsbBits(n)[k] == Bit(n, k)
  {
    if k > 0 { LsbBitsAt(n / 2, k - 1); }
  }

  /** The list has exactly the bit length of n: 2^(len-1) <= n < 2^len. */
  lemma {:induction false} LsbBitsLength(n: nat)
    ensures n < Pow2(|LsbBits(n)|)
    ensures n > 0 ==> |LsbBits(n)| >= 1 && Pow2(|LsbBits(n)| - 1) <= n
  {
    if n > 0 { LsbBitsLength(n / 2); }
  }

  /** A number below 2^size needs at most size bits. */
  lemma LsbBitsFit(n: nat, size: nat)
    requires n < Pow2(size)
    ensures |LsbBits(n)| <= size
  {
    LsbBitsLength(n);
    if n > 0 && |LsbBits(n)| - 1 >= size {
      Pow2Monotone(size, |LsbBits(n)| - 1);
    }
  }

  /** A number below 2^w has no bit set at position w or above. */
  lemma {:induction false} BitBeyond(n: nat, w: nat, k: nat)
    requires n < Pow2(w) && w <= k
    ensures Bit(n, k) == 0
  {
    if w == 0 {
      BitOfZero(k);
    } else {
      BitBeyond(n / 2, w - 1, k - 1);
    }
  }

  lemma {:induction false} BitOfZero(k: nat)
    ensures Bit(0, k) == 0
  {
    if k > 0 { BitOfZero(k - 1); }
  }

  /** The doctested property: `getBitValues(n, size)[i]` is bit `size-1-i` of n. */
  lemma BitValuesAt(n: nat, size: nat, i: nat)
    requires n < Pow2(size) && i < size
    ensures |BitValues(n, size)| == size
    ensures BitValues(n, size)[i] == Bit(n, size - 1 - i)
  {
    var lsb := LsbBits(n);
    LsbBitsFit(n, size);
    var pad := size - |lsb|;
    if i < pad {
      LsbBitsLength(n);
      BitBeyond(n, |lsb|, size - 1 - i);
    } else {
      LsbBitsAt(n, size - 1 - i);
    }
  }

  /** `getBitValues(0, size)` is `size` zeros. */
  lemma BitValuesOfZero(size: nat)
    ensures BitValues(0, size) == Zeros(size)
  {
  }

  /**
   * No truncation: a number that needs more than `size` bits yields a list
   * longer than `size` (all of its bits).
   */
  lemma BitValuesTooWide(n: nat, size: nat)
    requires n >= Pow2(size)
    ensures |BitValues(n, size)| > size
    ensures BitValues(n, size) == Reversed(LsbBits(n))
  {
    LsbBitsLength(n);
    if |LsbBits(n)| <= size {
      Pow2Monotone(|LsbBits(n)|, size);
    }
  }

  lemma {:induction false} FromBitsZerosPrefix(k: nat, s: seq<int>)
    ensures FromBits(Zeros(k) + s) == FromBits(s)
    decreases |s|, k
  {
    if s == [] {
      if k > 0 {
        assert (Zeros(k) + s)[..k - 1] == Zeros(k - 1) + [];
        FromBitsZerosPrefix(k - 1, []);
      }
    } else {
      assert (Zeros(k) + s)[..|Zeros(k) + s| - 1] == Zeros(k) + s[..|s| - 1];
      FromBitsZerosPrefix(k, s[..|s| - 1]);
    }
  }

  lemma {:induction false} FromReversedLsb(n: nat)
    ensures FromBits(Reversed(LsbBits(n))) == n
    decreases n
  {
    if n > 0 {
      var r := Reversed(LsbBits(n));
      assert r[..|r| - 1] == Reversed(LsbBits(n / 2));
      assert r[|r| - 1] == n % 2;
      FromReversedLsb(n / 2);
    }
  }

  /** Round trip: reading the decoded bits back, most significant first, gives n. */
  lemma BitValuesRoundTrip(n: nat, size: nat)
    ensures FromBits(BitValues(n, size)) == n
  {
    var msb := Reversed(LsbBits(n));
    FromBitsZerosPrefix(if size >= |msb| then size - |msb| else 0, msb);
    FromReversedLsb(n);
  }

  /** The doctests of `getBitValues` (lines 74-86 of xboxcontroller.py). */
  lemma BitValuesDoctests()
    ensures BitValues(1, 32) == Zeros(31) + [1]
    ensures BitValues(3, 2) == [1, 1]
    ensures BitValues(3, 4) == [0, 0, 1, 1]
  {
    assert LsbBits(1) == [1];
    assert Reversed([1]) == [1];
    assert LsbBits(3) == [1, 1];
    assert Reversed([1, 1]) == [1, 1];
    assert Zeros(0) == [] && Zeros(2) == [0, 0];
  }

  /** Bit k of `a ^ b` is set exactly when bits k of a and b differ. */
  lemma {:induction false} XorBit(a: nat, b: nat, k: nat)
    ensures Bit(Xor(a, b), k) == if Bit(a, k) == Bit(b, k) then 0 else 1
    decreases k
  {
    if a == 0 && b == 0 {
      BitOfZero(k);
    } else if k > 0 {
      XorBit(a / 2, b / 2, k - 1);
    }
  }

  /** `a ^ b` of two w-bit numbers is a w-bit number. */
  lemma {:induction false} XorFits(a: nat, b: nat, w: nat)
    requires a < Pow2(w) && b < Pow2(w)
    ensures Xor(a, b) < Pow2(w)
    decreases w
  {
    if !(a == 0 && b == 0) {
      XorFits(a / 2, b / 2, w - 1);
    }
  }
}
