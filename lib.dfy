/**
 * Crate-level types of djio: device descriptors, port indices and their
 * generator, the generic control index/value newtypes, time stamps and
 * the MSB/LSB composition of 14-bit MIDI values.
 */
module Djio {
  import opened Common

  /** Vendor and product name of a device (the audio interface is not modelled). */
  datatype DeviceDescriptor = DeviceDescriptor(vendorName: string, productName: string)

  /**
   * The qualified device name: the product name alone when there is no
   * vendor name, otherwise vendor and product separated by one space.
   */
  function Name(d: DeviceDescriptor): (r: string)
    requires d.productName != []
    ensures |r| > 0
    ensures |r| >= |d.productName| && r[|r| - |d.productName|..] == d.productName
    ensures d.vendorName == [] ==> r == d.productName
    ensures d.vendorName != [] ==>
              |r| == |d.vendorName| + 1 + |d.productName| &&
              r[..|d.vendorName|] == d.vendorName && r[|d.vendorName|] == ' '
  {
    if d.vendorName == [] then d.productName
    else d.vendorName + " " + d.productName
  }

  /** Index for addressing multiple, connected devices. */
  datatype PortIndex = PortIndex(value: U32)
  {
    predicate IsValid() { this != INVALID }
  }

  const INVALID: PortIndex := PortIndex(0)
  const MIN: PortIndex := PortIndex(1)
  const MAX: PortIndex := PortIndex(U32_MAX)

  /** `PortIndex::default()`, derived from the zero `u32`. */
  const DEFAULT_PORT_INDEX: PortIndex := PortIndex(0)

  /**
   * Reference successor of a port index: one more, except that the
   * maximum wraps around past the invalid index straight to the minimum.
   */
  function Successor(p: PortIndex): (r: PortIndex)
    ensures r.IsValid()
    ensures p.value < U32_MAX ==> r.value == p.value + 1
    ensures p.value == U32_MAX ==> r == MIN
  {
    if p.value == U32_MAX then MIN else PortIndex(p.value + 1)
  }

  lemma DefaultPortIndexIsInvalid()
    ensures DEFAULT_PORT_INDEX == INVALID && !DEFAULT_PORT_INDEX.IsValid()
  {
  }

  /** `PortIndex::next`: increments with wrap-around until the result is valid. */
  method Next(p: PortIndex) returns (next: PortIndex)
    ensures next.IsValid()
    ensures next == Successor(p)
  {
    var value := p.value;
    var nextValue := WrappingAddU32(value, 1);
    while nextValue == INVALID.value
      invariant nextValue == WrappingAddU32(value, 1)
      invariant value == p.value || (value == 0 && p.value == U32_MAX)
      decreases if value == 0 then 0 else 1
    {
      value := nextValue;
      nextValue := WrappingAddU32(value, 1);
    }
    next := PortIndex(nextValue);
  }

  /** The index the `k`-th call of a fresh generator yields (k >= 1). */
  function NthGenerated(k: nat): (r: PortIndex)
    requires k >= 1
  {
    if k == 1 then Successor(INVALID) else Successor(NthGenerated(k - 1))
  }

  /**
   * A fresh generator yields 1, 2, 3, ... up to the maximum, and the call
   * after the maximum yields the minimum again, never the invalid index.
   */
  lemma {:induction false} GeneratedSequence(k: nat)
    requires 1 <= k <= U32_MAX
    ensures NthGenerated(k).value == k
    ensures k == U32_MAX ==> NthGenerated(k + 1) == MIN
  {
    if k > 1 {
      GeneratedSequence(k - 1);
    }
  }

  /** Thread-safe generator of port indices; modelled for sequential use. */
  class PortIndexGenerator {
    var counter: U32

    constructor ()
      ensures counter == INVALID.value
    {
      counter := INVALID.value;
    }

    /**
     * `fetch_add` in a loop until the incremented value is valid. The
     * counter is left at the index returned, so successive calls follow
     * `Successor`.
     */
    method Next() returns (idx: PortIndex)
      modifies this
      ensures idx.IsValid()
      ensures idx == Successor(PortIndex(old(counter)))
      ensures counter == idx.value
    {
      var prevValue := counter;
      counter := WrappingAddU32(counter, 1);
      var nextValue := WrappingAddU32(prevValue, 1);
      while nextValue == INVALID.value
        invariant counter == nextValue == WrappingAddU32(prevValue, 1)
        invariant prevValue == old(counter) || (prevValue == 0 && old(counter) == U32_MAX)
        decreases if prevValue == 0 then 0 else 1
      {
        prevValue := counter;
        counter := WrappingAddU32(counter, 1);
        nextValue := WrappingAddU32(prevValue, 1);
      }
      idx := PortIndex(nextValue);
    }
  }

  /** Index of a control, only meaningful within one device. */
  datatype ControlIndex = ControlIndex(value: U32)

  /** A generic, encoded control value. */
  datatype ControlValue = ControlValue(bits: U32)

  function FromBits(bits: U32): ControlValue { ControlValue(bits) }
  function ToBits(v: ControlValue): U32 { v.bits }

  /** Generic, indexed control value. */
  datatype Control = Control(index: ControlIndex, value: ControlValue)

  /** Time stamp with microsecond precision and an arbitrary origin. */
  datatype TimeStamp = TimeStamp(micros: U64)

  function FromMicros(micros: U64): TimeStamp { TimeStamp(micros) }
  function ToMicros(ts: TimeStamp): U64 { ts.micros }

  /** Bitwise OR of two naturals, bit by bit from the least significant one. */
  function BitOr(a: nat, b: nat): (r: nat)
    decreases a + b
  {
    if a == 0 then b
    else if b == 0 then a
    else 2 * BitOr(a / 2, b / 2) + (if a % 2 == 1 || b % 2 == 1 then 1 else 0)
  }

  function Pow2(k: nat): (r: nat)
    ensures r >= 1
  {
    if k == 0 then 1 else 2 * Pow2(k - 1)
  }

  /** OR-ing a value below 2^k into a multiple of 2^k is addition. */
  lemma {:induction false} BitOrDisjoint(x: nat, k: nat, b: nat)
    requires b < Pow2(k)
    ensures BitOr(x * Pow2(k), b) == x * Pow2(k) + b
  {
    var a := x * Pow2(k);
    if a != 0 && b != 0 {
      assert k > 0;
      var p := Pow2(k - 1);
      assert a == 2 * (x * p);
      assert a / 2 == x * p && a % 2 == 0;
      BitOrDisjoint(x, k - 1, b / 2);
    }
  }

  /** `x << k` on naturals: `k` doublings. */
  function Shl(x: nat, k: nat): nat
  {
    if k == 0 then x else 2 * Shl(x, k - 1)
  }

  lemma Shl7(x: nat)
    ensures Shl(x, 7) == 128 * x
  {
    assert Shl(x, 1) == 2 * x;
    assert Shl(x, 3) == 8 * x;
    assert Shl(x, 5) == 32 * x;
  }

  lemma {:induction false} ShlZero(x: nat, k: nat)
    ensures Shl(x, k) == 0 <==> x == 0
  {
    if k > 0 {
      ShlZero(x, k - 1);
    }
  }

  /**
   * OR-ing into a value shifted by k: the bits above k combine by OR, the
   * low k bits pass through.
   */
  lemma {:induction false} BitOrSplit(x: nat, c: nat, k: nat, l: nat)
    requires l < Shl(1, k)
    ensures BitOr(Shl(x, k), Shl(c, k) + l) == Shl(BitOr(x, c), k) + l
  {
    if k > 0 {
      var h, r := l / 2, l % 2;
      BitOrSplit(x, c, k - 1, h);
      ShlZero(x, k - 1);
      ShlZero(c, k - 1);
      var m := BitOr(x, c);
      if x == 0 || c == 0 {
        BitOrZero(x, c);
      }
      BitOrDoubled(Shl(x, k - 1), Shl(c, k - 1), Shl(m, k - 1), l, h, r);
    }
  }

  /** One step of `BitOrSplit`: shifting both operands by one more bit. */
  lemma BitOrDoubled(xs: nat, cs: nat, ms: nat, l: nat, h: nat, r: nat)
    requires r <= 1 && l == 2 * h + r
    requires xs == 0 ==> ms == cs
    requires cs == 0 && l == 0 ==> ms == xs
    requires BitOr(xs, cs + h) == ms + h
    ensures BitOr(2 * xs, 2 * cs + l) == 2 * ms + l
  {
    if xs != 0 && 2 * cs + l != 0 {
      Halves(xs, 0);
      Halves(cs + h, r);
      assert 2 * cs + l == 2 * (cs + h) + r;
      BitOrUnfold(2 * xs, 2 * cs + l);
    } else {
      BitOrZero(2 * xs, 2 * cs + l);
    }
  }

  lemma Halves(y: nat, r: nat)
    requires r <= 1
    ensures (2 * y + r) / 2 == y && (2 * y + r) % 2 == r
  {
  }

  lemma BitOrUnfold(a: nat, b: nat)
    requires a != 0 && b != 0
    ensures BitOr(a, b) == 2 * BitOr(a / 2, b / 2) + (if a % 2 == 1 || b % 2 == 1 then 1 else 0)
  {
  }

  lemma BitOrZero(a: nat, b: nat)
    requires a == 0 || b == 0
    ensures BitOr(a, b) == a + b
  {
  }

  lemma DoubleFactor(x: nat, q: nat)
    ensures x * (2 * q) == 2 * (x * q)
    ensures q >= 1 && x != 0 ==> x * q != 0
  {
  }

  /** OR with 0 or 1 sets the lowest bit. */
  lemma BitOrLowBit(x: nat, c: nat)
    requires c <= 1
    ensures BitOr(x, c) == if c == 1 && x % 2 == 0 then x + 1 else x
  {
    if x != 0 && c == 1 {
      assert BitOr(x / 2, 0) == x / 2;
    }
  }

  /** `(u16::from(hi) << 7) | u16::from(lo)`: the shift cannot overflow 16 bits. */
  function ShiftOr7(hi: Byte, lo: Byte): (r: nat)
  {
    BitOr(hi * 128, lo)
  }

  /** For 7-bit bytes the OR adds. */
  lemma ShiftOr7Adds(hi: U7, lo: U7)
    ensures ShiftOr7(hi, lo) == hi * 128 + lo
  {
    assert Pow2(7) == 128;
    BitOrDisjoint(hi, 7, lo);
  }

  /**
   * On whole bytes the shifted high byte and the low byte overlap in bit
   * 7 only, so the result falls 128 short of `hi * 128 + lo` exactly
   * when both set that bit.
   */
  lemma ShiftOr7Bytes(hi: Byte, lo: Byte)
    ensures ShiftOr7(hi, lo) ==
              hi * 128 + lo - (if hi % 2 == 1 && lo >= 128 then 128 else 0)
    ensures ShiftOr7(hi, lo) < 0x1_0000
  {
    var c := lo / 128;
    Shl7(1);
    Shl7(hi);
    Shl7(c);
    Shl7(BitOr(hi, c));
    BitOrSplit(hi, c, 7, lo % 128);
    BitOrLowBit(hi, c);
  }

  /** Composition of a 14-bit value from its most and least significant 7 bits. */
  function U7BeToU14(hi: U7, lo: U7): (r: U14)
    ensures r == hi * 128 + lo
    ensures r / 128 == hi && r % 128 == lo
  {
    ShiftOr7Adds(hi, lo);
    ShiftOr7(hi, lo)
  }
}
