/** Single-bit operations on 32-bit registers, as the GPIO driver does them with
    `1 << N` masks. Each lemma states one identity so that the solver can check each one
    on its own. */
module Bits {

  /** Pin numbers 0 to 7, kept as a bit-vector so that shifting by one needs no
      conversion from an integer. */
  type PinIndex = n: bv8 | n < 8

  /** `1 << n`. */
  function Mask(n: PinIndex): bv32 {
    1 << n
  }

  predicate BitSet(x: bv32, n: PinIndex) {
    x & Mask(n) != 0
  }

  /** Two registers agree on every bit except that of pin `n`. */
  predicate SameOtherBits(x: bv32, y: bv32, n: PinIndex) {
    x & !Mask(n) == y & !Mask(n)
  }

  lemma MaskNonZero(n: PinIndex)
    ensures Mask(n) != 0
  {
  }

  lemma MaskOneBit(x: bv32, n: PinIndex)
    ensures x & Mask(n) == 0 || x & Mask(n) == Mask(n)
  {
  }

  lemma MasksDisjoint(n: PinIndex, k: PinIndex)
    requires n != k
    ensures Mask(n) & Mask(k) == 0
  {
  }

  lemma OrHas(x: bv32, m: bv32)
    ensures (x | m) & m == m
  {
  }

  lemma OrKeeps(x: bv32, m: bv32)
    ensures (x | m) & !m == x & !m
  {
  }

  lemma AndNotLacks(x: bv32, m: bv32)
    ensures (x & !m) & m == 0
  {
  }

  lemma AndNotKeeps(x: bv32, m: bv32)
    ensures (x & !m) & !m == x & !m
  {
  }

  lemma OrTwice(x: bv32, m: bv32)
    ensures (x | m) | m == x | m
  {
  }

  lemma OutsideMask(x: bv32, y: bv32, m: bv32, k: bv32)
    requires m & k == 0 && x & !m == y & !m
    ensures x & k == y & k
  {
  }

  /** `x | (1 << n)`: pin `n`'s bit is set and the others are kept. */
  function SetBit(x: bv32, n: PinIndex): (y: bv32)
    ensures BitSet(y, n)
    ensures SameOtherBits(y, x, n)
  {
    MaskNonZero(n);
    OrHas(x, Mask(n));
    OrKeeps(x, Mask(n));
    x | Mask(n)
  }

  /** `x & !(1 << n)`: pin `n`'s bit is clear and the others are kept. */
  function ClearBit(x: bv32, n: PinIndex): (y: bv32)
    ensures !BitSet(y, n)
    ensures SameOtherBits(y, x, n)
  {
    AndNotLacks(x, Mask(n));
    AndNotKeeps(x, Mask(n));
    x & !Mask(n)
  }

  /** What `toggle` does to the output register: set the bit when it reads clear,
      clear it otherwise. The bit is inverted and the others are kept. */
  function Toggled(x: bv32, n: PinIndex): (y: bv32)
    ensures BitSet(y, n) <==> !BitSet(x, n)
    ensures SameOtherBits(y, x, n)
  {
    if !BitSet(x, n) then SetBit(x, n) else ClearBit(x, n)
  }

  lemma Recombine(x: bv32, m: bv32)
    ensures x == (x & m) | (x & !m)
  {
  }

  /** A register is determined by one pin's bit together with all the other bits. */
  lemma BitsDetermine(x: bv32, y: bv32, n: PinIndex)
    requires BitSet(x, n) <==> BitSet(y, n)
    requires SameOtherBits(x, y, n)
    ensures x == y
  {
    MaskOneBit(x, n);
    MaskOneBit(y, n);
    Recombine(x, Mask(n));
    Recombine(y, Mask(n));
  }

  /** Toggling twice restores the register. */
  lemma ToggleTwice(x: bv32, n: PinIndex)
    ensures Toggled(Toggled(x, n), n) == x
  {
    var y := Toggled(Toggled(x, n), n);
    SameOtherTrans(y, Toggled(x, n), x, n);
    BitsDetermine(y, x, n);
  }

  lemma SameOtherTrans(x: bv32, y: bv32, z: bv32, n: PinIndex)
    requires SameOtherBits(x, y, n) && SameOtherBits(y, z, n)
    ensures SameOtherBits(x, z, n)
  {
  }

  /** A register that keeps every bit but pin `n`'s keeps the bit of every other pin. */
  lemma OtherPinKept(x: bv32, y: bv32, n: PinIndex, k: PinIndex)
    requires SameOtherBits(y, x, n) && k != n
    ensures BitSet(y, k) <==> BitSet(x, k)
  {
    OtherPinMasked(x, y, n, k);
  }

  lemma OtherPinMasked(x: bv32, y: bv32, n: PinIndex, k: PinIndex)
    requires SameOtherBits(y, x, n) && k != n
    ensures y & Mask(k) == x & Mask(k)
  {
    MasksDisjoint(n, k);
    OutsideMask(y, x, Mask(n), Mask(k));
  }

  /** Setting or clearing twice is the same as doing it once. */
  lemma DriveLaws(x: bv32, n: PinIndex)
    ensures SetBit(SetBit(x, n), n) == SetBit(x, n)
    ensures ClearBit(ClearBit(x, n), n) == ClearBit(x, n)
  {
    OrTwice(x, Mask(n));
    AndNotKeeps(x, Mask(n));
  }
}
