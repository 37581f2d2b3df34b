/**
 * Decoding of the 64-bit status word returned by the firmware's HINF query
 * (panasonic-hbtn.c:87-104). Bit 0 is the release flag (inverted polarity:
 * 0 means pressed); the scancode is the word with bit 0 cleared, stored in a
 * 32-bit `unsigned int`, so everything above bit 31 is dropped.
 *
 * Words are modelled as bounded naturals: clearing bit 0 is subtracting the
 * remainder modulo 2, and the store into 32 bits is a remainder modulo 2^32.
 */
module StatusWord {

  const TWO_POW_32: nat := 0x1_0000_0000

  /** C `unsigned long long` (the firmware integer). */
  type U64 = x: int | 0 <= x < 0x1_0000_0000_0000_0000

  /** C `unsigned int` / `u32`. */
  type U32 = x: int | 0 <= x < 0x1_0000_0000

  /** The decoded pair `(pressed, scancode)`. */
  datatype Status = Status(pressed: bool, scancode: U32)

  /** `x & 1`: bit 0 of a word. */
  function Bit0(x: U64): (b: nat)
    ensures b <= 1
  {
    x % 2
  }

  /** `x & ~1UL`: the word with bit 0 cleared. */
  function ClearBit0(x: U64): (r: U64)
  {
    x - Bit0(x)
  }

  /** Assignment of a 64-bit value to a 32-bit `unsigned int`: keep the low 32 bits. */
  function Truncate32(x: U64): (r: U32)
  {
    x % TWO_POW_32
  }

  /**
   * The decoding at panasonic-hbtn.c:103-104: pressed when bit 0 is clear,
   * scancode the word with bit 0 cleared, stored into 32 bits. The contract says what the pair means: the scancode is even, and the low
   * 32 bits of `raw` are the scancode for a press and the scancode plus one
   * for a release.
   */
  function Decode(raw: U64): (s: Status)
    ensures s.scancode % 2 == 0
    ensures Truncate32(raw) == s.scancode + (if s.pressed then 0 else 1)
  {
    Status(Bit0(raw) == 0, Truncate32(ClearBit0(raw)))
  }

  /**
   * The firmware's side of the contract: a status word built from a press
   * flag, an even scancode and arbitrary upper 32 bits.
   */
  function Encode(pressed: bool, scancode: U32, upper: U32): (raw: U64)
    requires scancode % 2 == 0
    ensures Bit0(raw) == 0 <==> pressed
    ensures Truncate32(raw) == scancode + (if pressed then 0 else 1)
  {
    var low := scancode + (if pressed then 0 else 1);
    LowHalf(upper, low);
    upper * TWO_POW_32 + low
  }

  /** The low half and bit 0 of `upper * 2^32 + low` are those of `low`. */
  lemma LowHalf(upper: U32, low: nat)
    requires low < TWO_POW_32
    ensures (upper * TWO_POW_32 + low) % TWO_POW_32 == low
    ensures (upper * TWO_POW_32 + low) % 2 == low % 2
  {
    var x := upper * 0x1_0000_0000 + low;
    var q, r := x / 0x1_0000_0000, x % 0x1_0000_0000;
    assert (q - upper) * 0x1_0000_0000 == low - r;
    assert q == upper;
    var q2, r2, l2 := x / 2, x % 2, low / 2;
    assert (q2 - upper * 0x8000_0000 - l2) * 2 == low % 2 - r2;
  }

  /** Decoding recovers what was encoded: nothing of the pair is lost. */
  lemma DecodeEncode(pressed: bool, scancode: U32, upper: U32)
    requires scancode % 2 == 0
    ensures Decode(Encode(pressed, scancode, upper)) == Status(pressed, scancode)
  {
  }

  /** Every status word is the encoding of its decoding and its upper half. */
  lemma EncodeDecode(raw: U64)
    ensures Encode(Decode(raw).pressed, Decode(raw).scancode, raw / TWO_POW_32) == raw
  {
  }

  /** `raw ^ 1`: the same word with the release flag toggled. */
  function FlipBit0(raw: U64): (r: U64)
    ensures Bit0(r) != Bit0(raw) && ClearBit0(r) == ClearBit0(raw)
  {
    if Bit0(raw) == 0 then raw + 1 else raw - 1
  }

  /** Two words that differ only in bit 0 carry the same scancode and opposite press states. */
  lemma FlipReleaseFlag(raw: U64)
    ensures Decode(FlipBit0(raw)).scancode == Decode(raw).scancode
    ensures Decode(FlipBit0(raw)).pressed == !Decode(raw).pressed
  {
  }

  /** Words that agree below bit 32 decode alike: the upper half is ignored. */
  lemma UpperHalfIgnored(raw: U64, raw': U64)
    requires Truncate32(raw) == Truncate32(raw')
    ensures Decode(raw) == Decode(raw')
  {
  }

  /** Worked examples: 0x09 is Esc's scancode released, 0x36 is A1 pressed, 0x7F is 0x7E released. */
  lemma DecodeExamples()
    ensures Decode(0x09) == Status(false, 0x08)
    ensures Decode(0x36) == Status(true, 0x36)
    ensures Decode(0x7F) == Status(false, 0x7E)
    ensures Decode(0x1_0000_0036) == Status(true, 0x36)
  {
  }
}
