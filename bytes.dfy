/**
 * The bit helpers of nes/src/byte.rs (word!, bit!, bitn!, set_bit!, clear_bit!,
 * toggle_bit!, mask!), written as functions over bytes and words.
 */
module Bytes {
  import opened Types

  /** The low byte of a word. */
  function Lo(w: u16): u8 { (w & 0xFF) as u8 }

  /** The high byte of a word. */
  function Hi(w: u16): u8 { ((w >> 8) & 0xFF) as u8 }

  /** word!(lo, hi): the little-endian word with low byte `lo` and high byte `hi`. */
  function Word(lo: u8, hi: u8): (r: u16)
    ensures Lo(r) == lo && Hi(r) == hi
  {
    ((hi as u16) << 8) | (lo as u16)
  }

  /** Every word is rebuilt from its two bytes. */
  lemma WordOfBytes(w: u16)
    ensures Word(Lo(w), Hi(w)) == w
  {
  }

  /** The mask `1 << n` of bit n of a byte. */
  function BitMask(n: nat): (r: u8)
    requires n < 8
    ensures r == 1 << n
  {
    if n == 0 then 0x01 else if n == 1 then 0x02 else if n == 2 then 0x04
    else if n == 3 then 0x08 else if n == 4 then 0x10 else if n == 5 then 0x20
    else if n == 6 then 0x40 else 0x80
  }

  /** bit!(v, n): bit n of a byte is set. */
  predicate Bit(v: u8, n: nat)
    requires n < 8
  {
    v & BitMask(n) != 0
  }

  /** bit! over a 16-bit word. */
  predicate Bit16(v: u16, n: nat)
    requires n < 16
  {
    v & (1 << n) != 0
  }

  /** bitn!(v, n): bit n of a byte, as the number 0 or 1. */
  function Bitn(v: u8, n: nat): (r: u8)
    requires n < 8
    ensures r == if Bit(v, n) then 1 else 0
  {
    (v & BitMask(n)) >> n
  }

  /** bitn! over a 16-bit word. */
  function Bitn16(v: u16, n: nat): (r: u16)
    requires n < 16
    ensures r == if Bit16(v, n) then 1 else 0
  {
    (v & (1 << n)) >> n
  }

  /** set_bit!(v, n): bit n becomes 1, every other bit is kept. */
  function SetBit(v: u8, n: nat): (r: u8)
    requires n < 8
    ensures Bit(r, n)
    ensures forall k :: 0 <= k < 8 && k != n ==> Bit(r, k) == Bit(v, k)
  {
    v | BitMask(n)
  }

  /** clear_bit!(v, n): bit n becomes 0, every other bit is kept. */
  function ClearBit(v: u8, n: nat): (r: u8)
    requires n < 8
    ensures !Bit(r, n)
    ensures forall k :: 0 <= k < 8 && k != n ==> Bit(r, k) == Bit(v, k)
  {
    v & !BitMask(n)
  }

  /** toggle_bit!(v, n, hi): bit n becomes `hi`, every other bit is kept. */
  function ToggleBit(v: u8, n: nat, hi: bool): (r: u8)
    requires n < 8
    ensures Bit(r, n) == hi
    ensures forall k :: 0 <= k < 8 && k != n ==> Bit(r, k) == Bit(v, k)
  {
    if hi then SetBit(v, n) else ClearBit(v, n)
  }

  /** mask!(v, m): a bit survives iff it is set in both `v` and `m`. */
  function Mask(v: u8, m: u8): (r: u8)
    ensures forall k :: 0 <= k < 8 ==> Bit(r, k) == (Bit(v, k) && Bit(m, k))
  {
    v & m
  }
}
