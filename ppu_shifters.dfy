/**
 * The background shift registers (nes/src/ppu/shifters.rs): two 16-bit
 * pattern registers and two 16-bit attribute registers that move one pixel
 * left per cycle, fed from byte latches every eight cycles.
 */
module PpuShifters {
  import opened Types
  import opened Bytes

  datatype PatternShifterState = PatternShifterState(
    nametableByte: u8,
    attributeLo: u16, attributeHi: u16, attributeLoLatch: u8, attributeHiLatch: u8,
    patternLo: u16, patternHi: u16, patternLoLatch: u8, patternHiLatch: u8)

  /** default: every register and latch zero. */
  const NEW_PATTERN_SHIFTER := PatternShifterState(0, 0, 0, 0, 0, 0, 0, 0, 0)

  /** store_nametable. */
  function PsStoreNametable(s: PatternShifterState, val: u8): PatternShifterState {
    s.(nametableByte := val)
  }

  /** nametable: the last nametable byte stored. */
  function PsNametable(s: PatternShifterState): u8 {
    s.nametableByte
  }

  /** store_attribute: each attribute latch becomes all ones or all zeros, from bits 0 and 1 of the value. */
  function PsStoreAttribute(s: PatternShifterState, val: u8): (r: PatternShifterState)
    ensures r.attributeLoLatch == (if Bit(val, 0) then 0xFF else 0x00)
    ensures r.attributeHiLatch == (if Bit(val, 1) then 0xFF else 0x00)
    ensures r.(attributeLoLatch := s.attributeLoLatch, attributeHiLatch := s.attributeHiLatch) == s
  {
    s.(attributeLoLatch := if val & 0x01 == 0 then 0x00 else 0xFF,
       attributeHiLatch := if val & 0x02 == 0 then 0x00 else 0xFF)
  }

  function PsLoadPatternLo(s: PatternShifterState, val: u8): PatternShifterState {
    s.(patternLoLatch := val)
  }

  function PsLoadPatternHi(s: PatternShifterState, val: u8): PatternShifterState {
    s.(patternHiLatch := val)
  }

  /** `reg |= latch as u16`: the latch is ORed into the low byte of the register. */
  function OrLow(reg: u16, latch: u8): (r: u16)
    ensures r & 0xFF00 == reg & 0xFF00
    ensures r & 0x00FF == (reg & 0x00FF) | latch as u16
  {
    reg | latch as u16
  }

  /** load_pattern_latches: every latch is ORed into the low byte of its register; the high bytes stay. */
  function PsLoadPatternLatches(s: PatternShifterState): PatternShifterState {
    s.(patternLo := OrLow(s.patternLo, s.patternLoLatch),
       patternHi := OrLow(s.patternHi, s.patternHiLatch),
       attributeLo := OrLow(s.attributeLo, s.attributeLoLatch),
       attributeHi := OrLow(s.attributeHi, s.attributeHiLatch))
  }

  /** The two-bit value of bit (15 - fine_x) of a low and a high register: 2*hi + lo. */
  function PlaneBits(lo: u16, hi: u16, fineX: u8): (r: u8)
    requires fineX <= 15
    ensures r <= 3
    ensures r == (if Bit16(hi, 15 - fineX as nat) then 2 else 0) + (if Bit16(lo, 15 - fineX as nat) then 1 else 0)
  {
    var n := 15 - fineX as nat;
    var l := Bitn16(lo, n) << 0;
    var h := Bitn16(hi, n) << 1;
    (l + h) as u8
  }

  /** pattern_val: the pattern bits of the pixel fine_x from the left. */
  function PsPatternVal(s: PatternShifterState, fineX: u8): u8
    requires fineX <= 15
  {
    PlaneBits(s.patternLo, s.patternHi, fineX)
  }

  /** attr_val: the palette bits of the pixel fine_x from the left. */
  function PsAttrVal(s: PatternShifterState, fineX: u8): u8
    requires fineX <= 15
  {
    PlaneBits(s.attributeLo, s.attributeHi, fineX)
  }

  /** `w <<= 1` on a 16-bit register. */
  function Shl16(w: u16): u16 { w << 1 }

  /** shift: all four registers move one bit left. */
  function PsShift(s: PatternShifterState): PatternShifterState {
    s.(patternLo := Shl16(s.patternLo), patternHi := Shl16(s.patternHi),
       attributeLo := Shl16(s.attributeLo), attributeHi := Shl16(s.attributeHi))
  }

  /** A left shift moves every bit below 15 up by one. */
  lemma ShiftLeftBits(w: u16, k: nat)
    requires k < 15
    ensures Bit16(Shl16(w), k + 1) == Bit16(w, k)
  {
    if k == 0 {} else if k == 1 {} else if k == 2 {} else if k == 3 {}
    else if k == 4 {} else if k == 5 {} else if k == 6 {} else if k == 7 {}
    else if k == 8 {} else if k == 9 {} else if k == 10 {} else if k == 11 {}
    else if k == 12 {} else if k == 13 {} else {}
  }

  /** The two-bit value of the pixel at `fineX` after a shift is the one at `next` = fineX + 1 before it. */
  lemma ShiftPlaneBits(lo: u16, hi: u16, fineX: u8, next: u8)
    requires next as nat == fineX as nat + 1 && next <= 15
    ensures PlaneBits(Shl16(lo), Shl16(hi), fineX) == PlaneBits(lo, hi, next)
  {
    ShiftLeftBits(lo, 15 - next as nat);
    ShiftLeftBits(hi, 15 - next as nat);
  }

  /** After a shift the pixel at fine_x is the one that was at fine_x + 1: the picture moves one pixel left. */
  lemma ShiftMovesPixelsLeft(s: PatternShifterState, fineX: u8, next: u8)
    requires next as nat == fineX as nat + 1 && next <= 15
    ensures PsPatternVal(PsShift(s), fineX) == PsPatternVal(s, next)
    ensures PsAttrVal(PsShift(s), fineX) == PsAttrVal(s, next)
  {
    ShiftPlaneBits(s.patternLo, s.patternHi, fineX, next);
    ShiftPlaneBits(s.attributeLo, s.attributeHi, fineX, next);
  }

  /** load_pattern_latches keeps the high bytes, and on empty low bytes puts each latch there verbatim. */
  lemma LoadLatchesMeaning(s: PatternShifterState)
    ensures PsLoadPatternLatches(s).patternLo & 0xFF00 == s.patternLo & 0xFF00
    ensures PsLoadPatternLatches(s).patternHi & 0xFF00 == s.patternHi & 0xFF00
    ensures s.patternLo & 0x00FF == 0 ==> PsLoadPatternLatches(s).patternLo & 0x00FF == s.patternLoLatch as u16
    ensures s.attributeLo & 0x00FF == 0 ==> PsLoadPatternLatches(s).attributeLo & 0x00FF == s.attributeLoLatch as u16
    ensures PsLoadPatternLatches(s).nametableByte == s.nametableByte
  {
  }

  /**
   * A register ORed with its latch on an empty low byte and shifted eight
   * times holds the latch in its high byte: the tile fetched eight cycles
   * earlier is the one being drawn.
   */
  lemma LatchReachesHighByte(reg: u16, latch: u8)
    requires reg & 0x00FF == 0
    ensures (OrLow(reg, latch) << 8) >> 8 == latch as u16
  {
  }

  /** The background shifter, updated in place. */
  class PatternShifter {
    var nametableByte: u8
    var attributeLo: u16
    var attributeHi: u16
    var attributeLoLatch: u8
    var attributeHiLatch: u8
    var patternLo: u16
    var patternHi: u16
    var patternLoLatch: u8
    var patternHiLatch: u8

    function State(): PatternShifterState
      reads this
    {
      PatternShifterState(nametableByte, attributeLo, attributeHi, attributeLoLatch, attributeHiLatch,
        patternLo, patternHi, patternLoLatch, patternHiLatch)
    }

    constructor ()
      ensures State() == NEW_PATTERN_SHIFTER
    {
      nametableByte := 0;
      attributeLo, attributeHi, attributeLoLatch, attributeHiLatch := 0, 0, 0, 0;
      patternLo, patternHi, patternLoLatch, patternHiLatch := 0, 0, 0, 0;
    }

    method StoreNametable(val: u8)
      modifies this
      ensures State() == PsStoreNametable(old(State()), val)
    {
      nametableByte := val;
    }

    method StoreAttribute(val: u8)
      modifies this
      ensures State() == PsStoreAttribute(old(State()), val)
    {
      attributeLoLatch := if val & 0x01 == 0 then 0x00 else 0xFF;
      attributeHiLatch := if val & 0x02 == 0 then 0x00 else 0xFF;
    }

    method LoadPatternLo(val: u8)
      modifies this
      ensures State() == PsLoadPatternLo(old(State()), val)
    {
      patternLoLatch := val;
    }

    method LoadPatternHi(val: u8)
      modifies this
      ensures State() == PsLoadPatternHi(old(State()), val)
    {
      patternHiLatch := val;
    }

    method LoadPatternLatches()
      modifies this
      ensures State() == PsLoadPatternLatches(old(State()))
    {
      patternLo := OrLow(patternLo, patternLoLatch);
      patternHi := OrLow(patternHi, patternHiLatch);
      attributeLo := OrLow(attributeLo, attributeLoLatch);
      attributeHi := OrLow(attributeHi, attributeHiLatch);
    }

    method Shift()
      modifies this
      ensures State() == PsShift(old(State()))
    {
      patternLo := Shl16(patternLo);
      patternHi := Shl16(patternHi);
      attributeLo := Shl16(attributeLo);
      attributeHi := Shl16(attributeHi);
    }
  }

  // ------------------------------------------------------------------ sprites

  /** SpritePriority. */
  datatype SpritePriority = AboveBackground | BelowBackground

  /**
   * One sprite's output unit (nes/src/ppu/sprite.rs): an X counter, the
   * attribute byte and two 8-bit pattern shift registers.
   */
  datatype SpriteShiftState = SpriteShiftState(counter: u8, latch: u8, shiftLo: u8, shiftHi: u8)

  const NEW_SPRITE_SHIFT := SpriteShiftState(0, 0, 0, 0)

  function SsSetX(s: SpriteShiftState, val: u8): (r: SpriteShiftState)
    ensures r.counter == val && r.(counter := s.counter) == s
  {
    s.(counter := val)
  }

  function SsSetAttributes(s: SpriteShiftState, val: u8): (r: SpriteShiftState)
    ensures r.latch == val && r.(latch := s.latch) == s
  {
    s.(latch := val)
  }

  function SsSetPatternLo(s: SpriteShiftState, val: u8): (r: SpriteShiftState)
    ensures r.shiftLo == val && r.(shiftLo := s.shiftLo) == s
  {
    s.(shiftLo := val)
  }

  function SsSetPatternHi(s: SpriteShiftState, val: u8): (r: SpriteShiftState)
    ensures r.shiftHi == val && r.(shiftHi := s.shiftHi) == s
  {
    s.(shiftHi := val)
  }

  /** palette: attribute bits 0-1. */
  function SsPalette(s: SpriteShiftState): (r: u8)
    ensures r <= 3
  {
    s.latch & 0x03
  }

  /** priority: behind the background iff attribute bit 5. */
  function SsPriority(s: SpriteShiftState): (r: SpritePriority)
    ensures r == BelowBackground <==> Bit(s.latch, 5)
  {
    if Bit(s.latch, 5) then BelowBackground else AboveBackground
  }

  /** mirror_x: attribute bit 6 flips the sprite horizontally. */
  predicate SsMirrorX(s: SpriteShiftState) {
    Bit(s.latch, 6)
  }

  /** The two-bit pixel of bit k of the pattern registers: 2*hi + lo. */
  function PixelBits(s: SpriteShiftState, k: nat): (r: u8)
    requires k < 8
    ensures r <= 3
  {
    (if Bit(s.shiftHi, k) then 2 else 0) + (if Bit(s.shiftLo, k) then 1 else 0)
  }

  /** `b <<= 1` and `b >>= 1` on an 8-bit register. */
  function Shl8(b: u8): u8 { b << 1 }

  function Shr8(b: u8): u8 { b >> 1 }

  /**
   * shift: the pixel leaving the registers (bit 0 when mirrored, shifting
   * right; bit 7 otherwise, shifting left).
   */
  function SsShift(s: SpriteShiftState): (r: (SpriteShiftState, u8))
    ensures r.1 == PixelBits(s, if SsMirrorX(s) then 0 else 7)
    ensures SsMirrorX(s) ==> r.0 == s.(shiftLo := Shr8(s.shiftLo), shiftHi := Shr8(s.shiftHi))
    ensures !SsMirrorX(s) ==> r.0 == s.(shiftLo := Shl8(s.shiftLo), shiftHi := Shl8(s.shiftHi))
  {
    if SsMirrorX(s) then
      var lo := Bitn(s.shiftLo, 0) << 0;
      var hi := Bitn(s.shiftHi, 0) << 1;
      (s.(shiftLo := Shr8(s.shiftLo), shiftHi := Shr8(s.shiftHi)), lo | hi)
    else
      var lo := Bitn(s.shiftLo, 7) << 0;
      var hi := Bitn(s.shiftHi, 7) << 1;
      (s.(shiftLo := Shl8(s.shiftLo), shiftHi := Shl8(s.shiftHi)), lo | hi)
  }

  /** tick: while the X counter runs, count down and output 0; at 0, shift out one pixel. */
  function SsTick(s: SpriteShiftState): (r: (SpriteShiftState, u8))
    ensures r.1 <= 3
    ensures s.counter > 0 ==> r == (s.(counter := s.counter - 1), 0)
    ensures s.counter == 0 ==> r.0.counter == 0 && r.0.latch == s.latch
  {
    if s.counter > 0 then (s.(counter := s.counter - 1), 0) else SsShift(s)
  }

  /** The pixels k successive ticks output. */
  function SsOutputs(s: SpriteShiftState, k: nat): seq<u8>
    decreases k
  {
    if k == 0 then [] else var (s1, p) := SsTick(s); [p] + SsOutputs(s1, k - 1)
  }

  /** A left shift of a byte moves bit k to bit k + 1. */
  lemma ShiftLeftByteBits(b: u8, k: nat)
    requires k < 7
    ensures Bit(Shl8(b), k + 1) == Bit(b, k)
  {
    if k == 0 {} else if k == 1 {} else if k == 2 {} else if k == 3 {}
    else if k == 4 {} else if k == 5 {} else {}
  }

  /** A right shift of a byte moves bit k to bit k - 1. */
  lemma ShiftRightByteBits(b: u8, k: nat)
    requires 0 < k < 8
    ensures Bit(Shr8(b), k - 1) == Bit(b, k)
  {
    if k == 1 {} else if k == 2 {} else if k == 3 {} else if k == 4 {}
    else if k == 5 {} else if k == 6 {} else {}
  }

  /**
   * One shifting tick moves the sprite's row one pixel: towards bit 0 when
   * mirrored, towards bit 7 otherwise, and keeps the attributes.
   */
  lemma TickMovesRow(s: SpriteShiftState, j: nat)
    requires s.counter == 0 && j < 8
    ensures SsTick(s).0.counter == 0 && SsMirrorX(SsTick(s).0) == SsMirrorX(s)
    ensures SsMirrorX(s) && 0 < j ==> PixelBits(SsTick(s).0, j - 1) == PixelBits(s, j)
    ensures !SsMirrorX(s) && j < 7 ==> PixelBits(SsTick(s).0, j + 1) == PixelBits(s, j)
  {
    if SsMirrorX(s) && 0 < j {
      ShiftRightByteBits(s.shiftLo, j);
      ShiftRightByteBits(s.shiftHi, j);
    } else if !SsMirrorX(s) && j < 7 {
      ShiftLeftByteBits(s.shiftLo, j);
      ShiftLeftByteBits(s.shiftHi, j);
    }
  }

  /**
   * Once the X counter is 0, ticks output the sprite's row from the left:
   * pattern bit 7 first, or bit 0 first when the sprite is mirrored.
   */
  lemma {:induction false} SpriteRowOrder(s: SpriteShiftState, k: nat)
    requires s.counter == 0 && k <= 8
    ensures |SsOutputs(s, k)| == k
    ensures forall i :: 0 <= i < k ==>
      SsOutputs(s, k)[i] == PixelBits(s, if SsMirrorX(s) then i else 7 - i)
    decreases k
  {
    if k > 0 {
      var (s1, p) := SsTick(s);
      assert SsOutputs(s, k) == [p] + SsOutputs(s1, k - 1);
      SpriteRowOrder(s1, k - 1);
      TickMovesRow(s, 0);
      forall i | 1 <= i < k
        ensures SsOutputs(s, k)[i] == PixelBits(s, if SsMirrorX(s) then i else 7 - i)
      {
        assert SsOutputs(s, k)[i] == SsOutputs(s1, k - 1)[i - 1];
        TickMovesRow(s, if SsMirrorX(s) then i else 7 - i);
      }
    }
  }

  /** A sprite unit updated in place. */
  class SpriteShift {
    var counter: u8
    var latch: u8
    var shiftLo: u8
    var shiftHi: u8

    function State(): SpriteShiftState
      reads this
    {
      SpriteShiftState(counter, latch, shiftLo, shiftHi)
    }

    constructor ()
      ensures State() == NEW_SPRITE_SHIFT
    {
      counter, latch, shiftLo, shiftHi := 0, 0, 0, 0;
    }

    method SetX(val: u8)
      modifies this
      ensures State() == SsSetX(old(State()), val)
    {
      counter := val;
    }

    method SetAttributes(val: u8)
      modifies this
      ensures State() == SsSetAttributes(old(State()), val)
    {
      latch := val;
    }

    method SetPatternLo(val: u8)
      modifies this
      ensures State() == SsSetPatternLo(old(State()), val)
    {
      shiftLo := val;
    }

    method SetPatternHi(val: u8)
      modifies this
      ensures State() == SsSetPatternHi(old(State()), val)
    {
      shiftHi := val;
    }

    method Tick() returns (pixel: u8)
      modifies this
      ensures (State(), pixel) == SsTick(old(State()))
    {
      if counter > 0 {
        counter := counter - 1;
        pixel := 0;
      } else {
        pixel := Shift();
      }
    }

    method Shift() returns (pixel: u8)
      modifies this
      ensures (State(), pixel) == SsShift(old(State()))
    {
      var lo, hi := shiftLo, shiftHi;
      if Bit(latch, 6) {
        pixel := (Bitn(lo, 0) << 0) | (Bitn(hi, 0) << 1);
        shiftLo := Shr8(lo);
        shiftHi := Shr8(hi);
      } else {
        pixel := (Bitn(lo, 7) << 0) | (Bitn(hi, 7) << 1);
        shiftLo := Shl8(lo);
        shiftHi := Shl8(hi);
      }
    }
  }
}
