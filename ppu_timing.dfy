/**
 * PPU timing (nes/src/ppu/mod.rs): the dot counter that walks 341 pixels by
 * 262 scanlines per frame, skipping one dot on odd frames when rendering,
 * and the pixel numbers at which the background and sprite fetches happen.
 */
module PpuTiming {
  /** PpuPosition; cycle and frame are unbounded here (u64 in the source). */
  datatype PpuPosition = PpuPosition(cycle: nat, frame: nat, pixel: nat, scanline: nat)

  /** The default position: everything 0. */
  const START := PpuPosition(0, 0, 0, 0)

  const LAST_PIXEL: nat := 340
  const PRERENDER_LINE: nat := 261

  /** Where the counter can be: pixel 0-340 on scanline 0-261. */
  predicate PosInv(p: PpuPosition) {
    p.pixel <= LAST_PIXEL && p.scanline <= PRERENDER_LINE
  }

  /** is_warmed_up: the first frame has finished. */
  predicate IsWarmedUp(p: PpuPosition) {
    p.frame > 0
  }

  /** is_in_vblank: scanlines 240-260, and the first dot of the pre-render line. */
  predicate IsInVblank(p: PpuPosition) {
    (p.scanline >= 240 && p.scanline < 261) || (p.scanline == 261 && p.pixel == 0)
  }

  /** The dot after which the counter moves to the next scanline: 339 on the pre-render line of an odd frame with rendering on, else 340. */
  predicate IsLastPixel(p: PpuPosition, rendering: bool) {
    p.pixel == 340 || (p.pixel == 339 && rendering && p.scanline == 261 && p.frame % 2 == 1)
  }

  /** step: one dot later. */
  function PosStep(p: PpuPosition, rendering: bool): (r: PpuPosition)
    ensures r.cycle == p.cycle + 1
  {
    var p1 := p.(cycle := p.cycle + 1);
    if IsLastPixel(p, rendering) then
      if p.scanline == 261 then p1.(pixel := 0, scanline := 0, frame := p.frame + 1)
      else p1.(pixel := 0, scanline := p.scanline + 1)
    else p1.(pixel := p.pixel + 1)
  }

  /** The counter never leaves pixel 0-340 and scanline 0-261, and the frame number only grows by one at a wrap. */
  lemma PosStepInv(p: PpuPosition, rendering: bool)
    requires PosInv(p)
    ensures PosInv(PosStep(p, rendering))
    ensures PosStep(p, rendering).frame == p.frame + (if IsLastPixel(p, rendering) && p.scanline == 261 then 1 else 0)
  {
  }

  /**
   * What a step does: the next dot on the same line, or dot 0 of the next
   * line, or dot 0 of line 0 of the next frame after the pre-render line;
   * the odd-frame dot 340 of the pre-render line is skipped only when
   * rendering.
   */
  lemma PosStepMeaning(p: PpuPosition, rendering: bool)
    requires PosInv(p)
    ensures !IsLastPixel(p, rendering) ==>
      PosStep(p, rendering) == p.(cycle := p.cycle + 1, pixel := p.pixel + 1)
    ensures IsLastPixel(p, rendering) && p.scanline < 261 ==>
      PosStep(p, rendering) == p.(cycle := p.cycle + 1, pixel := 0, scanline := p.scanline + 1)
    ensures IsLastPixel(p, rendering) && p.scanline == 261 ==>
      PosStep(p, rendering) == PpuPosition(p.cycle + 1, p.frame + 1, 0, 0)
    ensures p.scanline == 261 && p.pixel == 339 && p.frame % 2 == 1 ==>
      (PosStep(p, rendering).scanline == 0 <==> rendering)
  {
  }

  /** k steps with a fixed rendering switch. */
  function PosSteps(p: PpuPosition, rendering: bool, k: nat): PpuPosition
    decreases k
  {
    if k == 0 then p else PosSteps(PosStep(p, rendering), rendering, k - 1)
  }

  lemma {:induction false} PosStepsAdd(p: PpuPosition, rendering: bool, a: nat, b: nat)
    ensures PosSteps(p, rendering, a + b) == PosSteps(PosSteps(p, rendering, a), rendering, b)
    decreases a
  {
    if a > 0 {
      PosStepsAdd(PosStep(p, rendering), rendering, a - 1, b);
    }
  }

  /** From dot d of a line other than the last one, 341 - d steps reach dot 0 of the next line. */
  lemma {:induction false} RestOfLine(p: PpuPosition, rendering: bool)
    requires PosInv(p) && p.scanline < 261
    ensures PosSteps(p, rendering, 341 - p.pixel) ==
      PpuPosition(p.cycle + 341 - p.pixel, p.frame, 0, p.scanline + 1)
    decreases 341 - p.pixel
  {
    if p.pixel < 340 {
      var q := PosStep(p, rendering);
      RestOfLine(q, rendering);
      assert PosSteps(p, rendering, 341 - p.pixel) == PosSteps(q, rendering, 341 - q.pixel);
    } else {
      assert PosSteps(p, rendering, 1) == PosSteps(PosStep(p, rendering), rendering, 0);
    }
  }

  // ---------------------------------------------------------- fetch cycles

  /** nt_cycle: the nametable fetches. */
  predicate NtCycle(px: nat) {
    px in {1, 9, 17, 25, 33, 41, 49, 57, 65, 73, 81, 89, 97, 105, 113, 121, 129, 137, 145, 153,
           161, 169, 177, 185, 193, 201, 209, 217, 225, 233, 241, 321, 329}
  }

  /** at_cycle: the attribute fetches. */
  predicate AtCycle(px: nat) {
    px in {3, 11, 19, 27, 35, 43, 51, 59, 67, 75, 83, 91, 99, 107, 115, 123, 131, 139, 147, 155,
           163, 171, 179, 187, 195, 203, 211, 219, 227, 235, 243, 323, 331}
  }

  /** pat_lo_cycle: the low pattern-plane fetches. */
  predicate PatLoCycle(px: nat) {
    px in {5, 13, 21, 29, 37, 45, 53, 61, 69, 77, 85, 93, 101, 109, 117, 125, 133, 141, 149, 157,
           165, 173, 181, 189, 197, 205, 213, 221, 229, 237, 245, 325, 333}
  }

  /** pat_hi_cycle: the high pattern-plane fetches. */
  predicate PatHiCycle(px: nat) {
    px in {7, 15, 23, 31, 39, 47, 55, 63, 71, 79, 87, 95, 103, 111, 119, 127, 135, 143, 151, 159,
           167, 175, 183, 191, 199, 207, 215, 223, 231, 239, 247, 327, 335}
  }

  /** garbage_nt_cycle: the two unused nametable fetches at the end of the line. */
  predicate GarbageNtCycle(px: nat) {
    px in {337, 339}
  }

  /** inc_scrollh_cycle: coarse X moves one tile right. */
  predicate IncScrollHCycle(px: nat) {
    px in {8, 16, 24, 32, 40, 48, 56, 64, 72, 80, 88, 96, 104, 112, 120, 128, 136, 144, 152, 160,
           168, 176, 184, 192, 200, 208, 216, 224, 232, 240, 248, 328, 336}
  }

  /** pattern_latch_cycle: the fetched tile enters the shift registers. */
  predicate PatternLatchCycle(px: nat) {
    px in {9, 17, 25, 33, 41, 49, 57, 65, 73, 81, 89, 97, 105, 113, 121, 129, 137, 145, 153, 161,
           169, 177, 185, 193, 201, 209, 217, 225, 233, 241, 249, 257, 329, 337}
  }

  predicate SpriteNtCycle(px: nat) {
    px in {257, 265, 273, 281, 289, 297, 305, 313}
  }

  predicate SpriteAtCycle(px: nat) {
    px in {259, 267, 275, 283, 291, 299, 307, 315}
  }

  predicate SpriteLoCycle(px: nat) {
    px in {261, 269, 277, 285, 293, 301, 309, 317}
  }

  predicate SpriteHiCycle(px: nat) {
    px in {263, 271, 279, 287, 295, 303, 311, 319}
  }

  /** sprite_attr_cycle: the same dots as sprite_at_cycle. */
  predicate SpriteAttrCycle(px: nat) {
    px in {259, 267, 275, 283, 291, 299, 307, 315}
  }

  predicate SpriteXCycle(px: nat) {
    px in {260, 268, 276, 284, 292, 300, 308, 316}
  }

  /** The dots at which the background shifters move: 2-257 and 332-337. */
  predicate ShiftCycle(px: nat) {
    (2 <= px <= 257) || (332 <= px <= 337)
  }

  /** The visible tile columns 0-30 and the two prefetched tiles of the next line, as the start dot of their fetch group. */
  predicate TileGroup(px: nat, offset: nat) {
    px >= offset && (px - offset) % 8 == 0 && (px - offset <= 240 || px - offset == 320 || px - offset == 328)
  }

  /**
   * The background fetches come in groups of eight dots: nametable at
   * 8k + 1, attribute at 8k + 3, low plane at 8k + 5, high plane at 8k + 7,
   * coarse X increment at 8k + 8, for the 31 visible columns k = 0..30 and
   * the two tiles prefetched at 321-336.
   */
  lemma NtSchedule(px: nat)
    ensures NtCycle(px) <==> TileGroup(px, 1)
  {
  }

  lemma AtSchedule(px: nat)
    ensures AtCycle(px) <==> TileGroup(px, 3)
  {
  }

  lemma PatLoSchedule(px: nat)
    ensures PatLoCycle(px) <==> TileGroup(px, 5)
  {
  }

  lemma PatHiSchedule(px: nat)
    ensures PatHiCycle(px) <==> TileGroup(px, 7)
  {
  }

  lemma IncScrollHSchedule(px: nat)
    ensures IncScrollHCycle(px) <==> TileGroup(px, 8)
  {
  }

  /** The sprite fetches: dots 257-320 in eight groups of eight, one per secondary-OAM slot. */
  lemma SpriteFetchSchedule(px: nat)
    ensures SpriteNtCycle(px) <==> 257 <= px <= 320 && px % 8 == 1
    ensures SpriteAtCycle(px) <==> 257 <= px <= 320 && px % 8 == 3
    ensures SpriteLoCycle(px) <==> 257 <= px <= 320 && px % 8 == 5
    ensures SpriteHiCycle(px) <==> 257 <= px <= 320 && px % 8 == 7
    ensures SpriteXCycle(px) <==> 257 <= px <= 320 && px % 8 == 4
    ensures SpriteAttrCycle(px) <==> SpriteAtCycle(px)
  {
  }

  /** On every sprite-fetch dot, px / 8 - 32 names a secondary-OAM slot, 0-7. */
  lemma SpriteSlotInRange(px: nat)
    requires SpriteNtCycle(px) || SpriteAtCycle(px) || SpriteLoCycle(px) || SpriteHiCycle(px) || SpriteXCycle(px)
    ensures 32 <= px / 8 < 40
  {
  }

  /** The background fetch predicates never overlap, so the order of the else-if chain does not matter. */
  lemma BackgroundFetchesDisjoint(px: nat)
    ensures !(NtCycle(px) && AtCycle(px)) && !(NtCycle(px) && PatLoCycle(px)) && !(NtCycle(px) && PatHiCycle(px))
    ensures !(AtCycle(px) && PatLoCycle(px)) && !(AtCycle(px) && PatHiCycle(px)) && !(PatLoCycle(px) && PatHiCycle(px))
    ensures GarbageNtCycle(px) ==> !NtCycle(px) && !AtCycle(px) && !PatLoCycle(px) && !PatHiCycle(px)
  {
  }

  /** The tile latched at 8k + 9 is the one fetched at 8k + 1 .. 8k + 7: a latch dot follows each completed group. */
  lemma LatchFollowsFetches(px: nat)
    requires PatHiCycle(px)
    ensures PatternLatchCycle(px + 2)
  {
  }
}
