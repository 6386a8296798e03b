/**
 * The picture processing unit (nes/src/ppu/mod.rs): one dot per step,
 * drawing a pixel from the background and sprite shifters on visible dots,
 * raising the vblank flag and NMI, fetching tiles and evaluating sprites
 * while rendering, and serving the eight CPU-visible ports at 0x2000-0x2007.
 *
 * Where the source panics (a colour index of 0x40 or more, a CHR read past
 * the cartridge, a primary-OAM read past 256, v overflowing, PPUCTRL bits 5
 * or 6) the functions here return None.
 */
module Ppu {
  import opened Types
  import opened Bytes
  import opened PpuRegisters
  import opened PpuOam
  import opened PpuShifters
  import opened PpuVram
  import opened PpuTiming
  import PpuColors
  import Mappers
  import FrameBuffer

  /** PpuResult: what one step reports to the console. */
  datatype PpuResult = PpuResult(newFrame: bool, scanlineIrq: bool, vblankNmi: bool)

  const NO_RESULT := PpuResult(false, false, false)

  datatype PpuState = PpuState(
    ctrl: PpuControl,
    mask: PpuMask,
    status: PpuStatus,
    vram: VramState,
    oam: OamState,
    screen: seq<u8>,
    pos: PpuPosition,
    dataBuffer: u8,
    vtwx: VtwxState,
    shifter: PatternShifterState,
    sprites: seq<SpriteShiftState>,
    immediateNmi: bool)

  /** What every reachable state satisfies. */
  ghost predicate PpuInv(s: PpuState) {
    && VramInv(s.vram) && OamInv(s.oam) && PosInv(s.pos)
    && |s.screen| == FrameBuffer.SCREEN_BYTES_RGB
    && s.vtwx.x <= 7
    && |s.sprites| == 8
  }

  /** new: every register cleared, the counter at dot 0 of line 0 of frame 0, drawing into `screen`. */
  function NewPpu(mapper: Mappers.Nrom, screen: seq<u8>): (r: PpuState)
    requires |screen| == FrameBuffer.SCREEN_BYTES_RGB
    ensures PpuInv(r)
  {
    PpuState(PpuControl(0), PpuMask(0), NEW_STATUS, NewVram(mapper), NEW_OAM, screen, START, 0,
      NEW_VTWX, NEW_PATTERN_SHIFTER, seq(8, _ => NEW_SPRITE_SHIFT), false)
  }

  // ------------------------------------------------------------ pixel output

  /** A palette address: `base | palette << 2 | pattern`, inside the palette window. */
  function PaletteAddr(base: u16, palette: u8, pattern: u8): (r: u16)
    requires base == 0x3F00 || base == 0x3F10
    requires palette <= 3 && pattern <= 3
    ensures r as int == base as int + palette as int * 4 + pattern as int
    ensures VramDecode(r) == Palette(r as nat - 0x3F00)
  {
    base | (palette << 2) as u16 | pattern as u16
  }

  /** The chosen sprite of a dot: its colour byte, its priority and its slot. */
  datatype SpriteHit = SpriteHit(color: u8, priority: SpritePriority, index: nat)

  /** Every sprite unit ticked once. */
  function TickAll(sprites: seq<SpriteShiftState>): (r: seq<SpriteShiftState>)
    ensures |r| == |sprites|
    ensures forall i :: 0 <= i < |sprites| ==> r[i] == SsTick(sprites[i]).0
  {
    seq(|sprites|, i requires 0 <= i < |sprites| => SsTick(sprites[i]).0)
  }

  /**
   * The first of the units 0..n-1 whose tick outputs a non-zero pattern:
   * the sprite with the lowest slot wins.
   */
  function FirstOpaque(sprites: seq<SpriteShiftState>, n: nat): (r: Option<nat>)
    requires n <= |sprites|
    ensures r.Some? ==> r.value < n && SsTick(sprites[r.value]).1 != 0
    ensures r.Some? ==> forall j :: 0 <= j < r.value ==> SsTick(sprites[j]).1 == 0
    ensures r.None? ==> forall j :: 0 <= j < n ==> SsTick(sprites[j]).1 == 0
  {
    if n == 0 then None
    else match FirstOpaque(sprites, n - 1)
      case Some(j) => Some(j)
      case None => if SsTick(sprites[n - 1]).1 != 0 then Some(n - 1) else None
  }

  /** The hit a unit makes: its colour from the sprite palettes at 0x3F10, and its priority. */
  function HitOf(vram: VramState, sprites: seq<SpriteShiftState>, i: nat): SpriteHit
    requires VramInv(vram) && i < |sprites|
  {
    var t := SsTick(sprites[i]);
    SpriteHit(VramPeekb(vram, PaletteAddr(0x3F10, SsPalette(t.0), t.1)), SsPriority(t.0), i)
  }

  /**
   * Sprites are drawn unless sprite rendering is off, or the dot is in the
   * leftmost eight and, as written, mask bit 2 is set.
   */
  predicate SpritesShown(mask: PpuMask, px: nat) {
    !(!mask.SpriteRenderingEnabled() || (px < 8 && !mask.HideFirstSpriteTile()))
  }

  /** The hit of the unit `found` names, if any. */
  function HitAt(vram: VramState, sprites: seq<SpriteShiftState>, found: Option<nat>): Option<SpriteHit>
    requires VramInv(vram) && (found.Some? ==> found.value < |sprites|)
  {
    match found
    case None => None
    case Some(i) => Some(HitOf(vram, sprites, i))
  }

  /** sprite_pixel: every unit ticks; the first opaque one, if shown, gives the hit. */
  function PpuSpritePixel(s: PpuState, px: nat): (r: (seq<SpriteShiftState>, Option<SpriteHit>))
    requires PpuInv(s)
    ensures r.0 == TickAll(s.sprites)
    ensures r.1.Some? ==> SpritesShown(s.mask, px) && r.1.value.index < 8
  {
    var ticked := TickAll(s.sprites);
    if !SpritesShown(s.mask, px) then (ticked, None)
    else (ticked, HitAt(s.vram, s.sprites, FirstOpaque(s.sprites, 8)))
  }

  /**
   * background_pixel: None on the leftmost eight dots when, as written,
   * background rendering is on; otherwise the pattern bits at fine X, None
   * when they are 0, else the colour byte from the background palettes.
   */
  function PpuBackgroundPixel(s: PpuState, px: nat): Option<u8>
    requires PpuInv(s)
  {
    if px < 8 && s.mask.BackgroundRenderingEnabled() then None
    else
      var pattern := PsPatternVal(s.shifter, s.vtwx.x);
      if pattern == 0 then None
      else Some(VramPeekb(s.vram, PaletteAddr(0x3F00, PsAttrVal(s.shifter, s.vtwx.x), pattern)))
  }

  /** global_bg: the universal background colour at 0x3F00. */
  function PpuGlobalBg(s: PpuState): u8
    requires PpuInv(s)
  {
    VramPeekb(s.vram, 0x3F00)
  }

  /**
   * The match of output_pixel: the colour byte drawn and whether sprite 0
   * hit is raised.
   */
  function PixelChoice(bg: Option<u8>, sp: Option<SpriteHit>, global: u8, line: nat): (u8, bool) {
    match (bg, sp)
    case (None, None) => (global, false)
    case (Some(_), Some(h)) =>
      (if h.priority == AboveBackground then h.color else bg.value, h.index == 0 && line != 255)
    case (None, Some(h)) => (h.color, false)
    case (Some(b), None) => (b, false)
  }

  /**
   * The priority rule: a sprite pixel shows iff it is opaque and either the
   * background is transparent or the sprite is in front; the universal
   * background shows only when both are transparent; sprite 0 hits only
   * where an opaque sprite 0 meets an opaque background.
   */
  lemma PixelChoiceMeaning(bg: Option<u8>, sp: Option<SpriteHit>, global: u8, line: nat)
    ensures sp.Some? && (bg.None? || sp.value.priority == AboveBackground) ==>
      PixelChoice(bg, sp, global, line).0 == sp.value.color
    ensures bg.Some? && (sp.None? || sp.value.priority == BelowBackground) ==>
      PixelChoice(bg, sp, global, line).0 == bg.value
    ensures bg.None? && sp.None? ==> PixelChoice(bg, sp, global, line).0 == global
    ensures PixelChoice(bg, sp, global, line).1 <==>
      bg.Some? && sp.Some? && sp.value.index == 0 && line != 255
  {
  }

  /** Every colour output_pixel converts is a valid index (from_byte panics otherwise). */
  predicate ColorsValid(bg: Option<u8>, sp: Option<SpriteHit>, global: u8) {
    && (sp.Some? ==> sp.value.color < 0x40)
    && (bg.Some? ==> bg.value < 0x40)
    && (bg.None? && sp.None? ==> global < 0x40)
  }

  /** The first of the three bytes of pixel (line, px) in the frame. */
  function PixelOffset(line: nat, px: nat): nat {
    (line * 256 + px) * 3
  }

  /** Visible pixels lie inside the frame, and distinct pixels own disjoint byte triples. */
  lemma PixelOffsetsDisjoint(line: nat, px: nat, line2: nat, px2: nat)
    requires line < 240 && px < 256 && line2 < 240 && px2 < 256
    ensures PixelOffset(line, px) + 2 < FrameBuffer.SCREEN_BYTES_RGB
    ensures (line, px) != (line2, px2) ==>
      PixelOffset(line, px) + 3 <= PixelOffset(line2, px2) || PixelOffset(line2, px2) + 3 <= PixelOffset(line, px)
  {
    if line < line2 {
      assert line * 256 + px < line2 * 256 by {
        assert (line + 1) * 256 <= line2 * 256;
      }
    } else if line2 < line {
      assert line2 * 256 + px2 < line * 256 by {
        assert (line2 + 1) * 256 <= line * 256;
      }
    }
  }

  /** The frame with pixel (line, px) painted `c`. */
  function Paint(screen: seq<u8>, line: nat, px: nat, c: PpuColors.Rgb): (r: seq<u8>)
    requires |screen| == FrameBuffer.SCREEN_BYTES_RGB && line < 240 && px < 256
    ensures |r| == |screen|
  {
    PixelOffsetsDisjoint(line, px, line, px);
    var base := PixelOffset(line, px);
    screen[base := c.r][base + 1 := c.g][base + 2 := c.b]
  }

  /** The effect of a chosen pixel: sprite 0 hit raised if it happened, and the pixel painted. */
  function PpuApplyPixel(s: PpuState, bg: Option<u8>, sp: Option<SpriteHit>, global: u8, line: nat, px: nat): (r: PpuState)
    requires PpuInv(s) && line < 240 && px < 256 && ColorsValid(bg, sp, global)
    ensures PpuInv(r) && r == s.(screen := r.screen, status := r.status)
    ensures r.status.lastWrite == s.status.lastWrite
  {
    var (c, hit) := PixelChoice(bg, sp, global, line);
    s.(status := if hit then s.status.SetSpriteZeroHit(true) else s.status,
       screen := Paint(s.screen, line, px, PpuColors.COLORS[c]))
  }

  /** output_pixel: tick the sprites, choose the colour, raise sprite 0 hit, and paint one pixel. */
  function PpuOutputPixel(s: PpuState, line: nat, px: nat): (r: Option<PpuState>)
    requires PpuInv(s) && line < 240 && px < 256
    ensures r.Some? ==> PpuInv(r.value)
    ensures r.Some? ==> r.value.(screen := s.screen, sprites := s.sprites, status := s.status) == s
    ensures r.Some? ==> r.value.status.lastWrite == s.status.lastWrite
  {
    var (ticked, sp) := PpuSpritePixel(s, px);
    var bg := PpuBackgroundPixel(s, px);
    var global := PpuGlobalBg(s);
    if !ColorsValid(bg, sp, global) then None
    else Some(PpuApplyPixel(s.(sprites := ticked), bg, sp, global, line, px))
  }

  /** Painting changes exactly the three bytes of its pixel, to the red, green and blue of the colour. */
  lemma PaintChangesOnePixel(screen: seq<u8>, line: nat, px: nat, c: PpuColors.Rgb, i: nat)
    requires |screen| == FrameBuffer.SCREEN_BYTES_RGB && line < 240 && px < 256 && i < |screen|
    ensures var base := PixelOffset(line, px);
      && Paint(screen, line, px, c)[base] == c.r
      && Paint(screen, line, px, c)[base + 1] == c.g
      && Paint(screen, line, px, c)[base + 2] == c.b
      && (i < base || base + 2 < i ==> Paint(screen, line, px, c)[i] == screen[i])
  {
    PixelOffsetsDisjoint(line, px, line, px);
  }

  /** The pixel output_pixel paints is the colour PixelChoice picks. */
  lemma OutputPixelPaints(s: PpuState, line: nat, px: nat)
    requires PpuInv(s) && line < 240 && px < 256 && PpuOutputPixel(s, line, px).Some?
    ensures var sp := PpuSpritePixel(s, px).1;
      PpuOutputPixel(s, line, px).value.screen ==
        Paint(s.screen, line, px, PpuColors.COLORS[PixelChoice(PpuBackgroundPixel(s, px), sp, PpuGlobalBg(s), line).0])
    ensures PpuOutputPixel(s, line, px).value.sprites == TickAll(s.sprites)
    ensures PpuOutputPixel(s, line, px).value.status.SpriteZeroHit() <==>
      s.status.SpriteZeroHit() || PixelChoice(PpuBackgroundPixel(s, px), PpuSpritePixel(s, px).1, PpuGlobalBg(s), line).1
  {
    var hit := PixelChoice(PpuBackgroundPixel(s, px), PpuSpritePixel(s, px).1, PpuGlobalBg(s), line).1;
    SetSpriteZeroHitOnly(s.status, true);
  }

  // -------------------------------------------------------------- fetching

  /** fetch_nametable: the tile byte v points at. */
  function PpuFetchNametable(s: PpuState): u8
    requires PpuInv(s)
  {
    FetchAddressesInRange(s.vtwx);
    VramPeekb(s.vram, TileAddr(s.vtwx))
  }

  /** fetch_attribute_table: the two palette bits of v's quadrant of its attribute byte. */
  function PpuFetchAttribute(s: PpuState): (r: u8)
    requires PpuInv(s)
    ensures r <= 3
  {
    FetchAddressesInRange(s.vtwx);
    var b := VramPeekb(s.vram, AttrAddr(s.vtwx));
    var q := AttrQuadrant(s.vtwx);
    if q == 0 then b & 0x03
    else if q == 1 then (b & 0x0C) >> 2
    else if q == 2 then (b & 0x30) >> 4
    else (b & 0xC0) >> 6
  }

  /** A pattern-table address assembled from a table base, a tile offset, a plane and a row: all below 0x2000, so is the result. */
  function PatternOr(table: u16, tile: u16, plane: u16, row: u16): (r: u16)
    requires table & 0xE000 == 0 && tile & 0xE000 == 0 && plane & 0xE000 == 0 && row & 0xE000 == 0
    ensures r < 0x2000
  {
    var r := table | tile | plane | row;
    assert r & 0xE000 == 0;
    r
  }

  /** pattern_addr: the background pattern byte of the latched tile on v's fine-Y row, plane 0 or 8. */
  function PatternAddr(s: PpuState, plane: u16): (r: u16)
    requires plane == 0 || plane == 8
    ensures r < 0x2000
  {
    FetchAddressesInRange(s.vtwx);
    PatternOr(s.ctrl.BackgroundPatternTableAddress(), (s.shifter.nametableByte as u16) << 4, plane, FineY(s.vtwx))
  }

  /**
   * The row of a sprite drawn on `line` (line 261 counts as line 0): 0 above
   * the sprite, line - y below its top, flipped to 7 - (line - y) (never
   * below 0) when the sprite is mirrored vertically.
   */
  function SpriteRow(y: nat, line: nat, mirrorY: bool): (r: nat)
    requires line <= 261
    ensures line != 261 && !mirrorY && y <= line ==> r == line - y
    ensures line != 261 && mirrorY && y <= line <= y + 7 ==> r == 7 - (line - y)
    ensures y > (if line == 261 then 0 else line) ==> r == 0
    ensures r <= 260 && (mirrorY ==> r <= 7)
  {
    var l := if line == 261 then 0 else line;
    if y > l then 0
    else if mirrorY then (if l - y > 7 then 0 else 7 - (l - y))
    else l - y
  }

  /** sprite_pattern_addr: the pattern byte of slot i's tile at its row for this line, plane 0 or 8. */
  function SpritePatternAddr(s: PpuState, i: nat, line: nat, plane: u16): (r: u16)
    requires PpuInv(s) && i < 8 && line <= 261 && (plane == 0 || plane == 8)
    ensures r < 0x2000
  {
    var y := OamSpriteByte(s.oam, i, 0) as nat;
    var tile := (OamSpriteByte(s.oam, i, 1) as u16) << 4;
    var mirrorY := Bit(OamSpriteByte(s.oam, i, 2), 7);
    var row := SpriteRow(y, line, mirrorY);
    PatternOr(s.ctrl.SpritePatternTableAddress(), tile, plane, row as u16)
  }

  /** A pattern-table address is readable iff it falls inside the cartridge's CHR-ROM. */
  lemma PatternReadable(s: PpuState, addr: u16)
    requires addr < 0x2000
    ensures VramDecode(addr) == Chr(addr)
    ensures VramReadable(s.vram, addr) <==> (addr as nat) < |s.vram.mapper.rom.chr|
  {
  }

  /** The vtwx updates of a rendering dot. */
  function PpuVtwxUpdate(v: VtwxState, line: nat, px: nat): (r: VtwxState)
    ensures r.x == v.x
  {
    if px == 256 then VtwxIncrementV(v)
    else if IncScrollHCycle(px) then VtwxIncrementH(v)
    else if line == 261 && 280 <= px <= 304 then VtwxCopyV(v)
    else if px == 257 then VtwxCopyH(v)
    else v
  }

  /** The background fetches of a rendering dot; None when a pattern read leaves CHR-ROM. */
  function PpuBackgroundFetch(s: PpuState, px: nat): (r: Option<PpuState>)
    requires PpuInv(s)
    ensures r.Some? ==> r.value == s.(shifter := r.value.shifter)
  {
    if NtCycle(px) then Some(s.(shifter := PsStoreNametable(s.shifter, PpuFetchNametable(s))))
    else if GarbageNtCycle(px) then Some(s)
    else if AtCycle(px) then Some(s.(shifter := PsStoreAttribute(s.shifter, PpuFetchAttribute(s))))
    else if PatLoCycle(px) then
      var a := PatternAddr(s, 0);
      if VramReadable(s.vram, a) then Some(s.(shifter := PsLoadPatternLo(s.shifter, VramPeekb(s.vram, a)))) else None
    else if PatHiCycle(px) then
      var a := PatternAddr(s, 8);
      if VramReadable(s.vram, a) then Some(s.(shifter := PsLoadPatternHi(s.shifter, VramPeekb(s.vram, a)))) else None
    else Some(s)
  }

  /** The sprite unit of slot i, set up from secondary OAM at its attribute and X dots. */
  function PpuSpriteSetup(s: PpuState, px: nat): (r: PpuState)
    requires PpuInv(s)
    ensures PpuInv(r) && r == s.(sprites := r.sprites)
  {
    if SpriteAttrCycle(px) then
      SpriteSlotInRange(px);
      var i := px / 8 - 32;
      s.(sprites := s.sprites[i := SsSetAttributes(s.sprites[i], OamSpriteByte(s.oam, i, 2))])
    else if SpriteXCycle(px) then
      SpriteSlotInRange(px);
      var i := px / 8 - 32;
      s.(sprites := s.sprites[i := SsSetX(s.sprites[i], OamSpriteByte(s.oam, i, 3))])
    else s
  }

  /**
   * fetch_sprite_lo / fetch_sprite_hi with the dummy-read rule: the plane
   * byte of slot px / 8 - 32 (None outside CHR-ROM), or 0 for an empty slot
   * (Y above 0xEE).
   */
  function PpuSpritePatternByte(s: PpuState, line: nat, px: nat, plane: u16): Option<u8>
    requires PpuInv(s) && line <= 261 && 32 <= px / 8 < 40 && (plane == 0 || plane == 8)
  {
    var i := px / 8 - 32;
    var a := SpritePatternAddr(s, i, line, plane);
    if !VramReadable(s.vram, a) then None
    else Some(if OamSpriteByte(s.oam, i, 0) > 0xEE then 0 else VramPeekb(s.vram, a))
  }

  /** A sprite pattern fetch: the plane byte loaded into its unit. */
  function PpuSpritePatternFetch(s: PpuState, line: nat, px: nat, plane: u16): (r: Option<PpuState>)
    requires PpuInv(s) && line <= 261 && (SpriteLoCycle(px) || SpriteHiCycle(px))
    requires plane == (if SpriteLoCycle(px) then 0 else 8)
    ensures r.Some? ==> PpuInv(r.value) && r.value == s.(sprites := r.value.sprites)
  {
    SpriteSlotInRange(px);
    var i := px / 8 - 32;
    match PpuSpritePatternByte(s, line, px, plane)
    case None => None
    case Some(b) =>
      var unit := if plane == 0 then SsSetPatternLo(s.sprites[i], b) else SsSetPatternHi(s.sprites[i], b);
      Some(s.(sprites := s.sprites[i := unit]))
  }


  /**
   * The sprite evaluation and fetches of a rendering dot: clear secondary OAM
   * at dot 1 of a visible line, run one evaluation tick on dots 65-256
   * (raising the overflow flag on a hit), and fetch the sprite patterns on
   * dots 257-320. The nametable and attribute reads of the sprite fetch
   * groups read without effect.
   */
  function PpuSpriteEvalOrFetch(s: PpuState, line: nat, px: nat): (r: Option<PpuState>)
    requires PpuInv(s) && line <= 261
    ensures r.Some? ==> PpuInv(r.value)
    ensures r.Some? && line >= 240 ==> r.value.status == s.status
  {
    if line < 240 && px == 1 then Some(s.(oam := OamResetOam2(s.oam)))
    else if line < 240 && 64 < px <= 256 then
      if !EvalReadsInRange(s.oam) then None
      else
        var (o, overflow) := OamSpriteEval(s.oam, line as u16);
        Some(s.(oam := o, status := if overflow then s.status.SetSpriteOverflow(true) else s.status))
    else if SpriteNtCycle(px) || SpriteAtCycle(px) then Some(s)
    else if SpriteLoCycle(px) then PpuSpritePatternFetch(s, line, px, 0)
    else if SpriteHiCycle(px) then PpuSpritePatternFetch(s, line, px, 8)
    else Some(s)
  }

  /** The sprite side of a rendering dot: OAMADDR reset on 257-320, unit setup, then evaluation or fetch. */
  function PpuSpriteFetch(s: PpuState, line: nat, px: nat): (r: Option<PpuState>)
    requires PpuInv(s) && line <= 261
    ensures r.Some? ==> PpuInv(r.value)
    ensures r.Some? && line >= 240 ==> r.value.status == s.status
  {
    var s1 := if 256 < px <= 320 then s.(oam := OamResetAddr(s.oam)) else s;
    PpuSpriteEvalOrFetch(PpuSpriteSetup(s1, px), line, px)
  }

  /** Everything a dot does while rendering on a visible or pre-render line. */
  function PpuRenderFetches(s: PpuState, line: nat, px: nat): (r: Option<PpuState>)
    requires PpuInv(s) && line <= 261
    ensures r.Some? ==> PpuInv(r.value)
    ensures r.Some? && line >= 240 ==> r.value.status == s.status
    ensures r.Some? ==> r.value.pos == s.pos && r.value.immediateNmi == s.immediateNmi
  {
    var s1 := s.(vtwx := PpuVtwxUpdate(s.vtwx, line, px));
    match PpuBackgroundFetch(s1, px)
    case None => None
    case Some(s2) => PpuSpriteFetch(s2, line, px)
  }

  /** The flag updates: (state, vblank_nmi, new_frame). */
  function StepFlags(s: PpuState, line: nat, px: nat): (r: (PpuState, bool, bool))
    ensures r.0 == s.(status := r.0.status)
  {
    if line == 241 && px == 1 then
      (s.(status := s.status.SetVblankStarted(true)), s.ctrl.GenerateNmi(), false)
    else if line == 261 && px == 1 then
      (s.(status := s.status.SetSpriteOverflow(false).SetSpriteZeroHit(false).SetVblankStarted(false)), false, true)
    else (s, false, false)
  }

  predicate IdleLine(line: nat) {
    line >= 240 && line != 261
  }

  /** The first half of a dot: the pattern latch, then the pixel on visible dots. */
  function PpuLatchAndOutput(s: PpuState): (r: Option<PpuState>)
    requires PpuInv(s)
    ensures r.Some? && s.pos.scanline >= 240 ==> r.value.status == s.status
    ensures r.Some? ==> PpuInv(r.value) && r.value.pos == s.pos && r.value.immediateNmi == s.immediateNmi
    ensures r.Some? ==> r.value.ctrl == s.ctrl && r.value.mask == s.mask
  {
    var line := s.pos.scanline;
    var px := s.pos.pixel;
    var s1 := if PatternLatchCycle(px) then s.(shifter := PsLoadPatternLatches(s.shifter)) else s;
    if line < 240 && px < 256 then PpuOutputPixel(s1, line, px) else Some(s1)
  }

  /** The second half of a dot: the rendering fetches (when rendering and not on lines 240-260), then the shift. */
  function PpuFetchAndShift(s: PpuState, rendering: bool, line: nat, px: nat): (r: Option<PpuState>)
    requires PpuInv(s) && line <= 261
    ensures r.Some? ==> PpuInv(r.value) && r.value.pos == s.pos && r.value.immediateNmi == s.immediateNmi
    ensures r.Some? && line >= 240 ==> r.value.status == s.status
  {
    var o := if rendering && !IdleLine(line) then PpuRenderFetches(s, line, px) else Some(s);
    if o.None? then None
    else if ShiftCycle(px) then Some(o.value.(shifter := PsShift(o.value.shifter)))
    else o
  }

  /**
   * step: one dot. A pending immediate NMI is reported first; the latch,
   * pixel output, flags, rendering fetches and shift follow in the source's
   * order; the counter moves last. None where the source panics.
   */
  function PpuStep(s: PpuState): (r: Option<(PpuState, PpuResult)>)
    requires PpuInv(s)
    ensures r.Some? ==> PpuInv(r.value.0) && !r.value.1.scanlineIrq
    ensures r.Some? ==> r.value.0.pos == PosStep(s.pos, s.mask.RenderingEnabled()) && !r.value.0.immediateNmi
  {
    var rendering := s.mask.RenderingEnabled();
    var line := s.pos.scanline;
    var px := s.pos.pixel;
    match PpuLatchAndOutput(s.(immediateNmi := false))
    case None => None
    case Some(s3) =>
      var (s4, vblankNmi, newFrame) := StepFlags(s3, line, px);
      match PpuFetchAndShift(s4, rendering, line, px)
      case None => None
      case Some(s6) =>
        PosStepInv(s6.pos, rendering);
        Some((s6.(pos := PosStep(s6.pos, rendering)), PpuResult(newFrame, false, s.immediateNmi || vblankNmi)))
  }

  /** Dot 1 of line 241 raises the vblank flag, and reports an NMI iff PPUCTRL asks for one or one was pending. */
  lemma VblankStarts(s: PpuState)
    requires PpuInv(s) && s.pos.scanline == 241 && s.pos.pixel == 1 && PpuStep(s).Some?
    ensures PpuStep(s).value.0.status.VblankStarted()
    ensures PpuStep(s).value.1.vblankNmi <==> s.immediateNmi || s.ctrl.GenerateNmi()
    ensures !PpuStep(s).value.1.newFrame
  {
    var s3 := PpuLatchAndOutput(s.(immediateNmi := false)).value;
    SetVblankStartedOnly(s3.status, true);
  }

  /** Dot 1 of the pre-render line finishes the frame and clears all three status flags. */
  lemma FrameEnds(s: PpuState)
    requires PpuInv(s) && s.pos.scanline == 261 && s.pos.pixel == 1 && PpuStep(s).Some?
    ensures PpuStep(s).value.1.newFrame
    ensures var st := PpuStep(s).value.0.status;
      !st.VblankStarted() && !st.SpriteZeroHit() && !st.SpriteOverflow()
    ensures PpuStep(s).value.1.vblankNmi <==> s.immediateNmi
  {
    var s3 := PpuLatchAndOutput(s.(immediateNmi := false)).value;
    var a := s3.status.SetSpriteOverflow(false);
    var b := a.SetSpriteZeroHit(false);
    SetSpriteOverflowOnly(s3.status, false);
    SetSpriteZeroHitOnly(a, false);
    SetVblankStartedOnly(b, false);
  }

  /**
   * A frame is reported exactly at dot 1 of the pre-render line, and an NMI
   * only at dot 1 of line 241 or when one was pending from a PPUCTRL write.
   */
  lemma StepReports(s: PpuState)
    requires PpuInv(s) && PpuStep(s).Some?
    ensures PpuStep(s).value.1.newFrame <==> s.pos.scanline == 261 && s.pos.pixel == 1
    ensures PpuStep(s).value.1.vblankNmi ==> s.immediateNmi || (s.pos.scanline == 241 && s.pos.pixel == 1)
    ensures s.immediateNmi ==> PpuStep(s).value.1.vblankNmi
  {
  }

  // ------------------------------------------------------------------ ports

  /** peekb: the port a CPU address selects, by its low three bits, without side effects. */
  function PpuPeekb(s: PpuState, addr: u16): u8
    requires PpuInv(s)
  {
    var port := addr & 0x07;
    if port == 0 then s.ctrl.bits
    else if port == 1 then s.mask.bits
    else if port == 2 then s.status.Get()
    else if port == 3 then s.oam.addr as u8
    else if port == 4 then OamPeekb(s.oam, s.oam.addr)
    else 0
  }

  /**
   * loadb: PPUSTATUS reads the flags and clears vblank and the write toggle;
   * OAMDATA reads without moving OAMADDR; PPUDATA returns the read buffer
   * below 0x3F00 (the palette is returned directly), refills it from v and
   * advances v. The write-only ports read 0. None where the source panics
   * (a CHR read past the cartridge, v overflowing).
   */
  function PpuLoadb(s: PpuState, addr: u16): (r: Option<(PpuState, u8)>)
    requires PpuInv(s)
    ensures r.Some? ==> PpuInv(r.value.0)
  {
    var port := addr & 0x07;
    if port == 2 then
      Some((s.(status := s.status.SetVblankStarted(false), vtwx := VtwxResetLatch(s.vtwx)), s.status.Get()))
    else if port == 4 then Some((s, OamPeekb(s.oam, s.oam.addr)))
    else if port == 7 then PpuLoadData(s)
    else Some((s, 0))
  }

  /** The PPUDATA read: the byte at v refills the buffer, v advances, and the old buffer is returned below 0x3F00. */
  function PpuLoadData(s: PpuState): (r: Option<(PpuState, u8)>)
    requires PpuInv(s)
    ensures r.Some? ==> PpuInv(r.value.0)
  {
    var a := s.vtwx.v;
    if !VramReadable(s.vram, a) then None
    else
      var fetched := VramPeekb(s.vram, a);
      match VtwxIncrementAddr(s.vtwx, s.ctrl.VramAddrIncrement())
      case None => None
      case Some(vt) => Some((s.(dataBuffer := fetched, vtwx := vt), if a <= 0x3EFF then s.dataBuffer else fetched))
  }

  /** Does a PPUCTRL write raise the NMI at once: bit 7 set while the vblank flag is up and the counter is in vblank. */
  predicate ImmediateNmiOn(s: PpuState, val: u8) {
    Bit(val, 7) && s.status.VblankStarted() && IsInVblank(s.pos)
  }

  /**
   * storeb: every write is latched in PPUSTATUS's low bits first. PPUCTRL is
   * ignored until the first frame has finished and panics (None) on bits 5
   * or 6; PPUMASK, OAMADDR, PPUSCROLL and PPUADDR are stored; OAMDATA writes
   * at OAMADDR and advances it; PPUDATA writes at v and advances it (None
   * when v overflows).
   */
  function PpuStoreb(s: PpuState, addr: u16, val: u8): (r: Option<PpuState>)
    requires PpuInv(s)
    ensures r.Some? ==> PpuInv(r.value) && r.value.status.lastWrite == val && r.value.pos == s.pos
  {
    var s1 := s.(status := s.status.SetLastPpuWrite(val));
    var port := addr & 0x07;
    if port == 0 then PpuStoreCtrl(s, val)
    else if port == 1 then Some(s1.(mask := PpuMask(val)))
    else if port == 2 then Some(s1)
    else if port == 3 then Some(s1.(oam := OamSetAddr(s.oam, val)))
    else if port == 4 then Some(s1.(oam := OamIncrementAddr(OamStoreb(s.oam, s.oam.addr, val))))
    else if port == 5 then Some(s1.(vtwx := VtwxStoreScroll(s.vtwx, val)))
    else if port == 6 then Some(s1.(vtwx := VtwxStoreAddr(s.vtwx, val)))
    else PpuStoreData(s, val)
  }

  /** The PPUCTRL write: ignored until the first frame ends, None on bits 5 or 6, else the control bits, the nametable bits of t and possibly an immediate NMI. */
  function PpuStoreCtrl(s: PpuState, val: u8): (r: Option<PpuState>)
    requires PpuInv(s)
    ensures r.Some? ==> PpuInv(r.value) && r.value.status.lastWrite == val && r.value.pos == s.pos
  {
    var s1 := s.(status := s.status.SetLastPpuWrite(val));
    if !IsWarmedUp(s.pos) then Some(s1)
    else if Bit(val, 5) || Bit(val, 6) then None
    else Some(s1.(immediateNmi := s.immediateNmi || ImmediateNmiOn(s, val),
                  ctrl := PpuControl(val), vtwx := VtwxStoreCtrl(s.vtwx, val)))
  }

  /** The PPUDATA write: the byte goes to v, and v advances (None when it overflows). */
  function PpuStoreData(s: PpuState, val: u8): (r: Option<PpuState>)
    requires PpuInv(s)
    ensures r.Some? ==> PpuInv(r.value) && r.value.status.lastWrite == val && r.value.pos == s.pos
  {
    var s1 := s.(status := s.status.SetLastPpuWrite(val));
    match VtwxIncrementAddr(s.vtwx, s.ctrl.VramAddrIncrement())
    case None => None
    case Some(vt) => Some(s1.(vram := VramStoreb(s.vram, s.vtwx.v, val), vtwx := vt))
  }

  /** The eight ports repeat every eight addresses over 0x2000-0x3FFF: only the low three bits select. */
  lemma PortsMirror(s: PpuState, addr: u16, val: u8)
    requires PpuInv(s)
    ensures PpuPeekb(s, addr) == PpuPeekb(s, addr & 0x07)
    ensures PpuLoadb(s, addr) == PpuLoadb(s, addr & 0x07)
    ensures PpuStoreb(s, addr, val) == PpuStoreb(s, addr & 0x07, val)
  {
    assert (addr & 0x07) & 0x07 == addr & 0x07;
  }

  /** A PPUSTATUS read returns what peekb shows, then clears vblank and the write toggle and keeps the other flags. */
  lemma StatusReadMeaning(s: PpuState)
    requires PpuInv(s)
    ensures PpuLoadb(s, 2).Some?
    ensures PpuLoadb(s, 2).value.1 == PpuPeekb(s, 2)
    ensures var st := PpuLoadb(s, 2).value.0.status;
      !st.VblankStarted() && st.SpriteZeroHit() == s.status.SpriteZeroHit() && st.SpriteOverflow() == s.status.SpriteOverflow()
    ensures PpuLoadb(s, 2).value.0.vtwx.w.IsFirst()
  {
    SetVblankStartedOnly(s.status, false);
  }

  /**
   * PPUDATA reads lag by one below 0x3F00: the value returned is the buffer
   * left by the previous read, and the buffer now holds the byte at v; v
   * moves on by the PPUCTRL increment (1 or 32).
   */
  lemma DataReadBuffered(s: PpuState)
    requires PpuInv(s) && PpuLoadb(s, 7).Some?
    ensures var (s2, b) := PpuLoadb(s, 7).value;
      && s2.dataBuffer == VramPeekb(s.vram, s.vtwx.v)
      && b == (if s.vtwx.v <= 0x3EFF then s.dataBuffer else s2.dataBuffer)
      && s2.vtwx == s.vtwx.(v := WrappingAdd(s.vtwx.v, s.ctrl.VramAddrIncrement()))
  {
    IncrementAddrMeaning(s.vtwx, s.ctrl.VramAddrIncrement());
  }

  /**
   * A PPUDATA write stores through the VRAM decode at v and advances v by
   * the PPUCTRL increment; it panics exactly when that addition overflows.
   */
  lemma DataWriteMeaning(s: PpuState, val: u8)
    requires PpuInv(s)
    ensures PpuStoreb(s, 7, val).Some? <==> s.vtwx.v <= 0xFFFF - s.ctrl.VramAddrIncrement()
    ensures PpuStoreb(s, 7, val).Some? ==>
      && PpuStoreb(s, 7, val).value.vram == VramStoreb(s.vram, s.vtwx.v, val)
      && PpuStoreb(s, 7, val).value.vtwx == s.vtwx.(v := WrappingAdd(s.vtwx.v, s.ctrl.VramAddrIncrement()))
  {
    IncrementAddrMeaning(s.vtwx, s.ctrl.VramAddrIncrement());
  }

  /** An OAMDATA write lands at OAMADDR, which then moves on by one modulo 256. */
  lemma OamDataWriteMeaning(s: PpuState, val: u8)
    requires PpuInv(s)
    ensures PpuStoreb(s, 4, val).Some?
    ensures PpuStoreb(s, 4, val).value.oam.oam[s.oam.addr] == val
    ensures PpuStoreb(s, 4, val).value.oam.addr == (s.oam.addr + 1) % 0x100
  {
    var o := OamStoreb(s.oam, s.oam.addr, val);
    assert (s.oam.addr as u16) as nat == s.oam.addr;
    assert PpuStoreb(s, 4, val) == Some(s.(status := s.status.SetLastPpuWrite(val), oam := OamIncrementAddr(o)));
  }

  /** An OAMDATA read returns the byte at OAMADDR and changes nothing. */
  lemma OamDataReadMeaning(s: PpuState)
    requires PpuInv(s)
    ensures PpuLoadb(s, 4) == Some((s, s.oam.oam[s.oam.addr]))
  {
  }

  /** Before the first frame ends, PPUCTRL writes only reach the status latch. */
  lemma CtrlIgnoredUntilWarm(s: PpuState, val: u8)
    requires PpuInv(s) && !IsWarmedUp(s.pos)
    ensures PpuStoreb(s, 0, val) == Some(s.(status := s.status.SetLastPpuWrite(val)))
  {
  }

  /**
   * After warm-up a PPUCTRL write with bits 5 and 6 clear sets the control
   * register and t's nametable bits; raising bit 7 during vblank with the
   * flag up makes the next step report an NMI.
   */
  lemma CtrlWriteMeaning(s: PpuState, val: u8)
    requires PpuInv(s) && IsWarmedUp(s.pos) && !Bit(val, 5) && !Bit(val, 6)
    ensures PpuStoreb(s, 0, val).Some?
    ensures PpuStoreb(s, 0, val).value.ctrl == PpuControl(val)
    ensures PpuStoreb(s, 0, val).value.vtwx == VtwxStoreCtrl(s.vtwx, val)
    ensures ImmediateNmiOn(s, val) && PpuStep(PpuStoreb(s, 0, val).value).Some? ==>
      PpuStep(PpuStoreb(s, 0, val).value).value.1.vblankNmi
  {
  }

  /** PPUCTRL bits 5 (8x16 sprites) and 6 (secondary mode) are unsupported: after warm-up such a write panics. */
  lemma CtrlUnsupportedBits(s: PpuState, val: u8)
    requires PpuInv(s) && IsWarmedUp(s.pos)
    ensures PpuStoreb(s, 0, val).None? <==> Bit(val, 5) || Bit(val, 6)
  {
  }

  // ------------------------------------------------------------- the unit

  /**
   * The PPU, updated in place: VRAM, OAM and the frame are the in-place
   * buffers; the small registers (control, mask, status, vtwx, the
   * background shifter) are values the methods reassign.
   */
  class Ppu {
    var ctrl: PpuControl
    var mask: PpuMask
    var status: PpuStatus
    const vram: Vram
    const oam: Oam
    const screen: FrameBuffer.Frame
    var pos: PpuPosition
    var dataBuffer: u8
    var vtwx: VtwxState
    var shifter: PatternShifterState
    var sprites: seq<SpriteShiftState>
    var immediateNmi: bool

    function State(): PpuState
      reads this, vram, vram.nametables, vram.palette, oam, oam.oam, oam.oam2, screen, screen.bytes
    {
      PpuState(ctrl, mask, status, vram.State(), oam.State(), screen.bytes[..], pos, dataBuffer,
        vtwx, shifter, sprites, immediateNmi)
    }

    /** The byte arrays are five distinct buffers, and the state satisfies PpuInv. */
    ghost predicate Valid()
      reads this, vram, vram.nametables, vram.palette, oam, oam.oam, oam.oam2, screen, screen.bytes
    {
      && vram.Valid() && oam.Valid() && screen.Valid()
      && vram.nametables != oam.oam && vram.nametables != oam.oam2 && vram.nametables != screen.bytes
      && vram.palette != oam.oam && vram.palette != oam.oam2 && vram.palette != screen.bytes
      && oam.oam != screen.bytes && oam.oam2 != screen.bytes
      && PpuInv(State())
    }

    /** new: registers cleared, drawing into `frame`. */
    constructor (mapper: Mappers.Nrom, frame: FrameBuffer.Frame)
      requires frame.Valid()
      ensures Valid() && State() == NewPpu(mapper, frame.bytes[..])
      ensures screen == frame
    {
      ctrl := PpuControl(0);
      mask := PpuMask(0);
      status := NEW_STATUS;
      vram := new Vram(mapper);
      oam := new Oam();
      screen := frame;
      pos := START;
      dataBuffer := 0;
      vtwx := NEW_VTWX;
      shifter := NEW_PATTERN_SHIFTER;
      sprites := seq(8, _ => NEW_SPRITE_SHIFT);
      immediateNmi := false;
    }

    /**
     * The loop of sprite_pixel: every unit ticks in slot order, and the
     * first one whose pattern is opaque gives the hit when sprites are shown.
     */
    method TickUnits(shown: bool) returns (units: seq<SpriteShiftState>, hit: Option<SpriteHit>)
      requires Valid()
      ensures units == TickAll(sprites)
      ensures hit == (if shown then HitAt(vram.State(), sprites, FirstOpaque(sprites, 8)) else None)
    {
      units := sprites;
      hit := None;
      for i := 0 to 8
        invariant |units| == 8
        invariant forall j :: 0 <= j < i ==> units[j] == SsTick(sprites[j]).0
        invariant forall j :: i <= j < 8 ==> units[j] == sprites[j]
        invariant hit == (if shown then HitAt(vram.State(), sprites, FirstOpaque(sprites, i)) else None)
      {
        var t := SsTick(units[i]);
        units := units[i := t.0];
        if shown && hit.None? && t.1 != 0 {
          var color := vram.Peekb(PaletteAddr(0x3F10, SsPalette(t.0), t.1));
          hit := Some(SpriteHit(color, SsPriority(t.0), i));
        }
      }
    }

    /** sprite_pixel: ticks all eight units and returns the first opaque one's hit when sprites are shown. */
    method SpritePixel(px: nat) returns (hit: Option<SpriteHit>)
      requires Valid()
      modifies this
      ensures Valid()
      ensures (sprites, hit) == PpuSpritePixel(old(State()), px)
      ensures State() == old(State()).(sprites := sprites)
    {
      var units;
      units, hit := TickUnits(SpritesShown(mask, px));
      sprites := units;
    }

    /** background_pixel, against PpuBackgroundPixel. */
    method BackgroundPixel(px: nat) returns (bg: Option<u8>)
      requires Valid()
      ensures bg == PpuBackgroundPixel(State(), px)
    {
      if px < 8 && mask.BackgroundRenderingEnabled() {
        return None;
      }
      var pattern := PsPatternVal(shifter, vtwx.x);
      if pattern == 0 {
        return None;
      }
      var attr := PsAttrVal(shifter, vtwx.x);
      var color := vram.Peekb(PaletteAddr(0x3F00, attr, pattern));
      bg := Some(color);
    }

    /** The three writes of one pixel into the frame. */
    method PaintPixel(line: nat, px: nat, c: PpuColors.Rgb)
      requires screen.Valid() && line < 240 && px < 256
      modifies screen.bytes
      ensures screen.Valid() && screen.bytes[..] == Paint(old(screen.bytes[..]), line, px, c)
    {
      PixelOffsetsDisjoint(line, px, line, px);
      var base := PixelOffset(line, px);
      screen.Set(base, c.r);
      screen.Set(base + 1, c.g);
      screen.Set(base + 2, c.b);
    }

    /** The colour choice, the sprite 0 hit and the painting of output_pixel, against ApplyPixel. */
    method ApplyPixel(bg: Option<u8>, sp: Option<SpriteHit>, global: u8, line: nat, px: nat)
      requires Valid() && line < 240 && px < 256 && ColorsValid(bg, sp, global)
      modifies this, screen.bytes
      ensures Valid() && State() == PpuApplyPixel(old(State()), bg, sp, global, line, px)
    {
      var (c, hit) := PixelChoice(bg, sp, global, line);
      if hit {
        status := status.SetSpriteZeroHit(true);
      }
      PaintPixel(line, px, PpuColors.COLORS[c]);
    }

    /** output_pixel, against PpuOutputPixel: ok is false where the source panics on a colour index. */
    method OutputPixel(line: nat, px: nat) returns (ok: bool)
      requires Valid() && line < 240 && px < 256
      modifies this, screen.bytes
      ensures ok == PpuOutputPixel(old(State()), line, px).Some?
      ensures ok ==> Valid() && State() == PpuOutputPixel(old(State()), line, px).value
    {
      var sp := SpritePixel(px);
      var bg := BackgroundPixel(px);
      var global := vram.Peekb(0x3F00);
      if !ColorsValid(bg, sp, global) {
        return false;
      }
      ApplyPixel(bg, sp, global, line, px);
      ok := true;
    }

    /** fetch_nametable, against PpuFetchNametable. */
    method FetchNametable() returns (b: u8)
      requires Valid()
      ensures b == PpuFetchNametable(State())
    {
      FetchAddressesInRange(vtwx);
      b := vram.Peekb(TileAddr(vtwx));
    }

    /** fetch_attribute_table, against PpuFetchAttribute. */
    method FetchAttribute() returns (b: u8)
      requires Valid()
      ensures b == PpuFetchAttribute(State())
    {
      FetchAddressesInRange(vtwx);
      var attr := vram.Peekb(AttrAddr(vtwx));
      var q := AttrQuadrant(vtwx);
      if q == 0 {
        b := attr & 0x03;
      } else if q == 1 {
        b := (attr & 0x0C) >> 2;
      } else if q == 2 {
        b := (attr & 0x30) >> 4;
      } else {
        b := (attr & 0xC0) >> 6;
      }
    }

    /** The background fetches of a rendering dot, against PpuBackgroundFetch. */
    method BackgroundFetch(px: nat) returns (ok: bool)
      requires Valid()
      modifies this
      ensures ok == PpuBackgroundFetch(old(State()), px).Some?
      ensures ok ==> Valid() && State() == PpuBackgroundFetch(old(State()), px).value
    {
      ok := true;
      if NtCycle(px) {
        var b := FetchNametable();
        shifter := PsStoreNametable(shifter, b);
      } else if GarbageNtCycle(px) {
        var _ := FetchNametable();
      } else if AtCycle(px) {
        var b := FetchAttribute();
        shifter := PsStoreAttribute(shifter, b);
      } else if PatLoCycle(px) || PatHiCycle(px) {
        var plane: u16 := if PatLoCycle(px) then 0 else 8;
        var a := PatternAddr(State(), plane);
        if !VramReadable(vram.State(), a) {
          return false;
        }
        var b := vram.Peekb(a);
        shifter := if plane == 0 then PsLoadPatternLo(shifter, b) else PsLoadPatternHi(shifter, b);
      }
    }

    /** The sprite unit setup of the attribute and X dots, against PpuSpriteSetup. */
    method SpriteSetup(px: nat)
      requires Valid()
      modifies this
      ensures Valid() && State() == PpuSpriteSetup(old(State()), px)
    {
      if SpriteAttrCycle(px) {
        SpriteSlotInRange(px);
        var i := px / 8 - 32;
        var attr := oam.SpriteAttr(i);
        sprites := sprites[i := SsSetAttributes(sprites[i], attr)];
      } else if SpriteXCycle(px) {
        SpriteSlotInRange(px);
        var i := px / 8 - 32;
        var x := oam.SpriteX(i);
        sprites := sprites[i := SsSetX(sprites[i], x)];
      }
    }

    /** fetch_sprite_lo / fetch_sprite_hi and the dummy-read rule, against PpuSpritePatternByte. */
    method SpritePatternByte(line: nat, px: nat, plane: u16) returns (ok: bool, b: u8)
      requires Valid() && line <= 261 && 32 <= px / 8 < 40 && (plane == 0 || plane == 8)
      ensures ok == PpuSpritePatternByte(State(), line, px, plane).Some?
      ensures ok ==> b == PpuSpritePatternByte(State(), line, px, plane).value
    {
      var i := px / 8 - 32;
      var a := SpritePatternAddr(State(), i, line, plane);
      if !VramReadable(vram.State(), a) {
        return false, 0;
      }
      b := vram.Peekb(a);
      if oam.SpriteY(i) > 0xEE {
        b := 0;
      }
      ok := true;
    }

    /** A sprite pattern fetch loaded into its unit, against PpuSpritePatternFetch. */
    method SpritePatternFetch(line: nat, px: nat, plane: u16) returns (ok: bool)
      requires Valid() && line <= 261 && (SpriteLoCycle(px) || SpriteHiCycle(px))
      requires plane == (if SpriteLoCycle(px) then 0 else 8)
      modifies this
      ensures ok == PpuSpritePatternFetch(old(State()), line, px, plane).Some?
      ensures ok ==> Valid() && State() == PpuSpritePatternFetch(old(State()), line, px, plane).value
    {
      SpriteSlotInRange(px);
      var i := px / 8 - 32;
      var b;
      ok, b := SpritePatternByte(line, px, plane);
      if !ok {
        return;
      }
      ghost var s0 := State();
      sprites := sprites[i := if plane == 0 then SsSetPatternLo(sprites[i], b) else SsSetPatternHi(sprites[i], b)];
      assert State() == s0.(sprites := sprites);
    }

    /** Secondary OAM clear, sprite evaluation or sprite fetch, against PpuSpriteEvalOrFetch. */
    method SpriteEvalOrFetch(line: nat, px: nat) returns (ok: bool)
      requires Valid() && line <= 261
      modifies this, oam, oam.oam2
      ensures ok == PpuSpriteEvalOrFetch(old(State()), line, px).Some?
      ensures ok ==> Valid() && State() == PpuSpriteEvalOrFetch(old(State()), line, px).value
    {
      ok := true;
      if line < 240 && px == 1 {
        oam.ResetOam2();
      } else if line < 240 && 64 < px <= 256 {
        if !EvalReadsInRange(oam.State()) {
          return false;
        }
        var overflow := oam.SpriteEval(line as u16);
        if overflow {
          status := status.SetSpriteOverflow(true);
        }
      } else if SpriteNtCycle(px) {
        var _ := FetchNametable();
      } else if SpriteAtCycle(px) {
        var _ := FetchAttribute();
      } else if SpriteLoCycle(px) {
        ok := SpritePatternFetch(line, px, 0);
      } else if SpriteHiCycle(px) {
        ok := SpritePatternFetch(line, px, 8);
      }
    }

    /** The vtwx updates of a rendering dot. */
    method UpdateVtwx(line: nat, px: nat)
      requires Valid()
      modifies this
      ensures Valid() && State() == old(State()).(vtwx := PpuVtwxUpdate(old(vtwx), line, px))
    {
      vtwx := PpuVtwxUpdate(vtwx, line, px);
    }

    /** The flag updates of a dot, against StepFlags. */
    method Flags(line: nat, px: nat) returns (vblankNmi: bool, newFrame: bool)
      requires Valid()
      modifies this
      ensures Valid() && (State(), vblankNmi, newFrame) == StepFlags(old(State()), line, px)
    {
      vblankNmi, newFrame := false, false;
      if line == 241 && px == 1 {
        vblankNmi := ctrl.GenerateNmi();
        status := status.SetVblankStarted(true);
      } else if line == 261 && px == 1 {
        newFrame := true;
        status := status.SetSpriteOverflow(false).SetSpriteZeroHit(false).SetVblankStarted(false);
      }
    }

    /** Everything a rendering dot does, against PpuRenderFetches. */
    method RenderFetches(line: nat, px: nat) returns (ok: bool)
      requires Valid() && line <= 261
      modifies this, oam, oam.oam2
      ensures ok == PpuRenderFetches(old(State()), line, px).Some?
      ensures ok ==> Valid() && State() == PpuRenderFetches(old(State()), line, px).value
    {
      UpdateVtwx(line, px);
      ok := BackgroundFetch(px);
      if !ok {
        return;
      }
      if 256 < px <= 320 {
        oam.ResetAddr();
      }
      SpriteSetup(px);
      ok := SpriteEvalOrFetch(line, px);
    }

    /** The first half of a dot, against PpuLatchAndOutput. */
    method LatchAndOutput() returns (ok: bool)
      requires Valid()
      modifies this, screen.bytes
      ensures ok == PpuLatchAndOutput(old(State())).Some?
      ensures ok ==> Valid() && State() == PpuLatchAndOutput(old(State())).value
    {
      if PatternLatchCycle(pos.pixel) {
        shifter := PsLoadPatternLatches(shifter);
      }
      ok := true;
      if pos.scanline < 240 && pos.pixel < 256 {
        ok := OutputPixel(pos.scanline, pos.pixel);
      }
    }

    /** The second half of a dot, against PpuFetchAndShift. */
    method FetchAndShift(rendering: bool, line: nat, px: nat) returns (ok: bool)
      requires Valid() && line <= 261
      modifies this, oam, oam.oam2
      ensures ok == PpuFetchAndShift(old(State()), rendering, line, px).Some?
      ensures ok ==> Valid() && State() == PpuFetchAndShift(old(State()), rendering, line, px).value
    {
      ok := true;
      if rendering && !IdleLine(line) {
        ok := RenderFetches(line, px);
        if !ok {
          return;
        }
      }
      if ShiftCycle(px) {
        shifter := PsShift(shifter);
      }
    }

    /** step, against PpuStep: ok is false where the source panics. */
    method Step() returns (ok: bool, result: PpuResult)
      requires Valid()
      modifies this, oam, oam.oam2, screen.bytes
      ensures ok == PpuStep(old(State())).Some?
      ensures ok ==> Valid() && (State(), result) == PpuStep(old(State())).value
    {
      ghost var s0 := State();
      result := NO_RESULT;
      var pendingNmi := immediateNmi;
      immediateNmi := false;
      var rendering := mask.RenderingEnabled();
      var line := pos.scanline;
      var px := pos.pixel;
      assert State() == s0.(immediateNmi := false);
      ok := LatchAndOutput();
      if !ok {
        return;
      }
      ghost var s3 := State();
      assert s3 == PpuLatchAndOutput(s0.(immediateNmi := false)).value;
      var vblankNmi, newFrame := Flags(line, px);
      ghost var s4 := State();
      ok := FetchAndShift(rendering, line, px);
      if !ok {
        return;
      }
      ghost var s6 := State();
      assert s6 == PpuFetchAndShift(s4, rendering, line, px).value;
      PosStepInv(pos, rendering);
      pos := PosStep(pos, rendering);
      assert State() == s6.(pos := PosStep(s6.pos, rendering));
      result := PpuResult(newFrame, false, pendingNmi || vblankNmi);
    }

    /** peekb, against PpuPeekb. */
    function Peekb(addr: u16): (r: u8)
      reads this, vram, vram.nametables, vram.palette, oam, oam.oam, oam.oam2, screen, screen.bytes
      requires Valid()
      ensures r == PpuPeekb(State(), addr)
    {
      var port := addr & 0x07;
      if port == 0 then ctrl.bits
      else if port == 1 then mask.bits
      else if port == 2 then status.Get()
      else if port == 3 then oam.addr as u8
      else if port == 4 then oam.Peekb(oam.addr)
      else 0
    }

    /** The PPUDATA read of loadb, against PpuLoadData. */
    method LoadData() returns (ok: bool, r: u8)
      requires Valid()
      modifies this
      ensures ok == PpuLoadData(old(State())).Some?
      ensures ok ==> Valid() && (State(), r) == PpuLoadData(old(State())).value
    {
      var a := vtwx.v;
      var increment := ctrl.VramAddrIncrement();
      if !VramReadable(vram.State(), a) {
        return false, 0;
      }
      ghost var s0 := State();
      var fetched := vram.Peekb(a);
      if a <= 0x3EFF {
        r := dataBuffer;
        dataBuffer := fetched;
      } else {
        dataBuffer := fetched;
        r := dataBuffer;
      }
      match VtwxIncrementAddr(vtwx, increment)
      case None =>
        ok := false;
      case Some(vt) =>
        ghost var s1 := s0.(dataBuffer := fetched, vtwx := vt);
        assert PpuLoadData(s0) == Some((s1, r));
        vtwx := vt;
        ok := true;
        assert State() == s1;
    }

    /** loadb, against PpuLoadb: ok is false where the source panics. */
    method Loadb(addr: u16) returns (ok: bool, r: u8)
      requires Valid()
      modifies this
      ensures ok == PpuLoadb(old(State()), addr).Some?
      ensures ok ==> Valid() && (State(), r) == PpuLoadb(old(State()), addr).value
    {
      var port := addr & 0x07;
      ok := true;
      if port == 2 {
        r := status.Get();
        status := status.SetVblankStarted(false);
        vtwx := VtwxResetLatch(vtwx);
      } else if port == 4 {
        r := oam.Peekb(oam.addr);
      } else if port == 7 {
        ok, r := LoadData();
      } else {
        r := 0;
      }
    }

    /** The PPUCTRL write of storeb, against PpuStoreCtrl. */
    method StoreCtrl(val: u8) returns (ok: bool)
      requires Valid()
      modifies this
      ensures ok == PpuStoreCtrl(old(State()), val).Some?
      ensures ok ==> Valid() && State() == PpuStoreCtrl(old(State()), val).value
    {
      ghost var s0 := State();
      status := status.SetLastPpuWrite(val);
      if !IsWarmedUp(pos) {
        return true;
      }
      if Bit(val, 5) || Bit(val, 6) {
        return false;
      }
      ghost var s1 := s0.(status := s0.status.SetLastPpuWrite(val),
        immediateNmi := s0.immediateNmi || ImmediateNmiOn(s0, val),
        ctrl := PpuControl(val), vtwx := VtwxStoreCtrl(s0.vtwx, val));
      assert PpuStoreCtrl(s0, val) == Some(s1);
      if Bit(val, 7) && status.VblankStarted() && IsInVblank(pos) {
        immediateNmi := true;
      }
      ctrl := PpuControl(val);
      vtwx := VtwxStoreCtrl(vtwx, val);
      ok := true;
      assert State() == s1;
    }

    /** The PPUDATA write of storeb, against PpuStoreData. */
    method StoreData(val: u8) returns (ok: bool)
      requires Valid()
      modifies this, vram.nametables, vram.palette
      ensures ok == PpuStoreData(old(State()), val).Some?
      ensures ok ==> Valid() && State() == PpuStoreData(old(State()), val).value
    {
      ghost var s0 := State();
      status := status.SetLastPpuWrite(val);
      var inc := ctrl.VramAddrIncrement();
      vram.Storeb(vtwx.v, val);
      match VtwxIncrementAddr(vtwx, inc)
      case None =>
        ok := false;
      case Some(vt) =>
        ghost var s1 := s0.(status := s0.status.SetLastPpuWrite(val),
          vram := VramStoreb(s0.vram, s0.vtwx.v, val), vtwx := vt);
        assert PpuStoreData(s0, val) == Some(s1);
        vtwx := vt;
        ok := true;
        assert State() == s1;
    }

    /** The OAMDATA write of storeb: the byte goes to OAMADDR, which then advances. */
    method StoreOamData(val: u8)
      requires Valid()
      modifies oam, oam.oam
      ensures Valid() && State() == old(State()).(oam := OamIncrementAddr(OamStoreb(old(State()).oam, old(oam.addr), val)))
    {
      oam.Storeb(oam.addr, val);
      oam.IncrementAddr();
    }

    /** storeb, against PpuStoreb: ok is false where the source panics. */
    method Storeb(addr: u16, val: u8) returns (ok: bool)
      requires Valid()
      modifies this, oam, oam.oam, vram.nametables, vram.palette
      ensures ok == PpuStoreb(old(State()), addr, val).Some?
      ensures ok ==> Valid() && State() == PpuStoreb(old(State()), addr, val).value
    {
      var port := addr & 0x07;
      if port == 0 {
        ok := StoreCtrl(val);
      } else if port == 7 {
        ok := StoreData(val);
      } else {
        ghost var s1 := State().(status := status.SetLastPpuWrite(val));
        ok := true;
        status := status.SetLastPpuWrite(val);
        if port == 1 {
          mask := PpuMask(val);
          assert State() == s1.(mask := PpuMask(val));
        } else if port == 3 {
          oam.SetAddr(val);
          assert State() == s1.(oam := OamSetAddr(s1.oam, val));
        } else if port == 4 {
          StoreOamData(val);
          assert State() == s1.(oam := OamIncrementAddr(OamStoreb(s1.oam, s1.oam.addr, val)));
        } else if port == 5 {
          vtwx := VtwxStoreScroll(vtwx, val);
          assert State() == s1.(vtwx := VtwxStoreScroll(s1.vtwx, val));
        } else if port == 6 {
          vtwx := VtwxStoreAddr(vtwx, val);
          assert State() == s1.(vtwx := VtwxStoreAddr(s1.vtwx, val));
        } else {
          assert State() == s1;
        }
      }
    }
  }
}
