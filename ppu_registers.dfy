/**
 * The PPU's registers (nes/src/ppu/registers.rs): PPUCTRL, PPUMASK and
 * PPUSTATUS as byte wrappers with their bit accessors, and the "loopy"
 * scroll registers: the current VRAM address v, the temporary address t,
 * the fine X scroll x and the write toggle w shared by PPUSCROLL and PPUADDR.
 *
 * v and t use 15 bits: coarse X in bits 0-4, coarse Y in bits 5-9, the
 * nametable select in bits 10-11 and fine Y in bits 12-14.
 */
module PpuRegisters {
  import opened Types
  import opened Bytes

  /** PPUCTRL ($2000). */
  datatype PpuControl = PpuControl(bits: u8) {
    /** base_nametable_addr: 0x2000, 0x2400, 0x2800 or 0x2C00 by bits 0-1. */
    function BaseNametableAddr(): (r: u16)
      ensures r == 0x2000 | ((bits & 0x03) as u16 << 10)
    {
      var nt := bits & 0x03;
      if nt == 0 then 0x2000 else if nt == 1 then 0x2400 else if nt == 2 then 0x2800 else 0x2C00
    }

    /** vram_addr_increment: 32 (one row down) when bit 2 is set, else 1 (one column across). */
    function VramAddrIncrement(): (r: u16)
      ensures r == 1 || r == 32
    {
      if Bit(bits, 2) then 32 else 1
    }

    /** sprite_pattern_table_address: 0x1000 when bit 3 is set, else 0x0000. */
    function SpritePatternTableAddress(): (r: u16)
      ensures r == 0x1000 <==> Bit(bits, 3)
      ensures r == 0x1000 || r == 0x0000
    {
      if Bit(bits, 3) then 0x1000 else 0x0000
    }

    /** background_pattern_table_address: 0x1000 when bit 4 is set, else 0x0000. */
    function BackgroundPatternTableAddress(): (r: u16)
      ensures r == 0x1000 <==> Bit(bits, 4)
      ensures r == 0x1000 || r == 0x0000
    {
      if Bit(bits, 4) then 0x1000 else 0x0000
    }

    function SpriteSize(): nat {
      if Bit(bits, 5) then 16 else 8
    }

    predicate IsPrimary() {
      !Bit(bits, 6)
    }

    predicate GenerateNmi() {
      Bit(bits, 7)
    }
  }

  /** PPUMASK ($2001). */
  datatype PpuMask = PpuMask(bits: u8) {
    predicate GreyscaleEnabled() { Bit(bits, 0) }
    predicate HideFirstBgTile() { !Bit(bits, 1) }
    predicate HideFirstSpriteTile() { !Bit(bits, 2) }
    predicate BackgroundRenderingEnabled() { Bit(bits, 3) }
    predicate SpriteRenderingEnabled() { Bit(bits, 4) }
    predicate EmphasizeRed() { Bit(bits, 5) }
    predicate EmphasizeGreen() { Bit(bits, 6) }
    predicate EmphasizeBlue() { Bit(bits, 7) }

    /** rendering_enabled: background or sprites are on. */
    predicate RenderingEnabled() {
      BackgroundRenderingEnabled() || SpriteRenderingEnabled()
    }
  }

  /** PPUSTATUS ($2002): the three flags in bits 5-7, and the last byte written to any port. */
  datatype PpuStatus = PpuStatus(val: u8, lastWrite: u8) {
    function SetLastPpuWrite(b: u8): PpuStatus { this.(lastWrite := b) }
    function SetSpriteOverflow(on: bool): PpuStatus { this.(val := ToggleBit(val, 5, on)) }
    function SetSpriteZeroHit(on: bool): PpuStatus { this.(val := ToggleBit(val, 6, on)) }
    function SetVblankStarted(on: bool): PpuStatus { this.(val := ToggleBit(val, 7, on)) }
    predicate SpriteOverflow() { Bit(val, 5) }
    predicate SpriteZeroHit() { Bit(val, 6) }
    predicate VblankStarted() { Bit(val, 7) }

    /** get: the flag bits 5-7 over the low five bits of the last write. */
    function Get(): u8 {
      (val & 0xE0) | (lastWrite & 0x1F)
    }
  }

  const NEW_STATUS := PpuStatus(0, 0)

  /** A read of PPUSTATUS shows the three flags in bits 5-7 and the last write in bits 0-4. */
  lemma StatusGetMeaning(s: PpuStatus)
    ensures Bit(s.Get(), 5) == s.SpriteOverflow()
    ensures Bit(s.Get(), 6) == s.SpriteZeroHit()
    ensures Bit(s.Get(), 7) == s.VblankStarted()
    ensures s.Get() & 0x1F == s.lastWrite & 0x1F
  {
  }

  /** set_sprite_overflow sets its own flag and keeps the other two and the last write. */
  lemma SetSpriteOverflowOnly(s: PpuStatus, on: bool)
    ensures s.SetSpriteOverflow(on).SpriteOverflow() == on
    ensures s.SetSpriteOverflow(on).SpriteZeroHit() == s.SpriteZeroHit()
    ensures s.SetSpriteOverflow(on).VblankStarted() == s.VblankStarted()
    ensures s.SetSpriteOverflow(on).lastWrite == s.lastWrite
  {
    var r := ToggleBit(s.val, 5, on);
    assert Bit(r, 6) == Bit(s.val, 6) && Bit(r, 7) == Bit(s.val, 7);
  }

  /** set_sprite_zero_hit sets its own flag and keeps the other two and the last write. */
  lemma SetSpriteZeroHitOnly(s: PpuStatus, on: bool)
    ensures s.SetSpriteZeroHit(on).SpriteZeroHit() == on
    ensures s.SetSpriteZeroHit(on).SpriteOverflow() == s.SpriteOverflow()
    ensures s.SetSpriteZeroHit(on).VblankStarted() == s.VblankStarted()
    ensures s.SetSpriteZeroHit(on).lastWrite == s.lastWrite
  {
    var r := ToggleBit(s.val, 6, on);
    assert Bit(r, 5) == Bit(s.val, 5) && Bit(r, 7) == Bit(s.val, 7);
  }

  /** set_vblank_started sets its own flag and keeps the other two and the last write. */
  lemma SetVblankStartedOnly(s: PpuStatus, on: bool)
    ensures s.SetVblankStarted(on).VblankStarted() == on
    ensures s.SetVblankStarted(on).SpriteOverflow() == s.SpriteOverflow()
    ensures s.SetVblankStarted(on).SpriteZeroHit() == s.SpriteZeroHit()
    ensures s.SetVblankStarted(on).lastWrite == s.lastWrite
  {
    var r := ToggleBit(s.val, 7, on);
    assert Bit(r, 5) == Bit(s.val, 5) && Bit(r, 6) == Bit(s.val, 6);
  }

  /** The write toggle w: false before the first write of a pair, true before the second. */
  datatype WriteToggle = WriteToggle(second: bool) {
    function Toggle(): WriteToggle { WriteToggle(!second) }
    function Reset(): WriteToggle { WriteToggle(false) }
    predicate IsFirst() { !second }
  }

  datatype VtwxState = VtwxState(t: u16, v: u16, w: WriteToggle, x: u8)

  /** new: every register zero, w before a first write. */
  const NEW_VTWX := VtwxState(0, 0, WriteToggle(false), 0)

  /** Wrapping 16-bit addition (u16 `+` where it cannot overflow, or wrapping_add). */
  function WrappingAdd(a: u16, b: u16): u16 {
    a + b
  }

  /** The fields of a VRAM address. */
  function CoarseX(a: u16): u16 { a & 0x001F }
  function CoarseY(a: u16): u16 { (a >> 5) & 0x001F }
  function FineYOf(a: u16): u16 { (a >> 12) & 0x0007 }
  predicate NametableX(a: u16) { a & 0x0400 != 0 }
  predicate NametableY(a: u16) { a & 0x0800 != 0 }

  /** store_ctrl: the nametable select of t becomes bits 0-1 of the value; bit 15 is cleared. */
  function VtwxStoreCtrl(s: VtwxState, val: u8): VtwxState {
    var nt := ((val & 0x03) as u16) << 10;
    s.(t := (s.t & 0x73FF) | nt)
  }

  /**
   * store_scroll: the first write sets fine X and coarse X, the second fine Y
   * and coarse Y (clearing bit 15); each write flips w.
   */
  function VtwxStoreScroll(s: VtwxState, val: u8): VtwxState {
    if s.w.IsFirst() then
      var fineX := val & 0x07;
      var coarseX := (val >> 3) as u16;
      s.(x := fineX, t := (s.t & 0xFFE0) | coarseX, w := s.w.Toggle())
    else
      var fineY := ((val & 0x07) as u16) << 12;
      var coarseY := ((val & 0xF8) as u16) << 2;
      s.(t := (s.t & 0x0C1F) | fineY | coarseY, w := s.w.Toggle())
  }

  /**
   * store_addr: the first write sets t bits 8-13 and clears bits 14-15; the
   * second sets the low byte of t and copies t into v; each write flips w.
   */
  function VtwxStoreAddr(s: VtwxState, val: u8): VtwxState {
    if s.w.IsFirst() then
      var addrHi := ((val & 0x3F) as u16) << 8;
      s.(t := (s.t & 0x00FF) | addrHi, w := s.w.Toggle())
    else
      var t := (s.t & 0x7F00) | (val as u16);
      s.(t := t, v := t, w := s.w.Toggle())
  }

  /** reset_latch: the next PPUSCROLL or PPUADDR write is a first write. */
  function VtwxResetLatch(s: VtwxState): VtwxState {
    s.(w := s.w.Reset())
  }

  /** increment_h: coarse X advances; from 31 it wraps to 0 and flips the horizontal nametable. */
  function VtwxIncrementH(s: VtwxState): VtwxState {
    if s.v & 0x001F == 0x001F then s.(v := (s.v ^ 0x0400) & 0x7FE0)
    else s.(v := WrappingAdd(s.v, 1))
  }

  /**
   * increment_v on the address alone: fine Y advances; from 7 it resets to 0
   * and coarse Y advances, wrapping at 29 (flipping the vertical nametable)
   * or, for an out-of-range coarse Y, at 31 (without a flip).
   */
  function IncrementVAddr(a: u16): u16 {
    if FineYOf(a) < 0x07 then WrappingAdd(a, 0x1000)
    else if CoarseY(a) == 0x1D then ((a ^ 0x0800) & 0x7C1F) & 0x0FFF
    else if CoarseY(a) == 0x1F then (a & 0x7C1F) & 0x0FFF
    else WrappingAdd(a, 0x0020) & 0x0FFF
  }

  /** increment_v: only v changes. */
  function VtwxIncrementV(s: VtwxState): VtwxState {
    s.(v := IncrementVAddr(s.v))
  }

  /**
   * increment_addr adds in u16 arithmetic, which overflows (a panic in a
   * debug build) when v + increment passes 0xFFFF; None there.
   */
  function VtwxIncrementAddr(s: VtwxState, increment: u16): Option<VtwxState> {
    if s.v > 0xFFFF - increment then None else Some(s.(v := WrappingAdd(s.v, increment)))
  }

  /**
   * Where it does not overflow, increment_addr moves v on by exactly the
   * increment and changes nothing else.
   */
  lemma IncrementAddrMeaning(s: VtwxState, increment: u16)
    ensures VtwxIncrementAddr(s, increment).Some? <==> s.v <= 0xFFFF - increment
    ensures VtwxIncrementAddr(s, increment).Some? ==>
      VtwxIncrementAddr(s, increment).value == s.(v := WrappingAdd(s.v, increment))
  {
  }

  /** copy_h: coarse X and the horizontal nametable bit of v come from t. */
  function VtwxCopyH(s: VtwxState): VtwxState {
    s.(v := (s.v & 0x7BE0) | (s.t & 0x041F))
  }

  /** copy_v: coarse Y, fine Y and the vertical nametable bit of v come from t. */
  function VtwxCopyV(s: VtwxState): VtwxState {
    s.(v := (s.v & 0x041F) | (s.t & 0x7BE0))
  }

  /** tile_addr: the nametable byte v points at. */
  function TileAddr(s: VtwxState): u16 {
    (s.v & 0x0FFF) | 0x2000
  }

  /** attr_addr: the attribute byte covering the tile v points at. */
  function AttrAddr(s: VtwxState): u16 {
    0x23C0 | (s.v & 0x0C00) | ((s.v >> 4) & 0x38) | ((s.v >> 2) & 0x07)
  }

  /** attr_quadrant: bit 1 of coarse X and bit 1 of coarse Y, the quadrant of the 32x32 block. */
  function AttrQuadrant(s: VtwxState): u16 {
    ((s.v & 0x02) >> 1) | ((s.v & 0x40) >> 5)
  }

  function FineY(s: VtwxState): u16 {
    (s.v & 0x7000) >> 12
  }

  /** store_ctrl replaces t bits 10-11 by bits 0-1 of the value, clears bit 15, and keeps the rest. */
  lemma StoreCtrlBits(s: VtwxState, val: u8)
    ensures VtwxStoreCtrl(s, val).t & 0x0C00 == ((val & 0x03) as u16) << 10
    ensures VtwxStoreCtrl(s, val).t & 0x73FF == s.t & 0x73FF
    ensures VtwxStoreCtrl(s, val).t & 0x8000 == 0
    ensures VtwxStoreCtrl(s, val).(t := s.t) == s
  {
  }

  /** A first PPUSCROLL write: x := bits 0-2, coarse X := bits 3-7, t bits 5-15 kept, v kept, w flipped. */
  lemma StoreScrollFirstBits(s: VtwxState, val: u8)
    requires s.w.IsFirst()
    ensures VtwxStoreScroll(s, val).x == val & 0x07
    ensures CoarseX(VtwxStoreScroll(s, val).t) == (val >> 3) as u16
    ensures VtwxStoreScroll(s, val).t & 0xFFE0 == s.t & 0xFFE0
    ensures VtwxStoreScroll(s, val).v == s.v
    ensures !VtwxStoreScroll(s, val).w.IsFirst()
  {
  }

  /**
   * A second PPUSCROLL write: fine Y := bits 0-2, coarse Y := bits 3-7, coarse
   * X and the nametable select kept, bit 15 cleared, x and v kept, w flipped.
   */
  lemma StoreScrollSecondBits(s: VtwxState, val: u8)
    requires !s.w.IsFirst()
    ensures FineYOf(VtwxStoreScroll(s, val).t) == (val & 0x07) as u16
    ensures CoarseY(VtwxStoreScroll(s, val).t) == (val >> 3) as u16
    ensures VtwxStoreScroll(s, val).t & 0x0C1F == s.t & 0x0C1F
    ensures VtwxStoreScroll(s, val).t & 0x8000 == 0
    ensures VtwxStoreScroll(s, val).x == s.x && VtwxStoreScroll(s, val).v == s.v
    ensures VtwxStoreScroll(s, val).w.IsFirst()
  {
  }

  /** A first PPUADDR write: t bits 8-13 := bits 0-5, bits 14-15 cleared, low byte kept, v kept, w flipped. */
  lemma StoreAddrFirstBits(s: VtwxState, val: u8)
    requires s.w.IsFirst()
    ensures (VtwxStoreAddr(s, val).t >> 8) & 0x3F == (val & 0x3F) as u16
    ensures VtwxStoreAddr(s, val).t & 0xC000 == 0
    ensures VtwxStoreAddr(s, val).t & 0x00FF == s.t & 0x00FF
    ensures VtwxStoreAddr(s, val).v == s.v && VtwxStoreAddr(s, val).x == s.x
    ensures !VtwxStoreAddr(s, val).w.IsFirst()
  {
  }

  /** A second PPUADDR write: t's low byte := the value, bits 8-14 kept, bit 15 cleared, then v := t, w flipped. */
  lemma StoreAddrSecondBits(s: VtwxState, val: u8)
    requires !s.w.IsFirst()
    ensures VtwxStoreAddr(s, val).t & 0x00FF == val as u16
    ensures VtwxStoreAddr(s, val).t & 0x7F00 == s.t & 0x7F00
    ensures VtwxStoreAddr(s, val).t & 0x8000 == 0
    ensures VtwxStoreAddr(s, val).v == VtwxStoreAddr(s, val).t
    ensures VtwxStoreAddr(s, val).x == s.x
    ensures VtwxStoreAddr(s, val).w.IsFirst()
  {
  }

  /** Two PPUADDR writes from a first write set v to the 14-bit address hi:lo and leave w ready for a first write. */
  lemma StoreAddrPair(s: VtwxState, hi: u8, lo: u8)
    requires s.w.IsFirst()
    ensures VtwxStoreAddr(VtwxStoreAddr(s, hi), lo).v == Word(lo, hi & 0x3F)
    ensures VtwxStoreAddr(VtwxStoreAddr(s, hi), lo).w.IsFirst()
  {
    StoreAddrFirstBits(s, hi);
    StoreAddrSecondBits(VtwxStoreAddr(s, hi), lo);
  }

  /**
   * Two PPUSCROLL writes from a first write set the whole scroll position:
   * fine and coarse X from the first, fine and coarse Y from the second,
   * keeping the nametable select.
   */
  lemma StoreScrollPair(s: VtwxState, xs: u8, ys: u8)
    requires s.w.IsFirst()
    ensures var r := VtwxStoreScroll(VtwxStoreScroll(s, xs), ys);
      && r.x == xs & 0x07 && CoarseX(r.t) == (xs >> 3) as u16
      && FineYOf(r.t) == (ys & 0x07) as u16 && CoarseY(r.t) == (ys >> 3) as u16
      && r.t & 0x0C00 == s.t & 0x0C00 && r.w.IsFirst()
  {
    StoreScrollFirstBits(s, xs);
    StoreScrollSecondBits(VtwxStoreScroll(s, xs), ys);
  }

  /** increment_h: coarse X advances modulo 32, the horizontal nametable flips exactly on the wrap. */
  lemma IncrementHMeaning(s: VtwxState)
    ensures CoarseX(VtwxIncrementH(s).v) == (CoarseX(s.v) + 1) & 0x1F
    ensures NametableX(VtwxIncrementH(s).v) == (NametableX(s.v) != (CoarseX(s.v) == 0x1F))
    ensures VtwxIncrementH(s).v & 0x7BE0 == s.v & 0x7BE0
    ensures VtwxIncrementH(s).(v := s.v) == s
  {
  }

  /** increment_v below fine Y 7: fine Y advances and nothing else of v changes. */
  lemma IncrementVFine(a: u16)
    requires FineYOf(a) < 7
    ensures FineYOf(IncrementVAddr(a)) == FineYOf(a) + 1
    ensures IncrementVAddr(a) & 0x8FFF == a & 0x8FFF
  {
    FineYStep(a);
  }

  /** Adding 0x1000 below fine Y 7 carries into no other field. */
  lemma FineYStep(a: u16)
    requires FineYOf(a) < 7
    ensures FineYOf(WrappingAdd(a, 0x1000)) == FineYOf(a) + 1
    ensures WrappingAdd(a, 0x1000) & 0x8FFF == a & 0x8FFF
  {
  }

  /**
   * increment_v at fine Y 7: fine Y becomes 0 and coarse Y goes 29 -> 0 with
   * the vertical nametable flipped, 31 -> 0 without a flip, otherwise up by
   * one; coarse X and the horizontal nametable are kept, bit 15 is cleared.
   */
  lemma IncrementVCoarse(a: u16)
    requires FineYOf(a) == 7
    ensures FineYOf(IncrementVAddr(a)) == 0
    ensures CoarseY(a) == 29 ==> CoarseY(IncrementVAddr(a)) == 0 && NametableY(IncrementVAddr(a)) == !NametableY(a)
    ensures CoarseY(a) == 31 ==> CoarseY(IncrementVAddr(a)) == 0 && NametableY(IncrementVAddr(a)) == NametableY(a)
    ensures CoarseY(a) != 29 && CoarseY(a) != 31 ==>
      CoarseY(IncrementVAddr(a)) == CoarseY(a) + 1 && NametableY(IncrementVAddr(a)) == NametableY(a)
    ensures IncrementVAddr(a) & 0x041F == a & 0x041F
    ensures IncrementVAddr(a) & 0x8000 == 0
  {
  }

  /** copy_h takes exactly t & 0x041F into v and keeps the rest of v below bit 15. */
  lemma CopyHMeaning(s: VtwxState)
    ensures VtwxCopyH(s).v & 0x041F == s.t & 0x041F
    ensures VtwxCopyH(s).v & 0x7BE0 == s.v & 0x7BE0
    ensures VtwxCopyH(s).(v := s.v) == s
  {
  }

  /** copy_v takes exactly t & 0x7BE0 into v and keeps v's coarse X and horizontal nametable. */
  lemma CopyVMeaning(s: VtwxState)
    ensures VtwxCopyV(s).v & 0x7BE0 == s.t & 0x7BE0
    ensures VtwxCopyV(s).v & 0x041F == s.v & 0x041F
    ensures VtwxCopyV(s).(v := s.v) == s
  {
  }

  /** tile_addr lies in the nametable window 0x2000-0x2FFF; attr_addr in an attribute table; the quadrant is 0-3. */
  lemma FetchAddressesInRange(s: VtwxState)
    ensures 0x2000 <= TileAddr(s) <= 0x2FFF
    ensures AttrAddr(s) & 0xF3C0 == 0x23C0 && 0x23C0 <= AttrAddr(s) <= 0x2FFF
    ensures AttrQuadrant(s) <= 3
    ensures FineY(s) == FineYOf(s.v) && FineY(s) <= 7
  {
  }

  /** The expectations of the source's own unit tests for the scroll registers. */
  lemma VtwxUnitTests()
    ensures VtwxStoreCtrl(NEW_VTWX, 0x03).t == 0x0C00
    ensures VtwxStoreCtrl(NEW_VTWX.(t := 0x7FFF), 0xFC).t == 0x73FF
    ensures VtwxStoreScroll(NEW_VTWX, 0xAA).x == 0x02 && VtwxStoreScroll(NEW_VTWX, 0xAA).t == 0x15
    ensures VtwxStoreScroll(NEW_VTWX.(x := 0x07, t := 0x7FFF), 0x55).t == 0x7FEA
    ensures VtwxStoreScroll(NEW_VTWX.(w := WriteToggle(true)), 0xAA).t == 0x22A0
    ensures VtwxStoreScroll(NEW_VTWX.(w := WriteToggle(true), t := 0x7FFF, x := 0x07), 0x55).t == 0x5D5F
    ensures VtwxStoreAddr(NEW_VTWX, 0xAA).t == 0x2A00
    ensures VtwxStoreAddr(NEW_VTWX.(t := 0x4000), 0xFF).t == 0x3F00
    ensures VtwxStoreAddr(NEW_VTWX.(t := 0x7FFF), 0x55).t == 0x15FF
    ensures VtwxStoreAddr(NEW_VTWX.(t := 0x5500, w := WriteToggle(true)), 0xAA).v == 0x55AA
    ensures VtwxCopyH(NEW_VTWX.(v := 0x5AAA, t := 0x5555)).v == 0x5EB5
    ensures VtwxCopyV(NEW_VTWX.(v := 0x5AAA, t := 0x5555)).v == 0x514A
    ensures VtwxIncrementH(NEW_VTWX.(v := 0x001F)).v == 0x0400
    ensures VtwxIncrementH(NEW_VTWX.(v := 0x041F)).v == 0x0000
    ensures VtwxIncrementV(NEW_VTWX.(v := 0x73A0)).v == 0x0800
    ensures VtwxIncrementV(NEW_VTWX.(v := 0x7BA0)).v == 0x0000
    ensures VtwxIncrementV(NEW_VTWX.(v := 0x73C0)).v == 0x03E0
    ensures VtwxIncrementV(NEW_VTWX.(v := 0x73E0)).v == 0x0000
  {
  }

  /** The loopy registers as the PPU owns them, updated in place. */
  class Vtwx {
    var t: u16
    var v: u16
    var w: WriteToggle
    var x: u8

    function State(): VtwxState
      reads this
    {
      VtwxState(t, v, w, x)
    }

    constructor ()
      ensures State() == NEW_VTWX
    {
      t, v, w, x := 0, 0, WriteToggle(false), 0;
    }

    method StoreCtrl(val: u8)
      modifies this
      ensures State() == VtwxStoreCtrl(old(State()), val)
    {
      t := (t & 0x73FF) | (((val & 0x03) as u16) << 10);
    }

    method StoreScroll(val: u8)
      modifies this
      ensures State() == VtwxStoreScroll(old(State()), val)
    {
      var a := t;
      if w.IsFirst() {
        var fineX := val & 0x07;
        var coarseX := (val >> 3) as u16;
        x := fineX;
        a := (a & 0xFFE0) | coarseX;
      } else {
        var fineY := ((val & 0x07) as u16) << 12;
        var coarseY := ((val & 0xF8) as u16) << 2;
        a := (a & 0x0C1F) | fineY | coarseY;
      }
      t := a;
      w := w.Toggle();
    }

    method StoreAddr(val: u8)
      modifies this
      ensures State() == VtwxStoreAddr(old(State()), val)
    {
      if w.IsFirst() {
        t := (t & 0x00FF) | (((val & 0x3F) as u16) << 8);
      } else {
        t := (t & 0x7F00) | (val as u16);
        v := t;
      }
      w := w.Toggle();
    }

    method ResetLatch()
      modifies this
      ensures State() == VtwxResetLatch(old(State())) && w.IsFirst()
    {
      w := w.Reset();
    }

    method IncrementH()
      modifies this
      ensures State() == VtwxIncrementH(old(State()))
    {
      if v & 0x001F == 0x001F {
        v := v ^ 0x0400;
        v := v & 0x7FE0;
      } else {
        v := WrappingAdd(v, 1);
      }
    }

    method IncrementV()
      modifies this
      ensures State() == VtwxIncrementV(old(State()))
    {
      var a := v;
      if FineYOf(a) < 0x07 {
        a := WrappingAdd(a, 0x1000);
      } else if CoarseY(a) == 0x1D {
        a := ((a ^ 0x0800) & 0x7C1F) & 0x0FFF;
      } else if CoarseY(a) == 0x1F {
        a := (a & 0x7C1F) & 0x0FFF;
      } else {
        a := WrappingAdd(a, 0x0020) & 0x0FFF;
      }
      v := a;
    }

    /** increment_addr: ok is false where the u16 addition overflows, and then nothing changes. */
    method IncrementAddr(increment: u16) returns (ok: bool)
      modifies this
      ensures ok == VtwxIncrementAddr(old(State()), increment).Some?
      ensures ok ==> State() == VtwxIncrementAddr(old(State()), increment).value
      ensures !ok ==> State() == old(State())
    {
      if v > 0xFFFF - increment {
        return false;
      }
      v := WrappingAdd(v, increment);
      ok := true;
    }

    method CopyH()
      modifies this
      ensures State() == VtwxCopyH(old(State()))
    {
      v := (v & 0x7BE0) | (t & 0x041F);
    }

    method CopyV()
      modifies this
      ensures State() == VtwxCopyV(old(State()))
    {
      v := (v & 0x041F) | (t & 0x7BE0);
    }
  }
}
