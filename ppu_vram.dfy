/**
 * The PPU's address space (nes/src/ppu/vram.rs): pattern tables in the
 * cartridge's CHR memory below 0x2000, 2 KiB of nametable RAM mirrored over
 * 0x2000-0x3EFF, and 32 bytes of palette RAM mirrored over 0x3F00-0x3FFF.
 * Addresses are first cut to 14 bits, so the whole 16-bit range decodes.
 */
module PpuVram {
  import opened Types
  import Mappers

  const NAMETABLES_LEN: nat := 0x0800
  const PALETTE_LEN: nat := 0x20

  /** Where a PPU address lands. */
  datatype VramTarget = Chr(addr: u16) | Nametable(index: nat) | Palette(index: nat)

  /**
   * The decode shared by peekb and storeb (stores to palette 0x10 are
   * redirected afterwards). The 14-bit cut leaves the nametable and palette
   * offsets as they are, since both masks lie inside it.
   */
  function VramDecode(addr: u16): (r: VramTarget)
    ensures r.Chr? <==> addr & 0x3FFF < 0x2000
    ensures r.Nametable? <==> 0x2000 <= addr & 0x3FFF < 0x3F00
    ensures r.Palette? <==> 0x3F00 <= addr & 0x3FFF
    ensures r.Chr? ==> r.addr < 0x2000
    ensures r.Nametable? ==> r.index < NAMETABLES_LEN
    ensures r.Palette? ==> r.index < PALETTE_LEN
  {
    var a := addr & 0x3FFF;
    if a < 0x2000 then Chr(a)
    else if a < 0x3F00 then Nametable((addr & 0x07FF) as nat)
    else Palette((addr & 0x1F) as nat)
  }

  datatype VramState = VramState(mapper: Mappers.Nrom, nametables: seq<u8>, palette: seq<u8>)

  ghost predicate VramInv(s: VramState) {
    |s.nametables| == NAMETABLES_LEN && |s.palette| == PALETTE_LEN
  }

  /** new: zeroed nametables and palette over the cartridge's CHR side. */
  function NewVram(mapper: Mappers.Nrom): (r: VramState)
    ensures VramInv(r) && r.mapper == mapper
    ensures forall i :: 0 <= i < NAMETABLES_LEN ==> r.nametables[i] == 0
    ensures forall i :: 0 <= i < PALETTE_LEN ==> r.palette[i] == 0
  {
    VramState(mapper, seq(NAMETABLES_LEN, _ => 0), seq(PALETTE_LEN, _ => 0))
  }

  /** A read at `addr` is defined: pattern-table reads must fall inside the cartridge's CHR-ROM. */
  predicate VramReadable(s: VramState, addr: u16) {
    VramDecode(addr).Chr? ==> (VramDecode(addr).addr as nat) < |s.mapper.rom.chr|
  }

  /** peekb: CHR below 0x2000, a nametable byte, or a palette byte. */
  function VramPeekb(s: VramState, addr: u16): u8
    requires VramInv(s) && VramReadable(s, addr)
  {
    match VramDecode(addr)
    case Chr(a) => s.mapper.ChrPeekb(a)
    case Nametable(i) => s.nametables[i]
    case Palette(i) => s.palette[i]
  }

  /** The palette cell a store to palette index `i` writes: 0x10 lands on 0x00. */
  function PaletteStoreIndex(i: nat): nat {
    if i == 0x10 then 0x00 else i
  }

  /** storeb: the mapper's CHR store, or exactly one nametable or palette cell. */
  function VramStoreb(s: VramState, addr: u16, val: u8): (r: VramState)
    requires VramInv(s)
    ensures VramInv(r)
  {
    match VramDecode(addr)
    case Chr(a) => s.(mapper := s.mapper.ChrStoreb(a, val))
    case Nametable(i) => s.(nametables := s.nametables[i := val])
    case Palette(i) => s.(palette := s.palette[PaletteStoreIndex(i) := val])
  }

  /** Only the low 14 bits of an address matter: 0x4000-0xFFFF mirror 0x0000-0x3FFF. */
  lemma DecodeIgnoresHighBits(addr: u16)
    ensures VramDecode(addr) == VramDecode(addr & 0x3FFF)
  {
    assert (addr & 0x3FFF) & 0x07FF == addr & 0x07FF;
    assert (addr & 0x3FFF) & 0x1F == addr & 0x1F;
  }

  /** The two 1 KiB nametables at 0x2000 and 0x2400 reappear at 0x2800 and 0x2C00, and 0x3000-0x3EFF mirrors 0x2000-0x2EFF. */
  lemma NametableMirrors(k: u16)
    requires k < 0x0800
    ensures VramDecode(0x2000 + k) == VramDecode(0x2800 + k) == Nametable(k as nat)
    ensures k < 0x0700 ==> VramDecode(0x3000 + k) == Nametable(k as nat)
  {
  }

  /** The 32 palette bytes repeat every 32 addresses over 0x3F00-0x3FFF. */
  lemma PaletteMirrors(k: u16)
    requires k < 0x0100
    ensures VramDecode(0x3F00 + k) == Palette((k & 0x1F) as nat)
  {
  }

  /** CHR stores change nothing: the mapper stays the same ROM. */
  lemma ChrStoreKeepsState(s: VramState, addr: u16, val: u8)
    requires VramInv(s) && VramDecode(addr).Chr?
    ensures VramStoreb(s, addr, val) == s
  {
  }

  /**
   * A nametable store changes exactly the one decoded cell, so a read at the
   * same address (or any of its mirrors) returns the stored value and every
   * other cell keeps its value.
   */
  lemma NametableStoreMeaning(s: VramState, addr: u16, val: u8, other: u16)
    requires VramInv(s) && VramDecode(addr).Nametable?
    ensures VramPeekb(VramStoreb(s, addr, val), addr) == val
    ensures VramStoreb(s, addr, val).palette == s.palette
    ensures VramReadable(s, other) && VramDecode(other) != VramDecode(addr) ==>
      VramPeekb(VramStoreb(s, addr, val), other) == VramPeekb(s, other)
  {
  }

  /**
   * A palette store writes one cell, index addr & 0x1F except that 0x10 lands
   * on 0x00; reads of 0x3F10 are not redirected, so storing there does not
   * change what 0x3F10 reads back.
   */
  lemma PaletteStoreMeaning(s: VramState, addr: u16, val: u8)
    requires VramInv(s) && VramDecode(addr).Palette?
    ensures VramStoreb(s, addr, val).nametables == s.nametables
    ensures VramStoreb(s, addr, val).palette == s.palette[PaletteStoreIndex(VramDecode(addr).index) := val]
    ensures VramDecode(addr).index != 0x10 ==> VramPeekb(VramStoreb(s, addr, val), addr) == val
    ensures VramDecode(addr).index == 0x10 ==>
      VramPeekb(VramStoreb(s, addr, val), 0x3F00) == val &&
      VramPeekb(VramStoreb(s, addr, val), addr) == VramPeekb(s, addr)
  {
  }

  /** The PPU's memory, updated in place: the CHR side is fixed, nametables and palette are arrays. */
  class Vram {
    const mapper: Mappers.Nrom
    const nametables: array<u8>
    const palette: array<u8>

    ghost predicate Valid()
      reads this
    {
      nametables.Length == NAMETABLES_LEN && palette.Length == PALETTE_LEN && nametables != palette
    }

    function State(): VramState
      reads this, nametables, palette
    {
      VramState(mapper, nametables[..], palette[..])
    }

    constructor (mapper: Mappers.Nrom)
      ensures Valid() && fresh(nametables) && fresh(palette)
      ensures State() == NewVram(mapper)
    {
      this.mapper := mapper;
      nametables := new u8[NAMETABLES_LEN](_ => 0);
      palette := new u8[PALETTE_LEN](_ => 0);
    }

    /** peekb, against VramPeekb. */
    method Peekb(addr: u16) returns (r: u8)
      requires Valid() && VramReadable(State(), addr)
      ensures r == VramPeekb(State(), addr)
    {
      match VramDecode(addr)
      case Chr(a) => r := mapper.ChrPeekb(a);
      case Nametable(i) => r := nametables[i];
      case Palette(i) => r := palette[i];
    }

    /** storeb, against VramStoreb. */
    method Storeb(addr: u16, val: u8)
      requires Valid()
      modifies nametables, palette
      ensures Valid() && State() == VramStoreb(old(State()), addr, val)
    {
      match VramDecode(addr)
      case Chr(_) =>
      case Nametable(i) => nametables[i] := val;
      case Palette(i) =>
        var j := i;
        if j == 0x10 {
          j := 0x00;
        }
        palette[j] := val;
    }
  }
}
