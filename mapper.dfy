/**
 * Cartridge mappers (nes/src/mapper.rs, nes/src/mapper/nrom.rs,
 * nes/src/mapper/uxrom.rs). create_mapper accepts only iNES mapper 0 (NROM),
 * whose banks are fixed; UxROM switches its 16 KiB window at 0x8000-0xBFFF
 * on any PRG store and keeps the last bank at 0xC000-0xFFFF.
 */
module Mappers {
  import opened Types
  import Rom

  /** The PRG-ROM bank size shared by both mappers: 16 KiB. */
  const PRG_ROM_BANK_LEN: nat := 0x4000

  /** What next_scanline reports; NROM and UxROM never raise a scanline interrupt. */
  datatype MapperResult = Continue

  /**
   * NROM: up to 32 KiB of PRG-ROM at 0x8000-0xFFFF, a single 16 KiB bank
   * appearing twice, and CHR-ROM read directly. Nothing in it ever changes.
   */
  datatype Nrom = Nrom(rom: Rom.Rom) {
    /** The PRG index an address at or above 0x8000 selects: 15 address bits with two banks, 14 with one. */
    function PrgIndex(addr: u16): nat {
      if |rom.prg| > PRG_ROM_BANK_LEN then (addr & 0x7FFF) as nat else (addr & 0x3FFF) as nat
    }

    /** A PRG read at `addr` stays inside the image (reads below 0x8000 touch no ROM). */
    predicate PrgMapped(addr: u16) {
      addr < 0x8000 || PrgIndex(addr) < |rom.prg|
    }

    /** prg_loadb: 0 below 0x8000, otherwise the byte at PrgIndex. */
    function PrgLoadb(addr: u16): u8
      requires PrgMapped(addr)
    {
      if addr < 0x8000 then 0 else rom.prg[PrgIndex(addr)]
    }

    /** prg_storeb: ROM ignores stores. */
    function PrgStoreb(addr: u16, val: u8): Nrom {
      this
    }

    /** chr_peekb: the CHR-ROM byte at `addr`. */
    function ChrPeekb(addr: u16): u8
      requires (addr as nat) < |rom.chr|
    {
      rom.chr[addr]
    }

    /** chr_loadb is chr_peekb: the byte at `addr`, with no side effect. */
    function ChrLoadb(addr: u16): (r: u8)
      requires (addr as nat) < |rom.chr|
      ensures r == rom.chr[addr as nat] && r == ChrPeekb(addr)
    {
      ChrPeekb(addr)
    }

    /** chr_storeb: ROM ignores stores. */
    function ChrStoreb(addr: u16, val: u8): Nrom {
      this
    }

    function NextScanline(): MapperResult {
      Continue
    }
  }

  /**
   * What a PRG read of NROM means: 0 below 0x8000; with two banks the byte at
   * offset addr - 0x8000; with one bank the byte at that offset modulo 16 KiB.
   */
  lemma NromPrgMeaning(n: Nrom, addr: u16)
    requires n.PrgMapped(addr)
    ensures addr < 0x8000 ==> n.PrgLoadb(addr) == 0
    ensures 0x8000 <= addr && |n.rom.prg| > PRG_ROM_BANK_LEN ==>
      n.PrgLoadb(addr) == n.rom.prg[(addr - 0x8000) as int]
    ensures 0x8000 <= addr && |n.rom.prg| <= PRG_ROM_BANK_LEN ==>
      n.PrgLoadb(addr) == n.rom.prg[((addr - 0x8000) % 0x4000) as int]
  {
    if 0x8000 <= addr {
      assert addr & 0x7FFF == addr - 0x8000;
      assert addr & 0x3FFF == (addr - 0x8000) % 0x4000;
    }
  }

  /** With one 16 KiB bank, 0x8000 + k and 0xC000 + k read the same byte. */
  lemma NromMirrorsSingleBank(n: Nrom, k: u16)
    requires |n.rom.prg| <= PRG_ROM_BANK_LEN && k < 0x4000
    requires n.PrgMapped(0x8000 + k)
    ensures n.PrgMapped(0xC000 + k)
    ensures n.PrgLoadb(0x8000 + k) == n.PrgLoadb(0xC000 + k)
  {
    assert (0x8000 + k) & 0x3FFF == k;
    assert (0xC000 + k) & 0x3FFF == k;
  }

  /** An image of exactly one or two 16 KiB banks is fully mapped: no PRG read leaves it. */
  lemma NromStandardImagesMapped(n: Nrom, addr: u16)
    requires |n.rom.prg| == PRG_ROM_BANK_LEN || |n.rom.prg| == 2 * PRG_ROM_BANK_LEN
    ensures n.PrgMapped(addr)
  {
    assert (addr & 0x3FFF) as int < 0x4000;
    assert (addr & 0x7FFF) as int < 0x8000;
  }

  /** The outcome of create_mapper; an unsupported mapper number panics in the source. */
  datatype MapperChoice = Created(nrom: Nrom) | Unsupported(id: u8)

  /** create_mapper: dispatch on ines_mapper alone; 0 is NROM over the whole ROM, anything else is refused. */
  function CreateMapper(rom: Rom.Rom): (r: MapperChoice)
    ensures r.Created? <==> Rom.InesMapper(rom.header) == 0
    ensures r.Created? ==> r.nrom.rom == rom
    ensures r.Unsupported? ==> r.id == Rom.InesMapper(rom.header) && r.id != 0
  {
    match Rom.InesMapper(rom.header)
    case 0 => Created(Nrom(rom))
    case x => Unsupported(x)
  }

  /**
   * An image that parses with mapper 0 and one or two PRG banks gives an NROM
   * whose every PRG read stays inside PRG-ROM and whose CHR covers the
   * 8 KiB pattern space per CHR bank.
   */
  lemma ParsedNromIsMapped(stream: seq<u8>, addr: u16)
    requires Rom.ParseRom(stream).Ok?
    requires Rom.InesMapper(Rom.ParseRom(stream).value.header) == 0
    requires Rom.ParseRom(stream).value.header.prgRomSize in {1, 2}
    ensures CreateMapper(Rom.ParseRom(stream).value).Created?
    ensures CreateMapper(Rom.ParseRom(stream).value).nrom.PrgMapped(addr)
    ensures |CreateMapper(Rom.ParseRom(stream).value).nrom.rom.chr| ==
      Rom.ParseRom(stream).value.header.chrRomSize as nat * Rom.CHR_BANK_LEN
  {
    Rom.ParseRomLayout(stream);
    var n := CreateMapper(Rom.ParseRom(stream).value).nrom;
    NromStandardImagesMapped(n, addr);
  }

  /**
   * UxROM: a switchable 16 KiB window at 0x8000-0xBFFF whose bank number is
   * set by any PRG store, and the last bank fixed at 0xC000-0xFFFF. As
   * written, CHR reads and writes go to the PRG-ROM bytes.
   */
  class Uxrom {
    var bank: nat
    const header: Rom.INesHeader
    var prg: seq<u8>

    ghost predicate Valid()
      reads this
    {
      bank < 16
    }

    /** new: bank 0 over the given ROM. */
    constructor (rom: Rom.Rom)
      ensures Valid() && bank == 0 && header == rom.header && prg == rom.prg
    {
      bank := 0;
      header := rom.header;
      prg := rom.prg;
    }

    /** The PRG index of an address at or above 0x8000: the last bank above 0xC000, the selected bank below. */
    function PrgIndex(addr: u16): int
      reads this
      requires 0x8000 <= addr
    {
      if addr >= 0xC000 then (header.prgRomSize as int - 1) * PRG_ROM_BANK_LEN + (addr & 0x3FFF) as int
      else bank * PRG_ROM_BANK_LEN + (addr & 0x3FFF) as int
    }

    /**
     * A PRG read at `addr` is defined: below 0x8000 always; above it the ROM
     * has at least one bank (prg_rom_size - 1 must not underflow) and the
     * index is inside the image.
     */
    predicate PrgMapped(addr: u16)
      reads this
    {
      addr < 0x8000 || (header.prgRomSize >= 1 && PrgIndex(addr) < |prg|)
    }

    /** prg_loadb: 0 below 0x8000, otherwise the byte at PrgIndex. */
    function PrgLoadb(addr: u16): u8
      reads this
      requires PrgMapped(addr)
    {
      if addr < 0x8000 then 0 else prg[PrgIndex(addr)]
    }

    /** prg_storeb: at any address, the bank number becomes the low nibble of the value. */
    method PrgStoreb(addr: u16, val: u8)
      requires Valid()
      modifies this
      ensures Valid() && bank == (val & 0x0F) as nat && prg == old(prg)
    {
      bank := (val & 0x0F) as nat;
    }

    /** chr_peekb: as written, the PRG-ROM byte at `addr`. */
    function ChrPeekb(addr: u16): u8
      reads this
      requires (addr as nat) < |prg|
    {
      prg[addr]
    }

    /** chr_loadb is chr_peekb. */
    method ChrLoadb(addr: u16) returns (r: u8)
      requires (addr as nat) < |prg|
      ensures r == ChrPeekb(addr) && r == prg[addr as nat]
    {
      r := ChrPeekb(addr);
    }

    /** chr_storeb: as written, overwrites the PRG-ROM byte at `addr`; the next chr_peekb there returns it. */
    method ChrStoreb(addr: u16, val: u8)
      requires Valid() && (addr as nat) < |prg|
      modifies this
      ensures Valid() && prg == old(prg)[addr as nat := val] && bank == old(bank)
      ensures ChrPeekb(addr) == val
    {
      prg := prg[addr as nat := val];
    }

    function NextScanline(): MapperResult {
      Continue
    }
  }

  /**
   * What a UxROM PRG read means: 0 below 0x8000; at 0xC000-0xFFFF the last
   * bank whatever the bank number; at 0x8000-0xBFFF the selected bank.
   */
  lemma UxromPrgMeaning(u: Uxrom, addr: u16)
    requires u.PrgMapped(addr)
    ensures addr < 0x8000 ==> u.PrgLoadb(addr) == 0
    ensures 0xC000 <= addr ==>
      u.PrgIndex(addr) == (u.header.prgRomSize as int - 1) * PRG_ROM_BANK_LEN + (addr - 0xC000) as int
    ensures 0x8000 <= addr < 0xC000 ==>
      u.PrgIndex(addr) == u.bank * PRG_ROM_BANK_LEN + (addr - 0x8000) as int
    ensures 0x8000 <= addr ==> u.PrgLoadb(addr) == u.prg[u.PrgIndex(addr)]
  {
    if 0xC000 <= addr {
      assert addr & 0x3FFF == addr - 0xC000;
    } else if 0x8000 <= addr {
      assert addr & 0x3FFF == addr - 0x8000;
    }
  }

  /** Bank switching never moves the fixed window: a PRG store leaves reads at 0xC000-0xFFFF as they were. */
  method UxromSwitchKeepsFixedBank(u: Uxrom, store: u16, val: u8, addr: u16)
    returns (before: u8, after: u8)
    requires u.Valid() && 0xC000 <= addr && u.PrgMapped(addr)
    modifies u
    ensures before == after
  {
    before := u.PrgLoadb(addr);
    u.PrgStoreb(store, val);
    after := u.PrgLoadb(addr);
  }
}
