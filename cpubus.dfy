/**
 * The CPU's address map (nes/src/cpubus.rs): 2 KiB of work RAM mirrored over
 * 0x0000-0x1FFF, the PPU ports over 0x2000-0x3FFF, the controller at 0x4016,
 * the APU over the rest of 0x4000-0x4018, nothing at 0x4019-0x5FFF and the
 * cartridge's PRG side from 0x6000 up. The bus owns its devices here; the
 * source shares them through reference-counted cells, which adds nothing
 * observable in a single-threaded emulator.
 */
module CpuBus {
  import opened Types
  import Mappers
  import Input
  import Apu
  import Ppu

  /** The size of the work RAM: 0x800 bytes. */
  const RAM_LEN: nat := 0x800

  /** The device an address selects. */
  datatype Device = WorkRam | PpuPorts | Controller | ApuPorts | Unmapped | Cartridge

  /**
   * The if-chain shared by peekb, loadb and storeb. Every 16-bit address
   * falls in exactly one of six ranges, and 0x4017 goes to the APU, not to
   * the controller.
   */
  function Decode(addr: u16): (r: Device)
    ensures r.WorkRam? <==> addr < 0x2000
    ensures r.PpuPorts? <==> 0x2000 <= addr < 0x4000
    ensures r.Controller? <==> addr == 0x4016
    ensures r.ApuPorts? <==> 0x4000 <= addr <= 0x4018 && addr != 0x4016
    ensures r.Unmapped? <==> 0x4018 < addr < 0x6000
    ensures r.Cartridge? <==> 0x6000 <= addr
  {
    if addr < 0x2000 then WorkRam
    else if addr < 0x4000 then PpuPorts
    else if addr == 0x4016 then Controller
    else if addr <= 0x4018 then ApuPorts
    else if addr < 0x6000 then Unmapped
    else Cartridge
  }

  /** Ram::peekb and storeb: the cell addr & 0x7FF, so addresses 0x800 apart share a cell. */
  function RamIndex(addr: u16): (r: nat)
    ensures r < RAM_LEN
  {
    (addr & 0x7FF) as nat
  }

  /** The cell of an address is the address modulo 0x800. */
  lemma RamIndexMod(addr: u16)
    ensures RamIndex(addr) == addr as nat % RAM_LEN
  {
    RamSplit(addr);
    ModOfSplit(addr as nat, (addr >> 11) as nat, (addr & 0x7FF) as nat);
  }

  /** An address is its low 11 bits plus a multiple of 0x800. */
  lemma RamSplit(addr: u16)
    ensures (addr & 0x7FF) as nat + (addr >> 11) as nat * 0x800 == addr as nat
    ensures (addr & 0x7FF) as nat < 0x800
  {
  }

  lemma ModOfSplit(a: nat, q: nat, r: nat)
    requires a == r + q * 0x800 && r < 0x800
    ensures a % 0x800 == r
  {
  }

  /** The bus and the state of every device it reaches. */
  datatype BusState = BusState(
    ram: seq<u8>, ppu: Ppu.PpuState, gamepad: Input.GamePadState, strobe: u8,
    apu: Apu.ApuState, mapper: Mappers.Nrom)

  ghost predicate BusInv(b: BusState) {
    |b.ram| == RAM_LEN && Ppu.PpuInv(b.ppu) && b.strobe < 8
  }

  /** The controller's answer at 0x4016: the button the strobe index selects, as 0 or 1. */
  function ControllerByte(b: BusState): u8
    requires b.strobe < 8
  {
    Input.BoolByte(Input.StrobeGet(b.strobe, b.gamepad))
  }

  /**
   * peekb: the decoded device's side-effect-free read. None where the source
   * panics: a PRG read past the end of the cartridge image.
   */
  function BusPeekb(b: BusState, addr: u16): Option<u8>
    requires BusInv(b)
  {
    match Decode(addr)
    case WorkRam => Some(b.ram[RamIndex(addr)])
    case PpuPorts => Some(Ppu.PpuPeekb(b.ppu, addr))
    case Controller => Some(ControllerByte(b))
    case ApuPorts => Some(Apu.ApuPeek(b.apu, addr))
    case Unmapped => Some(0)
    case Cartridge => if b.mapper.PrgMapped(addr) then Some(b.mapper.PrgLoadb(addr)) else None
  }

  /**
   * loadb: the decoded device's read, with its side effects (PPU status and
   * data reads, the controller's strobe, the APU's IRQ flag). None where the
   * source panics.
   */
  function BusLoadb(b: BusState, addr: u16): (r: Option<(BusState, u8)>)
    requires BusInv(b)
    ensures r.Some? ==> BusInv(r.value.0)
  {
    match Decode(addr)
    case WorkRam => Some((b, b.ram[RamIndex(addr)]))
    case PpuPorts =>
      (match Ppu.PpuLoadb(b.ppu, addr)
       case None => None
       case Some(pv) => Some((b.(ppu := pv.0), pv.1)))
    case Controller => Some((b.(strobe := Input.StrobeNext(b.strobe)), ControllerByte(b)))
    case ApuPorts =>
      var av := Apu.ApuLoad(b.apu, addr);
      Some((b.(apu := av.0), av.1))
    case Unmapped => Some((b, 0))
    case Cartridge => if b.mapper.PrgMapped(addr) then Some((b, b.mapper.PrgLoadb(addr))) else None
  }

  /**
   * storeb: the decoded device's write; 0x4019-0x5FFF drops it. None where
   * the source panics (a PPU or APU register write it rejects).
   */
  function BusStoreb(b: BusState, addr: u16, val: u8): (r: Option<BusState>)
    requires BusInv(b)
    ensures r.Some? ==> BusInv(r.value)
  {
    match Decode(addr)
    case WorkRam => Some(b.(ram := b.ram[RamIndex(addr) := val]))
    case PpuPorts =>
      (match Ppu.PpuStoreb(b.ppu, addr, val)
       case None => None
       case Some(p) => Some(b.(ppu := p)))
    case Controller => Some(b.(strobe := 0))
    case ApuPorts =>
      (match Apu.ApuStore(b.apu, addr, val)
       case None => None
       case Some(a) => Some(b.(apu := a)))
    case Unmapped => Some(b)
    case Cartridge => Some(b.(mapper := b.mapper.PrgStoreb(addr, val)))
  }

  /** RAM mirroring: two addresses below 0x2000 that agree modulo 0x800 read the same cell. */
  lemma RamMirrors(b: BusState, a1: u16, a2: u16)
    requires BusInv(b) && a1 < 0x2000 && a2 < 0x2000
    requires a1 as nat % RAM_LEN == a2 as nat % RAM_LEN
    ensures BusPeekb(b, a1) == BusPeekb(b, a2)
    ensures BusLoadb(b, a1).Some? && BusLoadb(b, a1).value.0 == b
    ensures BusLoadb(b, a1).value.1 == BusPeekb(b, a2).value
  {
    assert RamIndex(a1) == RamIndex(a2) by {
      RamIndexMod(a1);
      RamIndexMod(a2);
    }
  }

  /** A RAM store succeeds and touches no device. */
  lemma RamStoreKeepsDevices(b: BusState, addr: u16, val: u8)
    requires BusInv(b) && addr < 0x2000
    ensures BusStoreb(b, addr, val).Some?
    ensures var r := BusStoreb(b, addr, val).value;
      r.ppu == b.ppu && r.gamepad == b.gamepad && r.strobe == b.strobe && r.apu == b.apu && r.mapper == b.mapper
  {
  }

  /**
   * After a RAM store, a RAM read returns the value at any mirror of the
   * address (the same cell modulo 0x800) and the old byte elsewhere.
   */
  lemma RamStoreReads(b: BusState, addr: u16, val: u8, other: u16)
    requires BusInv(b) && addr < 0x2000 && other < 0x2000
    ensures BusStoreb(b, addr, val).Some?
    ensures BusPeekb(BusStoreb(b, addr, val).value, other) ==
      if other as nat % RAM_LEN == addr as nat % RAM_LEN then Some(val) else BusPeekb(b, other)
  {
    var i, j := RamIndex(addr), RamIndex(other);
    assert (other as nat % RAM_LEN == addr as nat % RAM_LEN) == (i == j) by {
      RamIndexMod(addr);
      RamIndexMod(other);
    }
    var r := b.(ram := b.ram[i := val]);
    assert BusStoreb(b, addr, val) == Some(r);
    assert BusPeekb(r, other) == Some(r.ram[j]);
    assert BusPeekb(b, other) == Some(b.ram[j]);
    if i == j {
      assert r.ram[j] == val;
    } else {
      assert r.ram[j] == b.ram[j];
    }
  }

  /** A RAM store leaves every read above 0x1FFF as it was. */
  lemma RamStoreKeepsDeviceReads(b: BusState, addr: u16, val: u8, other: u16)
    requires BusInv(b) && addr < 0x2000 && other >= 0x2000
    ensures BusStoreb(b, addr, val).Some?
    ensures BusPeekb(BusStoreb(b, addr, val).value, other) == BusPeekb(b, other)
  {
    var r := b.(ram := b.ram[RamIndex(addr) := val]);
    assert BusStoreb(b, addr, val) == Some(r);
  }

  /** 0x4019-0x5FFF: reads return 0 and stores are dropped, with no effect anywhere. */
  lemma UnmappedRange(b: BusState, addr: u16, val: u8)
    requires BusInv(b) && 0x4019 <= addr < 0x6000
    ensures BusPeekb(b, addr) == Some(0)
    ensures BusLoadb(b, addr) == Some((b, 0))
    ensures BusStoreb(b, addr, val) == Some(b)
  {
  }

  /**
   * A store reaches only the device its address decodes to: every other
   * device keeps its state. The cartridge (NROM) ignores stores altogether.
   */
  lemma StoreTouchesOnlyDecoded(b: BusState, addr: u16, val: u8)
    requires BusInv(b) && BusStoreb(b, addr, val).Some?
    ensures var r := BusStoreb(b, addr, val).value;
      && (addr >= 0x2000 ==> r.ram == b.ram)
      && (!(0x2000 <= addr < 0x4000) ==> r.ppu == b.ppu)
      && (addr != 0x4016 ==> r.strobe == b.strobe)
      && r.gamepad == b.gamepad
      && (!(0x4000 <= addr <= 0x4018 && addr != 0x4016) ==> r.apu == b.apu)
      && r.mapper == b.mapper
  {
  }

  /** Likewise for loads: only the decoded device's state can change, and RAM never does. */
  lemma LoadTouchesOnlyDecoded(b: BusState, addr: u16)
    requires BusInv(b) && BusLoadb(b, addr).Some?
    ensures var r := BusLoadb(b, addr).value.0;
      && r.ram == b.ram
      && (!(0x2000 <= addr < 0x4000) ==> r.ppu == b.ppu)
      && (addr != 0x4016 ==> r.strobe == b.strobe)
      && r.gamepad == b.gamepad
      && (!(0x4000 <= addr <= 0x4018 && addr != 0x4016) ==> r.apu == b.apu)
      && r.mapper == b.mapper
  {
  }

  /**
   * peekb and loadb decode alike: outside the PPU ports a load returns what
   * a peek shows (and fails exactly where the peek does). The PPU differs by
   * design: its peekb shows the written registers and hides PPUDATA.
   */
  lemma PeekAgreesWithLoad(b: BusState, addr: u16)
    requires BusInv(b) && !(0x2000 <= addr < 0x4000)
    ensures BusLoadb(b, addr).Some? <==> BusPeekb(b, addr).Some?
    ensures BusLoadb(b, addr).Some? ==> BusLoadb(b, addr).value.1 == BusPeekb(b, addr).value
  {
  }

  /** The controller port reads the gamepad in the order A, B, Select, Start, Up, Down, Left, Right. */
  lemma ControllerReadsInOrder(b: BusState)
    requires BusInv(b)
    ensures BusLoadb(b, 0x4016).Some?
    ensures BusLoadb(b, 0x4016).value.1 ==
      Input.BoolByte(Input.Pressed(b.gamepad, Input.REPORT_ORDER[b.strobe as int]))
    ensures BusLoadb(b, 0x4016).value.0.strobe == Input.StrobeNext(b.strobe)
  {
    Input.StrobeGetOrder(b.strobe, b.gamepad);
  }

  /** The bus, owning the work RAM array and its devices. */
  class CpuBus {
    const ram: array<u8>
    const ppu: Ppu.Ppu
    const input: Input.Input
    const apu: Apu.Apu
    const mapper: Mappers.Nrom

    ghost function Repr(): set<object> {
      {this, ram, ppu, ppu.vram, ppu.vram.nametables, ppu.vram.palette, ppu.oam, ppu.oam.oam,
       ppu.oam.oam2, ppu.screen, ppu.screen.bytes, input} + apu.Repr()
    }

    ghost function State(): BusState
      reads Repr()
    {
      BusState(ram[..], ppu.State(), input.gamepad, input.strobe, apu.State(), mapper)
    }

    /** The RAM is its own array, every device is valid, and the PPU sees the same cartridge. */
    ghost predicate Valid()
      reads Repr()
    {
      && ram.Length == RAM_LEN && ppu.Valid() && input.Valid() && apu.Valid()
      && ram != ppu.vram.nametables && ram != ppu.vram.palette && ram != ppu.oam.oam
      && ram != ppu.oam.oam2 && ram != ppu.screen.bytes
      && ppu.vram.mapper == mapper
      && BusInv(State())
    }

    /** new: zeroed RAM in front of the given devices. */
    constructor (ppu: Ppu.Ppu, input: Input.Input, apu: Apu.Apu, mapper: Mappers.Nrom)
      requires ppu.Valid() && input.Valid() && apu.Valid() && ppu.vram.mapper == mapper
      ensures Valid()
      ensures State() == BusState(seq(RAM_LEN, _ => 0), ppu.State(), input.gamepad, input.strobe, apu.State(), mapper)
    {
      ram := new u8[RAM_LEN](_ => 0);
      this.ppu := ppu;
      this.input := input;
      this.apu := apu;
      this.mapper := mapper;
      new;
      assert ram[..] == seq(RAM_LEN, _ => 0);
    }

    /** peekb, against BusPeekb. */
    function Peekb(addr: u16): (r: Option<u8>)
      reads Repr()
      requires Valid()
      ensures r == BusPeekb(State(), addr)
    {
      if addr < 0x2000 then Some(ram[addr & 0x7FF])
      else if addr < 0x4000 then Some(ppu.Peekb(addr))
      else if addr == 0x4016 then Some(input.Peekb(addr))
      else if addr <= 0x4018 then Some(apu.Peekb(addr))
      else if addr < 0x6000 then Some(0)
      else if mapper.PrgMapped(addr) then Some(mapper.PrgLoadb(addr))
      else None
    }

    /** The PPU branch of loadb. */
    method LoadPpu(addr: u16) returns (ok: bool, r: u8)
      requires Valid() && 0x2000 <= addr < 0x4000
      modifies ppu
      ensures ok == BusLoadb(old(State()), addr).Some?
      ensures ok ==> Valid() && (State(), r) == BusLoadb(old(State()), addr).value
    {
      ghost var s0 := State();
      ok, r := ppu.Loadb(addr);
      if ok {
        assert State() == s0.(ppu := ppu.State());
      }
    }

    /** The controller branch of loadb. */
    method LoadInput(addr: u16) returns (r: u8)
      requires Valid() && addr == 0x4016
      modifies input
      ensures BusLoadb(old(State()), addr).Some?
      ensures Valid() && (State(), r) == BusLoadb(old(State()), addr).value
    {
      ghost var s0 := State();
      r := input.Loadb(addr);
      assert State() == s0.(strobe := Input.StrobeNext(s0.strobe));
    }

    /** The APU branch of loadb. */
    method LoadApu(addr: u16) returns (r: u8)
      requires Valid() && 0x4000 <= addr <= 0x4018 && addr != 0x4016
      modifies apu.frameCounter
      ensures BusLoadb(old(State()), addr).Some?
      ensures Valid() && (State(), r) == BusLoadb(old(State()), addr).value
    {
      ghost var s0 := State();
      r := apu.Loadb(addr);
      assert BusLoadb(s0, addr) == Some((s0.(apu := apu.State()), r));
      assert State() == s0.(apu := apu.State());
    }

    /** loadb, against BusLoadb: ok is false where the source panics. */
    method Loadb(addr: u16) returns (ok: bool, r: u8)
      requires Valid()
      modifies ppu, input, apu.frameCounter
      ensures ok == BusLoadb(old(State()), addr).Some?
      ensures ok ==> Valid() && (State(), r) == BusLoadb(old(State()), addr).value
    {
      ok := true;
      if addr < 0x2000 {
        r := ram[addr & 0x7FF];
      } else if addr < 0x4000 {
        ok, r := LoadPpu(addr);
      } else if addr == 0x4016 {
        r := LoadInput(addr);
      } else if addr <= 0x4018 {
        r := LoadApu(addr);
      } else if addr < 0x6000 {
        r := 0;
      } else if mapper.PrgMapped(addr) {
        r := mapper.PrgLoadb(addr);
      } else {
        ok, r := false, 0;
      }
    }

    /** The RAM branch of storeb. */
    method StoreRam(addr: u16, val: u8)
      requires Valid() && addr < 0x2000
      modifies ram
      ensures BusStoreb(old(State()), addr, val).Some?
      ensures Valid() && State() == BusStoreb(old(State()), addr, val).value
    {
      ghost var s0 := State();
      ram[addr & 0x7FF] := val;
      assert State() == s0.(ram := s0.ram[RamIndex(addr) := val]);
    }

    /** The PPU branch of storeb. */
    method StorePpu(addr: u16, val: u8) returns (ok: bool)
      requires Valid() && 0x2000 <= addr < 0x4000
      modifies ppu, ppu.oam, ppu.oam.oam, ppu.vram.nametables, ppu.vram.palette
      ensures ok == BusStoreb(old(State()), addr, val).Some?
      ensures ok ==> Valid() && State() == BusStoreb(old(State()), addr, val).value
    {
      ghost var s0 := State();
      ok := ppu.Storeb(addr, val);
      if ok {
        assert State() == s0.(ppu := ppu.State());
      }
    }

    /** The controller branch of storeb. */
    method StoreInput(addr: u16, val: u8)
      requires Valid() && addr == 0x4016
      modifies input
      ensures BusStoreb(old(State()), addr, val).Some?
      ensures Valid() && State() == BusStoreb(old(State()), addr, val).value
    {
      ghost var s0 := State();
      input.Storeb(addr, val);
      assert State() == s0.(strobe := 0);
    }

    /** The APU branch of storeb. */
    method StoreApu(addr: u16, val: u8) returns (ok: bool)
      requires Valid() && 0x4000 <= addr <= 0x4018 && addr != 0x4016
      modifies apu.square1, apu.square2, apu.triangle, apu.noise, apu.dmc, apu.frameCounter
      ensures ok == BusStoreb(old(State()), addr, val).Some?
      ensures ok ==> Valid() && State() == BusStoreb(old(State()), addr, val).value
    {
      ghost var s0 := State();
      Apu.ApuStoreTotalOn(s0.apu, addr, val);
      hide Apu.ApuStore;
      ok := apu.Storeb(addr, val);
      if ok {
        ApuOnly();
      }
    }

    /** storeb, against BusStoreb: ok is false where the source panics. */
    method Storeb(addr: u16, val: u8) returns (ok: bool)
      requires Valid()
      modifies ram, ppu, ppu.oam, ppu.oam.oam, ppu.vram.nametables, ppu.vram.palette, input
      modifies apu.square1, apu.square2, apu.triangle, apu.noise, apu.dmc, apu.frameCounter
      ensures ok == BusStoreb(old(State()), addr, val).Some?
      ensures ok ==> Valid() && State() == BusStoreb(old(State()), addr, val).value
    {
      ok := true;
      if addr < 0x2000 {
        StoreRam(addr, val);
      } else if addr < 0x4000 {
        ok := StorePpu(addr, val);
      } else if addr == 0x4016 {
        StoreInput(addr, val);
      } else if addr <= 0x4018 {
        ok := StoreApu(addr, val);
      }
    }

    // --------------------------------------- the devices' steps, as nes.rs drives them

    /** input.set through the bus: only the controller's buttons change. */
    method SetInput(state: Input.InputState)
      requires Valid()
      modifies input
      ensures Valid() && State() == old(State()).(gamepad := state.gamepad1)
    {
      input.Set(state);
    }

    /** apu.step through the bus: only the APU changes; its IRQ report is returned. */
    method StepApu() returns (irq: bool)
      requires Valid()
      modifies apu, apu.square1, apu.square2, apu.triangle, apu.noise, apu.dmc, apu.frameCounter
      ensures Valid() && Apu.ApuInv(old(State()).apu)
      ensures State() == old(State()).(apu := Apu.ApuStep(old(State()).apu).0)
      ensures irq == Apu.ApuStep(old(State()).apu).1
    {
      hide Apu.ApuStep;
      irq := apu.Step();
      ApuOnly();
    }

    /** ppu.step through the bus: only the PPU changes; ok is false where the PPU panics. */
    method StepPpu() returns (ok: bool, result: Ppu.PpuResult)
      requires Valid()
      modifies ppu, ppu.oam, ppu.oam.oam2, ppu.screen.bytes
      ensures ok == Ppu.PpuStep(old(State()).ppu).Some?
      ensures ok ==> Valid() && State() == old(State()).(ppu := Ppu.PpuStep(old(State()).ppu).value.0)
      ensures ok ==> result == Ppu.PpuStep(old(State()).ppu).value.1
    {
      ghost var s0 := State();
      ok, result := ppu.Step();
      if ok {
        assert State() == s0.(ppu := ppu.State());
      }
    }

    /** A step that touches only the APU's objects changes only the APU's part of the bus. */
    twostate lemma ApuOnly()
      requires old(Valid()) && apu.Valid()
      requires unchanged(this, ram, ppu, ppu.vram, ppu.vram.nametables, ppu.vram.palette, ppu.oam, ppu.oam.oam)
      requires unchanged(ppu.oam.oam2, ppu.screen, ppu.screen.bytes, input)
      ensures Valid() && State() == old(State()).(apu := apu.State())
    {
    }

    /** A step of some other part of the machine that touches none of the bus's objects leaves the bus as it was. */
    twostate lemma Untouched()
      requires old(Valid())
      requires unchanged(this, ram, ppu, ppu.vram, ppu.vram.nametables, ppu.vram.palette, ppu.oam, ppu.oam.oam)
      requires unchanged(ppu.oam.oam2, ppu.screen, ppu.screen.bytes, input)
      requires unchanged(apu, apu.dmc, apu.frameCounter, apu.noise, apu.square1, apu.square2, apu.triangle)
      ensures Valid() && State() == old(State())
    {
    }
  }
}
