/**
 * The console (nes/src/nes.rs): with_rom wires the cartridge, the PPU, the
 * APU, the work RAM and the controller behind the CPU bus and resets the
 * CPU once; step runs one CPU instruction, latches the controller input,
 * clocks the APU once and then the PPU three times, turning each PPU report
 * into an NMI or an IRQ for the CPU.
 *
 * The CPU here runs over its own flat memory image (the VecMem of the CPU
 * model), not over the CPU bus: the two halves of the machine are composed
 * side by side, as NesState shows.
 */
module Nes {
  import opened Types
  import opened Bytes
  import Rom
  import Mappers
  import Memory
  import CpuSpec
  import Cpu
  import FrameBuffer
  import Ppu
  import Apu
  import Input
  import CpuBus
  import PpuTiming

  /** WRAM_BYTE_SIZE. */
  const WRAM_BYTE_SIZE: nat := 0x0800

  /** The whole machine: the CPU registers and memory, and the devices behind the bus. */
  datatype NesState = NesState(cpu: CpuSpec.State, bus: CpuBus.BusState)

  /** What every reachable machine satisfies: the bus invariant and the APU's. */
  ghost predicate NesInv(s: NesState) {
    CpuBus.BusInv(s.bus) && Apu.ApuInv(s.bus.apu)
  }

  /** The devices as with_rom wires them: RAM zeroed, a PPU drawing into a zeroed frame, a new APU, a released controller. */
  function InitialBus(mapper: Mappers.Nrom): (r: CpuBus.BusState)
    ensures CpuBus.BusInv(r) && Apu.ApuInv(r.apu)
  {
    CpuBus.BusState(seq(WRAM_BYTE_SIZE, _ => 0), Ppu.NewPpu(mapper, seq(FrameBuffer.SCREEN_BYTES_RGB, _ => 0)),
      Input.RELEASED, 0, Apu.NEW_APU, mapper)
  }

  /** The byte the CPU finds at `a` at power-on: the cartridge's PRG from 0x8000 up, zero below. */
  function CartridgeByte(mapper: Mappers.Nrom, a: u16): u8 {
    if a >= 0x8000 && mapper.PrgMapped(a) then mapper.PrgLoadb(a) else 0
  }

  /**
   * The CPU's memory image at power-on: the cartridge's PRG from 0x8000 up, as
   * prg_loadb reads it, and zero below (the work RAM starts zeroed). A PRG
   * address past the image, where prg_loadb indexes out of range, holds 0.
   */
  function CartridgeImage(mapper: Mappers.Nrom): Memory.Image {
    seq(Memory.SIZE, i requires 0 <= i < Memory.SIZE => CartridgeByte(mapper, i as u16))
  }

  /** Reading the power-on image gives the cartridge's PRG from 0x8000 up and zero below. */
  lemma CartridgeImageReads(mapper: Mappers.Nrom, a: u16)
    ensures a >= 0x8000 && mapper.PrgMapped(a) ==> Memory.Read(CartridgeImage(mapper), a) == mapper.PrgLoadb(a)
    ensures a < 0x8000 ==> Memory.Read(CartridgeImage(mapper), a) == 0
  {
    assert Memory.Read(CartridgeImage(mapper), a) == CartridgeByte(mapper, a) by {
      hide CartridgeByte;
      assert (a as int) as u16 == a;
    }
  }

  /** with_rom: the devices fresh from their constructors, and the CPU powered on over the cartridge image and then reset once. */
  function NesWithRom(mapper: Mappers.Nrom): (r: NesState)
    ensures NesInv(r)
  {
    NesState(CpuSpec.Reset(CpuSpec.PowerOn(CartridgeImage(mapper))), InitialBus(mapper))
  }

  /**
   * After with_rom the CPU is at the cartridge's reset vector, the word at
   * 0xFFFC-0xFFFD of the PRG, with IRQs disabled, the stack pointer at 0xFD
   * and no cycle spent; the PPU is at dot 0 of line 0 of frame 0.
   */
  lemma WithRomStart(mapper: Mappers.Nrom)
    requires mapper.PrgMapped(0xFFFC) && mapper.PrgMapped(0xFFFD)
    ensures NesWithRom(mapper).cpu.pc == Word(mapper.PrgLoadb(0xFFFC), mapper.PrgLoadb(0xFFFD))
    ensures CpuSpec.Flag(NesWithRom(mapper).cpu.p, CpuSpec.IRQ_DISABLE)
    ensures NesWithRom(mapper).cpu.s == 0xFD && NesWithRom(mapper).cpu.cy == 0
    ensures NesWithRom(mapper).cpu.mem == CartridgeImage(mapper)
    ensures NesWithRom(mapper).bus.ppu.pos == PpuTiming.START
  {
    assert (0x24 as u8) | CpuSpec.IRQ_DISABLE == 0x24;
    CartridgeImageReads(mapper, 0xFFFC);
    CartridgeImageReads(mapper, 0xFFFD);
  }

  // ----------------------------------------------------------------- step

  /** How a PPU report reaches the CPU: NMI first, IRQ only without an NMI. */
  function Interrupts(cpu: CpuSpec.State, report: Ppu.PpuResult): CpuSpec.Result<CpuSpec.State> {
    if report.vblankNmi then CpuSpec.Nmi(cpu)
    else if report.scanlineIrq then CpuSpec.Irq(cpu)
    else CpuSpec.Ok(cpu)
  }

  /**
   * The part of step before the PPU: one CPU instruction, the controller
   * takes the new input, one APU step whose IRQ report is dropped. None
   * where the CPU step panics.
   */
  function NesCpuPhase(s: NesState, input: Input.InputState): (r: Option<NesState>)
    requires NesInv(s)
    ensures r.Some? <==> CpuSpec.Step(s.cpu).Ok?
    ensures r.Some? ==> NesInv(r.value)
  {
    match CpuSpec.Step(s.cpu)
    case Err(_) => None
    case Ok(cpu) =>
      Apu.ApuStepKeepsInv(s.bus.apu);
      Some(NesState(cpu, s.bus.(gamepad := input.gamepad1, apu := Apu.ApuStep(s.bus.apu).0)))
  }

  /** One pass of the loop body: a PPU step, its interrupt, and whether it finished a frame. */
  function NesPpuSubStep(s: NesState): (r: Option<(NesState, bool)>)
    requires NesInv(s)
    ensures r.Some? ==> NesInv(r.value.0)
  {
    match Ppu.PpuStep(s.bus.ppu)
    case None => None
    case Some(step) =>
      match Interrupts(s.cpu, step.1)
      case Err(_) => None
      case Ok(cpu) => Some((NesState(cpu, s.bus.(ppu := step.0)), step.1.newFrame))
  }

  /** The first `k` passes of the loop, with new_frame the OR of their reports. */
  function NesPpuSubSteps(s: NesState, k: nat): (r: Option<(NesState, bool)>)
    requires NesInv(s)
    ensures r.Some? ==> NesInv(r.value.0)
    decreases k
  {
    if k == 0 then Some((s, false))
    else
      match NesPpuSubSteps(s, k - 1)
      case None => None
      case Some(prev) =>
        match NesPpuSubStep(prev.0)
        case None => None
        case Some(next) => Some((next.0, prev.1 || next.1))
  }

  /** step: the CPU phase, then three PPU passes; None where any part panics. */
  function NesStep(s: NesState, input: Input.InputState): (r: Option<(NesState, bool)>)
    requires NesInv(s)
    ensures r.Some? ==> NesInv(r.value.0)
  {
    match NesCpuPhase(s, input)
    case None => None
    case Some(s1) => NesPpuSubSteps(s1, 3)
  }

  /** The PPU is at dot 1 of the pre-render line: the step from here reports new_frame. */
  predicate AtFrameEnd(s: NesState) {
    s.bus.ppu.pos.scanline == 261 && s.bus.ppu.pos.pixel == 1
  }

  /** The loop one pass further: the next pass runs from where the first `k` ended. */
  lemma SubStepsNext(s: NesState, k: nat)
    requires NesInv(s) && NesPpuSubSteps(s, k).Some?
    ensures NesPpuSubSteps(s, k + 1) ==
      match NesPpuSubStep(NesPpuSubSteps(s, k).value.0)
      case None => None
      case Some(next) => Some((next.0, NesPpuSubSteps(s, k).value.1 || next.1))
  {
    hide NesPpuSubStep, Ppu.PpuStep;
  }

  /** Once a pass panics the rest of the loop is never reached. */
  lemma {:induction false} SubStepsFailStays(s: NesState, j: nat, k: nat)
    requires NesInv(s) && j <= k && NesPpuSubSteps(s, j).None?
    ensures NesPpuSubSteps(s, k).None?
    decreases k
  {
    hide NesPpuSubStep, Ppu.PpuStep;
    if j < k {
      SubStepsFailStays(s, j, k - 1);
    }
  }

  /**
   * A pass touches only the PPU and the CPU: the PPU moves one dot, and the
   * CPU takes an NMI exactly when the PPU reported one and otherwise stays
   * as it was, since the PPU never raises its IRQ line.
   */
  lemma SubStepMeaning(s: NesState)
    requires NesInv(s) && NesPpuSubStep(s).Some?
    ensures Ppu.PpuStep(s.bus.ppu).Some?
    ensures NesPpuSubStep(s).value.0.bus == s.bus.(ppu := Ppu.PpuStep(s.bus.ppu).value.0)
    ensures NesPpuSubStep(s).value.0.bus.ppu.pos.cycle == s.bus.ppu.pos.cycle + 1
    ensures Ppu.PpuStep(s.bus.ppu).value.1.vblankNmi ==>
      CpuSpec.Nmi(s.cpu) == CpuSpec.Ok(NesPpuSubStep(s).value.0.cpu)
    ensures !Ppu.PpuStep(s.bus.ppu).value.1.vblankNmi ==> NesPpuSubStep(s).value.0.cpu == s.cpu
    ensures NesPpuSubStep(s).value.1 <==> AtFrameEnd(s)
  {
    Ppu.StepReports(s.bus.ppu);
  }

  /**
   * The loop advances the PPU by exactly `k` dots and leaves the RAM, the
   * controller, the APU and the cartridge alone.
   */
  lemma {:induction false} SubStepsAdvance(s: NesState, k: nat)
    requires NesInv(s) && NesPpuSubSteps(s, k).Some?
    ensures NesPpuSubSteps(s, k).value.0.bus.ppu.pos.cycle == s.bus.ppu.pos.cycle + k
    ensures NesPpuSubSteps(s, k).value.0.bus == s.bus.(ppu := NesPpuSubSteps(s, k).value.0.bus.ppu)
    decreases k
  {
    hide NesPpuSubStep, Ppu.PpuStep;
    if k > 0 {
      SubStepsAdvance(s, k - 1);
      SubStepMeaning(NesPpuSubSteps(s, k - 1).value.0);
    }
  }

  /** One pass more: new_frame gains the report of the pass that started at the end of the first `k`. */
  lemma NewFrameStep(s: NesState, k: nat)
    requires NesInv(s) && NesPpuSubSteps(s, k + 1).Some?
    ensures NesPpuSubSteps(s, k).Some?
    ensures NesPpuSubSteps(s, k + 1).value.1 ==
      (NesPpuSubSteps(s, k).value.1 || AtFrameEnd(NesPpuSubSteps(s, k).value.0))
  {
    hide Ppu.PpuStep;
    SubStepMeaning(NesPpuSubSteps(s, k).value.0);
  }

  /** Some pass among the first `k` started at the frame's end dot. */
  ghost predicate FrameEndWithin(s: NesState, k: nat)
    requires NesInv(s)
  {
    exists j :: 0 <= j < k && NesPpuSubSteps(s, j).Some? && AtFrameEnd(NesPpuSubSteps(s, j).value.0)
  }

  /**
   * new_frame is true exactly when one of the first `k` passes started at
   * the frame's end dot, i.e. when the PPU crossed into a new frame's first
   * visible line.
   */
  lemma {:induction false} NewFrameMeaning(s: NesState, k: nat)
    requires NesInv(s) && NesPpuSubSteps(s, k).Some?
    ensures NesPpuSubSteps(s, k).value.1 <==> FrameEndWithin(s, k)
    decreases k
  {
    hide NesPpuSubStep, Ppu.PpuStep;
    if k > 0 {
      NewFrameStep(s, k - 1);
      NewFrameMeaning(s, k - 1);
      var prev := NesPpuSubSteps(s, k - 1).value;
      if FrameEndWithin(s, k - 1) {
        var j :| 0 <= j < k - 1 && NesPpuSubSteps(s, j).Some? && AtFrameEnd(NesPpuSubSteps(s, j).value.0);
        assert 0 <= j < k;
      } else if AtFrameEnd(prev.0) {
        assert 0 <= k - 1 < k;
      } else {
        assert !FrameEndWithin(s, k);
      }
    }
  }

  /**
   * One step moves the PPU exactly three dots, spends one CPU instruction,
   * and takes the new controller buttons; new_frame is reported exactly when
   * one of the three dots was the frame's end dot.
   */
  lemma StepThreeDots(s: NesState, input: Input.InputState)
    requires NesInv(s) && NesStep(s, input).Some?
    ensures NesCpuPhase(s, input).Some?
    ensures NesStep(s, input).value.0.bus.ppu.pos.cycle == s.bus.ppu.pos.cycle + 3
    ensures NesStep(s, input).value.0.bus.gamepad == input.gamepad1
    ensures NesStep(s, input).value.0.bus.ram == s.bus.ram
    ensures NesStep(s, input).value.0.bus.apu == Apu.ApuStep(s.bus.apu).0
    ensures NesStep(s, input).value.1 <==> FrameEndWithin(NesCpuPhase(s, input).value, 3)
  {
    var s1 := NesCpuPhase(s, input).value;
    SubStepsAdvance(s1, 3);
    NewFrameMeaning(s1, 3);
  }

  /**
   * The CPU never sees an IRQ from the PPU: within the loop each pass either
   * leaves the CPU as it was or runs its NMI sequence, and an NMI comes only
   * at dot 1 of line 241 or from a PPUCTRL write that enabled NMI during
   * vblank.
   */
  lemma OnlyNmiReachesCpu(s: NesState)
    requires NesInv(s) && NesPpuSubStep(s).Some?
    ensures NesPpuSubStep(s).value.0.cpu == s.cpu ||
      (CpuSpec.Nmi(s.cpu) == CpuSpec.Ok(NesPpuSubStep(s).value.0.cpu) &&
       (s.bus.ppu.immediateNmi || (s.bus.ppu.pos.scanline == 241 && s.bus.ppu.pos.pixel == 1)))
  {
    SubStepMeaning(s);
    Ppu.StepReports(s.bus.ppu);
  }

  // ---------------------------------------------------------------- the machine

  /** Nes: the CPU and the bus with every device behind it. */
  class Nes {
    const cpu: Cpu.Cpu
    const bus: CpuBus.CpuBus

    ghost function Repr(): set<object> {
      {cpu, cpu.mem} + bus.Repr()
    }

    ghost function State(): NesState
      reads Repr()
    {
      NesState(cpu.State(), bus.State())
    }

    /** Every device is valid; the CPU's registers need no invariant. */
    ghost predicate Valid()
      reads Repr()
    {
      bus.Valid()
    }

    lemma ValidInv()
      requires Valid()
      ensures NesInv(State())
    {
      bus.apu.ValidInv();
    }

    /** Nes { cpu }: the CPU together with the bus it was built beside (see WithRom). */
    constructor (c: Cpu.Cpu, b: CpuBus.CpuBus)
      requires b.Valid()
      ensures cpu == c && bus == b && Valid()
    {
      cpu := c;
      bus := b;
    }

    /** The CPU phase of step, against NesCpuPhase. */
    method CpuPhase(input: Input.InputState) returns (ok: bool)
      requires Valid()
      modifies cpu, cpu.mem, bus.input, bus.apu, bus.apu.square1, bus.apu.square2, bus.apu.triangle
      modifies bus.apu.noise, bus.apu.dmc, bus.apu.frameCounter
      ensures ok == NesCpuPhase(old(State()), input).Some?
      ensures ok ==> Valid() && State() == NesCpuPhase(old(State()), input).value
    {
      ghost var s0 := State();
      ok := cpu.Step();
      if !ok {
        return;
      }
      bus.Untouched();
      bus.SetInput(input);
      var _ := bus.StepApu();
      Apu.ApuStepKeepsInv(s0.bus.apu);
    }

    /** The interrupt of one PPU report, against Interrupts; the devices are not touched. */
    method Deliver(report: Ppu.PpuResult) returns (ok: bool)
      requires Valid() && !report.scanlineIrq
      modifies cpu, cpu.mem
      ensures ok == Interrupts(old(State()).cpu, report).Ok?
      ensures ok ==> Valid() && State() == old(State()).(cpu := Interrupts(old(State()).cpu, report).value)
    {
      ok := true;
      if report.vblankNmi {
        ok := cpu.Nmi();
        bus.Untouched();
      } else if report.scanlineIrq {
        // The PPU never raises its IRQ line, so cpu.irq is unreachable here.
        assert false;
      }
    }

    /** One pass of step's loop, against NesPpuSubStep. */
    method PpuSubStep() returns (ok: bool, newFrame: bool)
      requires Valid()
      modifies cpu, cpu.mem, bus.ppu, bus.ppu.oam, bus.ppu.oam.oam2, bus.ppu.screen.bytes
      ensures ok == NesPpuSubStep(old(State())).Some?
      ensures ok ==> Valid() && (State(), newFrame) == NesPpuSubStep(old(State())).value
    {
      ghost var s0 := State();
      var result;
      newFrame := false;
      ok, result := bus.StepPpu();
      if !ok {
        return;
      }
      ghost var s1 := State();
      assert s1 == s0.(bus := s0.bus.(ppu := Ppu.PpuStep(s0.bus.ppu).value.0));
      ok := Deliver(result);
      newFrame := result.newFrame;
    }

    /** The loop of step: three PPU passes, against NesPpuSubSteps. */
    method PpuPhase() returns (ok: bool, newFrame: bool)
      requires Valid()
      modifies cpu, cpu.mem, bus.ppu, bus.ppu.oam, bus.ppu.oam.oam2, bus.ppu.screen.bytes
      ensures ok == NesPpuSubSteps(old(State()), 3).Some?
      ensures ok ==> Valid() && (State(), newFrame) == NesPpuSubSteps(old(State()), 3).value
    {
      ValidInv();
      ghost var s0 := State();
      newFrame := false;
      assert NesPpuSubSteps(s0, 0) == Some((s0, false));
      hide NesPpuSubSteps, NesPpuSubStep, Ppu.PpuStep;
      for i := 0 to 3
        invariant Valid() && NesInv(s0) && NesPpuSubSteps(s0, i) == Some((State(), newFrame))
      {
        SubStepsNext(s0, i);
        var passOk, passFrame := PpuSubStep();
        if !passOk {
          SubStepsFailStays(s0, i + 1, 3);
          return false, false;
        }
        if passFrame {
          newFrame := true;
        }
      }
      ok := true;
    }

    /** step, against NesStep: ok is false where a part panics. */
    method Step(input: Input.InputState) returns (ok: bool, newFrame: bool)
      requires Valid()
      modifies cpu, cpu.mem, bus.input, bus.apu, bus.apu.square1, bus.apu.square2, bus.apu.triangle
      modifies bus.apu.noise, bus.apu.dmc, bus.apu.frameCounter
      modifies bus.ppu, bus.ppu.oam, bus.ppu.oam.oam2, bus.ppu.screen.bytes
      ensures ok == NesStep(old(State()), input).Some?
      ensures ok ==> Valid() && (State(), newFrame) == NesStep(old(State()), input).value
    {
      hide NesCpuPhase, NesPpuSubSteps, CpuSpec.Step, Ppu.PpuStep;
      newFrame := false;
      ok := CpuPhase(input);
      if !ok {
        return;
      }
      ok, newFrame := PpuPhase();
    }
  }

  /** The CPU of with_rom: powered on over `image`, then reset once. */
  method NewCpu(image: Memory.Image) returns (c: Cpu.Cpu)
    ensures fresh(c) && fresh(c.mem)
    ensures c.State() == CpuSpec.Reset(CpuSpec.PowerOn(image))
  {
    var mem := new Memory.VecMem(image);
    c := new Cpu.Cpu(mem);
    c.Reset();
  }

  /** The devices of with_rom behind a fresh bus: a zeroed frame for the PPU, a new APU, a released controller. */
  method NewBus(mapper: Mappers.Nrom) returns (b: CpuBus.CpuBus)
    ensures fresh(b) && b.Valid()
    ensures b.State() == InitialBus(mapper)
  {
    var frame := new FrameBuffer.Frame();
    assert frame.bytes[..] == seq(FrameBuffer.SCREEN_BYTES_RGB, _ => 0);
    var ppu := new Ppu.Ppu(mapper, frame);
    var apu := new Apu.Apu();
    var input := new Input.Input();
    b := new CpuBus.CpuBus(ppu, input, apu, mapper);
  }

  /** with_rom as a whole: None when the cartridge's mapper is not supported (the source panics). */
  method WithRom(rom: Rom.Rom) returns (r: Option<Nes>)
    ensures r.None? <==> Mappers.CreateMapper(rom).Unsupported?
    ensures r.Some? ==> r.value.Valid() && r.value.State() == NesWithRom(Mappers.CreateMapper(rom).nrom)
  {
    if Mappers.CreateMapper(rom).Unsupported? {
      return None;
    }
    var mapper := Mappers.CreateMapper(rom).nrom;
    var c := NewCpu(CartridgeImage(mapper));
    var b := NewBus(mapper);
    var nes := new Nes(c, b);
    r := Some(nes);
  }
}
