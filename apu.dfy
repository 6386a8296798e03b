/**
 * The APU (nes/src/audio/apu.rs): five channels and the frame counter, the
 * per-cycle step that distributes the frame counter's pulses, the status
 * register 0x4015 and the register write dispatch over 0x4000-0x4017.
 */
module Apu {
  import opened Types
  import opened Bytes
  import opened ApuCounters
  import opened ApuFrameCounter
  import opened ApuChannels

  datatype ApuState = ApuState(
    dmc: DmcState, evenCycle: bool, frame: FrameState, noise: NoiseState,
    square1: SquareState, square2: SquareState, triangle: TriangleState)

  /** Apu::new: even_cycle starts true, and the squares are built with indices 1 and 2. */
  const NEW_APU := ApuState(NEW_DMC, true, NEW_FRAME_COUNTER, NEW_NOISE, NewSquare(1), NewSquare(2), NEW_TRIANGLE)

  predicate ApuInv(a: ApuState) {
    SquareInv(a.square1) && SquareInv(a.square2) && NoiseInv(a.noise) && TriangleInv(a.triangle)
  }

  /** A half-frame pulse clocks square 1, square 2, noise and triangle, in that order. */
  function ApuHalfFrame(a: ApuState): ApuState
    requires ApuInv(a)
  {
    a.(square1 := SquareHalfFrame(a.square1), square2 := SquareHalfFrame(a.square2),
       noise := NoiseHalfFrame(a.noise), triangle := TriangleHalfFrame(a.triangle))
  }

  function ApuQuarterFrame(a: ApuState): ApuState {
    a.(square1 := SquareQuarterFrame(a.square1), square2 := SquareQuarterFrame(a.square2),
       noise := NoiseQuarterFrame(a.noise), triangle := TriangleQuarterFrame(a.triangle))
  }

  /** The channels clocked on even cycles only: both squares, noise and DMC. */
  function ApuClockEven(a: ApuState): ApuState {
    a.(square1 := SquareClock(a.square1), square2 := SquareClock(a.square2),
       noise := NoiseClock(a.noise), dmc := a.dmc.(timer := TimerTick(a.dmc.timer)))
  }

  /**
   * step: toggle even_cycle, step the frame counter, deliver its half- and
   * then quarter-frame pulses, clock the even-cycle channels when even_cycle
   * is now true, clock the triangle every time; the result is the irq flag.
   */
  function ApuStep(a: ApuState): (ApuState, bool)
    requires ApuInv(a)
  {
    var a1 := a.(evenCycle := !a.evenCycle);
    var (f, r) := FrameStep(a1.frame);
    var a2 := a1.(frame := f);
    var a3 := if r.halfFrame then ApuHalfFrame(a2) else a2;
    var a4 := if r.quarterFrame then ApuQuarterFrame(a3) else a3;
    var a5 := if a4.evenCycle then ApuClockEven(a4) else a4;
    (a5.(triangle := TriangleClock(a5.triangle)), r.irq)
  }

  /** update_flags: bits 0-4 enable square 1, square 2, triangle, noise and DMC. */
  function ApuUpdateFlags(a: ApuState, val: u8): ApuState {
    a.(square1 := SquareSetEnabled(a.square1, Bit(val, 0)),
       square2 := SquareSetEnabled(a.square2, Bit(val, 1)),
       noise := NoiseSetEnabled(a.noise, Bit(val, 3)))
  }

  /** One bit of the status byte: `mask` when the channel is running. */
  function StatusBit(running: bool, mask: u8): u8 {
    if running then mask else 0
  }

  /** peekb: 0x4015 reports which channels are running in bits 0-4; every other address reads 0. */
  function ApuPeek(a: ApuState, addr: u16): u8 {
    if addr != 0x4015 then 0
    else
      StatusBit(false, 0x10) | StatusBit(NoiseIsRunning(a.noise), 0x08)
      | StatusBit(TriangleIsRunning(a.triangle), 0x04)
      | StatusBit(SquareIsRunning(a.square2), 0x02) | StatusBit(SquareIsRunning(a.square1), 0x01)
  }

  /** loadb: a 0x4015 read also clears the frame counter's IRQ flag. */
  function ApuLoad(a: ApuState, addr: u16): (ApuState, u8) {
    if addr != 0x4015 then (a, 0)
    else
      var a1 := a.(frame := a.frame.(irqFlag := false));
      (a1, ApuPeek(a1, addr))
  }

  /** A write to square register `reg` (0x4000 + reg, or 0x4004 + reg). */
  function SquareWrite(s: SquareState, reg: u16, val: u8): SquareState
    requires reg < 4
  {
    if reg == 0 then SquareSetDuty(s, val)
    else if reg == 1 then SquareSetSweep(s, val)
    else if reg == 2 then SquareSetTimerLo(s, val)
    else SquareSetLenTimerHi(s, val)
  }

  /** A write to triangle register `reg` (0x4008 + reg); 0x4009 is unused. */
  function TriangleWrite(t: TriangleState, reg: u16, val: u8): TriangleState
    requires reg < 4
  {
    if reg == 0 then TriangleSetControl(t, val)
    else if reg == 1 then t
    else if reg == 2 then TriangleSetTimerLo(t, val)
    else TriangleSetLenTimerHi(t, val)
  }

  /** A write to noise register `reg` (0x400C + reg); 0x400D is unused. */
  function NoiseWrite(n: NoiseState, reg: u16, val: u8): NoiseState
    requires reg < 4
  {
    if reg == 0 then NoiseSetHaltConstEnvelope(n, val)
    else if reg == 1 then n
    else if reg == 2 then NoiseSetLoopPeriod(n, val)
    else NoiseSetLen(n, val)
  }

  /** A write to DMC register `reg` (0x4010 + reg); set_counter changes nothing. */
  function DmcWrite(d: DmcState, reg: u16, val: u8): DmcState
    requires reg < 4
  {
    if reg == 0 then DmcSetIrqLoopFreq(d, val)
    else if reg == 1 then d
    else if reg == 2 then d.(sampleAddr := SampleAddress(val))
    else d.(sampleLen := SampleLength(val))
  }

  /** The addresses storeb accepts; every other address reaches unreachable!(). */
  predicate IsApuRegister(addr: u16) {
    (0x4000 <= addr <= 0x4013) || addr == 0x4015 || addr == 0x4017
  }

  /** storeb: the register dispatch; None where the source panics. */
  function ApuStore(a: ApuState, addr: u16, val: u8): Option<ApuState> {
    if 0x4000 <= addr <= 0x4003 then Some(a.(square1 := SquareWrite(a.square1, addr - 0x4000, val)))
    else if 0x4004 <= addr <= 0x4007 then Some(a.(square2 := SquareWrite(a.square2, addr - 0x4004, val)))
    else if 0x4008 <= addr <= 0x400B then Some(a.(triangle := TriangleWrite(a.triangle, addr - 0x4008, val)))
    else if 0x400C <= addr <= 0x400F then Some(a.(noise := NoiseWrite(a.noise, addr - 0x400C, val)))
    else if 0x4010 <= addr <= 0x4013 then Some(a.(dmc := DmcWrite(a.dmc, addr - 0x4010, val)))
    else if addr == 0x4015 then Some(ApuUpdateFlags(a, val))
    else if addr == 0x4017 then Some(a.(frame := FrameUpdate(a.frame, val)))
    else None
  }

  // ------------------------------------------------------------ properties

  /** Every step keeps the channel invariants. */
  lemma ApuStepKeepsInv(a: ApuState)
    requires ApuInv(a)
    ensures ApuInv(ApuStep(a).0)
  {
    var (_, r) := FrameStep(a.frame);
    SquarePulsesKeepInv(a.square1, r.halfFrame, r.quarterFrame, !a.evenCycle);
    SquarePulsesKeepInv(a.square2, r.halfFrame, r.quarterFrame, !a.evenCycle);
    NoisePulsesKeepInv(a.noise, r.halfFrame, r.quarterFrame, !a.evenCycle);
    var t := ApuStep(a).0.triangle;
    assert TriangleInv(t) by {
      assert t.seqIdx < 32;
    }
  }

  /** even_cycle flips on every step, and the step reports exactly the frame counter's irq. */
  lemma ApuStepIrq(a: ApuState)
    requires ApuInv(a)
    ensures ApuStep(a).0.evenCycle == !a.evenCycle
    ensures ApuStep(a).1 == FrameStep(a.frame).1.irq
    ensures ApuStep(a).0.frame == FrameStep(a.frame).0
  {
  }

  /** The DMC timer ticks exactly on the steps that make even_cycle true. */
  lemma ApuStepDmcCadence(a: ApuState)
    requires ApuInv(a)
    ensures ApuStep(a).0.dmc == if a.evenCycle then a.dmc else a.dmc.(timer := TimerTick(a.dmc.timer))
  {
  }

  /** Over any two consecutive steps the DMC timer ticks exactly once. */
  lemma ApuTwoStepsTickDmcOnce(a: ApuState)
    requires ApuInv(a)
    ensures ApuInv(ApuStep(a).0)
    ensures ApuStep(ApuStep(a).0).0.dmc.timer == TimerTick(a.dmc.timer)
  {
    ApuStepKeepsInv(a);
    ApuStepDmcCadence(a);
    ApuStepDmcCadence(ApuStep(a).0);
  }

  /** The triangle timer ticks on every step. */
  lemma ApuStepTriangleTimer(a: ApuState)
    requires ApuInv(a)
    ensures ApuStep(a).0.triangle.timer == TimerTick(a.triangle.timer)
  {
  }

  /** On a step that makes even_cycle false, the square sequencers and the noise LFSR do not move. */
  lemma ApuOddStepHoldsPulses(a: ApuState)
    requires ApuInv(a) && a.evenCycle
    ensures ApuStep(a).0.square1.sequencer == a.square1.sequencer
    ensures ApuStep(a).0.square2.sequencer == a.square2.sequencer
    ensures ApuStep(a).0.noise.shift == a.noise.shift
  {
  }

  /** Length counters are clocked exactly on half-frame pulses. */
  lemma ApuStepLengthOnHalfFrame(a: ApuState)
    requires ApuInv(a)
    ensures var half := FrameStep(a.frame).1.halfFrame;
      && ApuStep(a).0.square1.length == (if half then LengthClock(a.square1.length) else a.square1.length)
      && ApuStep(a).0.noise.length == (if half then LengthClock(a.noise.length) else a.noise.length)
      && ApuStep(a).0.triangle.length == (if half then LengthClock(a.triangle.length) else a.triangle.length)
  {
  }

  /** Envelopes and the linear counter are clocked exactly on quarter-frame pulses. */
  lemma ApuStepEnvelopeOnQuarterFrame(a: ApuState)
    requires ApuInv(a)
    ensures var quarter := FrameStep(a.frame).1.quarterFrame;
      && ApuStep(a).0.noise.envelope == (if quarter then EnvelopeClock(a.noise.envelope) else a.noise.envelope)
      && ApuStep(a).0.square1.envelope == (if quarter then EnvelopeClock(a.square1.envelope) else a.square1.envelope)
      && ApuStep(a).0.triangle.linear == (if quarter then LinearClock(a.triangle.linear, a.triangle.controlFlag) else a.triangle.linear)
  {
  }

  /** The status byte: bits 0-3 report the running channels, bit 4 (DMC) and bits 5-7 are 0. */
  lemma ApuPeekStatus(a: ApuState)
    ensures var r := ApuPeek(a, 0x4015);
      && (Bit(r, 0) <==> SquareIsRunning(a.square1))
      && (Bit(r, 1) <==> SquareIsRunning(a.square2))
      && (Bit(r, 2) <==> TriangleIsRunning(a.triangle))
      && (Bit(r, 3) <==> NoiseIsRunning(a.noise))
      && r < 0x10
  {
  }

  /** peekb reads 0 outside 0x4015. */
  lemma ApuPeekElsewhere(a: ApuState, addr: u16)
    requires addr != 0x4015
    ensures ApuPeek(a, addr) == 0
  {
  }

  /** loadb returns what peekb returns, and only a 0x4015 read changes state: it clears the IRQ flag. */
  lemma ApuLoadMeaning(a: ApuState, addr: u16)
    ensures ApuLoad(a, addr).1 == ApuPeek(a, addr)
    ensures addr == 0x4015 ==> ApuLoad(a, addr).0 == a.(frame := a.frame.(irqFlag := false))
    ensures addr != 0x4015 ==> ApuLoad(a, addr).0 == a
  {
  }

  /** storeb succeeds exactly on the APU's registers. */
  lemma ApuStoreTotalOn(a: ApuState, addr: u16, val: u8)
    ensures ApuStore(a, addr, val).Some? <==> IsApuRegister(addr)
  {
  }

  /** Writes to 0x4009 and 0x400D change nothing. */
  lemma ApuStoreUnused(a: ApuState, val: u8)
    ensures ApuStore(a, 0x4009, val) == Some(a)
    ensures ApuStore(a, 0x400D, val) == Some(a)
  {
  }

  /** A square 1 register write changes square 1 only. */
  lemma ApuStoreSquare1Only(a: ApuState, addr: u16, val: u8)
    requires 0x4000 <= addr <= 0x4003
    ensures ApuStore(a, addr, val).Some?
    ensures ApuStore(a, addr, val).value == a.(square1 := ApuStore(a, addr, val).value.square1)
  {
  }

  /** A 0x4015 write disables exactly the channels whose bit is clear; a set bit leaves the channel alone. */
  lemma ApuUpdateFlagsMeaning(a: ApuState, val: u8)
    ensures var r := ApuUpdateFlags(a, val);
      && (!Bit(val, 0) ==> !SquareIsRunning(r.square1)) && (Bit(val, 0) ==> r.square1 == a.square1)
      && (!Bit(val, 1) ==> !SquareIsRunning(r.square2)) && (Bit(val, 1) ==> r.square2 == a.square2)
      && (!Bit(val, 3) ==> !NoiseIsRunning(r.noise)) && (Bit(val, 3) ==> r.noise == a.noise)
      && r.triangle == a.triangle && r.dmc == a.dmc && r.frame == a.frame
  {
  }

  /** A 0x4017 write reaches the frame counter and nothing else. */
  lemma ApuStoreFrameCounter(a: ApuState, val: u8)
    ensures ApuStore(a, 0x4017, val) == Some(a.(frame := FrameUpdate(a.frame, val)))
  {
  }

  /** Register writes keep the channel invariants. */
  lemma ApuStoreKeepsInv(a: ApuState, addr: u16, val: u8)
    requires ApuInv(a) && IsApuRegister(addr)
    ensures ApuInv(ApuStore(a, addr, val).value)
  {
    SquareOpsKeepInv(a.square1, val, Bit(val, 0));
    SquareOpsKeepInv(a.square2, val, Bit(val, 1));
    NoiseOpsKeepInv(a.noise, val, Bit(val, 3));
  }

  // -------------------------------------------------------------- methods

  method WriteSquare(s: Square, reg: u16, val: u8)
    requires reg < 4 && s.Valid()
    modifies s
    ensures s.Valid() && s.State() == SquareWrite(old(s.State()), reg, val)
  {
    if reg == 0 {
      s.SetDutyLengthEnvelopeDivider(val);
    } else if reg == 1 {
      s.SetSweep(val);
    } else if reg == 2 {
      s.SetTimerLo(val);
    } else {
      s.SetLenTimerHi(val);
    }
  }

  method WriteTriangle(t: Triangle, reg: u16, val: u8)
    requires reg < 4 && t.Valid()
    modifies t
    ensures t.Valid() && t.State() == TriangleWrite(old(t.State()), reg, val)
  {
    if reg == 0 {
      t.SetControlCounter(val);
    } else if reg == 2 {
      t.SetTimerLo(val);
    } else if reg == 3 {
      t.SetLengthCounterTimerHi(val);
    }
  }

  method WriteNoise(n: Noise, reg: u16, val: u8)
    requires reg < 4 && n.Valid()
    modifies n
    ensures n.Valid() && n.State() == NoiseWrite(old(n.State()), reg, val)
  {
    if reg == 0 {
      n.SetHaltConstEnvelope(val);
    } else if reg == 2 {
      n.SetLoopPeriod(val);
    } else if reg == 3 {
      n.SetLen(val);
    }
  }

  method WriteDmc(d: Dmc, reg: u16, val: u8)
    requires reg < 4
    modifies d
    ensures d.State() == DmcWrite(old(d.State()), reg, val)
  {
    if reg == 0 {
      d.SetIrqLoopFreq(val);
    } else if reg == 1 {
      d.SetCounter(val);
    } else if reg == 2 {
      d.SetSampleAddress(val);
    } else {
      d.SetSampleLength(val);
    }
  }

  class Apu {
    const dmc: Dmc
    var evenCycle: bool
    const frameCounter: FrameCounter
    const noise: Noise
    const square1: Square
    const square2: Square
    const triangle: Triangle

    ghost function Repr(): set<object> {
      {this, dmc, frameCounter, noise, square1, square2, triangle}
    }

    ghost function State(): ApuState
      reads Repr()
    {
      ApuState(dmc.State(), evenCycle, frameCounter.State(), noise.State(),
        square1.State(), square2.State(), triangle.State())
    }

    /** The two squares are distinct objects, and every channel is valid. */
    ghost predicate Valid()
      reads Repr()
    {
      square1 != square2 && square1.Valid() && square2.Valid() && noise.Valid() && triangle.Valid()
    }

    lemma ValidInv()
      requires Valid()
      ensures ApuInv(State())
    {
    }

    constructor ()
      ensures Valid() && State() == NEW_APU
    {
      dmc := new Dmc();
      evenCycle := true;
      frameCounter := new FrameCounter();
      noise := new Noise();
      square1 := new Square(1);
      square2 := new Square(2);
      triangle := new Triangle();
    }

    method HalfFrame()
      requires Valid()
      modifies square1, square2, noise, triangle
      ensures Valid() && ApuInv(old(State())) && State() == ApuHalfFrame(old(State()))
    {
      square1.HalfFrameClock();
      square2.HalfFrameClock();
      noise.HalfFrameClock();
      triangle.HalfFrameClock();
    }

    method QuarterFrame()
      requires Valid()
      modifies square1, square2, noise, triangle
      ensures Valid() && State() == ApuQuarterFrame(old(State()))
    {
      square1.QuarterFrameClock();
      square2.QuarterFrameClock();
      noise.QuarterFrameClock();
      triangle.QuarterFrameClock();
    }

    method ClockEven()
      requires Valid()
      modifies square1, square2, noise, dmc
      ensures Valid() && State() == ApuClockEven(old(State()))
    {
      square1.Clock();
      square2.Clock();
      noise.Clock();
      dmc.Clock();
    }

    method Step() returns (irq: bool)
      requires Valid()
      modifies this, square1, square2, triangle, noise, dmc, frameCounter
      ensures Valid() && ApuInv(old(State())) && (State(), irq) == ApuStep(old(State()))
    {
      ValidInv();
      evenCycle := !evenCycle;
      var r := frameCounter.Step();
      if r.halfFrame {
        HalfFrame();
      }
      if r.quarterFrame {
        QuarterFrame();
      }
      if evenCycle {
        ClockEven();
      }
      triangle.Clock();
      irq := r.irq;
    }

    method UpdateFlags(val: u8)
      requires Valid()
      modifies square1, square2, triangle, noise, dmc
      ensures Valid() && State() == ApuUpdateFlags(old(State()), val)
    {
      square1.SetEnabled(Bit(val, 0));
      square2.SetEnabled(Bit(val, 1));
      triangle.SetEnabled(Bit(val, 2));
      noise.SetEnabled(Bit(val, 3));
      dmc.SetEnabled(Bit(val, 4));
    }

    function Peekb(addr: u16): (r: u8)
      reads Repr()
      ensures r == ApuPeek(State(), addr)
    {
      if addr != 0x4015 then 0
      else
        var sq1 := if square1.IsRunning() then 0x01 else 0;
        var sq2 := if square2.IsRunning() then 0x02 else 0;
        var tri := if triangle.IsRunning() then 0x04 else 0;
        var noiseBit := if noise.IsRunning() then 0x08 else 0;
        var dmcBit := if dmc.IsRunning() then 0x10 else 0;
        dmcBit | noiseBit | tri | sq2 | sq1
    }

    method Loadb(addr: u16) returns (r: u8)
      requires Valid()
      modifies frameCounter
      ensures Valid() && (State(), r) == ApuLoad(old(State()), addr)
    {
      if addr != 0x4015 {
        return 0;
      }
      frameCounter.ResetIrq();
      r := Peekb(addr);
    }

    /** storeb; `ok` is false, and nothing changes, where the source panics. */
    method Storeb(addr: u16, val: u8) returns (ok: bool)
      requires Valid()
      modifies square1, square2, triangle, noise, dmc, frameCounter
      ensures Valid()
      ensures ok == IsApuRegister(addr)
      ensures ok ==> State() == ApuStore(old(State()), addr, val).value
      ensures !ok ==> State() == old(State())
    {
      ok := true;
      if 0x4000 <= addr <= 0x4003 {
        WriteSquare(square1, addr - 0x4000, val);
      } else if 0x4004 <= addr <= 0x4007 {
        WriteSquare(square2, addr - 0x4004, val);
      } else if 0x4008 <= addr <= 0x400B {
        WriteTriangle(triangle, addr - 0x4008, val);
      } else if 0x400C <= addr <= 0x400F {
        WriteNoise(noise, addr - 0x400C, val);
      } else if 0x4010 <= addr <= 0x4013 {
        WriteDmc(dmc, addr - 0x4010, val);
      } else if addr == 0x4015 {
        UpdateFlags(val);
      } else if addr == 0x4017 {
        frameCounter.Update(val);
      } else {
        ok := false;
      }
    }
  }
}
