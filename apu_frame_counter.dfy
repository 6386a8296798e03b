/**
 * The APU frame sequencer of nes/src/audio/frame_counter.rs: a cycle counter
 * that emits quarter- and half-frame pulses on a four- or five-step schedule,
 * raises the frame IRQ in four-step mode, and restarts a few cycles after a
 * write to its register.
 */
module ApuFrameCounter {
  import opened Types
  import opened Bytes

  const CLOCK_ONE: nat := 7457
  const CLOCK_TWO: nat := 14913
  const CLOCK_THREE: nat := 22371
  const CLOCK_FOUR: nat := 29829
  const CLOCK_FIVE: nat := 37281

  datatype SequencerMode = FourStep | FiveStep

  datatype FrameResult = FrameResult(quarterFrame: bool, halfFrame: bool, irq: bool)

  datatype FrameState = FrameState(
    cycle: nat, irqFlag: bool, irqInhibit: bool, mode: SequencerMode, resetCountdown: nat8)

  /** The sequencer after new(). */
  const NEW_FRAME_COUNTER := FrameState(0, false, false, FourStep, 0)

  /** The cycle never passes the end of the longer schedule, so the u16 counter cannot overflow. */
  predicate FrameInv(f: FrameState) {
    f.cycle <= CLOCK_FIVE
  }

  /** The cycles of the four-step schedule with a quarter pulse, and those with a half pulse. */
  predicate QuarterTime4(c: nat) {
    c == CLOCK_ONE || c == CLOCK_TWO || c == CLOCK_THREE || c == CLOCK_FOUR
  }

  predicate HalfTime4(c: nat) {
    c == CLOCK_TWO || c == CLOCK_FOUR
  }

  /** The same for the five-step schedule. */
  predicate QuarterTime5(c: nat) {
    c == CLOCK_ONE || c == CLOCK_TWO || c == CLOCK_THREE || c == CLOCK_FIVE
  }

  predicate HalfTime5(c: nat) {
    c == CLOCK_TWO || c == CLOCK_FIVE
  }

  /** step4: wrap after CLOCK_FOUR, raise the IRQ there unless inhibited, pulse at the four clocks. */
  function FrameStep4(f: FrameState): (FrameState, FrameResult) {
    var c := f.cycle % (CLOCK_FOUR + 1);
    var irq := f.irqFlag || (c == CLOCK_FOUR && !f.irqInhibit);
    (f.(cycle := c, irqFlag := irq), FrameResult(QuarterTime4(c), HalfTime4(c), irq))
  }

  /** step5: wrap after CLOCK_FIVE, never raise the IRQ; `both` is the pulse pair owed by a reset. */
  function FrameStep5(f: FrameState, both: bool): (FrameState, FrameResult) {
    var c := f.cycle % (CLOCK_FIVE + 1);
    var r :=
      if c == CLOCK_ONE || c == CLOCK_THREE then FrameResult(true, both, f.irqFlag)
      else if c == CLOCK_TWO || c == CLOCK_FIVE then FrameResult(true, true, f.irqFlag)
      else FrameResult(both, both, f.irqFlag);
    (f.(cycle := c), r)
  }

  /** step: count (or restart when the countdown reaches 1), run down the countdown, then the mode's step. */
  function FrameStep(f: FrameState): (FrameState, FrameResult) {
    var both := f.resetCountdown == 1 && f.mode.FiveStep?;
    var c := if f.resetCountdown == 1 then 0 else f.cycle + 1;
    var rc := if f.resetCountdown > 0 then f.resetCountdown - 1 else 0;
    var f1 := f.(cycle := c, resetCountdown := rc);
    if f.mode.FourStep? then FrameStep4(f1) else FrameStep5(f1, both)
  }

  /** update: mode from bit 7, inhibit from bit 6 (clearing a pending IRQ), and a restart 3 or 4 cycles on. */
  function FrameUpdate(f: FrameState, val: u8): FrameState {
    var inhibit := Bit(val, 6);
    f.(mode := if Bit(val, 7) then FiveStep else FourStep,
       irqInhibit := inhibit,
       irqFlag := if inhibit then false else f.irqFlag,
       resetCountdown := if f.cycle % 2 == 0 then 3 else 4)
  }

  /** The results of `n` successive steps. */
  function FrameResults(f: FrameState, n: nat): seq<FrameResult>
    decreases n
  {
    if n == 0 then [] else [FrameStep(f).1] + FrameResults(FrameStep(f).0, n - 1)
  }

  /** The sequencer after `n` successive steps. */
  function FrameAfter(f: FrameState, n: nat): FrameState
    decreases n
  {
    if n == 0 then f else FrameAfter(FrameStep(f).0, n - 1)
  }

  /** After a step the cycle lies within the current mode's schedule, and the mode is kept. */
  lemma FrameStepBounds(f: FrameState)
    requires FrameInv(f)
    ensures FrameInv(FrameStep(f).0)
    ensures FrameStep(f).0.mode == f.mode
    ensures f.mode.FourStep? ==> FrameStep(f).0.cycle <= CLOCK_FOUR
  {
  }

  /** The IRQ flag is never cleared by a step, the step reports it, and in five-step mode a step never raises it. */
  lemma FrameStepIrq(f: FrameState)
    ensures f.irqFlag ==> FrameStep(f).0.irqFlag
    ensures FrameStep(f).1.irq == FrameStep(f).0.irqFlag
    ensures f.mode.FiveStep? ==> FrameStep(f).0.irqFlag == f.irqFlag
  {
  }

  /** In four-step mode, the step that lands on CLOCK_FOUR raises the IRQ unless it is inhibited. */
  lemma FourStepRaisesIrq(f: FrameState)
    requires f.mode.FourStep? && f.resetCountdown == 0 && f.cycle == CLOCK_FOUR - 1
    ensures FrameStep(f).1.irq <==> f.irqFlag || !f.irqInhibit
  {
  }

  /** One four-step mode step away from a restart: the cycle advances by one and pulses follow the schedule. */
  lemma FourStepOne(f: FrameState)
    requires f.mode.FourStep? && f.resetCountdown == 0 && f.cycle < CLOCK_FOUR
    ensures FrameStep(f).0 == f.(cycle := f.cycle + 1, irqFlag := FrameStep(f).0.irqFlag)
    ensures FrameStep(f).1.quarterFrame == QuarterTime4(f.cycle + 1)
    ensures FrameStep(f).1.halfFrame == HalfTime4(f.cycle + 1)
  {
  }

  /** Running the four-step schedule from cycle c for n steps (staying within one frame): step i pulses as cycle c + i + 1 says. */
  lemma {:induction false} FourStepRun(f: FrameState, n: nat)
    requires f.mode.FourStep? && f.resetCountdown == 0 && f.cycle + n <= CLOCK_FOUR
    ensures |FrameResults(f, n)| == n
    ensures FrameAfter(f, n).cycle == f.cycle + n
    ensures forall i :: 0 <= i < n ==>
      FrameResults(f, n)[i].quarterFrame == QuarterTime4(f.cycle + i + 1) &&
      FrameResults(f, n)[i].halfFrame == HalfTime4(f.cycle + i + 1)
    decreases n
  {
    if n > 0 {
      FourStepOne(f);
      var f1 := FrameStep(f).0;
      FourStepRun(f1, n - 1);
      assert FrameResults(f, n) == [FrameStep(f).1] + FrameResults(f1, n - 1);
    }
  }

  /** From power-on, the first CLOCK_FOUR steps pulse a quarter frame exactly at steps 7457, 14913, 22371 and 29829, and a half frame at 14913 and 29829. */
  lemma FourStepSchedule()
    ensures |FrameResults(NEW_FRAME_COUNTER, CLOCK_FOUR)| == CLOCK_FOUR
    ensures forall i :: 0 <= i < CLOCK_FOUR ==>
      FrameResults(NEW_FRAME_COUNTER, CLOCK_FOUR)[i].quarterFrame == QuarterTime4(i + 1) &&
      FrameResults(NEW_FRAME_COUNTER, CLOCK_FOUR)[i].halfFrame == HalfTime4(i + 1)
  {
    FourStepRun(NEW_FRAME_COUNTER, CLOCK_FOUR);
  }

  /** One five-step mode step away from a restart. */
  lemma FiveStepOne(f: FrameState)
    requires f.mode.FiveStep? && f.resetCountdown == 0 && f.cycle < CLOCK_FIVE
    ensures FrameStep(f).0 == f.(cycle := f.cycle + 1)
    ensures FrameStep(f).1.quarterFrame == QuarterTime5(f.cycle + 1)
    ensures FrameStep(f).1.halfFrame == HalfTime5(f.cycle + 1)
    ensures FrameStep(f).1.irq == f.irqFlag
  {
  }

  /** Running the five-step schedule from cycle c for n steps within one frame. */
  lemma {:induction false} FiveStepRun(f: FrameState, n: nat)
    requires f.mode.FiveStep? && f.resetCountdown == 0 && f.cycle + n <= CLOCK_FIVE
    ensures |FrameResults(f, n)| == n
    ensures FrameAfter(f, n).cycle == f.cycle + n
    ensures forall i :: 0 <= i < n ==>
      FrameResults(f, n)[i].quarterFrame == QuarterTime5(f.cycle + i + 1) &&
      FrameResults(f, n)[i].halfFrame == HalfTime5(f.cycle + i + 1)
    decreases n
  {
    if n > 0 {
      FiveStepOne(f);
      var f1 := FrameStep(f).0;
      FiveStepRun(f1, n - 1);
      assert FrameResults(f, n) == [FrameStep(f).1] + FrameResults(f1, n - 1);
    }
  }

  /** In five-step mode from cycle 0, the first CLOCK_FIVE steps pulse a quarter frame at 7457, 14913, 22371 and 37281 and a half frame at 14913 and 37281. */
  lemma FiveStepSchedule()
    ensures |FrameResults(NEW_FRAME_COUNTER.(mode := FiveStep), CLOCK_FIVE)| == CLOCK_FIVE
    ensures forall i :: 0 <= i < CLOCK_FIVE ==>
      FrameResults(NEW_FRAME_COUNTER.(mode := FiveStep), CLOCK_FIVE)[i].quarterFrame == QuarterTime5(i + 1) &&
      FrameResults(NEW_FRAME_COUNTER.(mode := FiveStep), CLOCK_FIVE)[i].halfFrame == HalfTime5(i + 1)
  {
    FiveStepRun(NEW_FRAME_COUNTER.(mode := FiveStep), CLOCK_FIVE);
  }

  /** Each schedule loops: a step from its last cycle goes back to 0. */
  lemma SequencerLoops(f: FrameState)
    requires f.resetCountdown == 0
    requires f.mode.FourStep? ==> f.cycle == CLOCK_FOUR
    requires f.mode.FiveStep? ==> f.cycle == CLOCK_FIVE
    ensures FrameStep(f).0.cycle == 0
  {
  }

  /** update decodes bits 7 and 6, drops a pending IRQ when inhibiting, and arms 3 on an even cycle or 4 on an odd one. */
  lemma FrameUpdateMeaning(f: FrameState, val: u8)
    ensures var r := FrameUpdate(f, val);
      && (r.mode.FiveStep? <==> Bit(val, 7))
      && r.irqInhibit == Bit(val, 6)
      && (r.irqFlag <==> f.irqFlag && !Bit(val, 6))
      && r.resetCountdown == (if f.cycle % 2 == 0 then 3 else 4)
      && r.cycle == f.cycle
  {
  }

  /** A countdown of k restarts the cycle after exactly k steps; in five-step mode that step pulses both a quarter and a half frame. */
  lemma {:induction false} CountdownRestarts(f: FrameState)
    requires f.resetCountdown >= 1
    ensures FrameAfter(f, f.resetCountdown).cycle == 0
    ensures FrameAfter(f, f.resetCountdown).resetCountdown == 0
    ensures f.mode.FiveStep? ==>
      var last := FrameStep(FrameAfter(f, f.resetCountdown - 1)).1;
      last.quarterFrame && last.halfFrame
    decreases f.resetCountdown
  {
    var f1 := FrameStep(f).0;
    assert f1.mode == f.mode && f1.resetCountdown == f.resetCountdown - 1;
    if f.resetCountdown > 1 {
      CountdownRestarts(f1);
    }
  }

  class FrameCounter {
    var cycle: nat
    var irqFlag: bool
    var irqInhibit: bool
    var mode: SequencerMode
    var resetCountdown: nat8

    ghost function State(): FrameState
      reads this
    {
      FrameState(cycle, irqFlag, irqInhibit, mode, resetCountdown)
    }

    constructor ()
      ensures State() == NEW_FRAME_COUNTER
    {
      cycle, irqFlag, irqInhibit, mode, resetCountdown := 0, false, false, FourStep, 0;
    }

    method Step() returns (r: FrameResult)
      modifies this
      ensures (State(), r) == FrameStep(old(State()))
    {
      var both := false;
      if resetCountdown == 1 {
        cycle := 0;
        if mode.FiveStep? {
          both := true;
        }
      } else {
        cycle := cycle + 1;
      }
      if resetCountdown > 0 {
        resetCountdown := resetCountdown - 1;
      }
      if mode.FourStep? {
        r := Step4();
      } else {
        r := Step5(both);
      }
    }

    method Step4() returns (r: FrameResult)
      modifies this
      ensures (State(), r) == FrameStep4(old(State()))
    {
      cycle := cycle % (CLOCK_FOUR + 1);
      if cycle == CLOCK_FOUR && !irqInhibit {
        irqFlag := true;
      }
      var irq := irqFlag;
      if cycle == CLOCK_ONE || cycle == CLOCK_THREE {
        r := FrameResult(true, false, irq);
      } else if cycle == CLOCK_TWO || cycle == CLOCK_FOUR {
        r := FrameResult(true, true, irq);
      } else {
        r := FrameResult(false, false, irq);
      }
    }

    method Step5(both: bool) returns (r: FrameResult)
      modifies this
      ensures (State(), r) == FrameStep5(old(State()), both)
    {
      cycle := cycle % (CLOCK_FIVE + 1);
      var irq := irqFlag;
      if cycle == CLOCK_ONE || cycle == CLOCK_THREE {
        r := FrameResult(true, both, irq);
      } else if cycle == CLOCK_TWO || cycle == CLOCK_FIVE {
        r := FrameResult(true, true, irq);
      } else {
        r := FrameResult(both, both, irq);
      }
    }

    method Update(val: u8)
      modifies this
      ensures State() == FrameUpdate(old(State()), val)
    {
      mode := if Bit(val, 7) then FiveStep else FourStep;
      irqInhibit := Bit(val, 6);
      if irqInhibit {
        irqFlag := false;
      }
      if cycle % 2 == 0 {
        resetCountdown := 3;
      } else {
        resetCountdown := 4;
      }
    }

    /** reset_irq: only the IRQ flag is cleared. */
    method ResetIrq()
      modifies this
      ensures State() == old(State()).(irqFlag := false)
    {
      irqFlag := false;
    }
  }
}
