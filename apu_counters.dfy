/**
 * The small APU counters: the divider (nes/src/audio/divider.rs, and the
 * private copy in envelope.rs), the envelope, the length and linear counters,
 * the timer, the square and triangle sequencers and the sweep unit.
 *
 * Each unit is a class whose methods update its fields in place; each method
 * is proved to produce the state that a function on a value of the unit's
 * `...State` datatype describes, and the properties of the unit are proved
 * as lemmas about those functions.
 */
module ApuCounters {
  import opened Types
  import opened Bytes

  // --------------------------------------------------------------- divider

  datatype DividerState = DividerState(current: nat8, period: nat8)

  /** clock: at 0 reload the period and fire, otherwise count down. */
  function DividerClock(d: DividerState): (DividerState, bool) {
    if d.current == 0 then (d.(current := d.period), true)
    else (d.(current := d.current - 1), false)
  }

  /** The outputs of `n` successive clocks. */
  function DividerOutputs(d: DividerState, n: nat): seq<bool>
    decreases n
  {
    if n == 0 then []
    else [DividerClock(d).1] + DividerOutputs(DividerClock(d).0, n - 1)
  }

  /** The divider after `n` successive clocks. */
  function DividerAfter(d: DividerState, n: nat): DividerState
    decreases n
  {
    if n == 0 then d else DividerAfter(DividerClock(d).0, n - 1)
  }

  /** From count c, the next c clocks stay silent, the one after fires, and the count is back at the period. */
  lemma {:induction false} DividerCountdown(d: DividerState)
    ensures DividerOutputs(d, d.current + 1) == seq(d.current, _ => false) + [true]
    ensures DividerAfter(d, d.current + 1) == DividerState(d.period, d.period)
    decreases d.current
  {
    if d.current > 0 {
      var d1 := DividerClock(d).0;
      DividerCountdown(d1);
      assert DividerOutputs(d, d.current + 1) == [false] + DividerOutputs(d1, d1.current + 1);
    }
  }

  /** After a reload with period p, every run of p + 1 clocks fires exactly once, on its last clock. */
  lemma DividerPeriodic(p: nat8)
    ensures DividerOutputs(DividerState(p, p), p + 1) == seq(p, _ => false) + [true]
    ensures DividerAfter(DividerState(p, p), p + 1) == DividerState(p, p)
  {
    DividerCountdown(DividerState(p, p));
  }

  class Divider {
    var current: nat8
    var period: nat8

    ghost function State(): DividerState
      reads this
    {
      DividerState(current, period)
    }

    constructor ()
      ensures State() == DividerState(0, 0)
    {
      current, period := 0, 0;
    }

    /** reload: the count restarts from the period. */
    method Reload()
      modifies this
      ensures State() == DividerState(old(period), old(period))
    {
      current := period;
    }

    /** set_period: the period changes, the running count does not. */
    method SetPeriod(val: nat8)
      modifies this
      ensures State() == DividerState(old(current), val)
    {
      period := val;
    }

    method Clock() returns (fired: bool)
      modifies this
      ensures (State(), fired) == DividerClock(old(State()))
    {
      if current == 0 {
        current := period;
        fired := true;
      } else {
        current := current - 1;
        fired := false;
      }
    }
  }

  // -------------------------------------------------------------- envelope

  datatype EnvelopeState = EnvelopeState(
    constVolume: bool, decay: nat8, divider: DividerState,
    loopFlag: bool, startFlag: bool, volumePeriod: nat8)

  /** The envelope after new(). */
  const NEW_ENVELOPE := EnvelopeState(false, 0, DividerState(0, 0), false, false, 0)

  /** The decay level never leaves 0..15. */
  predicate EnvelopeInv(e: EnvelopeState) {
    e.decay <= 15
  }

  /** clock: a pending start reloads decay and the divider period; otherwise the divider runs. */
  function EnvelopeClock(e: EnvelopeState): EnvelopeState {
    if e.startFlag then
      e.(startFlag := false, decay := 15, divider := e.divider.(period := e.volumePeriod))
    else
      var (d1, fired) := DividerClock(e.divider);
      if !fired then e.(divider := d1)
      else
        var d2 := d1.(period := e.volumePeriod);
        if e.decay > 0 then e.(divider := d2, decay := e.decay - 1)
        else if e.loopFlag then e.(divider := d2, decay := 15)
        else e.(divider := d2)
  }

  /** get: the fixed volume in constant-volume mode, else the decay level. */
  function EnvelopeGet(e: EnvelopeState): nat8 {
    if e.constVolume then e.volumePeriod else e.decay
  }

  /** A start clears the flag, sets decay to 15 and the divider period, and does not clock the divider. */
  lemma EnvelopeStart(e: EnvelopeState)
    requires e.startFlag
    ensures var r := EnvelopeClock(e);
      !r.startFlag && r.decay == 15 && r.divider == DividerState(e.divider.current, e.volumePeriod)
  {
  }

  /** Without a start, decay moves only when the divider fires: down by one, or back to 15 only in loop mode. */
  lemma EnvelopeDecay(e: EnvelopeState)
    requires !e.startFlag
    ensures var r := EnvelopeClock(e);
      && (e.divider.current != 0 ==> r.decay == e.decay)
      && (e.divider.current == 0 && e.decay > 0 ==> r.decay == e.decay - 1)
      && (e.divider.current == 0 && e.decay == 0 ==> r.decay == (if e.loopFlag then 15 else 0))
  {
  }

  /** clock keeps decay within 0..15. */
  lemma EnvelopeClockKeepsInv(e: EnvelopeState)
    requires EnvelopeInv(e)
    ensures EnvelopeInv(EnvelopeClock(e))
  {
  }

  class Envelope {
    var constVolume: bool
    var decay: nat8
    const divider: Divider
    var loopFlag: bool
    var startFlag: bool
    var volumePeriod: nat8

    ghost function Repr(): set<object> {
      {this, divider}
    }

    ghost function State(): EnvelopeState
      reads this, divider
    {
      EnvelopeState(constVolume, decay, divider.State(), loopFlag, startFlag, volumePeriod)
    }

    constructor ()
      ensures State() == NEW_ENVELOPE
      ensures fresh(Repr())
    {
      constVolume, decay, loopFlag, startFlag, volumePeriod := false, 0, false, false, 0;
      divider := new Divider();
    }

    method Clock()
      modifies Repr()
      ensures State() == EnvelopeClock(old(State()))
    {
      if startFlag {
        startFlag := false;
        decay := 15;
        divider.SetPeriod(volumePeriod);
      } else {
        var fired := divider.Clock();
        if fired {
          divider.SetPeriod(volumePeriod);
          if decay > 0 {
            decay := decay - 1;
          } else if loopFlag {
            decay := 15;
          }
        }
      }
    }

    /** restart: only the start flag is set. */
    method Restart()
      modifies this
      ensures State() == old(State()).(startFlag := true)
    {
      startFlag := true;
    }

    method SetLoop(flag: bool)
      modifies this
      ensures State() == old(State()).(loopFlag := flag)
    {
      loopFlag := flag;
    }

    method SetConstantVolume(flag: bool)
      modifies this
      ensures State() == old(State()).(constVolume := flag)
    {
      constVolume := flag;
    }

    method SetVolumePeriod(val: nat8)
      modifies this
      ensures State() == old(State()).(volumePeriod := val)
    {
      volumePeriod := val;
    }

    function Get(): (r: nat8)
      reads this, divider
      ensures r == EnvelopeGet(State())
    {
      if constVolume then volumePeriod else decay
    }
  }

  // -------------------------------------------------------- length counter

  /** LENGTH_LOOKUP: the lengths selected by the top five bits of a length register write. */
  const LENGTH_LOOKUP: seq<nat8> := [
    0x0A, 0xFE, 0x14, 0x02, 0x28, 0x04, 0x50, 0x06,
    0xA0, 0x08, 0x3C, 0x0A, 0x0E, 0x0C, 0x1A, 0x0E,
    0x0C, 0x10, 0x18, 0x12, 0x30, 0x14, 0x60, 0x16,
    0xC0, 0x18, 0x48, 0x1A, 0x10, 0x1C, 0x20, 0x1E]

  datatype LengthState = LengthState(halt: bool, length: nat8)

  /** clock: count down towards 0 unless halted; 0 stays 0. */
  function LengthClock(l: LengthState): LengthState {
    if l.halt then l
    else if l.length > 0 then l.(length := l.length - 1)
    else l
  }

  /** set: load the length at table index `i`. */
  function LengthSet(l: LengthState, i: nat): LengthState
    requires i < |LENGTH_LOOKUP|
  {
    l.(length := LENGTH_LOOKUP[i])
  }

  /** mute: the counter has run out. */
  predicate LengthMute(l: LengthState) {
    l.length == 0
  }

  /** clock moves the length by one exactly when it is not halted and not yet 0, and never below 0. */
  lemma LengthClockMeaning(l: LengthState)
    ensures LengthClock(l).halt == l.halt
    ensures LengthClock(l).length == l.length - 1 <==> !l.halt && l.length > 0
    ensures LengthClock(l).length != l.length - 1 ==> LengthClock(l) == l
  {
  }

  /** Clocking a muted counter keeps it muted, so a channel once silenced by its length stays silent until reloaded. */
  lemma LengthMuteSticks(l: LengthState)
    requires LengthMute(l)
    ensures LengthMute(LengthClock(l))
  {
  }

  class LengthCounter {
    var halt: bool
    var length: nat8

    ghost function State(): LengthState
      reads this
    {
      LengthState(halt, length)
    }

    constructor ()
      ensures State() == LengthState(false, 0)
    {
      halt, length := false, 0;
    }

    method Clock()
      modifies this
      ensures State() == LengthClock(old(State()))
    {
      if halt {
        return;
      }
      if length > 0 {
        length := length - 1;
      }
    }

    /** set_zero: the length becomes 0, halt is kept. */
    method SetZero()
      modifies this
      ensures State() == old(State()).(length := 0)
    {
      length := 0;
    }

    function Get(): nat8
      reads this
    {
      length
    }

    /** set: the table index must be below 32, as the array lookup demands. */
    method Set(i: nat)
      requires i < |LENGTH_LOOKUP|
      modifies this
      ensures State() == LengthSet(old(State()), i)
    {
      length := LENGTH_LOOKUP[i];
    }

    function Mute(): (r: bool)
      reads this
      ensures r == LengthMute(State())
    {
      length == 0
    }

    /** set_halt: only the halt flag changes. */
    method SetHalt(flag: bool)
      modifies this
      ensures State() == old(State()).(halt := flag)
    {
      halt := flag;
    }
  }

  // -------------------------------------------------------- linear counter

  datatype LinearState = LinearState(counter: nat8, reloadFlag: bool, reloadVal: nat8)

  /** clock: reload when flagged, else count down to 0; the flag is cleared only without control. */
  function LinearClock(l: LinearState, control: bool): LinearState {
    var c := if l.reloadFlag then l.reloadVal else if l.counter > 0 then l.counter - 1 else l.counter;
    l.(counter := c, reloadFlag := if control then l.reloadFlag else false)
  }

  /** The reload flag survives a clock exactly when the control flag is set. */
  lemma LinearReloadFlag(l: LinearState, control: bool)
    ensures LinearClock(l, control).reloadFlag <==> l.reloadFlag && control
    ensures LinearClock(l, control).reloadVal == l.reloadVal
  {
  }

  /** With the reload flag the counter is loaded; without it, it counts down and stops at 0. */
  lemma LinearCounterMeaning(l: LinearState, control: bool)
    ensures l.reloadFlag ==> LinearClock(l, control).counter == l.reloadVal
    ensures !l.reloadFlag && l.counter > 0 ==> LinearClock(l, control).counter == l.counter - 1
    ensures !l.reloadFlag && l.counter == 0 ==> LinearClock(l, control).counter == 0
  {
  }

  class LinearCounter {
    var counter: nat8
    var reloadFlag: bool
    var reloadVal: nat8

    ghost function State(): LinearState
      reads this
    {
      LinearState(counter, reloadFlag, reloadVal)
    }

    constructor ()
      ensures State() == LinearState(0, false, 0)
    {
      counter, reloadFlag, reloadVal := 0, false, 0;
    }

    method Clock(control: bool)
      modifies this
      ensures State() == LinearClock(old(State()), control)
    {
      if reloadFlag {
        counter := reloadVal;
      } else if counter > 0 {
        counter := counter - 1;
      }
      if !control {
        SetReloadFlag(false);
      }
    }

    function Nonzero(): (r: bool)
      reads this
      ensures r <==> counter != 0
    {
      counter > 0
    }

    method SetReload(val: nat8)
      modifies this
      ensures State() == old(State()).(reloadVal := val)
    {
      reloadVal := val;
    }

    method SetReloadFlag(flag: bool)
      modifies this
      ensures State() == old(State()).(reloadFlag := flag)
    {
      reloadFlag := flag;
    }
  }

  // ------------------------------------------------------------------ timer

  datatype TimerState = TimerState(hasElapsed: bool, period: u16, current: u16)

  /** tick: at 0 reload the period (and report an elapse only for a nonzero period), else count down. */
  function TimerTick(t: TimerState): TimerState {
    if t.current == 0 then
      t.(current := t.period, hasElapsed := if t.period > 0 then true else t.hasElapsed)
    else
      t.(hasElapsed := false, current := t.current - 1)
  }

  /** The period with its low byte replaced by `v`. */
  function SpliceLo(period: u16, v: u8): u16 {
    v as u16 + (period & 0xFF00)
  }

  /** The period with its high byte replaced by `v`. */
  function SpliceHi(period: u16, v: u8): u16 {
    (period & 0x00FF) + ((v as u16) << 8)
  }

  /** set_period_lo keeps the high byte and replaces the low one. */
  lemma SpliceLoMeaning(period: u16, v: u8)
    ensures Lo(SpliceLo(period, v)) == v
    ensures Hi(SpliceLo(period, v)) == Hi(period)
  {
  }

  /** set_period_hi keeps the low byte and replaces the high one. */
  lemma SpliceHiMeaning(period: u16, v: u8)
    ensures Lo(SpliceHi(period, v)) == Lo(period)
    ensures Hi(SpliceHi(period, v)) == v
  {
  }

  /** A tick at 0 elapses exactly for a nonzero period; with period 0 the previous report stays; a tick above 0 clears it. */
  lemma TimerTickMeaning(t: TimerState)
    ensures t.current == 0 && t.period > 0 ==> TimerTick(t).hasElapsed
    ensures t.current == 0 && t.period == 0 ==> TimerTick(t) == t
    ensures t.current != 0 ==> !TimerTick(t).hasElapsed && TimerTick(t).current == t.current - 1
    ensures TimerTick(t).period == t.period
  {
  }

  class Timer {
    var hasElapsed: bool
    var period: u16
    var current: u16

    ghost function State(): TimerState
      reads this
    {
      TimerState(hasElapsed, period, current)
    }

    constructor ()
      ensures State() == TimerState(false, 0, 0)
    {
      current, period, hasElapsed := 0, 0, false;
    }

    method Tick()
      modifies this
      ensures State() == TimerTick(old(State()))
    {
      if current == 0 {
        current := period;
        if period > 0 {
          hasElapsed := true;
        }
      } else {
        hasElapsed := false;
        current := current - 1;
      }
    }

    function HasElapsed(): bool
      reads this
    {
      hasElapsed
    }

    function GetPeriod(): u16
      reads this
    {
      period
    }

    method SetPeriod(p: u16)
      modifies this
      ensures State() == old(State()).(period := p)
    {
      period := p;
    }

    method SetPeriodLo(v: u8)
      modifies this
      ensures State() == old(State()).(period := SpliceLo(old(period), v))
    {
      var hi := period & 0xFF00;
      var lo := v as u16;
      period := lo + hi;
    }

    method SetPeriodHi(v: u8)
      modifies this
      ensures State() == old(State()).(period := SpliceHi(old(period), v))
    {
      var hi := (v as u16) << 8;
      var lo := period & 0x00FF;
      period := lo + hi;
    }
  }

  // ------------------------------------------------------------- sequencers

  /** DUTY_CYCLES: the eight-step waveform of each of the four duty settings, one bit per step. */
  const DUTY_CYCLES: seq<u8> := [0x40, 0x60, 0x78, 0x9F]

  /** WAVEFORM: the 32-step triangle, 15 down to 0 and back up to 15. */
  const WAVEFORM: seq<nat8> := [
    15, 14, 13, 12, 11, 10, 9, 8, 7, 6, 5, 4, 3, 2, 1, 0,
    0, 1, 2, 3, 4, 5, 6, 7, 8, 9, 10, 11, 12, 13, 14, 15]

  datatype SquareSeqState = SquareSeqState(dutyCycle: nat, dutyIdx: nat8)

  /** clock: the next of the eight steps, wrapping. */
  function SquareSeqClock(s: SquareSeqState): SquareSeqState {
    s.(dutyIdx := (s.dutyIdx + 1) % 8)
  }

  /** get: the duty pattern masked with the bit of the current step (the index is always below 8). */
  function SquareSeqGet(s: SquareSeqState): u8
    requires s.dutyCycle < |DUTY_CYCLES| && s.dutyIdx < 8
  {
    BitMask(s.dutyIdx) & DUTY_CYCLES[s.dutyCycle]
  }

  /** The square output is nonzero exactly when the duty pattern has the bit of the current step. */
  lemma SquareSeqGetMeaning(s: SquareSeqState)
    requires s.dutyCycle < |DUTY_CYCLES| && s.dutyIdx < 8
    ensures SquareSeqGet(s) != 0 <==> Bit(DUTY_CYCLES[s.dutyCycle], s.dutyIdx)
  {
  }

  class SquareSequence {
    var dutyCycle: nat
    var dutyIdx: nat8

    ghost function State(): SquareSeqState
      reads this
    {
      SquareSeqState(dutyCycle, dutyIdx)
    }

    constructor ()
      ensures State() == SquareSeqState(0, 0)
    {
      dutyCycle, dutyIdx := 0, 0;
    }

    method Clock()
      modifies this
      ensures State() == SquareSeqClock(old(State()))
    {
      dutyIdx := (dutyIdx + 1) % 8;
    }

    function Get(): (r: u8)
      reads this
      requires dutyCycle < |DUTY_CYCLES| && dutyIdx < 8
      ensures r == SquareSeqGet(State())
    {
      ((1 as u8) << dutyIdx) & DUTY_CYCLES[dutyCycle]
    }

    method SetCycle(c: nat)
      modifies this
      ensures State() == old(State()).(dutyCycle := c)
    {
      dutyCycle := c;
    }

    method ResetIdx()
      modifies this
      ensures State() == old(State()).(dutyIdx := 0)
    {
      dutyIdx := 0;
    }
  }

  /** The triangle waveform: step i is 15 - i on the way down and i - 16 on the way up, always in 0..15. */
  lemma WaveformShape(i: nat)
    requires i < 32
    ensures |WAVEFORM| == 32
    ensures WAVEFORM[i] == if i < 16 then 15 - i else i - 16
    ensures WAVEFORM[i] <= 15
  {
  }

  class TriangleSequence {
    var cycleIdx: nat

    constructor ()
      ensures cycleIdx == 0
    {
      cycleIdx := 0;
    }

    function Get(): (r: nat8)
      reads this
      requires cycleIdx < |WAVEFORM|
      ensures r <= 15
    {
      WaveformShape(cycleIdx);
      WAVEFORM[cycleIdx]
    }

    /** clock: the next of the 32 steps, wrapping. */
    method Clock()
      modifies this
      ensures cycleIdx == (old(cycleIdx) + 1) % 32
    {
      cycleIdx := (cycleIdx + 1) % 32;
    }
  }

  // ------------------------------------------------------------------ sweep

  datatype SweepState = SweepState(
    divider: DividerState, enabled: bool, negate: bool,
    onesComplement: bool, shiftCount: u8)

  /** The shift amount is only ever a three-bit field of a register write. */
  predicate SweepInv(s: SweepState) {
    s.shiftCount < 8
  }

  /**
   * update: bit 7 enables, bits 4-6 are the divider period (then reloaded),
   * bit 3 negates, bits 0-2 are the shift.
   */
  function SweepUpdate(s: SweepState, val: u8): SweepState {
    var p := ((val & 0x70) >> 4) as nat8;
    s.(enabled := Bit(val, 7), divider := DividerState(p, p), negate := Bit(val, 3), shiftCount := val & 0x07)
  }

  /**
   * calc_target on its inputs: the period plus or minus the period shifted
   * right; in ones'-complement mode the negated change is one more. The
   * source does this on i32 with wrapping operations and casts to u16, which
   * is the same as wrapping 16-bit arithmetic.
   */
  function Target(period: u16, shift: u8, negate: bool, ones: bool): u16
    requires shift < 8
  {
    var shifted := period >> shift;
    if negate then period - shifted - (if ones then 1 else 0)
    else period + shifted
  }

  function SweepTarget(s: SweepState, period: u16): u16
    requires SweepInv(s)
  {
    Target(period, s.shiftCount, s.negate, s.onesComplement)
  }

  /** mute: too low a period, or a target beyond the 11-bit timer. */
  predicate SweepMute(s: SweepState, period: u16)
    requires SweepInv(s)
  {
    period < 8 || SweepTarget(s, period) > 0x07FF
  }

  /** clock: the divider always runs; the target is offered only when it fired on an enabled, unmuted sweep. */
  function SweepClock(s: SweepState, period: u16): (SweepState, Option<u16>)
    requires SweepInv(s)
  {
    var muted := SweepMute(s, period);
    var (d1, fired) := DividerClock(s.divider);
    (s.(divider := d1), if fired && s.enabled && !muted then Some(SweepTarget(s, period)) else None)
  }

  /** update decodes its register fields and keeps SweepInv; ones' complement mode is untouched. */
  lemma SweepUpdateFields(s: SweepState, val: u8)
    ensures var r := SweepUpdate(s, val);
      && SweepInv(r)
      && r.enabled == Bit(val, 7) && r.negate == Bit(val, 3)
      && r.divider.current == r.divider.period && r.divider.period < 8
      && r.onesComplement == s.onesComplement
  {
  }

  /** Any target the sweep offers fits the 11-bit timer period. */
  lemma SweepOffersInRange(s: SweepState, period: u16)
    requires SweepInv(s)
    ensures SweepClock(s, period).1.Some? ==> SweepClock(s, period).1.value <= 0x07FF
    ensures SweepInv(SweepClock(s, period).0)
  {
  }

  /** Without negation, a period in the 11-bit range never gets a target below itself. */
  lemma SweepUpRaises(s: SweepState, period: u16)
    requires SweepInv(s) && !s.negate && period <= 0x07FF
    ensures period <= SweepTarget(s, period)
  {
    assert period >> s.shiftCount <= period;
  }

  /** With negation, an unmuted target never lies above the period. */
  lemma SweepDownLowers(s: SweepState, period: u16)
    requires SweepInv(s) && s.negate && !SweepMute(s, period)
    ensures SweepTarget(s, period) <= period
  {
    NegatedTargetBelow(period, s.shiftCount, s.onesComplement);
  }

  /** A negated target that fits 11 bits did not wrap below zero, so it is at most the period. */
  lemma NegatedTargetBelow(period: u16, shift: u8, ones: bool)
    requires shift < 8 && Target(period, shift, true, ones) <= 0x07FF
    ensures Target(period, shift, true, ones) <= period
  {
    var shifted := period >> shift;
    assert shifted <= period;
  }

  class Sweep {
    const divider: Divider
    var enabled: bool
    var negate: bool
    const onesComplement: bool
    var shiftCount: u8

    ghost function Repr(): set<object> {
      {this, divider}
    }

    ghost function State(): SweepState
      reads this, divider
    {
      SweepState(divider.State(), enabled, negate, onesComplement, shiftCount)
    }

    constructor (ones: bool)
      ensures State() == SweepState(DividerState(0, 0), false, false, ones, 0)
      ensures fresh(Repr())
    {
      divider := new Divider();
      enabled, negate, onesComplement, shiftCount := false, false, ones, 0;
    }

    method Update(val: u8)
      modifies Repr()
      ensures State() == SweepUpdate(old(State()), val)
    {
      enabled := Bit(val, 7);
      divider.SetPeriod(((val & 0x70) >> 4) as nat8);
      divider.Reload();
      negate := Bit(val, 3);
      shiftCount := val & 0x07;
    }

    method Clock(period: u16) returns (target: Option<u16>)
      requires SweepInv(State())
      modifies Repr()
      ensures (State(), target) == SweepClock(old(State()), period)
    {
      var isMuted := Mute(period);
      var fired := divider.Clock();
      if fired && enabled && !isMuted {
        target := Some(CalcTarget(period));
      } else {
        target := None;
      }
    }

    function Mute(period: u16): (r: bool)
      reads this, divider
      requires SweepInv(State())
      ensures r == SweepMute(State(), period)
    {
      period < 8 || CalcTarget(period) > 0x07FF
    }

    function CalcTarget(period: u16): (r: u16)
      reads this, divider
      requires SweepInv(State())
      ensures r == SweepTarget(State(), period)
    {
      Target(period, shiftCount, negate, onesComplement)
    }
  }
}
