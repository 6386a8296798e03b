/**
 * The four tone channels of the APU (nes/src/audio/square.rs, noise.rs,
 * triangle.rs) and the DMC register decoding (nes/src/audio/dmc.rs). Each
 * channel owns its counters; the `Channel` interface they share (clock, get,
 * is_running, set_enabled, half_frame_clock, quarter_frame_clock) appears as
 * methods of the same names on each class.
 */
module ApuChannels {
  import opened Types
  import opened Bytes
  import opened ApuCounters

  /** The length table index held in the top five bits of a register write. */
  function LengthIndex(val: u8): (r: nat)
    ensures r < |LENGTH_LOOKUP|
  {
    ((val & 0xF8) >> 3) as nat
  }

  /** The four-bit volume or envelope period in the low bits of a register write. */
  function VolumeBits(val: u8): (r: nat8)
    ensures r <= 15
  {
    (val & 0x0F) as nat8
  }

  // ---------------------------------------------------------------- square

  datatype SquareState = SquareState(
    envelope: EnvelopeState, length: LengthState, sequencer: SquareSeqState,
    sweep: SweepState, timer: TimerState)

  /** A square channel after new(idx): the sweep uses ones' complement exactly for idx 0. */
  function NewSquare(squareIdx: u8): SquareState {
    SquareState(NEW_ENVELOPE, LengthState(false, 0), SquareSeqState(0, 0),
      SweepState(DividerState(0, 0), false, false, squareIdx == 0, 0), TimerState(false, 0, 0))
  }

  /** The facts every operation keeps: counters in range, and an 11-bit timer period. */
  predicate SquareInv(s: SquareState) {
    && EnvelopeInv(s.envelope) && SweepInv(s.sweep)
    && s.sequencer.dutyCycle < |DUTY_CYCLES| && s.sequencer.dutyIdx < 8
    && s.timer.period <= 0x07FF
  }

  /** Register 0: duty in bits 6-7; bit 5 both loops the envelope and halts the length; bit 4 constant volume; bits 0-3 volume. */
  function SquareSetDuty(s: SquareState, val: u8): SquareState {
    var bit5 := Bit(val, 5);
    s.(sequencer := s.sequencer.(dutyCycle := ((val & 0xC0) >> 6) as nat),
       envelope := s.envelope.(loopFlag := bit5, constVolume := Bit(val, 4), volumePeriod := VolumeBits(val)),
       length := s.length.(halt := bit5))
  }

  /** Register 1: the sweep unit's settings. */
  function SquareSetSweep(s: SquareState, val: u8): SquareState {
    s.(sweep := SweepUpdate(s.sweep, val))
  }

  /** Register 2: the low byte of the timer period. */
  function SquareSetTimerLo(s: SquareState, val: u8): SquareState {
    s.(timer := s.timer.(period := SpliceLo(s.timer.period, val)))
  }

  /** Register 3: timer bits 8-10, a length load, a sequencer restart and an envelope restart. */
  function SquareSetLenTimerHi(s: SquareState, val: u8): SquareState {
    s.(timer := s.timer.(period := SpliceHi(s.timer.period, val & 0x07)),
       length := LengthSet(s.length, LengthIndex(val)),
       sequencer := s.sequencer.(dutyIdx := 0),
       envelope := s.envelope.(startFlag := true))
  }

  /** clock: tick the timer, and step the sequencer when it elapsed. */
  function SquareClock(s: SquareState): SquareState {
    var t := TimerTick(s.timer);
    s.(timer := t, sequencer := if t.hasElapsed then SquareSeqClock(s.sequencer) else s.sequencer)
  }

  /** get: silent when swept out of range, below period 8, out of length, or on a 0 duty step; else the envelope. */
  function SquareGet(s: SquareState): nat8
    requires SquareInv(s)
  {
    var period := s.timer.period;
    if SweepMute(s.sweep, period) || period < 8 || LengthMute(s.length) || SquareSeqGet(s.sequencer) == 0 then 0
    else EnvelopeGet(s.envelope)
  }

  /** half_frame_clock: clock the length, then take the sweep's target period when it offers one. */
  function SquareHalfFrame(s: SquareState): SquareState
    requires SquareInv(s)
  {
    var (sw, target) := SweepClock(s.sweep, s.timer.period);
    s.(length := LengthClock(s.length), sweep := sw,
       timer := if target.Some? then s.timer.(period := target.value) else s.timer)
  }

  function SquareQuarterFrame(s: SquareState): SquareState {
    s.(envelope := EnvelopeClock(s.envelope))
  }

  /** set_enabled(false) silences the length counter; set_enabled(true) does nothing. */
  function SquareSetEnabled(s: SquareState, enabled: bool): SquareState {
    if enabled then s else s.(length := s.length.(length := 0))
  }

  predicate SquareIsRunning(s: SquareState) {
    s.length.length > 0
  }

  /** Register 0 decoding, field by field. */
  lemma SquareSetDutyFields(s: SquareState, val: u8)
    ensures var r := SquareSetDuty(s, val);
      && r.sequencer.dutyCycle < 4
      && r.envelope.loopFlag == Bit(val, 5) && r.length.halt == Bit(val, 5)
      && r.envelope.constVolume == Bit(val, 4) && r.envelope.volumePeriod <= 15
      && r.timer == s.timer && r.sweep == s.sweep
  {
  }

  /** Register 3 loads length LENGTH_LOOKUP[val >> 3], sets timer bits 8-10 from val & 7 and restarts the sequence and envelope. */
  lemma SquareSetLenTimerHiFields(s: SquareState, val: u8)
    ensures var r := SquareSetLenTimerHi(s, val);
      && r.length.length == LENGTH_LOOKUP[LengthIndex(val)]
      && Hi(r.timer.period) == val & 0x07 && Lo(r.timer.period) == Lo(s.timer.period)
      && r.sequencer.dutyIdx == 0 && r.envelope.startFlag
  {
    SpliceHiMeaning(s.timer.period, val & 0x07);
  }

  /** A low byte spliced under a high byte of at most 7 keeps the period within 11 bits. */
  lemma SpliceLoKeeps11Bits(period: u16, v: u8)
    requires period <= 0x07FF
    ensures SpliceLo(period, v) <= 0x07FF
  {
  }

  /** A high byte of at most 7 keeps the period within 11 bits. */
  lemma SpliceHiKeeps11Bits(period: u16, v: u8)
    requires v <= 7
    ensures SpliceHi(period, v) <= 0x07FF
  {
  }

  /** Every square operation keeps SquareInv, in particular the 11-bit timer period. */
  lemma SquareOpsKeepInv(s: SquareState, val: u8, enabled: bool)
    requires SquareInv(s)
    ensures SquareInv(SquareSetDuty(s, val))
    ensures SquareInv(SquareSetSweep(s, val))
    ensures SquareInv(SquareSetTimerLo(s, val))
    ensures SquareInv(SquareSetLenTimerHi(s, val))
    ensures SquareInv(SquareClock(s))
    ensures SquareInv(SquareQuarterFrame(s))
    ensures SquareInv(SquareSetEnabled(s, enabled))
  {
    SweepUpdateFields(s.sweep, val);
    SpliceLoKeeps11Bits(s.timer.period, val);
    SpliceHiKeeps11Bits(s.timer.period, val & 0x07);
    EnvelopeClockKeepsInv(s.envelope);
  }

  /** Whatever frame pulses arrive in one APU step, the square keeps SquareInv. */
  lemma SquarePulsesKeepInv(s: SquareState, half: bool, quarter: bool, even: bool)
    requires SquareInv(s)
    ensures var s1 := if half then SquareHalfFrame(s) else s;
      var s2 := if quarter then SquareQuarterFrame(s1) else s1;
      SquareInv(if even then SquareClock(s2) else s2)
  {
    SquareHalfFrameKeepsInv(s);
    var s1 := if half then SquareHalfFrame(s) else s;
    SquareOpsKeepInv(s1, 0, true);
    SquareOpsKeepInv(SquareQuarterFrame(s1), 0, true);
  }

  /** The half-frame clock keeps SquareInv: a sweep target is only taken when it fits 11 bits. */
  lemma SquareHalfFrameKeepsInv(s: SquareState)
    requires SquareInv(s)
    ensures SquareInv(SquareHalfFrame(s))
  {
    SweepOffersInRange(s.sweep, s.timer.period);
  }

  /** The square output is nonzero only when no mute applies, and then it is the envelope level. */
  lemma SquareGetMeaning(s: SquareState)
    requires SquareInv(s)
    ensures SquareGet(s) != 0 ==>
      && !SweepMute(s.sweep, s.timer.period) && s.timer.period >= 8
      && SquareIsRunning(s) && Bit(DUTY_CYCLES[s.sequencer.dutyCycle], s.sequencer.dutyIdx)
      && SquareGet(s) == EnvelopeGet(s.envelope)
    ensures SquareGet(s) <= 15 || s.envelope.constVolume
  {
    SquareSeqGetMeaning(s.sequencer);
  }

  /**
   * A square channel. The counters it owns are held by value, as the source's
   * struct fields are, and each update goes through the counter's own state
   * function (EnvelopeClock, LengthClock, SweepClock, TimerTick, ...).
   */
  class Square {
    var envelope: EnvelopeState
    var length: LengthState
    var sequencer: SquareSeqState
    var sweep: SweepState
    var timer: TimerState

    ghost function State(): SquareState
      reads this
    {
      SquareState(envelope, length, sequencer, sweep, timer)
    }

    ghost predicate Valid()
      reads this
    {
      SquareInv(State())
    }

    constructor (squareIdx: u8)
      ensures Valid() && State() == NewSquare(squareIdx)
    {
      envelope := NEW_ENVELOPE;
      length := LengthState(false, 0);
      sequencer := SquareSeqState(0, 0);
      sweep := SweepState(DividerState(0, 0), false, false, squareIdx == 0, 0);
      timer := TimerState(false, 0, 0);
    }

    method SetDutyLengthEnvelopeDivider(val: u8)
      requires Valid()
      modifies this
      ensures Valid() && State() == SquareSetDuty(old(State()), val)
    {
      sequencer := sequencer.(dutyCycle := ((val & 0xC0) >> 6) as nat);
      var bit5 := Bit(val, 5);
      envelope := envelope.(loopFlag := bit5);
      length := length.(halt := bit5);
      envelope := envelope.(constVolume := Bit(val, 4));
      envelope := envelope.(volumePeriod := (val & 0x0F) as nat8);
      SquareOpsKeepInv(old(State()), val, true);
    }

    method SetSweep(val: u8)
      requires Valid()
      modifies this
      ensures Valid() && State() == SquareSetSweep(old(State()), val)
    {
      sweep := SweepUpdate(sweep, val);
      SquareOpsKeepInv(old(State()), val, true);
    }

    method SetTimerLo(val: u8)
      requires Valid()
      modifies this
      ensures Valid() && State() == SquareSetTimerLo(old(State()), val)
    {
      timer := timer.(period := SpliceLo(timer.period, val));
      SquareOpsKeepInv(old(State()), val, true);
    }

    method SetLenTimerHi(val: u8)
      requires Valid()
      modifies this
      ensures Valid() && State() == SquareSetLenTimerHi(old(State()), val)
    {
      timer := timer.(period := SpliceHi(timer.period, val & 0x07));
      length := LengthSet(length, ((val & 0xF8) >> 3) as nat);
      sequencer := sequencer.(dutyIdx := 0);
      envelope := envelope.(startFlag := true);
      SquareOpsKeepInv(old(State()), val, true);
    }

    method Clock()
      requires Valid()
      modifies this
      ensures Valid() && State() == SquareClock(old(State()))
    {
      timer := TimerTick(timer);
      if timer.hasElapsed {
        sequencer := SquareSeqClock(sequencer);
      }
      SquareOpsKeepInv(old(State()), 0, true);
    }

    function Get(): (r: nat8)
      reads this
      requires Valid()
      ensures r == SquareGet(State())
    {
      if SweepMute(sweep, timer.period) || timer.period < 8 || LengthMute(length) || SquareSeqGet(sequencer) == 0 then 0
      else EnvelopeGet(envelope)
    }

    method HalfFrameClock()
      requires Valid()
      modifies this
      ensures Valid() && State() == SquareHalfFrame(old(State()))
    {
      length := LengthClock(length);
      var period := timer.period;
      var sw, target := SweepClock(sweep, period).0, SweepClock(sweep, period).1;
      sweep := sw;
      if target.Some? {
        timer := timer.(period := target.value);
      }
      SquareHalfFrameKeepsInv(old(State()));
    }

    method SetEnabled(enabled: bool)
      requires Valid()
      modifies this
      ensures Valid() && State() == SquareSetEnabled(old(State()), enabled)
    {
      if !enabled {
        length := length.(length := 0);
      }
      SquareOpsKeepInv(old(State()), 0, enabled);
    }

    function IsRunning(): (r: bool)
      reads this
      ensures r == SquareIsRunning(State())
    {
      length.length > 0
    }

    method QuarterFrameClock()
      requires Valid()
      modifies this
      ensures Valid() && State() == SquareQuarterFrame(old(State()))
    {
      envelope := EnvelopeClock(envelope);
      SquareOpsKeepInv(old(State()), 0, true);
    }
  }

  // ----------------------------------------------------------------- noise

  /** The noise timer periods, selected by the low four bits of register 2. */
  const NOISE_PERIODS: seq<u16> := [
    4, 8, 16, 32, 64, 96, 128, 160, 202, 254, 380, 508, 762, 1016, 2034, 4068]

  /** shift_right: shift the 15-bit LFSR right and feed bit 0 XOR bit 6 (mode) or bit 1 into bit 14. */
  function NoiseShiftRight(v: u16, bit6: bool): u16 {
    var feedbackBit := if bit6 then Bitn16(v, 6) else Bitn16(v, 1);
    var feedback := (feedbackBit ^ Bitn16(v, 0)) << 14;
    (v >> 1) | feedback
  }

  /** The LFSR keeps to 15 bits and, started from a nonzero value, never becomes 0. */
  lemma NoiseShiftStays(v: u16, bit6: bool)
    requires 0 < v < 0x8000
    ensures 0 < NoiseShiftRight(v, bit6) < 0x8000
  {
    var feedbackBit := if bit6 then Bitn16(v, 6) else Bitn16(v, 1);
    if v == 1 {
      assert feedbackBit == 0 && Bitn16(v, 0) == 1;
    }
  }

  datatype NoiseState = NoiseState(
    envelope: EnvelopeState, length: LengthState, modeFlag: bool, shift: u16, timer: TimerState)

  const NEW_NOISE := NoiseState(NEW_ENVELOPE, LengthState(false, 0), false, 1, TimerState(false, 0, 0))

  predicate NoiseInv(n: NoiseState) {
    EnvelopeInv(n.envelope) && 0 < n.shift < 0x8000
  }

  /** Register 2: mode from bit 7, timer period NOISE_PERIODS[val & 0xF]. */
  function NoiseSetLoopPeriod(n: NoiseState, val: u8): NoiseState {
    n.(modeFlag := Bit(val, 7), timer := n.timer.(period := NOISE_PERIODS[(val & 0x0F) as int]))
  }

  /** Register 3: a length load and an envelope restart. */
  function NoiseSetLen(n: NoiseState, val: u8): NoiseState {
    n.(length := LengthSet(n.length, LengthIndex(val)), envelope := n.envelope.(startFlag := true))
  }

  /** Register 0: halt from bit 5, constant volume from bit 4, volume from bits 0-3. */
  function NoiseSetHaltConstEnvelope(n: NoiseState, val: u8): NoiseState {
    n.(length := n.length.(halt := Bit(val, 5)),
       envelope := n.envelope.(constVolume := Bit(val, 4), volumePeriod := VolumeBits(val)))
  }

  /** clock: tick the timer, and shift the LFSR when it elapsed. */
  function NoiseClock(n: NoiseState): NoiseState {
    var t := NoiseTimerTick(n);
    n.(timer := t, shift := if t.hasElapsed then NoiseShiftRight(n.shift, n.modeFlag) else n.shift)
  }

  function NoiseTimerTick(n: NoiseState): TimerState {
    TimerTick(n.timer)
  }

  /** get: silent when out of length or when bit 0 of the LFSR is set, else the envelope. */
  function NoiseGet(n: NoiseState): nat8 {
    if LengthMute(n.length) || Bit16(n.shift, 0) then 0 else EnvelopeGet(n.envelope)
  }

  function NoiseSetEnabled(n: NoiseState, enabled: bool): NoiseState {
    if enabled then n else n.(length := n.length.(length := 0))
  }

  function NoiseHalfFrame(n: NoiseState): NoiseState {
    n.(length := LengthClock(n.length))
  }

  function NoiseQuarterFrame(n: NoiseState): NoiseState {
    n.(envelope := EnvelopeClock(n.envelope))
  }

  predicate NoiseIsRunning(n: NoiseState) {
    n.length.length > 0
  }

  /** Every noise operation keeps NoiseInv. */
  lemma NoiseOpsKeepInv(n: NoiseState, val: u8, enabled: bool)
    requires NoiseInv(n)
    ensures NoiseInv(NoiseSetLoopPeriod(n, val))
    ensures NoiseInv(NoiseSetLen(n, val))
    ensures NoiseInv(NoiseSetHaltConstEnvelope(n, val))
    ensures NoiseInv(NoiseClock(n))
    ensures NoiseInv(NoiseSetEnabled(n, enabled))
    ensures NoiseInv(NoiseHalfFrame(n))
    ensures NoiseInv(NoiseQuarterFrame(n))
  {
    NoiseShiftStays(n.shift, n.modeFlag);
    EnvelopeClockKeepsInv(n.envelope);
  }

  /** Whatever frame pulses arrive in one APU step, the noise channel keeps NoiseInv. */
  lemma NoisePulsesKeepInv(n: NoiseState, half: bool, quarter: bool, even: bool)
    requires NoiseInv(n)
    ensures var n1 := if half then NoiseHalfFrame(n) else n;
      var n2 := if quarter then NoiseQuarterFrame(n1) else n1;
      NoiseInv(if even then NoiseClock(n2) else n2)
  {
    NoiseOpsKeepInv(n, 0, true);
    var n1 := if half then NoiseHalfFrame(n) else n;
    NoiseOpsKeepInv(n1, 0, true);
    NoiseOpsKeepInv(NoiseQuarterFrame(n1), 0, true);
  }

  /** The LFSR moves only on a clock whose timer tick elapsed. */
  lemma NoiseClockShifts(n: NoiseState)
    ensures NoiseClock(n).shift != n.shift ==> TimerTick(n.timer).hasElapsed
    ensures NoiseClock(n).timer == TimerTick(n.timer)
  {
  }

  /** Register 2 decoding: mode bit 7, and one of the sixteen table periods. */
  lemma NoiseSetLoopPeriodFields(n: NoiseState, val: u8)
    ensures var r := NoiseSetLoopPeriod(n, val);
      && r.modeFlag == Bit(val, 7)
      && r.timer.period in NOISE_PERIODS
      && r.timer.current == n.timer.current
      && r.length == n.length && r.envelope == n.envelope && r.shift == n.shift
  {
  }

  class NoiseShift {
    var val: u16

    constructor ()
      ensures val == 1
    {
      val := 1;
    }

    method ShiftRight(bit6: bool)
      modifies this
      ensures val == NoiseShiftRight(old(val), bit6)
    {
      var feedbackBit := if bit6 then Bitn16(val, 6) else Bitn16(val, 1);
      var feedback := (feedbackBit ^ Bitn16(val, 0)) << 14;
      val := val >> 1;
      val := val | feedback;
    }

    /** is_zero: in fact bit 0 of the register is set. */
    function IsZero(): (r: bool)
      reads this
      ensures r == Bit16(val, 0)
    {
      Bit16(val, 0)
    }
  }

  /** The noise channel; its counters and shift register are held by value, as in the source. */
  class Noise {
    var envelope: EnvelopeState
    var length: LengthState
    var modeFlag: bool
    var shift: u16
    var timer: TimerState

    ghost function State(): NoiseState
      reads this
    {
      NoiseState(envelope, length, modeFlag, shift, timer)
    }

    ghost predicate Valid()
      reads this
    {
      NoiseInv(State())
    }

    constructor ()
      ensures Valid() && State() == NEW_NOISE
    {
      envelope := NEW_ENVELOPE;
      length := LengthState(false, 0);
      modeFlag := false;
      shift := 1;
      timer := TimerState(false, 0, 0);
    }

    method SetLoopPeriod(val: u8)
      requires Valid()
      modifies this
      ensures Valid() && State() == NoiseSetLoopPeriod(old(State()), val)
    {
      var mode := Bit(val, 7);
      var idx := (val & 0x0F) as int;
      var len := NOISE_PERIODS[idx];
      modeFlag := mode;
      timer := timer.(period := len);
      NoiseOpsKeepInv(old(State()), val, true);
    }

    method SetLen(val: u8)
      requires Valid()
      modifies this
      ensures Valid() && State() == NoiseSetLen(old(State()), val)
    {
      length := LengthSet(length, ((val & 0xF8) >> 3) as nat);
      envelope := envelope.(startFlag := true);
      NoiseOpsKeepInv(old(State()), val, true);
    }

    method SetHaltConstEnvelope(val: u8)
      requires Valid()
      modifies this
      ensures Valid() && State() == NoiseSetHaltConstEnvelope(old(State()), val)
    {
      length := length.(halt := Bit(val, 5));
      envelope := envelope.(constVolume := Bit(val, 4));
      envelope := envelope.(volumePeriod := (val & 0x0F) as nat8);
      NoiseOpsKeepInv(old(State()), val, true);
    }

    method Clock()
      requires Valid()
      modifies this
      ensures Valid() && State() == NoiseClock(old(State()))
    {
      timer := TimerTick(timer);
      if timer.hasElapsed {
        shift := NoiseShiftRight(shift, modeFlag);
      }
      NoiseOpsKeepInv(old(State()), 0, true);
    }

    function Get(): (r: nat8)
      reads this
      ensures r == NoiseGet(State())
      ensures r != 0 ==> NoiseIsRunning(State()) && !Bit16(shift, 0)
    {
      if LengthMute(length) || Bit16(shift, 0) then 0 else EnvelopeGet(envelope)
    }

    method SetEnabled(enabled: bool)
      requires Valid()
      modifies this
      ensures Valid() && State() == NoiseSetEnabled(old(State()), enabled)
    {
      if !enabled {
        length := length.(length := 0);
      }
      NoiseOpsKeepInv(old(State()), 0, enabled);
    }

    method HalfFrameClock()
      requires Valid()
      modifies this
      ensures Valid() && State() == NoiseHalfFrame(old(State()))
    {
      length := LengthClock(length);
      NoiseOpsKeepInv(old(State()), 0, true);
    }

    method QuarterFrameClock()
      requires Valid()
      modifies this
      ensures Valid() && State() == NoiseQuarterFrame(old(State()))
    {
      envelope := EnvelopeClock(envelope);
      NoiseOpsKeepInv(old(State()), 0, true);
    }

    function IsRunning(): (r: bool)
      reads this
      ensures r == NoiseIsRunning(State())
    {
      length.length > 0
    }
  }

  // -------------------------------------------------------------- triangle

  datatype TriangleState = TriangleState(
    controlFlag: bool, length: LengthState, linear: LinearState, seqIdx: nat, timer: TimerState)

  const NEW_TRIANGLE := TriangleState(false, LengthState(false, 0), LinearState(0, false, 0), 0, TimerState(false, 0, 0))

  predicate TriangleInv(t: TriangleState) {
    t.seqIdx < |WAVEFORM|
  }

  /** Register 0: bit 7 is both the control flag and the length halt; bits 0-6 the linear reload value. */
  function TriangleSetControl(t: TriangleState, val: u8): TriangleState {
    var bit7 := Bit(val, 7);
    t.(controlFlag := bit7, length := t.length.(halt := bit7), linear := t.linear.(reloadVal := (val & 0x7F) as nat8))
  }

  function TriangleSetTimerLo(t: TriangleState, val: u8): TriangleState {
    t.(timer := t.timer.(period := SpliceLo(t.timer.period, val)))
  }

  /** Register 3: a length load, timer bits 8-10, and the linear counter's reload flag. */
  function TriangleSetLenTimerHi(t: TriangleState, val: u8): TriangleState {
    t.(length := LengthSet(t.length, LengthIndex(val)),
       timer := t.timer.(period := SpliceHi(t.timer.period, val & 0x07)),
       linear := t.linear.(reloadFlag := true))
  }

  /** clock: tick the timer; step the waveform only when it elapsed and both counters are nonzero. */
  function TriangleClock(t: TriangleState): TriangleState {
    var tm := TimerTick(t.timer);
    var step := tm.hasElapsed && t.linear.counter > 0 && !LengthMute(t.length);
    t.(timer := tm, seqIdx := if step then (t.seqIdx + 1) % 32 else t.seqIdx)
  }

  function TriangleGet(t: TriangleState): nat8
    requires TriangleInv(t)
  {
    WAVEFORM[t.seqIdx]
  }

  function TriangleQuarterFrame(t: TriangleState): TriangleState {
    t.(linear := LinearClock(t.linear, t.controlFlag))
  }

  function TriangleHalfFrame(t: TriangleState): TriangleState {
    t.(length := LengthClock(t.length))
  }

  predicate TriangleIsRunning(t: TriangleState) {
    t.length.length > 0
  }

  /** The waveform index advances only on an elapsed tick with both counters nonzero, and stays below 32. */
  lemma TriangleClockMeaning(t: TriangleState)
    requires TriangleInv(t)
    ensures TriangleInv(TriangleClock(t))
    ensures TriangleClock(t).seqIdx != t.seqIdx ==>
      TimerTick(t.timer).hasElapsed && t.linear.counter != 0 && t.length.length != 0
    ensures TriangleGet(TriangleClock(t)) <= 15
  {
    WaveformShape(TriangleClock(t).seqIdx);
  }

  /** Register 3 decoding. */
  lemma TriangleSetLenTimerHiFields(t: TriangleState, val: u8)
    ensures var r := TriangleSetLenTimerHi(t, val);
      && r.length.length == LENGTH_LOOKUP[LengthIndex(val)]
      && Hi(r.timer.period) == val & 0x07 && Lo(r.timer.period) == Lo(t.timer.period)
      && r.linear.reloadFlag && r.linear.counter == t.linear.counter
  {
    SpliceHiMeaning(t.timer.period, val & 0x07);
  }

  /** The triangle channel; its counters are held by value, as in the source. */
  class Triangle {
    var controlFlag: bool
    var length: LengthState
    var linear: LinearState
    var seqIdx: nat
    var timer: TimerState

    ghost function State(): TriangleState
      reads this
    {
      TriangleState(controlFlag, length, linear, seqIdx, timer)
    }

    ghost predicate Valid()
      reads this
    {
      TriangleInv(State())
    }

    constructor ()
      ensures Valid() && State() == NEW_TRIANGLE
    {
      controlFlag := false;
      length := LengthState(false, 0);
      linear := LinearState(0, false, 0);
      seqIdx := 0;
      timer := TimerState(false, 0, 0);
    }

    method SetControlCounter(val: u8)
      requires Valid()
      modifies this
      ensures Valid() && State() == TriangleSetControl(old(State()), val)
    {
      var bit7 := Bit(val, 7);
      controlFlag := bit7;
      length := length.(halt := bit7);
      linear := linear.(reloadVal := (val & 0x7F) as nat8);
    }

    method SetTimerLo(val: u8)
      requires Valid()
      modifies this
      ensures Valid() && State() == TriangleSetTimerLo(old(State()), val)
    {
      timer := timer.(period := SpliceLo(timer.period, val));
    }

    method SetLengthCounterTimerHi(val: u8)
      requires Valid()
      modifies this
      ensures Valid() && State() == TriangleSetLenTimerHi(old(State()), val)
    {
      length := LengthSet(length, ((val & 0xF8) >> 3) as nat);
      timer := timer.(period := SpliceHi(timer.period, val & 0x07));
      linear := linear.(reloadFlag := true);
    }

    method Clock()
      requires Valid()
      modifies this
      ensures Valid() && State() == TriangleClock(old(State()))
    {
      timer := TimerTick(timer);
      var timerElapsed := timer.hasElapsed;
      var linearNonzero := linear.counter > 0;
      var lengthMute := LengthMute(length);
      if timerElapsed && linearNonzero && !lengthMute {
        seqIdx := (seqIdx + 1) % 32;
      }
    }

    function Get(): (r: nat8)
      reads this
      requires Valid()
      ensures r == TriangleGet(State()) && r <= 15
    {
      WaveformShape(seqIdx);
      WAVEFORM[seqIdx]
    }

    method QuarterFrameClock()
      requires Valid()
      modifies this
      ensures Valid() && State() == TriangleQuarterFrame(old(State()))
    {
      linear := LinearClock(linear, controlFlag);
    }

    method HalfFrameClock()
      requires Valid()
      modifies this
      ensures Valid() && State() == TriangleHalfFrame(old(State()))
    {
      length := LengthClock(length);
    }

    function IsRunning(): (r: bool)
      reads this
      ensures r == TriangleIsRunning(State())
    {
      length.length > 0
    }

    /** set_enabled: as written only queries mute(), so neither value changes anything. */
    method SetEnabled(enabled: bool)
      requires Valid()
      ensures State() == old(State())
    {
      if !enabled {
        var _ := LengthMute(length);
      }
    }
  }

  // ------------------------------------------------------------------- DMC

  /** The DMC rates, selected by the low four bits of register 0. */
  const RATE_LOOKUP: seq<u16> := [
    428, 380, 340, 320, 286, 254, 226, 214, 190, 160, 142, 128, 106, 84, 72, 54]

  datatype DmcState = DmcState(
    irqEnabled: bool, loopEnabled: bool, rate: u16, sampleAddr: u16, sampleLen: u16, timer: TimerState)

  const NEW_DMC := DmcState(false, false, 0, 0, 0, TimerState(false, 0, 0))

  /** The sample start address of a register 2 write: 0xC000 | val << 6. */
  function SampleAddress(val: u8): u16 {
    ((val as u16) << 6) | 0xC000
  }

  /** The sample length of a register 3 write: val * 16 + 1 bytes. */
  function SampleLength(val: u8): u16 {
    (val as u16) * 16 + 1
  }

  /** Register 0: IRQ enable bit 7, loop bit 6, rate RATE_LOOKUP[val & 0xF]. */
  function DmcSetIrqLoopFreq(d: DmcState, val: u8): DmcState {
    d.(irqEnabled := Bit(val, 7), loopEnabled := Bit(val, 6), rate := RATE_LOOKUP[(val & 0x0F) as int])
  }

  /** Sample addresses are the 64-byte aligned addresses from 0xC000 up to 0xFFC0. */
  lemma SampleAddressRange(val: u8)
    ensures 0xC000 <= SampleAddress(val) <= 0xFFC0
    ensures SampleAddress(val) & 0x3F == 0
    ensures SampleAddress(val) as int == 0xC000 + 64 * val as int
  {
  }

  /** Sample lengths are 16 * val + 1 without overflow: 1 up to 4081. */
  lemma SampleLengthValue(val: u8)
    ensures SampleLength(val) as int == 16 * val as int + 1
    ensures 1 <= SampleLength(val) as int <= 4081
  {
  }

  class Dmc {
    var irqEnabled: bool
    var loopEnabled: bool
    var rate: u16
    var sampleAddr: u16
    var sampleLen: u16
    var timer: TimerState

    ghost function State(): DmcState
      reads this
    {
      DmcState(irqEnabled, loopEnabled, rate, sampleAddr, sampleLen, timer)
    }

    constructor ()
      ensures State() == NEW_DMC
    {
      irqEnabled, loopEnabled, rate, sampleAddr, sampleLen := false, false, 0, 0, 0;
      timer := TimerState(false, 0, 0);
    }

    method SetIrqLoopFreq(val: u8)
      modifies this
      ensures State() == DmcSetIrqLoopFreq(old(State()), val)
    {
      irqEnabled := Bit(val, 7);
      loopEnabled := Bit(val, 6);
      var rateIdx := (val & 0x0F) as int;
      rate := RATE_LOOKUP[rateIdx];
    }

    /** set_counter: a no-op. */
    method SetCounter(val: u8)
      ensures State() == old(State())
    {
    }

    method SetSampleAddress(val: u8)
      modifies this
      ensures State() == old(State()).(sampleAddr := SampleAddress(val))
    {
      var v := val as u16;
      v := v << 6;
      v := v | 0xC000;
      sampleAddr := v;
    }

    method SetSampleLength(val: u8)
      modifies this
      ensures State() == old(State()).(sampleLen := SampleLength(val))
    {
      sampleLen := (val as u16) * 16 + 1;
    }

    /** clock: only the timer ticks. */
    method Clock()
      modifies this
      ensures State() == old(State()).(timer := TimerTick(old(State()).timer))
    {
      timer := TimerTick(timer);
    }

    /** set_enabled, half_frame_clock and quarter_frame_clock: no-ops. */
    method SetEnabled(enabled: bool)
      ensures State() == old(State())
    {
    }

    /** get: always 0. */
    function Get(): (r: nat8)
      ensures r == 0
    {
      0
    }

    /** is_running: always false. */
    function IsRunning(): (r: bool)
      ensures !r
    {
      false
    }
  }
}
