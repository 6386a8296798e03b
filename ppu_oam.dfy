/**
 * Object attribute memory (nes/src/ppu/oam.rs): the 256-byte primary OAM
 * addressed through OAMADDR, the 32-byte secondary OAM holding the sprites
 * found for the next scanline, and the tick-driven sprite evaluation that
 * fills it and then looks for a ninth sprite (the overflow search).
 *
 * Every read of primary OAM indexes it with addr + n*4 + k, which panics in
 * the source when it passes 255; the evaluation here requires that those
 * reads stay inside (EvalReadsInRange).
 */
module PpuOam {
  import opened Types

  /** The state of the evaluation machine; the Write states carry the byte just read. */
  datatype TickState =
    | ReadYPosition
    | WriteYPosition(y: u8)
    | ReadTileIndex
    | WriteTileIndex(tile: u8)
    | ReadAttributes
    | WriteAttributes(attr: u8)
    | ReadXPosition
    | WriteXPosition(x: u8)
    | IncrementN
    | OverflowDetection(m: nat)
    | Phase3ExtraRead(k: u8)
    | BusyLoop
  {
    /** The eight states that copy one sprite into secondary OAM. */
    predicate IsCopying() {
      ReadYPosition? || WriteYPosition? || ReadTileIndex? || WriteTileIndex? ||
      ReadAttributes? || WriteAttributes? || ReadXPosition? || WriteXPosition?
    }
  }

  const OAM_LEN: nat := 0x100
  const OAM2_LEN: nat := 32

  datatype OamState = OamState(
    addr: nat, oam: seq<u8>, oam2: seq<u8>, oam2Index: nat, n: nat, tick: TickState)

  /**
   * What the evaluation keeps true: the buffers have their sizes, OAMADDR is
   * a byte, n counts sprites 0-63, at most seven sprites are ever copied (a
   * sprite is copied only while oam2_index < 7, so the oam2_index == 8 test
   * of WriteYPosition never fires), and the overflow search looks at one of
   * the four bytes of a sprite.
   */
  ghost predicate OamInv(s: OamState) {
    && |s.oam| == OAM_LEN && |s.oam2| == OAM2_LEN
    && s.addr < 0x100 && s.n < 64
    && s.oam2Index <= 7
    && (s.tick.IsCopying() ==> s.oam2Index < 7)
    && (s.tick.OverflowDetection? ==> s.tick.m <= 3)
  }

  /** new: everything zero, evaluation about to read a Y position. */
  const NEW_OAM := OamState(0, seq(OAM_LEN, _ => 0), seq(OAM2_LEN, _ => 0), 0, 0, ReadYPosition)

  lemma NewOamInv()
    ensures OamInv(NEW_OAM)
  {
  }

  /** sprite_y, sprite_addr, sprite_attr, sprite_x: byte k of slot i of secondary OAM. */
  function OamSpriteByte(s: OamState, i: nat, k: nat): u8
    requires |s.oam2| == OAM2_LEN && i < 8 && k < 4
  {
    s.oam2[i * 4 + k]
  }

  /** reset_addr. */
  function OamResetAddr(s: OamState): OamState {
    s.(addr := 0)
  }

  /** set_addr: OAMADDR becomes the value. */
  function OamSetAddr(s: OamState, val: u8): OamState {
    s.(addr := val as nat)
  }

  /** increment_addr: OAMADDR advances modulo 256. */
  function OamIncrementAddr(s: OamState): (r: OamState)
    ensures r.addr < 0x100
  {
    s.(addr := (s.addr + 1) % 0x100)
  }

  /** From 255 increment_addr wraps to 0; below it, it adds one; set and reset set the address exactly. */
  lemma OamAddrMeaning(s: OamState, val: u8)
    requires s.addr < 0x100
    ensures s.addr == 0xFF ==> OamIncrementAddr(s).addr == 0
    ensures s.addr < 0xFF ==> OamIncrementAddr(s).addr == s.addr + 1
    ensures OamSetAddr(s, val).addr == val as nat && OamResetAddr(s).addr == 0
    ensures OamIncrementAddr(s).(addr := s.addr) == s
  {
  }

  /** reset_oam2: secondary OAM filled with 0xFF, evaluation restarted at sprite 0. */
  function OamResetOam2(s: OamState): (r: OamState)
    ensures |r.oam2| == OAM2_LEN && forall i :: 0 <= i < OAM2_LEN ==> r.oam2[i] == 0xFF
    ensures r.oam2Index == 0 && r.n == 0 && r.tick == ReadYPosition
    ensures r.oam == s.oam && r.addr == s.addr
  {
    s.(oam2 := seq(OAM2_LEN, _ => 0xFF), oam2Index := 0, tick := ReadYPosition, n := 0)
  }

  /** in_range: the sprite whose top is at `value` covers scanline `line` (8-pixel sprites). */
  predicate InRange(line: u16, value: u8)
  {
    line >= value as u16 && line < value as u16 + 8
  }

  /** in_range read as numbers: value <= line < value + 8, with no wrap. */
  lemma InRangeMeaning(line: u16, value: u8)
    ensures InRange(line, value) <==> value as int <= line as int < value as int + 8
  {
    assert (value as u16 + 8) as int == value as int + 8;
  }

  /** increment_n: the sprite number advances modulo 64. */
  function OamIncrementN(s: OamState): (r: OamState)
    ensures r.n < 64
  {
    s.(n := (s.n + 1) % 64)
  }

  /** The state the IncrementN bookkeeping leaves before it evaluates again in the same tick. */
  function AfterIncrementN(s: OamState): (r: OamState)
    ensures !r.tick.IncrementN?
  {
    var s1 := OamIncrementN(s);
    s1.(tick :=
      if s1.n == 0 then BusyLoop
      else if s1.oam2Index < 7 then ReadYPosition
      else OverflowDetection(0))
  }

  /** The primary OAM index a read of byte k of the current sprite uses. */
  function PrimaryIndex(s: OamState, k: nat): nat {
    s.addr + s.n * 4 + k
  }

  /** The reads of primary OAM the next tick makes stay inside it (otherwise the source panics). */
  predicate EvalReadsInRange(s: OamState)
    decreases if s.tick.IncrementN? then 1 else 0
  {
    match s.tick
    case ReadYPosition => PrimaryIndex(s, 0) < |s.oam|
    case ReadTileIndex => PrimaryIndex(s, 1) < |s.oam|
    case ReadAttributes => PrimaryIndex(s, 2) < |s.oam|
    case ReadXPosition => PrimaryIndex(s, 3) < |s.oam|
    case OverflowDetection(m) => PrimaryIndex(s, m) < |s.oam|
    case IncrementN => EvalReadsInRange(AfterIncrementN(s))
    case _ => true
  }

  /**
   * sprite_eval: one tick of the machine, and whether it detected a sprite
   * overflow. IncrementN takes no time of its own: it evaluates once more in
   * the same tick, and what that nested evaluation reports is dropped.
   * Primary OAM and OAMADDR are never changed, and the invariant is kept.
   */
  function OamSpriteEval(s: OamState, line: u16): (r: (OamState, bool))
    requires OamInv(s) && EvalReadsInRange(s)
    ensures OamInv(r.0)
    ensures r.0.oam == s.oam && r.0.addr == s.addr
    decreases if s.tick.IncrementN? then 1 else 0
  {
    match s.tick
    case ReadYPosition =>
      (s.(tick := WriteYPosition(s.oam[PrimaryIndex(s, 0)])), false)
    case WriteYPosition(y) =>
      var s1 := if s.oam2Index == 8 then s.(tick := IncrementN) else s;
      var s2 := s1.(oam2 := s1.oam2[s1.oam2Index * 4 := y]);
      (s2.(tick := if InRange(line, y) then ReadTileIndex else IncrementN), false)
    case ReadTileIndex =>
      (s.(tick := WriteTileIndex(s.oam[PrimaryIndex(s, 1)])), false)
    case WriteTileIndex(tile) =>
      (s.(oam2 := s.oam2[s.oam2Index * 4 + 1 := tile], tick := ReadAttributes), false)
    case ReadAttributes =>
      (s.(tick := WriteAttributes(s.oam[PrimaryIndex(s, 2)])), false)
    case WriteAttributes(attr) =>
      (s.(oam2 := s.oam2[s.oam2Index * 4 + 2 := attr], tick := ReadXPosition), false)
    case ReadXPosition =>
      (s.(tick := WriteXPosition(s.oam[PrimaryIndex(s, 3)])), false)
    case WriteXPosition(x) =>
      (s.(oam2 := s.oam2[s.oam2Index * 4 + 3 := x], oam2Index := s.oam2Index + 1, tick := IncrementN), false)
    case IncrementN =>
      (OamSpriteEval(AfterIncrementN(s), line).0, false)
    case OverflowDetection(m) =>
      if InRange(line, s.oam[PrimaryIndex(s, m)]) then
        (s.(tick := Phase3ExtraRead(1)), true)
      else if m < 3 then
        (s.(tick := OverflowDetection(m + 1)), false)
      else
        var s1 := OamIncrementN(s);
        (s1.(tick := if s1.n == 0 then BusyLoop else OverflowDetection(0)), false)
    case Phase3ExtraRead(k) =>
      if k < 4 then (s.(tick := Phase3ExtraRead(k + 1)), false)
      else (OamIncrementN(s).(tick := BusyLoop), false)
    case BusyLoop =>
      (OamIncrementN(s), false)
  }

  /**
   * Overflow is reported exactly by an OverflowDetection(m) tick whose
   * primary byte addr + n*4 + m is in range; that tick moves to
   * Phase3ExtraRead(1).
   */
  lemma OverflowOnlyOnDetectionHit(s: OamState, line: u16)
    requires OamInv(s) && EvalReadsInRange(s)
    ensures OamSpriteEval(s, line).1 <==>
      s.tick.OverflowDetection? && InRange(line, s.oam[PrimaryIndex(s, s.tick.m)])
    ensures OamSpriteEval(s, line).1 ==> OamSpriteEval(s, line).0.tick == Phase3ExtraRead(1)
  {
  }

  /**
   * A miss in the overflow search moves to the next byte of the same sprite
   * (m + 1), and after byte 3 to byte 0 of the next sprite, or to BusyLoop
   * once n wraps to 0.
   */
  lemma OverflowMissAdvances(s: OamState, line: u16)
    requires OamInv(s) && EvalReadsInRange(s) && s.tick.OverflowDetection?
    requires !InRange(line, s.oam[PrimaryIndex(s, s.tick.m)])
    ensures s.tick.m < 3 ==> OamSpriteEval(s, line).0 == s.(tick := OverflowDetection(s.tick.m + 1))
    ensures s.tick.m == 3 && s.n < 63 ==> OamSpriteEval(s, line).0 == s.(n := s.n + 1, tick := OverflowDetection(0))
    ensures s.tick.m == 3 && s.n == 63 ==> OamSpriteEval(s, line).0 == s.(n := 0, tick := BusyLoop)
  {
  }

  /** In BusyLoop only n advances, and no overflow is reported. */
  lemma BusyLoopOnlyAdvancesN(s: OamState, line: u16)
    requires OamInv(s) && s.tick.BusyLoop?
    ensures OamSpriteEval(s, line) == (s.(n := (s.n + 1) % 64), false)
  {
  }

  /**
   * The IncrementN bookkeeping reports no overflow even when the nested
   * evaluation it runs (OverflowDetection(0) once seven sprites are copied)
   * finds one: that tick ends in Phase3ExtraRead(1) with the flag lost.
   */
  lemma IncrementNDropsNestedOverflow(s: OamState, line: u16)
    requires OamInv(s) && EvalReadsInRange(s) && s.tick.IncrementN?
    requires s.oam2Index == 7 && s.n < 63 && PrimaryIndex(s, 4) < OAM_LEN
    requires InRange(line, s.oam[PrimaryIndex(s, 4)])
    ensures OamSpriteEval(OamIncrementN(s).(tick := OverflowDetection(0)), line).1
    ensures !OamSpriteEval(s, line).1
    ensures OamSpriteEval(s, line).0.tick == Phase3ExtraRead(1)
  {
    var a := AfterIncrementN(s);
    assert a == OamIncrementN(s).(tick := OverflowDetection(0));
    assert PrimaryIndex(a, 0) == PrimaryIndex(s, 4);
  }

  /**
   * Ticks of the evaluation, stopping early at a tick whose primary read
   * would leave primary OAM (where the source panics).
   */
  function OamTicks(s: OamState, line: u16, k: nat): (r: OamState)
    requires OamInv(s)
    ensures OamInv(r)
    decreases k
  {
    if k == 0 || !EvalReadsInRange(s) then s
    else OamTicks(OamSpriteEval(s, line).0, line, k - 1)
  }

  /** One step of OamTicks. */
  lemma TicksUnfold(s: OamState, line: u16, k: nat)
    requires OamInv(s) && k > 0 && EvalReadsInRange(s)
    ensures OamTicks(s, line, k) == OamTicks(OamSpriteEval(s, line).0, line, k - 1)
  {
  }

  /** Ticks compose: a + b ticks are a ticks and then b more. */
  lemma {:induction false} TicksAdd(s: OamState, line: u16, a: nat, b: nat)
    requires OamInv(s)
    ensures OamTicks(s, line, a + b) == OamTicks(OamTicks(s, line, a), line, b)
    decreases a
  {
    if a > 0 && EvalReadsInRange(s) {
      TicksAdd(OamSpriteEval(s, line).0, line, a - 1, b);
    } else if a > 0 {
      assert OamTicks(s, line, a) == s;
      if b > 0 {
        assert OamTicks(s, line, b) == s;
      }
    }
  }

  /** The read state that fetches byte k of a sprite. */
  function CopyRead(k: nat): TickState
    requires k < 4
  {
    if k == 0 then ReadYPosition else if k == 1 then ReadTileIndex else if k == 2 then ReadAttributes else ReadXPosition
  }

  /** The state after byte k is copied. */
  function CopyNext(k: nat): TickState
    requires k < 4
  {
    if k == 0 then ReadTileIndex else if k == 1 then ReadAttributes else if k == 2 then ReadXPosition else IncrementN
  }

  /**
   * Two ticks copy byte k of the current sprite into byte k of slot
   * oam2_index (the Y byte only moves on when it is in range).
   */
  lemma CopyByte(s: OamState, line: u16, k: nat)
    requires OamInv(s) && k < 4 && s.tick == CopyRead(k) && PrimaryIndex(s, k) < OAM_LEN
    requires k == 0 ==> InRange(line, s.oam[PrimaryIndex(s, 0)])
    ensures OamTicks(s, line, 2) == s.(
      oam2 := s.oam2[s.oam2Index * 4 + k := s.oam[PrimaryIndex(s, k)]],
      oam2Index := if k == 3 then s.oam2Index + 1 else s.oam2Index,
      tick := CopyNext(k))
  {
    var s1 := OamSpriteEval(s, line).0;
    TicksUnfold(s, line, 2);
    TicksUnfold(s1, line, 1);
  }

  /**
   * The copy phase: from ReadYPosition at a sprite whose Y is in range, eight
   * ticks copy its four bytes into slot oam2_index of secondary OAM, leave
   * the other slots alone, add one to oam2_index and reach IncrementN.
   */
  lemma InRangeSpriteCopied(s: OamState, line: u16)
    requires OamInv(s) && s.tick.ReadYPosition? && PrimaryIndex(s, 3) < OAM_LEN
    requires InRange(line, s.oam[PrimaryIndex(s, 0)])
    ensures var r := OamTicks(s, line, 8);
      && r.tick == IncrementN && r.oam2Index == s.oam2Index + 1 && r.n == s.n
      && r.oam2[s.oam2Index * 4 .. s.oam2Index * 4 + 4] == s.oam[PrimaryIndex(s, 0) .. PrimaryIndex(s, 0) + 4]
      && (forall i :: 0 <= i < OAM2_LEN && (i < s.oam2Index * 4 || s.oam2Index * 4 + 4 <= i) ==> r.oam2[i] == s.oam2[i])
  {
    var b := PrimaryIndex(s, 0);
    var j := s.oam2Index * 4;
    CopyByte(s, line, 0);
    var s2 := OamTicks(s, line, 2);
    CopyByte(s2, line, 1);
    var s4 := OamTicks(s2, line, 2);
    CopyByte(s4, line, 2);
    var s6 := OamTicks(s4, line, 2);
    CopyByte(s6, line, 3);
    var s8 := OamTicks(s6, line, 2);
    TicksAdd(s, line, 2, 2);
    TicksAdd(s, line, 4, 2);
    TicksAdd(s, line, 6, 2);
    FourUpdates(s.oam2, j, s.oam, b);
  }

  /** Writing src[b..b+4] into dst at j..j+4, one byte at a time. */
  lemma FourUpdates(dst: seq<u8>, j: nat, src: seq<u8>, b: nat)
    requires j + 4 <= |dst| && b + 4 <= |src|
    ensures var r := dst[j := src[b]][j + 1 := src[b + 1]][j + 2 := src[b + 2]][j + 3 := src[b + 3]];
      && r[j .. j + 4] == src[b .. b + 4]
      && forall i :: 0 <= i < |dst| && (i < j || j + 4 <= i) ==> r[i] == dst[i]
  {
  }

  /** A hit in the overflow search runs through Phase3ExtraRead(1..4) and is in BusyLoop four ticks later. */
  lemma OverflowHitReachesBusyLoop(s: OamState, line: u16)
    requires OamInv(s) && s.tick == Phase3ExtraRead(1)
    ensures OamTicks(s, line, 4).tick == BusyLoop
    ensures OamTicks(s, line, 4).oam2 == s.oam2 && OamTicks(s, line, 4).n == (s.n + 1) % 64
  {
    var s1 := OamSpriteEval(s, line).0;
    var s2 := OamSpriteEval(s1, line).0;
    var s3 := OamSpriteEval(s2, line).0;
    var s4 := OamSpriteEval(s3, line).0;
    assert s4 == OamIncrementN(s).(tick := BusyLoop);
    TicksUnfold(s, line, 4);
    TicksUnfold(s1, line, 3);
    TicksUnfold(s2, line, 2);
    TicksUnfold(s3, line, 1);
    assert OamTicks(s4, line, 0) == s4;
  }

  /**
   * OAM as memory: peekb reads primary OAM at `addr` (as an index, which
   * must be a byte index), storeb writes it.
   */
  function OamPeekb(s: OamState, addr: nat): u8
    requires addr < |s.oam|
  {
    s.oam[addr]
  }

  function OamStoreb(s: OamState, addr: nat, val: u8): (r: OamState)
    requires addr < |s.oam|
    ensures |r.oam| == |s.oam| && OamPeekb(r, addr) == val
    ensures forall i :: 0 <= i < |s.oam| && i != addr ==> r.oam[i] == s.oam[i]
    ensures r.(oam := s.oam) == s
  {
    s.(oam := s.oam[addr := val])
  }

  /** The OAM of the PPU, updated in place: primary and secondary OAM are fixed-size arrays. */
  class Oam {
    var addr: nat
    const oam: array<u8>
    const oam2: array<u8>
    var oam2Index: nat
    var n: nat
    var tick: TickState

    function State(): OamState
      reads this, oam, oam2
    {
      OamState(addr, oam[..], oam2[..], oam2Index, n, tick)
    }

    ghost predicate Valid()
      reads this, oam, oam2
    {
      oam != oam2 && OamInv(State())
    }

    constructor ()
      ensures Valid() && State() == NEW_OAM && fresh(oam) && fresh(oam2)
    {
      addr := 0;
      oam := new u8[OAM_LEN](_ => 0);
      oam2 := new u8[OAM2_LEN](_ => 0);
      oam2Index := 0;
      n := 0;
      tick := ReadYPosition;
      new;
      assert oam[..] == seq(OAM_LEN, _ => 0);
      assert oam2[..] == seq(OAM2_LEN, _ => 0);
    }

    /** sprite_y, sprite_addr, sprite_attr and sprite_x of slot i. */
    function SpriteY(i: nat): (r: u8)
      reads this, oam, oam2
      requires Valid() && i < 8
      ensures r == OamSpriteByte(State(), i, 0)
    {
      oam2[i * 4]
    }

    function SpriteAddr(i: nat): (r: u8)
      reads this, oam, oam2
      requires Valid() && i < 8
      ensures r == OamSpriteByte(State(), i, 1)
    {
      oam2[i * 4 + 1]
    }

    function SpriteAttr(i: nat): (r: u8)
      reads this, oam, oam2
      requires Valid() && i < 8
      ensures r == OamSpriteByte(State(), i, 2)
    {
      oam2[i * 4 + 2]
    }

    function SpriteX(i: nat): (r: u8)
      reads this, oam, oam2
      requires Valid() && i < 8
      ensures r == OamSpriteByte(State(), i, 3)
    {
      oam2[i * 4 + 3]
    }

    method ResetAddr()
      requires Valid()
      modifies this
      ensures Valid() && State() == OamResetAddr(old(State()))
    {
      addr := 0;
    }

    method SetAddr(val: u8)
      requires Valid()
      modifies this
      ensures Valid() && State() == OamSetAddr(old(State()), val)
    {
      addr := val as nat;
    }

    method IncrementAddr()
      requires Valid()
      modifies this
      ensures Valid() && State() == OamIncrementAddr(old(State()))
    {
      addr := (addr + 1) % 0x100;
    }

    /** addr: OAMADDR as a word. */
    function Addr(): u16
      reads this, oam, oam2
      requires Valid()
    {
      addr as u16
    }

    /** reset_oam2: fill secondary OAM with 0xFF one byte at a time, then restart the evaluation. */
    method ResetOam2()
      requires Valid()
      modifies this, oam2
      ensures Valid() && State() == OamResetOam2(old(State()))
    {
      var i := 0;
      while i < oam2.Length
        modifies oam2
        invariant 0 <= i <= oam2.Length
        invariant forall j :: 0 <= j < i ==> oam2[j] == 0xFF
        invariant oam[..] == old(oam[..])
      {
        oam2[i] := 0xFF;
        i := i + 1;
      }
      assert oam2[..] == seq(OAM2_LEN, _ => 0xFF);
      oam2Index := 0;
      tick := ReadYPosition;
      n := 0;
    }

    /**
     * sprite_eval: one tick of the evaluation, returning whether it detected
     * an overflow. (The oam2_index == 8 test of WriteYPosition is left out
     * here: Valid() rules it out.)
     */
    method SpriteEval(line: u16) returns (overflow: bool)
      requires Valid() && EvalReadsInRange(State())
      modifies this, oam2
      ensures Valid()
      ensures (State(), overflow) == OamSpriteEval(old(State()), line)
      decreases if tick.IncrementN? then 1 else 0
    {
      overflow := false;
      match tick
      case ReadYPosition =>
        ReadPrimary(0, line);
      case ReadTileIndex =>
        ReadPrimary(1, line);
      case ReadAttributes =>
        ReadPrimary(2, line);
      case ReadXPosition =>
        ReadPrimary(3, line);
      case WriteYPosition(y) =>
        WriteSecondary(0, y, line);
      case WriteTileIndex(tile) =>
        WriteSecondary(1, tile, line);
      case WriteAttributes(attr) =>
        WriteSecondary(2, attr, line);
      case WriteXPosition(x) =>
        WriteSecondary(3, x, line);
      case IncrementN =>
        Bookkeep();
        var _ := SpriteEval(line);
      case OverflowDetection(m) =>
        overflow := DetectOverflow(m, line);
      case Phase3ExtraRead(k) =>
        EndTick(line);
      case BusyLoop =>
        EndTick(line);
    }

    /** The IncrementN bookkeeping: the next sprite, and the state to evaluate in the same tick. */
    method Bookkeep()
      requires Valid() && tick.IncrementN?
      modifies this
      ensures Valid() && State() == AfterIncrementN(old(State()))
    {
      IncrementNCounter();
      if n == 0 {
        tick := BusyLoop;
      } else if oam2Index < 7 {
        tick := ReadYPosition;
      } else {
        tick := OverflowDetection(0);
      }
    }

    /** A Phase3ExtraRead or BusyLoop tick. */
    method EndTick(line: u16)
      requires Valid() && (tick.Phase3ExtraRead? || tick.BusyLoop?)
      modifies this
      ensures Valid() && State() == OamSpriteEval(old(State()), line).0
      ensures !OamSpriteEval(old(State()), line).1
    {
      if tick.Phase3ExtraRead? {
        if tick.k < 4 {
          tick := Phase3ExtraRead(tick.k + 1);
        } else {
          IncrementNCounter();
          tick := BusyLoop;
        }
      } else {
        IncrementNCounter();
      }
    }

    /** A Read tick: byte k of sprite n of primary OAM is latched in the next Write state. */
    method ReadPrimary(k: nat, line: u16)
      requires Valid() && k < 4 && tick == CopyRead(k) && EvalReadsInRange(State())
      modifies this
      ensures Valid() && State() == OamSpriteEval(old(State()), line).0
    {
      var val := oam[addr + n * 4 + k];
      tick := if k == 0 then WriteYPosition(val) else if k == 1 then WriteTileIndex(val)
        else if k == 2 then WriteAttributes(val) else WriteXPosition(val);
    }

    /** A Write tick: the latched byte goes to byte k of slot oam2_index; the Y write decides whether to copy on. */
    method WriteSecondary(k: nat, val: u8, line: u16)
      requires Valid() && k < 4
      requires tick == (if k == 0 then WriteYPosition(val) else if k == 1 then WriteTileIndex(val)
        else if k == 2 then WriteAttributes(val) else WriteXPosition(val))
      modifies this, oam2
      ensures Valid() && State() == OamSpriteEval(old(State()), line).0
    {
      oam2[oam2Index * 4 + k] := val;
      if k == 0 {
        tick := if InRange(line, val) then ReadTileIndex else IncrementN;
      } else if k == 1 {
        tick := ReadAttributes;
      } else if k == 2 {
        tick := ReadXPosition;
      } else {
        oam2Index := oam2Index + 1;
        tick := IncrementN;
      }
    }

    /** An OverflowDetection(m) tick. */
    method DetectOverflow(m: nat, line: u16) returns (overflow: bool)
      requires Valid() && tick == OverflowDetection(m) && EvalReadsInRange(State())
      modifies this
      ensures Valid() && (State(), overflow) == OamSpriteEval(old(State()), line)
    {
      var buggyY := oam[addr + n * 4 + m];
      overflow := false;
      if InRange(line, buggyY) {
        overflow := true;
        tick := Phase3ExtraRead(1);
      } else if m < 3 {
        tick := OverflowDetection(m + 1);
      } else {
        IncrementNCounter();
        if n == 0 {
          tick := BusyLoop;
        } else {
          tick := OverflowDetection(0);
        }
      }
    }

    /** increment_n. */
    method IncrementNCounter()
      modifies this
      ensures n == (old(n) + 1) % 64
      ensures addr == old(addr) && oam2Index == old(oam2Index) && tick == old(tick)
    {
      n := (n + 1) % 64;
    }

    /** peekb: the primary OAM byte at index `a`. */
    function Peekb(a: nat): (r: u8)
      reads this, oam, oam2
      requires Valid() && a < OAM_LEN
      ensures r == OamPeekb(State(), a)
    {
      oam[a]
    }

    /** storeb: the primary OAM byte at index `a` becomes `val`. */
    method Storeb(a: nat, val: u8)
      requires Valid() && a < OAM_LEN
      modifies oam
      ensures Valid() && State() == OamStoreb(old(State()), a, val)
    {
      oam[a] := val;
    }
  }
}
