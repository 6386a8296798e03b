/**
 * The controller port at 0x4016 (nes/src/input.rs): one gamepad whose eight
 * buttons are read one per load, in the order A, B, Select, Start, Up, Down,
 * Left, Right, behind a strobe index that any store resets.
 */
module Input {
  import opened Types

  datatype Button = A | B | Select | Start | Up | Down | Left | Right

  datatype ButtonState = Press | Release

  datatype GamePadState = GamePadState(
    left: bool, down: bool, up: bool, right: bool, a: bool, b: bool, select: bool, start: bool)

  datatype InputState = InputState(gamepad1: GamePadState)

  const RELEASED := GamePadState(false, false, false, false, false, false, false, false)

  /** The controller port address. */
  const PORT: u16 := 0x4016

  /** Whether `button` is held in `g`: the reference reading of a gamepad. */
  predicate Pressed(g: GamePadState, button: Button) {
    match button
    case A => g.a
    case B => g.b
    case Select => g.select
    case Start => g.start
    case Up => g.up
    case Down => g.down
    case Left => g.left
    case Right => g.right
  }

  /** The report order of the strobe: index 0 is A, ..., index 7 is Right. */
  const REPORT_ORDER: seq<Button> := [A, B, Select, Start, Up, Down, Left, Right]

  /** button_press: the named button becomes (state == Press). */
  function ButtonPress(g: GamePadState, button: Button, state: ButtonState): (r: GamePadState)
    ensures Pressed(r, button) == (state == Press)
  {
    var pressed := state == Press;
    match button
    case A => g.(a := pressed)
    case B => g.(b := pressed)
    case Select => g.(select := pressed)
    case Start => g.(start := pressed)
    case Up => g.(up := pressed)
    case Down => g.(down := pressed)
    case Left => g.(left := pressed)
    case Right => g.(right := pressed)
  }

  /** button_press leaves every other button as it was. */
  lemma ButtonPressOthers(g: GamePadState, button: Button, state: ButtonState, other: Button)
    requires other != button
    ensures Pressed(ButtonPress(g, button, state), other) == Pressed(g, other)
  {
  }

  /** StrobeState::get: the button the strobe index selects. */
  function StrobeGet(strobe: u8, g: GamePadState): bool
    requires strobe < 8
  {
    if strobe == 0 then g.a
    else if strobe == 1 then g.b
    else if strobe == 2 then g.select
    else if strobe == 3 then g.start
    else if strobe == 4 then g.up
    else if strobe == 5 then g.down
    else if strobe == 6 then g.left
    else g.right
  }

  /** StrobeState::next: the index advances modulo 8. */
  function StrobeNext(strobe: u8): (r: u8)
    ensures r < 8
  {
    (strobe + 1) & 7
  }

  /** get reports the button at the strobe's position in the report order. */
  lemma StrobeGetOrder(strobe: u8, g: GamePadState)
    requires strobe < 8
    ensures StrobeGet(strobe, g) == Pressed(g, REPORT_ORDER[strobe as int])
  {
  }

  /** next counts 0, 1, ..., 7 and wraps back to 0. */
  lemma StrobeNextCounts(strobe: u8)
    requires strobe < 8
    ensures StrobeNext(strobe) as int == (strobe as int + 1) % 8
  {
  }

  function BoolByte(b: bool): u8 {
    if b then 1 else 0
  }

  /** What successive loads of 0x4016 return, starting at strobe index `strobe`. */
  function LoadsFrom(g: GamePadState, strobe: u8, n: nat): seq<u8>
    requires strobe < 8
    decreases n
  {
    if n == 0 then [] else [BoolByte(StrobeGet(strobe, g))] + LoadsFrom(g, StrobeNext(strobe), n - 1)
  }

  /** Loads from index `strobe` report the buttons in report order, as long as the index does not wrap. */
  lemma {:induction false} LoadsFollowOrder(g: GamePadState, strobe: u8, n: nat)
    requires strobe < 8 && strobe as int + n <= 8
    ensures |LoadsFrom(g, strobe, n)| == n
    ensures forall i :: 0 <= i < n ==>
      LoadsFrom(g, strobe, n)[i] == BoolByte(Pressed(g, REPORT_ORDER[strobe as int + i]))
    decreases n
  {
    if n > 0 {
      StrobeGetOrder(strobe, g);
      var next := StrobeNext(strobe);
      var rest := LoadsFrom(g, next, n - 1);
      assert LoadsFrom(g, strobe, n) == [BoolByte(StrobeGet(strobe, g))] + rest;
      if n > 1 {
        StrobeNextCounts(strobe);
        LoadsFollowOrder(g, next, n - 1);
        forall i | 1 <= i < n
          ensures LoadsFrom(g, strobe, n)[i] == BoolByte(Pressed(g, REPORT_ORDER[strobe as int + i]))
        {
          assert LoadsFrom(g, strobe, n)[i] == rest[i - 1];
        }
      }
    }
  }

  /** After a strobe reset, eight loads report the buttons in order A, B, Select, Start, Up, Down, Left, Right. */
  lemma EightLoadsReportAllButtons(g: GamePadState)
    ensures |LoadsFrom(g, 0, 8)| == 8
    ensures forall i :: 0 <= i < 8 ==> LoadsFrom(g, 0, 8)[i] == BoolByte(Pressed(g, REPORT_ORDER[i]))
  {
    LoadsFollowOrder(g, 0, 8);
  }

  /** After eight loads the strobe index is back where it started. */
  lemma StrobeCycles(strobe: u8)
    requires strobe < 8
    ensures StrobeNext(StrobeNext(StrobeNext(StrobeNext(StrobeNext(StrobeNext(StrobeNext(StrobeNext(strobe)))))))) == strobe
  {
  }

  class Input {
    var gamepad: GamePadState
    var strobe: u8

    ghost predicate Valid()
      reads this
    {
      strobe < 8
    }

    constructor ()
      ensures Valid() && gamepad == RELEASED && strobe == 0
    {
      gamepad := RELEASED;
      strobe := 0;
    }

    /** set: copies the gamepad and keeps the strobe index. */
    method Set(input: InputState)
      requires Valid()
      modifies this
      ensures Valid() && gamepad == input.gamepad1 && strobe == old(strobe)
    {
      gamepad := input.gamepad1;
    }

    /** peekb: at 0x4016 the selected button as 0 or 1; 0 elsewhere. */
    function Peekb(addr: u16): (r: u8)
      reads this
      requires Valid()
      ensures addr == PORT ==> r == BoolByte(Pressed(gamepad, REPORT_ORDER[strobe as int]))
      ensures addr != PORT ==> r == 0
    {
      StrobeGetOrder(strobe, gamepad);
      if addr == PORT then BoolByte(StrobeGet(strobe, gamepad)) else 0
    }

    /** loadb: what peekb returns, and at 0x4016 the strobe index then advances. */
    method Loadb(addr: u16) returns (r: u8)
      requires Valid()
      modifies this
      ensures Valid() && r == old(Peekb(addr)) && gamepad == old(gamepad)
      ensures strobe == if addr == PORT then StrobeNext(old(strobe)) else old(strobe)
    {
      if addr == PORT {
        r := BoolByte(StrobeGet(strobe, gamepad));
        strobe := StrobeNext(strobe);
      } else {
        r := 0;
      }
    }

    /** storeb: any value stored at 0x4016 resets the strobe index to A. */
    method Storeb(addr: u16, val: u8)
      requires Valid()
      modifies this
      ensures Valid() && gamepad == old(gamepad)
      ensures strobe == if addr == PORT then 0 else old(strobe)
    {
      if addr == PORT {
        strobe := 0;
      }
    }
  }
}
