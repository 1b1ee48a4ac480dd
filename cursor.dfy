/** drawOled: a joystick-driven cursor on the 96x64 OLED. A centre press
    clears the screen; otherwise every fourth call moves the cursor one
    pixel per pressed direction, clamped to the screen, and plots it. */
module Cursor {
  import opened Words

  /** Joystick bits (joystick.h of the base-board library). */
  const JOYSTICK_CENTER: bv8 := 0x01
  const JOYSTICK_UP: bv8 := 0x02
  const JOYSTICK_DOWN: bv8 := 0x04
  const JOYSTICK_LEFT: bv8 := 0x08
  const JOYSTICK_RIGHT: bv8 := 0x10

  /** Display size in pixels (oled.h of the base-board library). */
  const OLED_DISPLAY_WIDTH: int := 96
  const OLED_DISPLAY_HEIGHT: int := 64

  /** Initial values of the statics of drawOled. */
  const START_X: int := 48
  const START_Y: int := 32

  predicate Pressed(joy: bv8, button: bv8)
  {
    joy & button != 0
  }

  predicate OnScreen(p: (int, int))
  {
    0 <= p.0 < OLED_DISPLAY_WIDTH && 0 <= p.1 < OLED_DISPLAY_HEIGHT
  }

  /** Two positions at most one pixel apart in each coordinate. */
  predicate Near(p: (int, int), q: (int, int))
  {
    -1 <= p.0 - q.0 <= 1 && -1 <= p.1 - q.1 <= 1
  }

  /** The pixels drawn so far form a trail on the screen that starts next
      to the initial cursor position, each pixel next to and different from
      the one before, and ends under the cursor `cur`, which is also the
      last drawn position `last`; before the first pixel the cursor is
      still at its initial position and `last` at (0, 0). */
  ghost predicate IsTrail(pixels: seq<(int, int)>, cur: (int, int), last: (int, int))
  {
    (if pixels == [] then
       cur == (START_X, START_Y) && last == (0, 0)
     else
       last == cur && pixels[|pixels| - 1] == cur && Near((START_X, START_Y), pixels[0])) &&
    (forall i :: 0 <= i < |pixels| ==> OnScreen(pixels[i])) &&
    (forall i, j :: 0 <= i < j < |pixels| && j == i + 1 ==> pixels[i] != pixels[j] && Near(pixels[i], pixels[j]))
  }

  /** A movement step keeps the trail: the new position is drawn when it
      differs from the last drawn one, and then it extends the trail; when
      it does not differ, the cursor has not moved. */
  lemma TrailStep(pixels: seq<(int, int)>, cur: (int, int), last: (int, int), joy: bv8)
    requires IsTrail(pixels, cur, last)
    ensures var next := (StepX(cur.0, joy), StepY(cur.1, joy));
      if next != last then IsTrail(pixels + [next], next, next)
      else next == cur && IsTrail(pixels, next, last)
  {
    var next := (StepX(cur.0, joy), StepY(cur.1, joy));
    assert OnScreen(cur) by {
      if pixels != [] {
        assert pixels[|pixels| - 1] == cur;
      }
    }
    if next != last {
      var p := pixels + [next];
      assert p[|p| - 1] == next;
      if pixels == [] {
        assert p[0] == next;
      } else {
        assert p[0] == pixels[0];
        assert p[|p| - 2] == cur;
      }
    }
  }

  /** currY after the up test and then the down test of one movement step. */
  function StepY(y: int, joy: bv8): (r: int)
    ensures 0 <= y < OLED_DISPLAY_HEIGHT ==> 0 <= r < OLED_DISPLAY_HEIGHT
    ensures -1 <= r - y <= 1
    ensures 0 <= y < OLED_DISPLAY_HEIGHT && r < y ==> Pressed(joy, JOYSTICK_UP) && !Pressed(joy, JOYSTICK_DOWN)
    ensures r > y ==> Pressed(joy, JOYSTICK_DOWN)
    ensures Pressed(joy, JOYSTICK_UP) && !Pressed(joy, JOYSTICK_DOWN) && y > 0 ==> r == y - 1
    ensures Pressed(joy, JOYSTICK_DOWN) && !Pressed(joy, JOYSTICK_UP) && y < OLED_DISPLAY_HEIGHT - 1 ==> r == y + 1
  {
    var y1 := if Pressed(joy, JOYSTICK_UP) && y > 0 then y - 1 else y;
    if Pressed(joy, JOYSTICK_DOWN) && y1 < OLED_DISPLAY_HEIGHT - 1 then y1 + 1 else y1
  }

  /** currX after the right test and then the left test of one movement step. */
  function StepX(x: int, joy: bv8): (r: int)
    ensures 0 <= x < OLED_DISPLAY_WIDTH ==> 0 <= r < OLED_DISPLAY_WIDTH
    ensures -1 <= r - x <= 1
    ensures 0 <= x < OLED_DISPLAY_WIDTH && r > x ==> Pressed(joy, JOYSTICK_RIGHT) && !Pressed(joy, JOYSTICK_LEFT)
    ensures r < x ==> Pressed(joy, JOYSTICK_LEFT)
    ensures Pressed(joy, JOYSTICK_RIGHT) && !Pressed(joy, JOYSTICK_LEFT) && x < OLED_DISPLAY_WIDTH - 1 ==> r == x + 1
    ensures Pressed(joy, JOYSTICK_LEFT) && !Pressed(joy, JOYSTICK_RIGHT) && x > 0 ==> r == x - 1
  {
    var x1 := if Pressed(joy, JOYSTICK_RIGHT) && x < OLED_DISPLAY_WIDTH - 1 then x + 1 else x;
    if Pressed(joy, JOYSTICK_LEFT) && x1 > 0 then x1 - 1 else x1
  }

  /** `wait++ < 3` fails, so this call goes on to the movement step. */
  function MovesOn(wait: int): (r: bool)
    ensures 0 <= wait <= 3 ==> (r <==> wait == 3)
  {
    !(wait < 3)
  }

  /** wait after a call without a centre press: incremented by the
      post-increment, and reset to 0 when the movement step runs. */
  function NextWait(wait: int): (w: int)
    requires 0 <= wait <= 3
    ensures 0 <= w <= 3
    ensures w == (wait + 1) % 4
  {
    if wait < 3 then wait + 1 else 0
  }

  /** wait after k calls without a centre press. */
  function WaitAfter(wait: int, k: nat): (w: int)
    requires 0 <= wait <= 3
    ensures 0 <= w <= 3
    decreases k
  {
    if k == 0 then wait else WaitAfter(NextWait(wait), k - 1)
  }

  /** The number of movement steps among k calls without a centre press. */
  function MovesIn(wait: int, k: nat): nat
    requires 0 <= wait <= 3
    decreases k
  {
    if k == 0 then 0
    else (if MovesOn(wait) then 1 else 0) + MovesIn(NextWait(wait), k - 1)
  }

  /** From the initial wait of 0, the call with index k (from 0) moves the
      cursor exactly when k mod 4 is 3, so k calls hold k / 4 movement steps. */
  lemma {:induction false} EveryFourthCallMoves(k: nat)
    ensures WaitAfter(0, k) == k % 4
    ensures MovesOn(WaitAfter(0, k)) <==> k % 4 == 3
    ensures MovesIn(0, k) == k / 4
  {
    CallsFromWait(0, k);
  }

  lemma {:induction false} CallsFromWait(wait: int, k: nat)
    requires 0 <= wait <= 3
    ensures WaitAfter(wait, k) == (wait + k) % 4
    ensures MovesIn(wait, k) == (wait + k) / 4
    decreases k
  {
    if k > 0 {
      CallsFromWait(NextWait(wait), k - 1);
    }
  }

  /** The statics of drawOled, with what it has done to the screen: every
      pixel drawn, in order, and the number of screen clears. */
  class OledCursor {
    var wait: int
    var currX: u8
    var currY: u8
    var lastX: u8
    var lastY: u8
    ghost var pixels: seq<(int, int)>
    ghost var clears: nat

    /** wait stays in 0..3, the cursor on the screen, and the drawn pixels
        form a trail ending under the cursor. */
    ghost predicate Valid()
      reads this
    {
      0 <= wait <= 3 &&
      OnScreen((currX, currY)) &&
      IsTrail(pixels, (currX, currY), (lastX, lastY))
    }

    /** The initialisers of the statics; nothing drawn or cleared yet. */
    constructor ()
      ensures Valid()
      ensures wait == 0 && (currX, currY) == (START_X, START_Y) && (lastX, lastY) == (0, 0)
      ensures pixels == [] && clears == 0
    {
      wait := 0;
      currX, currY := 48, 32;
      lastX, lastY := 0, 0;
      pixels, clears := [], 0;
    }

    twostate predicate Kept()
      reads this
    {
      currX == old(currX) && currY == old(currY) &&
      lastX == old(lastX) && lastY == old(lastY) &&
      pixels == old(pixels)
    }

    /** The effect of the movement step with joystick state `joy`. */
    twostate predicate Moved(joy: bv8)
      reads this
    {
      currX == StepX(old(currX), joy) &&
      currY == StepY(old(currY), joy) &&
      if (currX, currY) != (old(lastX), old(lastY)) then
        pixels == old(pixels) + [(currX, currY)] && lastX == currX && lastY == currY
      else
        pixels == old(pixels) && lastX == old(lastX) && lastY == old(lastY)
    }

    /** The effect of drawOled with joystick state `joy`. */
    twostate predicate Drawn(joy: bv8)
      reads this
    {
      if Pressed(joy, JOYSTICK_CENTER) then
        clears == old(clears) + 1 && wait == old(wait) && Kept()
      else
        clears == old(clears) &&
        0 <= old(wait) <= 3 &&
        wait == NextWait(old(wait)) &&
        if MovesOn(old(wait)) then Moved(joy) else Kept()
    }

    /** `oled_clearScreen(OLED_COLOR_BLACK)`. */
    method ClearScreen()
      requires Valid()
      modifies this`clears
      ensures Valid()
      ensures clears == old(clears) + 1
    {
      clears := clears + 1;
    }

    /** drawOled: a centre press clears the screen and ends the call; any
        other call counts in wait, and each fourth one goes on to the
        movement step. */
    method DrawOled(joy: bv8)
      requires Valid()
      modifies this
      ensures Valid()
      ensures Drawn(joy)
    {
      if joy & JOYSTICK_CENTER != 0 {
        ClearScreen();
        return;
      }
      var waited := wait;
      wait := wait + 1;
      if waited < 3 {
        return;
      }
      wait := 0;
      MoveCursor(joy);
    }

    /** The movement step of drawOled: move the cursor by the pressed
        directions, clamped to the screen, and draw it where it now stands
        if that differs from the last drawn position. */
    method MoveCursor(joy: bv8)
      requires Valid()
      modifies this`currX, this`currY, this`lastX, this`lastY, this`pixels
      ensures Valid()
      ensures Moved(joy)
    {
      TrailStep(pixels, (currX, currY), (lastX, lastY), joy);
      currY := StepY(currY, joy);
      currX := StepX(currX, joy);
      if lastX != currX || lastY != currY {
        pixels := pixels + [(currX as int, currY as int)];
        lastX := currX;
        lastY := currY;
      }
    }
  }
}
