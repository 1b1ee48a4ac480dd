/** The RGB blink task (runBlinkRGB): every 333 ms it inverts an on/off
    flag and lights the LED in the given colour when the flag is on. */
module Blink {
  import opened Words
  import opened Scheduler

  /** Milliseconds between two toggles. */
  const BLINK_PERIOD: nat := 333

  /** C's logical negation `!flag` on an int. */
  function Toggle(flag: int): (r: int)
    ensures r == 0 || r == 1
    ensures r == 1 <==> flag == 0
  {
    if flag == 0 then 1 else 0
  }

  /** The mask handed to rgb_setLeds after the flag took the value `flag`. */
  function LedMask(flag: int, colour: u8): (m: u8)
    ensures flag == 1 ==> m == colour
    ensures m != 0 ==> flag == 1
  {
    if flag == 1 then colour else 0
  }

  /** The flag after n firings. */
  function FlagAfter(flag: int, n: nat): int
    decreases n
  {
    if n == 0 then flag else FlagAfter(Toggle(flag), n - 1)
  }

  /** Two firings restore a flag that is 0 or 1. */
  lemma ToggleTwice(flag: int)
    requires flag == 0 || flag == 1
    ensures Toggle(Toggle(flag)) == flag
  {
  }

  /** After n firings the flag is back where it started when n is even and
      inverted when n is odd: the LED is lit on every other firing. */
  lemma {:induction false} FlagAfterParity(flag: int, n: nat)
    requires flag == 0 || flag == 1
    ensures FlagAfter(flag, n) == if n % 2 == 0 then flag else 1 - flag
    decreases n
  {
    if n > 0 {
      FlagAfterParity(Toggle(flag), n - 1);
    }
  }

  /** The state runBlinkRGB reaches through its pointers, main's flag and
      prevGetFlicker, with the mask last given to rgb_setLeds. */
  class BlinkTask {
    var flag: int
    var prevGetFlicker: u32
    ghost var rgbMask: Option<u8>

    ghost predicate Valid()
      reads this
    {
      flag == 0 || flag == 1
    }

    /** main's `flag = 0` and `prevGetFlicker = getTicks()` at tick `start`. */
    constructor (start: u32)
      ensures Valid()
      ensures flag == 0 && prevGetFlicker == start && rgbMask == None
    {
      flag := 0;
      prevGetFlicker := start;
      rgbMask := None;
    }

    /** The effect of runBlinkRGB at tick `now` with colour mask `colour`:
        when the period has elapsed, the flag is inverted, the LED shows
        `colour` if the flag is now on and nothing otherwise, and the
        period restarts at `now`; otherwise nothing changes. */
    twostate predicate Ran(now: u32, colour: u8)
      reads this
    {
      if Due(now, old(prevGetFlicker), BLINK_PERIOD) then
        prevGetFlicker == now &&
        flag == Toggle(old(flag)) &&
        rgbMask == Some(LedMask(flag, colour))
      else
        prevGetFlicker == old(prevGetFlicker) && flag == old(flag) && rgbMask == old(rgbMask)
    }

    method RunBlinkRGB(now: u32, colour: u8)
      requires Valid()
      modifies this
      ensures Valid()
      ensures Ran(now, colour)
    {
      if Due(now, prevGetFlicker, BLINK_PERIOD) {
        prevGetFlicker := now;
        flag := Toggle(flag);
        rgbMask := Some(LedMask(flag, colour));
      }
    }
  }
}
