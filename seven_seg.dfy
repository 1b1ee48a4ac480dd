/** The 7-segment task (run7Seg): once per second it shows the next
    hexadecimal glyph of a 16-position cycle. */
module SevenSeg {
  import opened Words
  import opened Scheduler

  /** Milliseconds between two glyph changes. */
  const SEG_PERIOD: nat := 1000

  /** displayValues: the glyphs, indexed by the counter. */
  const DISPLAY_VALUES: string := "0123456789ABCDEF"

  /** The digit a hexadecimal character stands for; None for any other
      character. An independent reading of the glyph table. */
  function HexDigitValue(ch: char): Option<int>
  {
    if '0' <= ch <= '9' then Some(ch as int - '0' as int)
    else if 'A' <= ch <= 'F' then Some(ch as int - 'A' as int + 10)
    else None
  }

  /** The glyph shown for counter value c: the upper-case hex digit of c. */
  function Glyph(c: int): (ch: char)
    requires 0 <= c < 16
    ensures HexDigitValue(ch) == Some(c)
  {
    DISPLAY_VALUES[c]
  }

  /** The display shows the glyph of the counter value before the current
      one `seg` (nothing at all before the first firing). */
  predicate GlyphTrails(seg: int, glyph: Option<char>)
    requires 0 <= seg < 16
  {
    if seg == 0 then glyph == None || glyph == Some(Glyph(15))
    else glyph == Some(Glyph(seg - 1))
  }

  /** The counter after one firing: 15 wraps to 0, anything else steps by one. */
  function NextSegCount(c: int): (r: int)
    requires 0 <= c < 16
    ensures 0 <= r < 16
    ensures r == (c + 1) % 16
  {
    if c == 15 then 0 else c + 1
  }

  /** The counter after k firings. */
  function SegCountAfter(c: int, k: nat): (r: int)
    requires 0 <= c < 16
    ensures 0 <= r < 16
    decreases k
  {
    if k == 0 then c else SegCountAfter(NextSegCount(c), k - 1)
  }

  /** k firings advance the counter by k positions modulo 16, so the
      cycle returns to its start exactly every 16 firings. */
  lemma {:induction false} SegCountAfterIsMod(c: int, k: nat)
    requires 0 <= c < 16
    ensures SegCountAfter(c, k) == (c + k) % 16
    decreases k
  {
    if k > 0 {
      SegCountAfterIsMod(NextSegCount(c), k - 1);
    }
  }

  /** Starting from counter 0, the k-th firing (counting from 0) shows the
      hex digit of k mod 16. */
  lemma GlyphOfFiring(k: nat)
    ensures HexDigitValue(Glyph(SegCountAfter(0, k))) == Some(k % 16)
  {
    SegCountAfterIsMod(0, k);
  }

  /** The state run7Seg reaches through its pointers, main's segCount and
      prevGetTicks, with the glyph last given to led7seg_setChar. */
  class SevenSegTask {
    var segCount: int
    var prevGetTicks: u32
    ghost var glyph: Option<char>

    ghost predicate Valid()
      reads this
    {
      0 <= segCount < 16 && GlyphTrails(segCount, glyph)
    }

    /** main's `segCount = 0` and `prevGetTicks = getTicks()` at tick `start`. */
    constructor (start: u32)
      ensures Valid()
      ensures segCount == 0 && prevGetTicks == start && glyph == None
    {
      segCount := 0;
      prevGetTicks := start;
      glyph := None;
    }

    /** The effect of run7Seg at tick `now`: when the period has elapsed,
        the glyph of the counter is shown, the counter moves on and the
        period restarts at `now`; otherwise nothing changes. */
    twostate predicate Ran(now: u32)
      reads this
    {
      if Due(now, old(prevGetTicks), SEG_PERIOD) then
        prevGetTicks == now &&
        0 <= old(segCount) < 16 &&
        glyph == Some(Glyph(old(segCount))) &&
        segCount == NextSegCount(old(segCount))
      else
        prevGetTicks == old(prevGetTicks) && glyph == old(glyph) && segCount == old(segCount)
    }

    method Run7Seg(now: u32)
      requires Valid()
      modifies this
      ensures Valid()
      ensures Ran(now)
    {
      if Due(now, prevGetTicks, SEG_PERIOD) {
        prevGetTicks := now;
        glyph := Some(Glyph(segCount));
        segCount := NextSegCount(segCount);
      }
    }
  }
}
