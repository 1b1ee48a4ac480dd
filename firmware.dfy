/** The main program: start-up up to the loop, and one pass of its
    `while (1)` loop over the task states. The board holds main's
    accelerometer offsets and readings, the sensor globals and the number
    of text rows the sensor refreshes wrote. */
module Firmware {
  import opened Words
  import opened SevenSeg
  import opened Blink
  import opened LedBar
  import opened Cursor
  import opened Sensors

  /** The colour mask main passes to runBlinkRGB. */
  const RGB_RED_AND_BLUE: u8 := 0x03
  /** The direction and step count of the single moveBar call. */
  const BAR_DIR: u8 := 1
  const BAR_STEPS: u8 := 1

  /** What one loop iteration takes from outside: the joystick state, the
      tick counter as run7Seg and as runBlinkRGB read it (the interrupt may
      advance it in between), and the values a sensor refresh would read. */
  datatype LoopInput = LoopInput(joy: bv8, segTick: u32, blinkTick: u32, reading: Reading)

  class Board {
    const seg: SevenSegTask
    const blink: BlinkTask
    const bar: Bar
    const oled: OledCursor
    var xoff: i32
    var yoff: i32
    var zoff: i32
    var x: i8
    var y: i8
    var z: i8
    var light: u32
    var temperature: u32
    /** The accelerometer reading taken before the loop. */
    ghost var firstAccel: (i8, i8, i8)
    /** Number of oled_putString rows written by sensor refreshes. */
    ghost var rows: nat

    ghost predicate Valid()
      reads this, seg, blink, bar, oled
    {
      seg.Valid() && blink.Valid() && bar.Valid() && oled.Valid() &&
      xoff == ZeroOffset(firstAccel.0) &&
      yoff == ZeroOffset(firstAccel.1) &&
      zoff == ZeroOffset(firstAccel.2)
    }

    /** The effect of one sensor refresh with the values `r`. */
    twostate predicate Refreshed(r: Reading)
      reads this
    {
      light == r.light && temperature == r.temperature &&
      x == Corrected(r.ax, xoff) && y == Corrected(r.ay, yoff) && z == Corrected(r.az, zoff) &&
      rows == old(rows) + ROWS_PER_REFRESH
    }

    /** Start-up up to the loop. The tick counter is still 0 when
        prevGetTicks and prevGetFlicker are taken, since SysTick is
        configured only afterwards; (ax, ay, az) is the first accelerometer
        reading, whose negation becomes the offsets; then moveBar(1, dir)
        and one screen clear. */
    constructor (ax: i8, ay: i8, az: i8)
      ensures Valid()
      ensures fresh(seg) && fresh(blink) && fresh(bar) && fresh(oled)
      ensures seg.segCount == 0 && seg.prevGetTicks == 0 && seg.glyph == None
      ensures blink.flag == 0 && blink.prevGetFlicker == 0 && blink.rgbMask == None
      ensures firstAccel == (ax, ay, az) && x == ax && y == ay && z == az
      ensures xoff == ZeroOffset(ax) && yoff == ZeroOffset(ay) && zoff == ZeroOffset(az)
      ensures light == 0 && temperature == 0 && rows == 0
      ensures bar.barPos == 3 && bar.ledBar == Some(BarMask(2))
      ensures oled.wait == 0 && (oled.currX, oled.currY) == (START_X, START_Y)
      ensures (oled.lastX, oled.lastY) == (0, 0)
      ensures oled.pixels == [] && oled.clears == 1
    {
      seg := new SevenSegTask(0);
      blink := new BlinkTask(0);
      bar := new Bar();
      oled := new OledCursor();
      x, y, z := ax, ay, az;
      firstAccel := (ax, ay, az);
      xoff, yoff, zoff := 0 - ax, 0 - ay, 0 - az;
      light, temperature := 0, 0;
      rows := 0;
      new;
      bar.MoveBar(BAR_STEPS, BAR_DIR);
      oled.ClearScreen();
    }

    /** The refresh block of the loop: read the sensors, apply the start-up
        offsets to the accelerometer axes and write the five text rows. */
    method RefreshSensors(r: Reading)
      requires Valid()
      modifies this`light, this`temperature, this`x, this`y, this`z, this`rows
      ensures Valid()
      ensures Refreshed(r)
    {
      temperature := r.temperature;
      light := r.light;
      x := Corrected(r.ax, xoff);
      y := Corrected(r.ay, yoff);
      z := Corrected(r.az, zoff);
      rows := rows + ROWS_PER_REFRESH;
    }

    /** One iteration of the main loop: drawOled only for a non-zero
        joystick state, then run7Seg, then runBlinkRGB with red and blue,
        then a sensor refresh whenever the counter run7Seg left is 5, 10 or
        15. run7Seg sees the tick `segTick` and runBlinkRGB `blinkTick`.
        The bar and the offsets are outside its frame: the loop never
        changes them. */
    method Step(joy: bv8, segTick: u32, blinkTick: u32, r: Reading)
      requires Valid()
      modifies this`light, this`temperature, this`x, this`y, this`z, this`rows
      modifies seg, blink, oled
      ensures Valid()
      ensures joy != 0 ==> oled.Drawn(joy)
      ensures joy == 0 ==> unchanged(oled)
      ensures seg.Ran(segTick)
      ensures blink.Ran(blinkTick, RGB_RED_AND_BLUE)
      ensures RefreshDue(seg.segCount) ==> Refreshed(r)
      ensures !RefreshDue(seg.segCount) ==> unchanged(this)
      // A refresh happens while the display shows '4', '9' or 'E'.
      ensures RefreshDue(seg.segCount) ==> seg.glyph == Some(Glyph(seg.segCount - 1))
    {
      if joy != 0 {
        oled.DrawOled(joy);
      }
      seg.Run7Seg(segTick);
      blink.RunBlinkRGB(blinkTick, RGB_RED_AND_BLUE);
      if seg.segCount == 5 || seg.segCount == 10 || seg.segCount == 15 {
        RefreshSensors(r);
      }
    }

    /** A run of the loop over the given iterations: the drawn pixels only
        grow, and the screen clears and written rows only add up. */
    method Run(inputs: seq<LoopInput>)
      requires Valid()
      modifies this`light, this`temperature, this`x, this`y, this`z, this`rows
      modifies seg, blink, oled
      ensures Valid()
      ensures old(oled.pixels) <= oled.pixels
      ensures old(oled.clears) <= oled.clears && old(rows) <= rows
    {
      for i := 0 to |inputs|
        invariant Valid()
        invariant old(oled.pixels) <= oled.pixels
        invariant old(oled.clears) <= oled.clears && old(rows) <= rows
      {
        Step(inputs[i].joy, inputs[i].segTick, inputs[i].blinkTick, inputs[i].reading);
      }
    }
  }
}
