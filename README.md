# Cooperative tick-paced tasks of the EE2024 base-board firmware

This project models the main program of `Assignment2/src/main.c`, firmware for an
LPC1769 board. A SysTick interrupt counts milliseconds in the 32-bit counter
`msTicks`. The main program runs a `while (1)` loop with no operating system and
fans that tick out into tasks with their own pace:

- `run7Seg` steps a hexadecimal glyph round a 16-position counter once per 1000 ms.
- `runBlinkRGB` toggles the RGB LED every 333 ms.
- A sensor refresh reads light, temperature and the accelerometer while the
  7-segment counter is 5, 10 or 15. It corrects the accelerometer axes by
  offsets taken once at start-up from the first reading.
- `drawOled` moves a joystick cursor on the OLED.

Start-up also calls `moveBar` once, lighting three LEDs of the PCA9532's circular
16-LED bar. The file also holds `getDuration` and `getPause`, two lookup tables
for a tune notation.

Each task's state is a small class, as in the source, where each task works on its
own variables through pointers or statics:

- `SevenSeg.SevenSegTask`: `segCount` and `prevGetTicks`.
- `Blink.BlinkTask`: `flag` and `prevGetFlicker`.
- `LedBar.Bar`: the static `barPos`.
- `Cursor.OledCursor`: the statics of `drawOled`.

`Firmware.Board` holds these objects together with the offsets and sensor values,
and it models start-up and one loop iteration (`Step`).

Output drivers are ghost fields that record what was last sent to each device:

- the glyph given to `led7seg_setChar`;
- the mask given to `rgb_setLeds`;
- the on-mask given to `pca9532_setLeds`;
- every pixel drawn by `oled_putPixel`;
- the number of `oled_clearScreen` calls;
- the number of text rows written by refreshes.

Fixed-width integers are subsets of `int` (`u8`, `u32`, `i8`, `i32` in `Words`).
The joystick state is a `bv8` and the LED-bar mask a `bv16`. Unsigned subtraction
wraps modulo 2^32. Storing into an `int8_t` wraps modulo 256 in two's complement,
which is what the target's compiler does.

Notes on how the model reads the code:

- The readiness test `getTicks() - prev >= period` is `Scheduler.Due`. Its
  subtraction is `Words.Sub32`. `Scheduler.ElapsedAcrossWrap` proves that the
  test measures the true time even when the counter wraps.
- `prevGetTicks` and `prevGetFlicker` start at 0. At `main.c:360-361` the
  interrupt is not yet configured (that happens at line 365), so `msTicks` is
  still 0 there.
- `Step` takes separate tick values for `run7Seg` and `runBlinkRGB`, because
  the counter may advance between the two calls.
- The refresh test at `main.c:432` runs on every loop iteration. It reads the
  counter after `run7Seg` has advanced it, so the refresh repeats on every
  iteration of the whole second in which the counter is 5, 10 or 15. During that
  second the display shows '4', '9' or 'E'.
- The enum at lines 50-52 is declared but never used, and the blink colour is
  the constant `0x03` (red and blue).
- `moveBar` is called once, before the loop, so the bar never changes inside the
  loop. `Step`'s frame leaves `Board.bar` and the offsets out.
- Joystick bits (CENTER 0x01, UP 0x02, DOWN 0x04, LEFT 0x08, RIGHT 0x10) and the
  96x64 display size come from the base-board library's `joystick.h` and `oled.h`.
  Those headers are not part of this model; these values are taken as given.
- The vertical and horizontal if-chains of `drawOled` (lines 102-116) are the
  functions `Cursor.StepY` and `Cursor.StepX`. `OledCursor.MoveCursor` applies
  them and then draws.

## Model

| member | source | states |
|---|---|---|
| `Words.Sub32` | Assignment2/src/main.c:291 | `now - prev` in uint32_t is the unique 32-bit value that, added to `prev` with wrap-around, gives `now`; it equals the plain difference when `now >= prev` |
| `Words.Sub32Unique` | Assignment2/src/main.c:305 | no other 32-bit value has that property, so the wrapped difference is determined |
| `Scheduler.TickValue` | Assignment2/src/main.c:274-283 | the counter after t interrupts is t below 2^32 and congruent to t modulo 2^32 always |
| `Scheduler.Due` | Assignment2/src/main.c:291 | the readiness test `getTicks() - prev >= period` compares the plain difference when the counter has not wrapped since `prev` and the difference across the wrap (`now + 2^32 - prev`) when it has |
| `Scheduler.ElapsedAcrossWrap` | Assignment2/src/main.c:291-292 | for instants less than 2^32 ms apart, subtracting the wrapped counter values gives the real elapsed milliseconds, including across a wrap past 0 |
| `Scheduler.DueIffPeriodElapsed` | Assignment2/src/main.c:305-306 | the readiness test holds exactly when the real elapsed time reaches the period |
| `Scheduler.ReadyOncePerPeriod` | Assignment2/src/main.c:291-292 | a task that ran at t1 is not ready at any instant before t1 + period and is ready at t1 + period, wherever the counter wraps |
| `SevenSeg.Glyph` | Assignment2/src/main.c:289 | the glyph `displayValues[c]` is the upper-case hexadecimal digit whose value is c |
| `SevenSeg.NextSegCount` | Assignment2/src/main.c:294-297 | the counter update (15 to 0, otherwise +1) stays in 0..15 and is c + 1 modulo 16 |
| `SevenSeg.SegCountAfterIsMod` | Assignment2/src/main.c:294-297 | k firings advance the counter by k modulo 16, so the cycle repeats every 16 firings |
| `SevenSeg.GlyphOfFiring` | Assignment2/src/main.c:289-297 | starting from counter 0, the k-th firing shows the hex digit of k mod 16 |
| `SevenSeg.SevenSegTask.constructor` | Assignment2/src/main.c:320 | the counter starts at 0 and the timestamp at the tick given, with nothing shown yet |
| `SevenSeg.SevenSegTask.Run7Seg` | Assignment2/src/main.c:290-299 | fires iff `(now - prevGetTicks) mod 2^32 >= 1000`; on firing it shows the old counter's glyph, advances the counter cyclically and sets `prevGetTicks := now`; otherwise nothing changes; the counter stays in 0..15, and the glyph shown is that of the counter's predecessor |
| `Blink.Toggle` | Assignment2/src/main.c:307 | C's `!flag` is 0 or 1, and it is 1 exactly when flag was 0 |
| `Blink.LedMask` | Assignment2/src/main.c:308-311 | the LED is given `colour` when the flag is 1 and a zero mask otherwise |
| `Blink.ToggleTwice` | Assignment2/src/main.c:307 | two firings restore a 0/1 flag |
| `Blink.FlagAfterParity` | Assignment2/src/main.c:305-312 | after n firings the flag is unchanged for even n and inverted for odd n |
| `Blink.BlinkTask.constructor` | Assignment2/src/main.c:361-362 | flag 0 and the timestamp at the tick given |
| `Blink.BlinkTask.RunBlinkRGB` | Assignment2/src/main.c:304-313 | fires iff `(now - prevGetFlicker) mod 2^32 >= 333`; on firing the flag is negated, `prevGetFlicker := now` and the LED gets `colour` if the flag became 1, else 0; otherwise nothing changes; the flag stays 0 or 1 |
| `LedBar.BarMask` | Assignment2/src/main.c:66-73 | the `ledOn` if-chain lights LEDs barPos, barPos-1 and barPos-2 round the circle of 16; `BarMaskLights` proves that it lights no other |
| `LedBar.BarMaskLights` | Assignment2/src/main.c:66-73 | for barPos < 16 the mask lights exactly LEDs barPos, barPos-1 and barPos-2 counted round the circle of 16 (0xC001 for 0, 0x8003 for 1) |
| `LedBar.BarMaskBit` | Assignment2/src/main.c:68-73 | the same, for one LED index |
| `LedBar.NextBarPos` | Assignment2/src/main.c:75-76 | the uint8_t update then `% 16` gives `(barPos + dir*steps) mod 16`, below 16 |
| `LedBar.ModOfMod` | Assignment2/src/main.c:75-76 | truncating to uint8_t before `% 16` does not change the result |
| `LedBar.Bar.constructor` | Assignment2/src/main.c:36 | barPos starts at 2, no mask written |
| `LedBar.Bar.MoveBar` | Assignment2/src/main.c:64-79 | writes the mask of the old barPos and moves barPos by dir*steps modulo 16, keeping it below 16 |
| `Cursor.StepY` | Assignment2/src/main.c:102-108 | the row changes by at most 1 and stays on the screen; it decreases only with UP alone, increases only with DOWN, and moves by one when only one of them is pressed and the edge is not reached |
| `Cursor.StepX` | Assignment2/src/main.c:110-116 | the same for the column with RIGHT and LEFT |
| `Cursor.MovesOn` | Assignment2/src/main.c:97-98 | for wait in 0..3, `wait++ < 3` lets the call go on to the movement step exactly when wait is 3 |
| `Cursor.NextWait` | Assignment2/src/main.c:97-100 | `wait++ < 3` followed by `wait = 0` keeps wait in 0..3 and advances it modulo 4 |
| `Cursor.CallsFromWait` | Assignment2/src/main.c:97-100 | from any wait in 0..3, k non-centre calls leave wait at (wait + k) mod 4 and contain (wait + k) / 4 movement steps |
| `Cursor.EveryFourthCallMoves` | Assignment2/src/main.c:86-100 | from the initial wait of 0, call k moves the cursor exactly when k mod 4 is 3, so k calls hold k / 4 movement steps |
| `Cursor.TrailStep` | Assignment2/src/main.c:118-122 | a movement step draws a pixel iff the position differs from the last drawn one, and the drawn pixels stay a trail: on screen, each next to and different from the one before, the last under the cursor |
| `Cursor.OledCursor.constructor` | Assignment2/src/main.c:86-90 | wait 0, cursor (48, 32), last position (0, 0) |
| `Cursor.OledCursor.ClearScreen` | Assignment2/src/main.c:93 | one more screen clear |
| `Cursor.OledCursor.DrawOled` | Assignment2/src/main.c:84-100 | a centre press clears the screen and leaves wait, cursor and last position unchanged; otherwise wait advances modulo 4 and only the call that finds wait at 3 runs the movement step |
| `Cursor.OledCursor.MoveCursor` | Assignment2/src/main.c:102-122 | the cursor moves by `StepX`/`StepY`; a pixel is drawn at it and the last position updated iff it differs from the last position; the cursor stays on screen |
| `Tunes.GetDuration` | Assignment2/src/main.c:136-144 | 400 for a non-digit; for a digit a multiple of 200 up to 1800 whose quotient by 200 is the digit |
| `Tunes.DurationDeterminesDigit` | Assignment2/src/main.c:138-143 | distinct digits have distinct durations, and every non-digit sounds as long as '2' |
| `Tunes.GetPause` | Assignment2/src/main.c:149-163 | one of 0, 5, 20, 30; 0 exactly for '+', 20 exactly for '.', 30 exactly for '_', and 5 for ',' and every other character |
| `Sensors.RefreshDue` | Assignment2/src/main.c:432 | for counter values 0..15, the refresh condition holds exactly for the non-zero multiples of 5 |
| `Sensors.ZeroOffset` | Assignment2/src/main.c:373-375 | `0 - x` cancels the first reading and lies in -127..128 |
| `Words.ToI8` | Assignment2/src/main.c:434-436 | storing into int8_t keeps the value modulo 256 and leaves values in -128..127 unchanged |
| `Sensors.Corrected` | Assignment2/src/main.c:434-436 | `x = x + xoff` is congruent to raw + offset modulo 256, and equal to it when it fits in int8_t |
| `Sensors.CorrectedZeroIff` | Assignment2/src/main.c:372-375 | a refreshed axis is 0 exactly when the raw reading equals the start-up reading |
| `Sensors.CorrectedIsChange` | Assignment2/src/main.c:434-436 | the refreshed axis is the change since start-up, wrapped by 256 when that change leaves -128..127 |
| `Firmware.Board.constructor` | Assignment2/src/main.c:320-394 | the task states start as in main, with both timestamps 0; the offsets are the negated first reading; moveBar(1, 1) has lit the mask of position 2 and left barPos at 3; the screen has been cleared once |
| `Firmware.Board.RefreshSensors` | Assignment2/src/main.c:432-447 | stores light and temperature, sets each axis to the raw reading corrected by its start-up offset, and writes five rows |
| `Firmware.Board.Step` | Assignment2/src/main.c:397-450 | drawOled runs iff the joystick state is non-zero, otherwise the cursor is untouched; run7Seg and runBlinkRGB (with mask 0x03) take effect as their contracts say; a refresh happens iff the counter left by run7Seg is 5, 10 or 15, and then the display shows '4', '9' or 'E'; offsets and bar are never changed |
| `Firmware.Board.Run` | Assignment2/src/main.c:397-399 | any finite run of iterations keeps every invariant; drawn pixels only accumulate and clears and rows only add up |

## Left out

- Run7Seg and RunBlinkRGB: use one tick value per call. The source reads `getTicks()` twice, once in the test and once for the new timestamp (lines 291-292 and 305-306). The stored `prevGetTicks`/`prevGetFlicker` can therefore be a little later than the tick that passed the test, so the real periods can drift slightly longer than 1000 and 333 ms. The model does not capture that drift.

- Peripheral set-up is not modelled: `init_ssp`, `init_i2c`, `init_GPIO`, the `*_init` calls and the speaker GPIO block (lines 377-391). These are register configuration through library code outside this model.
- The fail-stop loops are not modelled: the `SysTick_Config` failure loop (lines 365-367) and `check_failed`. Both are infinite loops with no state.
- `SysTick_Handler` is not modelled as an interrupt and there is no concurrency. The tick counter is an input value at each task call (`Scheduler.TickValue` relates that value to an unbounded count).
- Sensor reads are inputs (`Sensors.Reading`): `readSensors`, `acc_read`, `temp_read` and `light_read` are driver code outside this model.
- The text on the OLED rows is not modelled: not the `sprintf` formatting, not the floating-point `temperature/10.0`, not the `oled_putString` contents. A refresh only counts five rows written.
- `Lib_EaBaseBoard/src/rgb.c` is reduced to "last mask given to `rgb_setLeds`". Its `RGB_RED`/`RGB_BLUE`/`RGB_GREEN` bit values live in a header that is not part of this model.
- `Firmware.Board.Run` covers finitely many iterations of the infinite `while (1)` loop.
- `Cursor.OledCursor.MoveCursor` computes the new coordinates with `StepX`/`StepY` instead of four in-place conditional updates. The end result is the same; the intermediate field values are not modelled.
- The song player that would use `getDuration` and `getPause` does not exist in `main.c`, so only the two tables are modelled.
