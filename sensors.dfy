/** The sensor refresh of the main loop: the accelerometer is zeroed once,
    at start-up, against its first reading, and a refresh stores light,
    temperature and the corrected axes for the five OLED text rows. */
module Sensors {
  import opened Words

  /** One call to readSensors (temp_read, light_read, acc_read). */
  datatype Reading = Reading(light: u32, temperature: u32, ax: i8, ay: i8, az: i8)

  /** Rows written by oled_putString on each refresh. */
  const ROWS_PER_REFRESH: nat := 5

  /** `xoff = 0 - x` in int32_t: the offset that cancels the first reading. */
  function ZeroOffset(first: i8): (off: i32)
    ensures first + off == 0
    ensures -0x7F <= off <= 0x80
  {
    0 - first
  }

  /** `x = x + xoff` with the int32_t sum stored back into the int8_t x. */
  function Corrected(raw: i8, off: i32): (v: i8)
    ensures (raw + off - v) % TWO_8 == 0
    ensures -0x80 <= raw + off < 0x80 ==> v == raw + off
  {
    ToI8(raw + off)
  }

  /** A reading corrects to 0 exactly when it equals the start-up reading. */
  lemma CorrectedZeroIff(first: i8, raw: i8)
    ensures Corrected(raw, ZeroOffset(first)) == 0 <==> raw == first
  {
    var d := raw - first;
    var v := Corrected(raw, ZeroOffset(first));
    if v == 0 {
      assert d % TWO_8 == 0;
      assert -TWO_8 < d < TWO_8;
      assert d == 0;
    }
  }

  /** When the change since start-up fits an int8_t, the corrected value is
      that change; otherwise it is the change wrapped modulo 256. */
  lemma CorrectedIsChange(first: i8, raw: i8)
    ensures -0x80 <= raw - first < 0x80 ==> Corrected(raw, ZeroOffset(first)) == raw - first
    ensures raw - first >= 0x80 ==> Corrected(raw, ZeroOffset(first)) == raw - first - TWO_8
    ensures raw - first < -0x80 ==> Corrected(raw, ZeroOffset(first)) == raw - first + TWO_8
  {
  }

  /** The loop refreshes while the 7-segment counter is 5, 10 or 15: the
      non-zero multiples of 5 among the counter's values 0..15. */
  function RefreshDue(segCount: int): (r: bool)
    ensures 0 <= segCount < 16 ==> (r <==> segCount != 0 && segCount % 5 == 0)
  {
    segCount == 5 || segCount == 10 || segCount == 15
  }
}
