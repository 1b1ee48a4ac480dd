/** moveBar: three adjacent LEDs of the PCA9532's circular 16-LED bar are
    lit around position barPos, after which the position moves on. */
module LedBar {
  import opened Words

  /** Whether LED i is on in a PCA9532 mask (bit i of the uint16_t). */
  predicate LedOn(mask: bv16, i: nat)
    requires i < 16
  {
    (mask >> i) & 1 == 1
  }

  /** The uint16_t ledOn that moveBar computes for position pos. */
  function BarMask(pos: u8): (m: bv16)
    requires pos < 16
    ensures LedOn(m, pos) && LedOn(m, (pos + 15) % 16) && LedOn(m, (pos + 14) % 16)
  {
    if pos == 0 then (1 << 0) | (3 << 14)
    else if pos == 1 then (3 << 0) | (1 << 15)
    else 0x07 << (pos - 2)
  }

  /** The mask lights exactly the LEDs pos - 2, pos - 1 and pos, counted
      round the circle of 16. */
  lemma BarMaskLights(pos: u8)
    requires pos < 16
    ensures forall i: nat :: i < 16 ==>
      (LedOn(BarMask(pos), i) <==> i == pos || i == (pos + 15) % 16 || i == (pos + 14) % 16)
  {
    var m := BarMask(pos);
    forall i: nat | i < 16
      ensures LedOn(m, i) <==> i == pos || i == (pos + 15) % 16 || i == (pos + 14) % 16
    {
      BarMaskBit(pos, i);
    }
  }

  lemma BarMaskBit(pos: u8, i: nat)
    requires pos < 16 && i < 16
    ensures LedOn(BarMask(pos), i) <==> i == pos || i == (pos + 15) % 16 || i == (pos + 14) % 16
  {
    if pos >= 2 {
      var m: bv16 := 0x07 << (pos - 2);
      assert m == BarMask(pos);
    }
  }

  /** barPos after `barPos += dir*steps; barPos = barPos % 16;` with the sum
      first truncated to uint8_t: the original position moved by dir*steps
      round the circle of 16. */
  function NextBarPos(pos: u8, steps: u8, dir: u8): (r: u8)
    ensures r < 16
    ensures r == (pos + dir * steps) % 16
  {
    var sum: u8 := (pos + dir * steps) % TWO_8;
    ModOfMod(pos + dir * steps);
    sum % 16
  }

  /** Reducing modulo 256 first does not change the residue modulo 16. */
  lemma ModOfMod(n: int)
    ensures (n % TWO_8) % 16 == n % 16
  {
    var q := n / TWO_8;
    assert n == q * TWO_8 + n % TWO_8;
    assert n % TWO_8 == n - 16 * (16 * q);
  }

  /** moveBar's file-scope static barPos, with the on-mask last given to
      pca9532_setLeds. */
  class Bar {
    var barPos: u8
    ghost var ledBar: Option<bv16>

    ghost predicate Valid()
      reads this
    {
      barPos < 16
    }

    /** `static uint8_t barPos = 2`. */
    constructor ()
      ensures Valid()
      ensures barPos == 2 && ledBar == None
    {
      barPos := 2;
      ledBar := None;
    }

    /** moveBar: light the three LEDs ending at barPos, then move barPos by
        dir*steps round the bar. */
    method MoveBar(steps: u8, dir: u8)
      requires Valid()
      modifies this
      ensures Valid()
      ensures ledBar == Some(BarMask(old(barPos)))
      ensures barPos == NextBarPos(old(barPos), steps, dir)
    {
      var ledOn := BarMask(barPos);
      barPos := NextBarPos(barPos, steps, dir);
      ledBar := Some(ledOn);
    }
  }
}
