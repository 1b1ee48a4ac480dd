/** The readiness test shared by the periodic tasks of the main loop:
    a task runs when `getTicks() - prev >= period` in uint32_t arithmetic,
    where `prev` is the tick value stored when it last ran. */
module Scheduler {
  import opened Words

  /** The value msTicks holds after `t` SysTick interrupts since reset:
      a uint32_t counter that wraps to 0 after 2^32 - 1. */
  function TickValue(t: nat): (v: u32)
    ensures t < TWO_32 ==> v == t
    ensures (v - t) % TWO_32 == 0
  {
    t % TWO_32
  }

  /** `now - prev >= period`, the subtraction done in uint32_t: the plain
      difference when the counter has not wrapped since `prev`, and the
      difference across the wrap otherwise. */
  function Due(now: u32, prev: u32, period: nat): (r: bool)
    ensures now >= prev ==> (r <==> now - prev >= period)
    ensures now < prev ==> (r <==> now + TWO_32 - prev >= period)
  {
    Sub32(now, prev) >= period
  }

  /** Subtracting the wrapped counter values gives the true number of
      milliseconds between two instants less than 2^32 ms apart, even when
      the counter wrapped in between. */
  lemma ElapsedAcrossWrap(t1: nat, t2: nat)
    requires t1 <= t2 < t1 + TWO_32
    ensures Sub32(TickValue(t2), TickValue(t1)) == t2 - t1
  {
    var v1, v2 := TickValue(t1), TickValue(t2);
    var q1, q2 := t1 / TWO_32, t2 / TWO_32;
    assert t1 == q1 * TWO_32 + v1;
    assert t2 == q2 * TWO_32 + v2;
    if v1 <= v2 {
      assert q1 == q2;
    } else {
      assert q2 == q1 + 1;
      assert (TickValue(t1) + (t2 - t1)) % TWO_32 == v2;
    }
    Sub32Unique(v2, v1, t2 - t1);
  }

  /** The readiness test sees exactly the real elapsed time. */
  lemma DueIffPeriodElapsed(t1: nat, t2: nat, period: nat)
    requires t1 <= t2 < t1 + TWO_32
    ensures Due(TickValue(t2), TickValue(t1), period) <==> t2 - t1 >= period
  {
    ElapsedAcrossWrap(t1, t2);
  }

  /** A task that ran at instant t1 is not ready again before t1 + period,
      and is ready at t1 + period, wherever the counter wraps. */
  lemma ReadyOncePerPeriod(t1: nat, period: nat)
    requires 0 < period < TWO_32
    ensures forall t: nat :: t1 <= t < t1 + period ==> !Due(TickValue(t), TickValue(t1), period)
    ensures Due(TickValue(t1 + period), TickValue(t1), period)
  {
    forall t: nat | t1 <= t < t1 + period
      ensures !Due(TickValue(t), TickValue(t1), period)
    {
      ElapsedAcrossWrap(t1, t);
    }
    ElapsedAcrossWrap(t1, t1 + period);
  }
}
