/**
  The millisecond clock of the sketch. Timestamps are `unsigned long` values,
  32 bits wide on the target, so elapsed time is a subtraction modulo 2^32 and
  stays right when the counter wraps around.
 */
module Clock {

  const Modulus: int := 0x1_0000_0000

  /** A value of the 32-bit millisecond counter. */
  type Millis = t: int | 0 <= t < Modulus

  /** Time the sensor needs to finish a conversion. */
  const SensorDelayInterval: Millis := 750

  /** Time between two conversion requests. */
  const SensorReadInterval: Millis := 2000

  /** `now - since` in unsigned 32-bit arithmetic: the one counter value that, added to `since`, reaches `now`. */
  function Elapsed(now: Millis, since: Millis): (d: Millis)
    ensures (since + d) % Modulus == now
  {
    (now - since) % Modulus
  }

  /** The counter value `d` milliseconds after `t`. */
  function Advance(t: Millis, d: nat): (u: Millis)
    ensures (u - t - d) % Modulus == 0
  {
    (t + d) % Modulus
  }

  /** Reading the counter `d` milliseconds later gives back `d` as elapsed time, wrap-around or not. */
  lemma ElapsedAdvance(t: Millis, d: nat)
    requires d < Modulus
    ensures Elapsed(Advance(t, d), t) == d
  {
  }

  /** Across the wrap of the counter the elapsed time is still the true one. */
  lemma ElapsedAcrossWrap()
    ensures Elapsed(100, Modulus - 650) == SensorDelayInterval
  {
  }
}
