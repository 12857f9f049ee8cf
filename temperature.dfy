/**
  Temperatures as the sketch handles them: the Celsius reading delivered by the
  sensor library, its disconnection sentinel, the conversion to Fahrenheit and
  the 0.1 degree change threshold. Readings are exact reals; the float rounding
  of the device is not modelled.
 */
module Temperature {

  /** The reading the sensor library returns when no sensor answers on the bus. */
  const DisconnectedC: real := -127.0

  /** Smallest change of the Celsius reading that counts as a new value. */
  const ChangeThreshold: real := 0.1

  /** A reading stands for a connected sensor unless it is the sentinel. */
  predicate IsConnected(reading: real)
  {
    reading != DisconnectedC
  }

  /** Degrees Fahrenheit for degrees Celsius; converting back gives the Celsius value. */
  function ToFahrenheit(c: real): (f: real)
    ensures (f - 32.0) * 5.0 / 9.0 == c
  {
    c * 9.0 / 5.0 + 32.0
  }

  /** Magnitude of a difference, as `abs` computes it. */
  function Abs(x: real): (r: real)
    ensures r >= 0.0
    ensures r == x || r == -x
  {
    if x > 0.0 then x else -x
  }

  /** A reading is a new value when it lies at least the threshold away from the previous one. */
  predicate Qualifies(reading: real, previous: real)
    ensures Qualifies(reading, previous) <==>
              reading <= previous - ChangeThreshold || previous + ChangeThreshold <= reading
  {
    Abs(reading - previous) >= ChangeThreshold
  }

  /** The threshold is symmetric: it does not matter which value is the previous one. */
  lemma QualifiesSymmetric(x: real, y: real)
    ensures Qualifies(x, y) <==> Qualifies(y, x)
  {
  }

  /** Noise below the threshold is suppressed; a change of 0.2 degrees is not. */
  lemma HysteresisExamples()
    ensures !Qualifies(20.05, 20.0)
    ensures Qualifies(20.2, 20.0)
    ensures Qualifies(19.9, 20.0)
    ensures ToFahrenheit(21.3) == 70.34 && ToFahrenheit(18.0) == 64.4
  {
  }
}
