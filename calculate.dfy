/** The two quotients of the calculator, in exact arithmetic. */
module Calculate {

  /** Transfer time: bits divided by bits per second; multiplying back by the speed restores the size. */
  function CalculateTimeSeconds(bits: real, bps: real): (t: real)
    requires bps != 0.0
    ensures t * bps == bits
    ensures bits > 0.0 && bps > 0.0 ==> t > 0.0
  {
    bits / bps
  }

  /** Required bandwidth: bits divided by seconds; multiplying back by the time restores the size. */
  function CalculateSpeedBps(bits: real, seconds: real): (bps: real)
    requires seconds != 0.0
    ensures bps * seconds == bits
    ensures bits > 0.0 && seconds > 0.0 ==> bps > 0.0
  {
    bits / seconds
  }

  /** Computing the required bandwidth for the time a transfer takes gives back the speed. */
  lemma TimeAndSpeedAreInverse(bits: real, bps: real)
    requires bits > 0.0 && bps > 0.0
    ensures CalculateSpeedBps(bits, CalculateTimeSeconds(bits, bps)) == bps
  {
  }
}
