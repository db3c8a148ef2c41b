/**
  The constants of the calculator's header: bits per byte, the binary
  file-size factors, the decimal connection-speed factors, the time factors
  and the sizes of the two unit-label buffers.
*/
module Constants {

  const BitsPerByte: real := 8.0

  // File size unit factors (binary, base 2)
  const ByteFactor: real := 1.0
  const KibibyteFactor: real := 1024.0
  const MebibyteFactor: real := 1048576.0
  const GibibyteFactor: real := 1073741824.0
  const TebibyteFactor: real := 1099511627776.0

  // Connection speed unit factors (decimal, base 10)
  const BpsFactor: real := 1.0
  const KbpsFactor: real := 1000.0
  const MbpsFactor: real := 1000000.0
  const GbpsFactor: real := 1000000000.0
  const TbpsFactor: real := 1000000000000.0

  // Time unit factors, in seconds
  const SecondsPerMinute: int := 60
  const SecondsPerHour: int := 3600
  const SecondsPerDay: int := 86400

  // Capacities of the two label buffers, terminator included
  const SizeStr: nat := 4
  const SpeedStr: nat := 5

  /** The size factors in unit order B, K, M, G, T. */
  const SizeFactors: seq<real> := [ByteFactor, KibibyteFactor, MebibyteFactor, GibibyteFactor, TebibyteFactor]

  /** The speed factors in unit order B, K, M, G, T. */
  const SpeedFactors: seq<real> := [BpsFactor, KbpsFactor, MbpsFactor, GbpsFactor, TbpsFactor]

  /** b raised to the k-th power. */
  function Pow(b: real, k: nat): real
  {
    if k == 0 then 1.0 else b * Pow(b, k - 1)
  }

  /** The k-th size factor is 1024^k. */
  lemma SizeFactorsArePowers()
    ensures |SizeFactors| == 5
    ensures forall k :: 0 <= k < 5 ==> SizeFactors[k] == Pow(1024.0, k)
  {
    assert Pow(1024.0, 1) == 1024.0;
    assert Pow(1024.0, 2) == 1024.0 * 1024.0;
    assert Pow(1024.0, 3) == 1024.0 * 1024.0 * 1024.0;
    assert Pow(1024.0, 4) == 1024.0 * 1024.0 * 1024.0 * 1024.0;
  }

  /** The k-th speed factor is 1000^k. */
  lemma SpeedFactorsArePowers()
    ensures |SpeedFactors| == 5
    ensures forall k :: 0 <= k < 5 ==> SpeedFactors[k] == Pow(1000.0, k)
  {
    assert Pow(1000.0, 1) == 1000.0;
    assert Pow(1000.0, 2) == 1000.0 * 1000.0;
    assert Pow(1000.0, 3) == 1000.0 * 1000.0 * 1000.0;
    assert Pow(1000.0, 4) == 1000.0 * 1000.0 * 1000.0 * 1000.0;
  }

  /** Both factor tables grow strictly, so a larger unit always means a larger factor. */
  lemma FactorsIncrease()
    ensures forall j, k :: 0 <= j < k < 5 ==> SizeFactors[j] < SizeFactors[k]
    ensures forall j, k :: 0 <= j < k < 5 ==> SpeedFactors[j] < SpeedFactors[k]
  {
  }

  /** An hour is sixty minutes and a day is twenty-four hours. */
  lemma TimeFactorsNest()
    ensures SecondsPerHour == 60 * SecondsPerMinute
    ensures SecondsPerDay == 24 * SecondsPerHour
  {
  }
}
