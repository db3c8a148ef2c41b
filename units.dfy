/**
  The unit tables of the calculator: the five unit letters, their labels and
  the conversion of a raw magnitude to bits (file sizes, binary units times
  eight) or to bits per second (connection speeds, decimal units).
*/
module Units {
  import opened Constants

  /** The letters accepted for both unit prompts, in ascending order. */
  const UnitLetters: seq<char> := ['B', 'K', 'M', 'G', 'T']

  /** The labels stored for a file size, indexed like UnitLetters. */
  const SizeLabels: seq<string> := ["B", "KiB", "MiB", "GiB", "TiB"]

  /** The labels stored for a connection speed, indexed like UnitLetters. */
  const SpeedLabels: seq<string> := ["bps", "Kbps", "Mbps", "Gbps", "Tbps"]

  /** toupper in the C locale: only 'a'..'z' change. */
  function ToUpper(c: char): char
  {
    if 'a' <= c <= 'z' then (c as int - 32) as char else c
  }

  /** The exit condition of both unit prompts. */
  predicate IsUnitLetter(u: char)
  {
    u == 'B' || u == 'K' || u == 'M' || u == 'G' || u == 'T'
  }

  /** The position of a unit letter in the tables. */
  function UnitIndex(u: char): (k: nat)
    requires IsUnitLetter(u)
    ensures k < |UnitLetters| && UnitLetters[k] == u
  {
    match u
    case 'B' => 0
    case 'K' => 1
    case 'M' => 2
    case 'G' => 3
    case 'T' => 4
  }

  /** A user's measurement: the unit letter, the raw magnitude, its unit label and its value in the base unit. */
  datatype Reading = Reading(letter: char, amount: real, symbol: string, base: real)

  /** The outcome of a unit switch: the label and converted value, or the fatal invalid-unit exit. */
  datatype Conversion = Converted(symbol: string, base: real) | InvalidUnit(letter: char)

  /**
    The file-size switch: a valid letter gives the k-th binary label and
    size * 1024^k * 8 bits; any other letter is the fatal exit.
  */
  function SizeToBits(size: real, unit: char): (c: Conversion)
    ensures c.InvalidUnit? <==> !IsUnitLetter(unit)
    ensures c.InvalidUnit? ==> c.letter == unit
    ensures c.Converted? ==> c.symbol == SizeLabels[UnitIndex(unit)]
    ensures c.Converted? ==> c.base == size * Pow(1024.0, UnitIndex(unit)) * BitsPerByte
    ensures c.Converted? ==> |c.symbol| < SizeStr
  {
    SizeFactorsArePowers();
    match unit
    case 'B' => Converted("B", size * (ByteFactor * BitsPerByte))
    case 'K' => Converted("KiB", size * (KibibyteFactor * BitsPerByte))
    case 'M' => Converted("MiB", size * (MebibyteFactor * BitsPerByte))
    case 'G' => Converted("GiB", size * (GibibyteFactor * BitsPerByte))
    case 'T' => Converted("TiB", size * (TebibyteFactor * BitsPerByte))
    case _ => InvalidUnit(unit)
  }

  /**
    The connection-speed switch: a valid letter gives the k-th decimal label
    and speed * 1000^k bits per second; any other letter is the fatal exit.
  */
  function SpeedToBps(speed: real, unit: char): (c: Conversion)
    ensures c.InvalidUnit? <==> !IsUnitLetter(unit)
    ensures c.InvalidUnit? ==> c.letter == unit
    ensures c.Converted? ==> c.symbol == SpeedLabels[UnitIndex(unit)]
    ensures c.Converted? ==> c.base == speed * Pow(1000.0, UnitIndex(unit))
    ensures c.Converted? ==> |c.symbol| < SpeedStr
  {
    SpeedFactorsArePowers();
    match unit
    case 'B' => Converted("bps", speed * BpsFactor)
    case 'K' => Converted("Kbps", speed * KbpsFactor)
    case 'M' => Converted("Mbps", speed * MbpsFactor)
    case 'G' => Converted("Gbps", speed * GbpsFactor)
    case 'T' => Converted("Tbps", speed * TbpsFactor)
    case _ => InvalidUnit(unit)
  }

  /** A lower-case letter is accepted by the unit prompts exactly when it is b, k, m, g or t. */
  lemma UnitLetterCaseInsensitive(c: char)
    requires 'a' <= c <= 'z'
    ensures IsUnitLetter(ToUpper(c)) <==> c in "bkmgt"
  {
  }

  /**
    The label buffers are exactly large enough: the longest labels, "KiB"
    and "Kbps", fill them up to the terminator.
  */
  lemma LabelBuffersAreTight()
    ensures forall l :: l in SizeLabels ==> |l| + 1 <= SizeStr
    ensures forall l :: l in SpeedLabels ==> |l| + 1 <= SpeedStr
    ensures |SizeLabels[1]| + 1 == SizeStr && |SpeedLabels[1]| + 1 == SpeedStr
  {
  }

  /** Size and speed use different bases: the same letter means the same factor only for 'B'. */
  lemma SizeAndSpeedBasesDiffer(u: char)
    requires IsUnitLetter(u)
    ensures (SizeToBits(1.0, u).base == SpeedToBps(1.0, u).base * BitsPerByte) <==> u == 'B'
  {
  }
}
