/**
  What the two result screens show, without the printf text around it:
  which duration fields appear, the singular or plural unit label of each,
  the bandwidth unit chosen by threshold, and the values echoed back from
  the user's input.
*/
module Display {
  import opened Constants
  import opened Units
  import opened Duration
  import opened Calculate

  /** One printed duration field: its value and its unit label. */
  datatype Item = Item(amount: real, name: string)

  /** A value with its unit label, singular exactly when the value is 1. */
  function Labelled(amount: real, singular: string): (it: Item)
    ensures it.amount == amount
    ensures it.name == singular <==> amount == 1.0
    ensures it.name == singular || it.name == singular + "s"
  {
    assert |singular + "s"| != |singular|;
    Item(amount, if amount == 1.0 then singular else singular + "s")
  }

  /** All four fields of a clock, largest unit first. */
  function AllFields(c: Clock): (all: seq<Item>)
    ensures |all| == 4
  {
    [Labelled(c.days as real, "day"), Labelled(c.hours as real, "hour"),
     Labelled(c.minutes as real, "minute"), Labelled(c.seconds, "second")]
  }

  /**
    The fields actually printed: days when positive, hours when positive or
    days were printed, minutes when positive or a larger unit was printed,
    and seconds always. Both result screens use this rule.
  */
  function DurationFields(c: Clock): (shown: seq<Item>)
    ensures 1 <= |shown| <= 4 && shown[|shown| - 1] == Labelled(c.seconds, "second")
  {
    (if c.days > 0 then [Labelled(c.days as real, "day")] else [])
    + (if c.hours > 0 || c.days > 0 then [Labelled(c.hours as real, "hour")] else [])
    + (if c.minutes > 0 || c.hours > 0 || c.days > 0 then [Labelled(c.minutes as real, "minute")] else [])
    + [Labelled(c.seconds, "second")]
  }

  /**
    The printed fields are a run of the four fields ending at seconds, and
    each field appears exactly when it or a larger field is positive.
  */
  lemma FieldVisibility(c: Clock)
    ensures var shown := DurationFields(c); shown == AllFields(c)[4 - |shown|..]
    ensures |DurationFields(c)| == 4 <==> c.days > 0
    ensures |DurationFields(c)| >= 3 <==> c.hours > 0 || c.days > 0
    ensures |DurationFields(c)| >= 2 <==> c.minutes > 0 || c.hours > 0 || c.days > 0
  {
    var k := if c.days > 0 then 0 else if c.hours > 0 then 1 else if c.minutes > 0 then 2 else 3;
    ShownFrom(c, k);
  }

  /** The printed fields are the four fields from index k on, where k is the first field that is to be shown. */
  lemma ShownFrom(c: Clock, k: nat)
    requires k == if c.days > 0 then 0 else if c.hours > 0 then 1 else if c.minutes > 0 then 2 else 3
    ensures DurationFields(c) == AllFields(c)[k..]
  {
    var day, hour, minute, second :=
      Labelled(c.days as real, "day"), Labelled(c.hours as real, "hour"),
      Labelled(c.minutes as real, "minute"), Labelled(c.seconds, "second");
    assert AllFields(c) == [day, hour, minute, second];
    if k == 0 {
      assert DurationFields(c) == [day] + [hour] + [minute] + [second];
    } else if k == 1 {
      assert DurationFields(c) == [] + [hour] + [minute] + [second];
    } else if k == 2 {
      assert DurationFields(c) == [] + [] + [minute] + [second];
    } else {
      assert DurationFields(c) == [] + [] + [] + [second];
    }
  }

  /** For fields a user can enter, every field left off the screen is zero, so nothing is lost. */
  lemma SuppressedFieldsAreZero(c: Clock)
    requires NonNegative(c)
    ensures forall i :: 0 <= i < 4 - |DurationFields(c)| ==> AllFields(c)[i].amount == 0.0
  {
    FieldVisibility(c);
  }

  /** The singular unit labels, largest unit first. */
  const Singulars: seq<string> := ["day", "hour", "minute", "second"]

  /** Each field's label is singular exactly when its value is 1, and takes "s" otherwise. */
  lemma PluralRule(c: Clock)
    ensures forall i :: 0 <= i < 4 ==>
      AllFields(c)[i].name == if AllFields(c)[i].amount == 1.0 then Singulars[i] else Singulars[i] + "s"
  {
  }

  /** A bandwidth in its display unit. */
  datatype Bandwidth = Bandwidth(amount: real, scale: nat, name: string)

  /**
    The threshold chain of the speed screen: the first of bps, Kbps, Mbps
    and Gbps whose next-larger factor exceeds the bandwidth, otherwise Tbps.
  */
  function BandwidthScale(bps: real): (k: nat)
    ensures k < 5
    ensures forall j :: 1 <= j <= k ==> SpeedFactors[j] <= bps
    ensures k < 4 ==> bps < SpeedFactors[k + 1]
  {
    if bps < KbpsFactor then 0
    else if bps < MbpsFactor then 1
    else if bps < GbpsFactor then 2
    else if bps < TbpsFactor then 3
    else 4
  }

  /** The bandwidth as printed: divided by the chosen factor, with that factor's label. */
  function FormatBandwidth(bps: real): (b: Bandwidth)
    ensures b.scale == BandwidthScale(bps) && b.name == SpeedLabels[b.scale]
    ensures b.amount * SpeedFactors[b.scale] == bps
  {
    var k := BandwidthScale(bps);
    Bandwidth(bps / SpeedFactors[k], k, SpeedLabels[k])
  }

  /**
    A positive bandwidth below 1 Tbps is printed with a magnitude in
    [1, 1000), or in (0, 1000) when it is in bps; from 1 Tbps up it is in
    Tbps with a magnitude of at least 1.
  */
  lemma BandwidthMagnitude(bps: real)
    requires bps > 0.0
    ensures var b := FormatBandwidth(bps);
      (bps < TbpsFactor ==> b.amount < 1000.0)
      && (b.scale == 0 ==> 0.0 < b.amount)
      && (b.scale > 0 ==> 1.0 <= b.amount)
      && (bps >= TbpsFactor <==> b.scale == 4)
  {
  }

  /** A larger bandwidth never gets a smaller display unit. */
  lemma BandwidthScaleMonotone(x: real, y: real)
    requires x <= y
    ensures BandwidthScale(x) <= BandwidthScale(y)
  {
  }

  /** The time screen: the size and speed as the user entered them, and the duration. */
  datatype TimeReport = TimeReport(size: real, sizeUnit: string, speed: real, speedUnit: string,
                                   elapsed: Clock, shown: seq<Item>)

  /** The speed screen: the size as entered, the duration fields as entered, the fields printed, and the bandwidth. */
  datatype SpeedReport = SpeedReport(size: real, sizeUnit: string, elapsed: Clock, shown: seq<Item>,
                                     bandwidth: Bandwidth)

  /** The largest and smallest values of a C long long. */
  const LongLongMax: int := 0x7FFF_FFFF_FFFF_FFFF
  const LongLongMin: int := -0x8000_0000_0000_0000

  /**
    What the time screen as written shows for a transfer of total seconds:
    the size and speed echoed back, displayed fields that add back up to the
    unrounded total, whole leftover seconds once the fraction rounding
    removed is taken off, those whole fields standing for Round(total), in
    their usual ranges when Round(total) is at least zero, and the printed
    fields chosen by the visibility rule.
  */
  ghost predicate ShowsTime(r: TimeReport, sizeValue: real, sizeUnit: string, speedValue: real, speedUnit: string,
                            total: real)
  {
    var leftover := r.elapsed.seconds - Fraction(total);
    r.size == sizeValue && r.sizeUnit == sizeUnit && r.speed == speedValue && r.speedUnit == speedUnit
    && TotalSeconds(r.elapsed) == total
    && leftover == leftover.Floor as real
    && WholeSeconds(r.elapsed.days, r.elapsed.hours, r.elapsed.minutes, leftover.Floor) == Round(total)
    && (Round(total) >= 0 ==> IsCanonical(r.elapsed.days, r.elapsed.hours, r.elapsed.minutes, leftover.Floor))
    && r.shown == DurationFields(r.elapsed)
  }

  /** When Round(total) is at least zero, what the time screen shows is determined by its inputs. */
  lemma ShowsTimeIsUnique(r1: TimeReport, r2: TimeReport, sizeValue: real, sizeUnit: string,
                          speedValue: real, speedUnit: string, total: real)
    requires ShowsTime(r1, sizeValue, sizeUnit, speedValue, speedUnit, total)
    requires ShowsTime(r2, sizeValue, sizeUnit, speedValue, speedUnit, total)
    requires Round(total) >= 0
    ensures r1 == r2
  {
    var c1, c2 := r1.elapsed, r2.elapsed;
    CanonicalIsUnique(c1.days, c1.hours, c1.minutes, (c1.seconds - Fraction(total)).Floor,
                      c2.days, c2.hours, c2.minutes, (c2.seconds - Fraction(total)).Floor);
  }

  /**
    The time screen's arithmetic: round the total to whole seconds, take
    days, hours and minutes off it by quotient and remainder, and show the
    leftover seconds plus the fraction that rounding removed.
  */
  method FormatTimeOutput(sizeValue: real, sizeUnit: string, speedValue: real, speedUnit: string, total: real)
    returns (r: TimeReport)
    requires LongLongMin <= Round(total) <= LongLongMax
    ensures ShowsTime(r, sizeValue, sizeUnit, speedValue, speedUnit, total)
  {
    var rounded := Round(total);
    var days, hours, minutes, remaining := BreakDown(rounded);
    var fractional := total - rounded as real;
    var finalSeconds := remaining as real + fractional;
    var elapsed := Clock(days, hours, minutes, finalSeconds);
    r := TimeReport(sizeValue, sizeUnit, speedValue, speedUnit, elapsed, DurationFields(elapsed));
  }

  /**
    The time screen as written shows a negative seconds value whenever
    rounding goes up to a whole number of minutes: 74.5 B at 10 bps takes
    59.6 seconds, which rounds to 60 and is shown as 1 minute and -0.4
    seconds.
  */
  method NegativeSecondsShown() returns (r: TimeReport)
    ensures r.elapsed == Clock(0, 0, 1, -0.4) && r.elapsed.seconds < 0.0
    ensures r.shown == [Item(1.0, "minute"), Item(-0.4, "seconds")]
    ensures ShowsTime(r, 74.5, "B", 10.0, "bps", 59.6)
  {
    var bits := SizeToBits(74.5, 'B');
    var bps := SpeedToBps(10.0, 'B');
    var total := CalculateTimeSeconds(bits.base, bps.base);
    assert total == 59.6;
    r := FormatTimeOutput(74.5, bits.symbol, 10.0, bps.symbol, total);
    var c := r.elapsed;
    assert Round(59.6) == 60;
    CanonicalIsUnique(c.days, c.hours, c.minutes, (c.seconds - Fraction(59.6)).Floor, 0, 0, 1, 0);
    assert "second" + "s" == "seconds";
    assert DurationFields(c) == [] + [] + [Labelled(1.0, "minute")] + [Labelled(-0.4, "second")];
  }

  /**
    The time screen as evidently intended: take days, hours and minutes off
    the whole part of the total and show the leftover seconds plus the
    fraction below one. The fields still add up to the total, and for a
    total of at least zero the displayed seconds lie in [0, 60).
  */
  method FormatTimeOutputCorrected(sizeValue: real, sizeUnit: string, speedValue: real, speedUnit: string, total: real)
    returns (r: TimeReport)
    requires LongLongMin <= total.Floor <= LongLongMax
    ensures r.size == sizeValue && r.sizeUnit == sizeUnit && r.speed == speedValue && r.speedUnit == speedUnit
    ensures TotalSeconds(r.elapsed) == total
    ensures var leftover := r.elapsed.seconds - (total - total.Floor as real);
      leftover == leftover.Floor as real
      && WholeSeconds(r.elapsed.days, r.elapsed.hours, r.elapsed.minutes, leftover.Floor) == total.Floor
    ensures total >= 0.0 ==>
      IsCanonical(r.elapsed.days, r.elapsed.hours, r.elapsed.minutes, r.elapsed.seconds.Floor)
      && 0.0 <= r.elapsed.seconds < 60.0
    ensures r.shown == DurationFields(r.elapsed)
  {
    var whole := total.Floor;
    var days, hours, minutes, remaining := BreakDown(whole);
    var fractional := total - whole as real;
    var finalSeconds := remaining as real + fractional;
    var elapsed := Clock(days, hours, minutes, finalSeconds);
    r := TimeReport(sizeValue, sizeUnit, speedValue, speedUnit, elapsed, DurationFields(elapsed));
  }

  /**
    The speed screen: the size and the four duration fields exactly as
    entered (not recomputed) and the bandwidth in its display unit.
  */
  function FormatSpeedOutput(sizeValue: real, sizeUnit: string, days: int, hours: int, minutes: int,
                             seconds: real, bps: real): (r: SpeedReport)
    ensures r.size == sizeValue && r.sizeUnit == sizeUnit
    ensures r.elapsed == Clock(days, hours, minutes, seconds)
    ensures r.shown == DurationFields(r.elapsed)
    ensures r.bandwidth.scale == BandwidthScale(bps)
    ensures r.bandwidth.amount * SpeedFactors[r.bandwidth.scale] == bps
    ensures r.bandwidth.name == SpeedLabels[r.bandwidth.scale]
  {
    var elapsed := Clock(days, hours, minutes, seconds);
    SpeedReport(sizeValue, sizeUnit, elapsed, DurationFields(elapsed), FormatBandwidth(bps))
  }
}
