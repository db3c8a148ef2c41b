/** Worked cases of the calculator, stated over the model. */
module Scenarios {
  import opened Wrappers
  import opened Units
  import opened Duration
  import opened Display
  import opened Calculate
  import opened Input
  import opened Arguments
  import opened Bwcalc

  /**
    1 GiB at 100 Mbps takes 85.899... seconds; it rounds to 86 = 1 minute and
    26 seconds, and the screen shows "1 minute" and 26 - 0.1006... seconds.
  */
  method OneGibibyteAtHundredMbps() returns (r: TimeReport)
    ensures r.elapsed == Clock(0, 0, 1, 25.89934592)
    ensures r.shown == [Item(1.0, "minute"), Item(25.89934592, "seconds")]
    ensures r.sizeUnit == "GiB" && r.speedUnit == "Mbps"
  {
    var bits := SizeToBits(1.0, 'G');
    var bps := SpeedToBps(100.0, 'M');
    var t := CalculateTimeSeconds(bits.base, bps.base);
    assert t == 85.89934592;
    assert (t + 0.5).Floor == 86;
    r := FormatTimeOutput(1.0, bits.symbol, 100.0, bps.symbol, t);
    var c := r.elapsed;
    CanonicalIsUnique(c.days, c.hours, c.minutes, (c.seconds - Fraction(t)).Floor, 0, 0, 1, 26);
    assert "second" + "s" == "seconds";
    assert DurationFields(c) == [] + [] + [Labelled(1.0, "minute")] + [Labelled(c.seconds, "second")];
  }

  /** 10 MiB in one minute needs 1398101.33... bps, which is shown in Mbps. */
  lemma TenMebibytesInOneMinute()
    ensures var b := FormatBandwidth(CalculateSpeedBps(SizeToBits(10.0, 'M').base, TimeSeconds(Clock(0, 0, 1, 0.0))));
      b.scale == 2 && b.name == "Mbps" && 1.39 < b.amount < 1.41
  {
  }

  /** An all-zero duration is the error case; a unit 'x', a size of -5 and a size of 0 are all retried. */
  lemma RejectedInputs()
    ensures TimeSeconds(Clock(0, 0, 0, 0.0)) == -1.0
    ensures !UnitAccepted('x') && UnitAccepted('k') && ToUpper('k') == 'K'
    ensures FirstAccepted([Number(-5.0), Number(0.0), Malformed, Number(2.0)], 3, MagnitudeAccepted)
    ensures !CountAccepted(Entry(Some(3), "x")) && CountAccepted(Entry(Some(3), " \t"))
  {
    assert !IsSpace("x"[0]);
  }

  /** A console on which every prompt accepts its first attempt. */
  function Answers(sizeUnit: char, size: real, speedUnit: char, speed: real, days: int, hours: int, minutes: int,
                   seconds: real): Console
  {
    Console([sizeUnit], [Number(size)], [speedUnit], [Number(speed)],
            [Entry(Some(days), "")], [Entry(Some(hours), "")], [Entry(Some(minutes), "")], [Number(seconds)])
  }

  /** On such a console, what counts as entered is the one attempt at each prompt. */
  lemma AnswersEntered(sizeUnit: char, size: real, speedUnit: char, speed: real, days: int, hours: int,
                       minutes: int, seconds: real)
    requires IsUnitLetter(sizeUnit) && IsUnitLetter(speedUnit) && size > 0.0 && speed > 0.0
    requires NonNegative(Clock(days, hours, minutes, seconds))
    ensures var c := Answers(sizeUnit, size, speedUnit, speed, days, hours, minutes, seconds);
      var bits := SizeToBits(size, sizeUnit);
      var bps := SpeedToBps(speed, speedUnit);
      SizeEntered(c.sizeUnit, c.size) == Some(Reading(sizeUnit, size, bits.symbol, bits.base))
      && SpeedEntered(c.speedUnit, c.speed) == Some(Reading(speedUnit, speed, bps.symbol, bps.base))
      && DurationEntered(c.days, c.hours, c.minutes, c.seconds) == Some(Clock(days, hours, minutes, seconds))
  {
    var c := Answers(sizeUnit, size, speedUnit, speed, days, hours, minutes, seconds);
    assert FirstIndex(c.sizeUnit, UnitAccepted) == 0 && FirstIndex(c.speedUnit, UnitAccepted) == 0;
    assert FirstIndex(c.size, MagnitudeAccepted) == 0 && FirstIndex(c.speed, MagnitudeAccepted) == 0;
  }

  /** "bwcalc time" with 74.5 B at 10 bps: the whole run shows 1 minute and -0.4 seconds. */
  method TimeRunShowsNegativeSeconds() returns (outcome: Outcome)
    ensures outcome.TimeShown? && outcome.time.elapsed == Clock(0, 0, 1, -0.4)
    ensures outcome.time.sizeUnit == "B" && outcome.time.speedUnit == "bps"
  {
    var console := Answers('B', 74.5, 'B', 10.0, 0, 0, 0, 0.0);
    assert EqualsIgnoreCase("time", "time");
    AnswersEntered('B', 74.5, 'B', 10.0, 0, 0, 0, 0.0);
    outcome := Run(["bwcalc", "time"], console);
    assert CalculateTimeSeconds(596.0, 10.0) == 59.6;
    var expected := NegativeSecondsShown();
    assert Round(59.6) == 60;
    ShowsTimeIsUnique(outcome.time, expected, 74.5, "B", 10.0, "bps", 59.6);
  }

  /** "bwcalc speed" with an all-zero duration stops with status 1. */
  method ZeroDurationIsRejected() returns (outcome: Outcome)
    ensures outcome == DurationRejected && ExitStatus(outcome) == Some(1)
  {
    var console := Answers('K', 1.0, 'B', 1.0, 0, 0, 0, 0.0);
    assert EqualsIgnoreCase("speed", "speed");
    AnswersEntered('K', 1.0, 'B', 1.0, 0, 0, 0, 0.0);
    outcome := Run(["bwcalc", "speed"], console);
  }

  /**
    A console where the user first types a wrong unit, a malformed size,
    a zero size and a minutes line with trailing text before 2 KiB and
    1 minute 4 seconds.
  */
  function RetryingConsole(): Console
  {
    Console("xk", [Malformed, Number(0.0), Number(2.0)], "", [],
            [Entry(Some(0), "")], [Entry(Some(0), "")],
            [Entry(Some(1), "m"), Entry(Some(1), " ")], [Number(4.0)])
  }

  /** The retried attempts are skipped: what counts as entered is the first accepted attempt at each prompt. */
  lemma RetriedAttemptsSkipped()
    ensures var c := RetryingConsole();
      SizeEntered(c.sizeUnit, c.size) == Some(Reading('K', 2.0, "KiB", 16384.0))
      && DurationEntered(c.days, c.hours, c.minutes, c.seconds) == Some(Clock(0, 0, 1, 4.0))
  {
    var c := RetryingConsole();
    assert FirstIndex(c.sizeUnit, UnitAccepted) == 1 by {
      assert !UnitAccepted('x') && UnitAccepted('k');
      assert c.sizeUnit[1..] == "k";
    }
    assert FirstIndex(c.size, MagnitudeAccepted) == 2 by {
      assert c.size[1..][1..] == [Number(2.0)];
    }
    assert FirstIndex(c.minutes, CountAccepted) == 1 by {
      assert !CountAccepted(Entry(Some(1), "m")) by {
        assert !IsSpace("m"[0]);
      }
      assert CountAccepted(Entry(Some(1), " "));
    }
  }

  /** "bwcalc speed" on that console: 2 KiB in 1 minute 4 seconds needs 256 bps. */
  method SpeedRunSkipsRejectedAttempts() returns (outcome: Outcome)
    ensures outcome.SpeedShown?
    ensures outcome.speed.size == 2.0 && outcome.speed.sizeUnit == "KiB"
    ensures outcome.speed.elapsed == Clock(0, 0, 1, 4.0)
    ensures outcome.speed.bandwidth == Bandwidth(256.0, 0, "bps")
  {
    RetriedAttemptsSkipped();
    assert EqualsIgnoreCase("speed", "speed");
    assert TotalSeconds(Clock(0, 0, 1, 4.0)) == 64.0;
    assert CalculateSpeedBps(16384.0, 64.0) == 256.0;
    assert FormatBandwidth(256.0) == Bandwidth(256.0, 0, "bps");
    outcome := Run(["bwcalc", "speed"], RetryingConsole());
  }
}
