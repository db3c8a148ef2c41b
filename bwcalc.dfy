/**
  The program as a whole: the argument check, the mode dispatch, the
  prompts, the quotient and the result screen, with the exit status.
*/
module Bwcalc {
  import opened Wrappers
  import opened Units
  import opened Duration
  import opened Display
  import opened Calculate
  import opened Input
  import opened Arguments

  /** The attempts the user makes at each prompt, in prompt order. */
  datatype Console = Console(
    sizeUnit: seq<char>, size: seq<Token>,
    speedUnit: seq<char>, speed: seq<Token>,
    days: seq<Entry>, hours: seq<Entry>, minutes: seq<Entry>, seconds: seq<Token>)

  /** How a run ends. */
  datatype Outcome =
    | Usage                          // bad arguments: usage text
    | AboutShown                     // the program information
    | TimeShown(time: TimeReport)    // time mode's result screen
    | SpeedShown(speed: SpeedReport) // speed mode's result screen
    | DurationRejected               // speed mode with a total duration that is not positive
    | InputExhausted                 // the attempts at a prompt ran out
    | Undefined                      // the whole transfer time does not fit a long long

  /** The exit status of a run; none where the C program never returns or its behaviour is undefined. */
  function ExitStatus(o: Outcome): (s: Option<int>)
    ensures s == Some(1) <==> o == Usage || o == DurationRejected
    ensures s.None? <==> o == InputExhausted || o == Undefined
  {
    match o
    case Usage => Some(1)
    case DurationRejected => Some(1)
    case InputExhausted => None
    case Undefined => None
    case _ => Some(0)
  }

  /** The argument check passed and the mode named is the given one. */
  predicate InMode(args: seq<string>, mode: string)
  {
    CheckArguments(args) == 0 && EqualsIgnoreCase(args[1], mode)
  }

  /**
    One run. The size is read in both calculating modes; time mode then reads
    a speed and shows the transfer time, speed mode reads a duration and shows
    the required bandwidth, or stops with status 1 when that duration is not
    positive. Every value shown is the one the user entered first at each
    prompt that the prompt accepted, or is computed from those.
  */
  method Run(args: seq<string>, console: Console) returns (outcome: Outcome)
    ensures outcome == Usage <==> CheckArguments(args) != 0
    ensures outcome == AboutShown <==> InMode(args, "about")
    ensures outcome.TimeShown? || outcome == Undefined ==> InMode(args, "time")
    ensures outcome.SpeedShown? || outcome == DurationRejected ==> InMode(args, "speed")
    ensures InMode(args, "time") || InMode(args, "speed") ==>
              (SizeEntered(console.sizeUnit, console.size).None? ==> outcome == InputExhausted)
    ensures InMode(args, "time") && SizeEntered(console.sizeUnit, console.size).Some? ==>
              var size := SizeEntered(console.sizeUnit, console.size).value;
              var speed := SpeedEntered(console.speedUnit, console.speed);
              (speed.None? ==> outcome == InputExhausted)
              && (speed.Some? ==>
                    var total := CalculateTimeSeconds(size.base, speed.value.base);
                    if LongLongMin <= Round(total) <= LongLongMax then
                      outcome.TimeShown?
                      && ShowsTime(outcome.time, size.amount, size.symbol, speed.value.amount, speed.value.symbol, total)
                    else outcome == Undefined)
    ensures InMode(args, "speed") && SizeEntered(console.sizeUnit, console.size).Some? ==>
              var size := SizeEntered(console.sizeUnit, console.size).value;
              var fields := DurationEntered(console.days, console.hours, console.minutes, console.seconds);
              (fields.None? ==> outcome == InputExhausted)
              && (fields.Some? && TotalSeconds(fields.value) <= 0.0 ==> outcome == DurationRejected)
              && (fields.Some? && TotalSeconds(fields.value) > 0.0 ==>
                    var f := fields.value;
                    outcome == SpeedShown(FormatSpeedOutput(size.amount, size.symbol, f.days, f.hours, f.minutes,
                                                            f.seconds, CalculateSpeedBps(size.base, TotalSeconds(f)))))
    ensures ExitStatus(outcome) == Some(0) <==>
              outcome == AboutShown || outcome.TimeShown? || outcome.SpeedShown?
  {
    if CheckArguments(args) != 0 {
      return Usage;
    }
    ModeNamesDiffer(args[1]);
    if EqualsIgnoreCase(args[1], "about") {
      return AboutShown;
    }
    var size := GetFileSizeBits(console.sizeUnit, console.size);
    if size.None? {
      return InputExhausted;
    }
    if EqualsIgnoreCase(args[1], "time") {
      var speed := GetConnectionSpeedBps(console.speedUnit, console.speed);
      if speed.None? {
        return InputExhausted;
      }
      var total := CalculateTimeSeconds(size.value.base, speed.value.base);
      if !(LongLongMin <= Round(total) <= LongLongMax) {
        return Undefined;
      }
      var report := FormatTimeOutput(size.value.amount, size.value.symbol,
                                     speed.value.amount, speed.value.symbol, total);
      outcome := TimeShown(report);
    } else if EqualsIgnoreCase(args[1], "speed") {
      var duration := GetTimeSeconds(console.days, console.hours, console.minutes, console.seconds);
      if duration.None? {
        return InputExhausted;
      }
      if duration.value.total < 0.0 {
        return DurationRejected;
      }
      var bps := CalculateSpeedBps(size.value.base, duration.value.total);
      var fields := duration.value.fields;
      var report := FormatSpeedOutput(size.value.amount, size.value.symbol,
                                      fields.days, fields.hours, fields.minutes, fields.seconds, bps);
      outcome := SpeedShown(report);
    } else {
      assert false;
    }
  }
}
