/**
  The prompts and their retry loops. Console reading is abstracted: each
  prompt gets the sequence of attempts the user makes at it, already
  tokenised the way the C scanf conversions see them. A loop consumes
  attempts until one is acceptable; if the attempts run out the model
  returns None, an end the C loops do not have.
*/
module Input {
  import opened Wrappers
  import opened Units
  import opened Duration

  /** One attempt at a real-number prompt: scanf("%lf") read a number, or matched nothing. */
  datatype Token = Number(value: real) | Malformed

  /**
    One attempt at a whole-number prompt: what scanf("%lld") read (None when
    it matched nothing) and the characters after it up to the newline.
  */
  datatype Entry = Entry(parsed: Option<int>, rest: seq<char>)

  /** isspace in the C locale. */
  predicate IsSpace(c: char)
  {
    c == ' ' || c == '\t' || c == '\n' || c == '\U{0B}' || c == '\U{0C}' || c == '\r'
  }

  predicate AllSpace(s: seq<char>)
  {
    forall i :: 0 <= i < |s| ==> IsSpace(s[i])
  }

  /**
    An input character ends a unit prompt when its upper case is a unit
    letter. Whitespace, which " %c" skips, is never a unit letter, so
    skipping it and rejecting it come to the same.
  */
  predicate UnitAccepted(c: char)
  {
    IsUnitLetter(ToUpper(c))
  }

  /** A size or speed is accepted when it parses and is strictly positive. */
  predicate MagnitudeAccepted(t: Token)
  {
    t.Number? && t.value > 0.0
  }

  /** A seconds value is accepted when it parses and is not negative. */
  predicate SecondsAccepted(t: Token)
  {
    t.Number? && t.value >= 0.0
  }

  /** A days, hours or minutes line is accepted when it parses, is not negative and has nothing but whitespace after the number. */
  predicate CountAccepted(e: Entry)
  {
    e.parsed.Some? && e.parsed.value >= 0 && AllSpace(e.rest)
  }

  /** Attempt i is accepted and every attempt before it was rejected. */
  ghost predicate FirstAccepted<T>(s: seq<T>, i: int, accepted: T -> bool)
  {
    0 <= i < |s| && accepted(s[i]) && forall j :: 0 <= j < i ==> !accepted(s[j])
  }

  /** Every attempt was rejected. */
  ghost predicate NoneAccepted<T>(s: seq<T>, accepted: T -> bool)
  {
    forall j :: 0 <= j < |s| ==> !accepted(s[j])
  }

  /**
    The index of the first accepted attempt, or |s| when none is accepted:
    the attempt a retry loop stops at, defined without the loop.
  */
  ghost function FirstIndex<T>(s: seq<T>, accepted: T -> bool): (n: nat)
    ensures n <= |s|
    ensures n < |s| ==> FirstAccepted(s, n, accepted)
    ensures n == |s| ==> NoneAccepted(s, accepted)
  {
    if |s| == 0 then 0
    else if accepted(s[0]) then 0
    else 1 + FirstIndex(s[1..], accepted)
  }

  /** There is only one first accepted attempt, and FirstIndex finds it. */
  lemma FirstAcceptedIsFirstIndex<T>(s: seq<T>, i: int, accepted: T -> bool)
    requires FirstAccepted(s, i, accepted)
    ensures i == FirstIndex(s, accepted)
  {
  }

  /** The unit prompt: read characters, upper-cased, until one is B, K, M, G or T. */
  method ReadUnit(input: seq<char>) returns (unit: Option<char>, used: nat)
    ensures used <= |input|
    ensures unit.Some? ==> used > 0 && FirstAccepted(input, used - 1, UnitAccepted)
    ensures unit.Some? ==> unit.value == ToUpper(input[used - 1]) && IsUnitLetter(unit.value)
    ensures unit.None? ==> used == |input| && NoneAccepted(input, UnitAccepted)
  {
    var u := ' ';
    used := 0;
    while !IsUnitLetter(u) && used < |input|
      invariant used <= |input|
      invariant IsUnitLetter(u) ==> used > 0 && u == ToUpper(input[used - 1])
      invariant forall j :: 0 <= j < (if IsUnitLetter(u) then used - 1 else used) ==> !UnitAccepted(input[j])
    {
      u := ToUpper(input[used]);
      used := used + 1;
    }
    unit := if IsUnitLetter(u) then Some(u) else None;
  }

  /**
    The size and speed prompts: a malformed or negative attempt is discarded
    with the rest of its line; a zero is read but also retried.
  */
  method ReadMagnitude(tokens: seq<Token>) returns (magnitude: Option<real>, used: nat)
    ensures used <= |tokens|
    ensures magnitude.Some? ==> used > 0 && FirstAccepted(tokens, used - 1, MagnitudeAccepted)
    ensures magnitude.Some? ==> tokens[used - 1] == Number(magnitude.value) && magnitude.value > 0.0
    ensures magnitude.None? ==> used == |tokens| && NoneAccepted(tokens, MagnitudeAccepted)
  {
    var size := -1.0;
    used := 0;
    while size <= 0.0 && used < |tokens|
      invariant used <= |tokens|
      invariant size > 0.0 ==> used > 0 && tokens[used - 1] == Number(size)
      invariant forall j :: 0 <= j < (if size > 0.0 then used - 1 else used) ==> !MagnitudeAccepted(tokens[j])
      decreases |tokens| - used
    {
      var t := tokens[used];
      used := used + 1;
      if t.Malformed? || t.value < 0.0 {
        size := -1.0;
      } else {
        size := t.value;
      }
    }
    magnitude := if size > 0.0 then Some(size) else None;
  }

  /** The seconds prompt: a malformed or negative attempt is discarded; zero is accepted. */
  method ReadSeconds(tokens: seq<Token>) returns (seconds: Option<real>, used: nat)
    ensures used <= |tokens|
    ensures seconds.Some? ==> used > 0 && FirstAccepted(tokens, used - 1, SecondsAccepted)
    ensures seconds.Some? ==> tokens[used - 1] == Number(seconds.value) && seconds.value >= 0.0
    ensures seconds.None? ==> used == |tokens| && NoneAccepted(tokens, SecondsAccepted)
  {
    var secondsInput := -1.0;
    used := 0;
    while secondsInput < 0.0 && used < |tokens|
      invariant used <= |tokens|
      invariant secondsInput >= 0.0 ==> used > 0 && tokens[used - 1] == Number(secondsInput)
      invariant forall j :: 0 <= j < (if secondsInput >= 0.0 then used - 1 else used) ==> !SecondsAccepted(tokens[j])
      decreases |tokens| - used
    {
      var t := tokens[used];
      used := used + 1;
      if t.Malformed? || t.value < 0.0 {
        secondsInput := -1.0;
      } else {
        secondsInput := t.value;
      }
    }
    seconds := if secondsInput >= 0.0 then Some(secondsInput) else None;
  }

  /** Reading the rest of a line character by character: it is blank when no character is non-whitespace. */
  method RestIsBlank(rest: seq<char>) returns (blank: bool)
    ensures blank <==> AllSpace(rest)
  {
    blank := true;
    var k := 0;
    while k < |rest|
      invariant k <= |rest|
      invariant blank <==> AllSpace(rest[..k])
    {
      if !IsSpace(rest[k]) {
        blank := false;
      }
      k := k + 1;
    }
    assert rest[..k] == rest;
  }

  /**
    The days, hours and minutes prompts: an attempt is invalid when scanf
    matched nothing, the number is negative, or anything but whitespace
    follows it on the line; an invalid attempt is retried.
  */
  method ReadCount(entries: seq<Entry>) returns (count: Option<int>, used: nat)
    ensures used <= |entries|
    ensures count.Some? ==> used > 0 && FirstAccepted(entries, used - 1, CountAccepted)
    ensures count.Some? ==> entries[used - 1].parsed == Some(count.value) && count.value >= 0
    ensures count.None? ==> used == |entries| && NoneAccepted(entries, CountAccepted)
  {
    var value := -1;
    used := 0;
    while value < 0 && used < |entries|
      invariant used <= |entries|
      invariant value >= 0 ==> used > 0 && CountAccepted(entries[used - 1]) && entries[used - 1].parsed == Some(value)
      invariant forall j :: 0 <= j < (if value >= 0 then used - 1 else used) ==> !CountAccepted(entries[j])
    {
      var e := entries[used];
      used := used + 1;
      var invalid := e.parsed.None? || e.parsed.value < 0;
      var blank := RestIsBlank(e.rest);
      if !blank {
        invalid := true;
      }
      if invalid {
        value := -1;
      } else {
        value := e.parsed.value;
      }
    }
    count := if value >= 0 then Some(value) else None;
  }

  /**
    What the user entered at a unit prompt and the number prompt after it:
    the first accepted letter, upper-cased, and the first accepted number;
    None when either prompt has no accepted attempt.
  */
  ghost function Entered(unitInput: seq<char>, amountInput: seq<Token>): (r: Option<(char, real)>)
    ensures r.None? <==> NoneAccepted(unitInput, UnitAccepted) || NoneAccepted(amountInput, MagnitudeAccepted)
    ensures r.Some? ==> IsUnitLetter(r.value.0) && r.value.1 > 0.0
  {
    var i := FirstIndex(unitInput, UnitAccepted);
    var j := FirstIndex(amountInput, MagnitudeAccepted);
    if i == |unitInput| || j == |amountInput| then None
    else Some((ToUpper(unitInput[i]), amountInput[j].value))
  }

  /** The file size the user entered, with its label and its value in bits. */
  ghost function SizeEntered(unitInput: seq<char>, sizeInput: seq<Token>): Option<Reading>
  {
    match Entered(unitInput, sizeInput)
    case None => None
    case Some((letter, amount)) =>
      var c := SizeToBits(amount, letter);
      Some(Reading(letter, amount, c.symbol, c.base))
  }

  /** The connection speed the user entered, with its label and its value in bits per second. */
  ghost function SpeedEntered(unitInput: seq<char>, speedInput: seq<Token>): Option<Reading>
  {
    match Entered(unitInput, speedInput)
    case None => None
    case Some((letter, amount)) =>
      var c := SpeedToBps(amount, letter);
      Some(Reading(letter, amount, c.symbol, c.base))
  }

  /**
    The duration fields the user entered: the first accepted attempt at each
    of the four prompts; None when one of them has no accepted attempt.
  */
  ghost function DurationEntered(days: seq<Entry>, hours: seq<Entry>, minutes: seq<Entry>, seconds: seq<Token>)
    : (r: Option<Clock>)
    ensures r.None? <==> NoneAccepted(days, CountAccepted) || NoneAccepted(hours, CountAccepted)
                         || NoneAccepted(minutes, CountAccepted) || NoneAccepted(seconds, SecondsAccepted)
    ensures r.Some? ==> NonNegative(r.value)
  {
    var d := FirstIndex(days, CountAccepted);
    var h := FirstIndex(hours, CountAccepted);
    var m := FirstIndex(minutes, CountAccepted);
    var s := FirstIndex(seconds, SecondsAccepted);
    if d == |days| || h == |hours| || m == |minutes| || s == |seconds| then None
    else Some(Clock(days[d].parsed.value, hours[h].parsed.value, minutes[m].parsed.value, seconds[s].value))
  }

  /**
    The file-size prompt: the first accepted unit letter and the first
    accepted size, the label and the size in bits. The conversion's fatal
    invalid-unit branch cannot be reached.
  */
  method GetFileSizeBits(unitInput: seq<char>, sizeInput: seq<Token>) returns (r: Option<Reading>)
    ensures r.Some? ==> IsUnitLetter(r.value.letter) && r.value.amount > 0.0
    ensures r.Some? ==> SizeToBits(r.value.amount, r.value.letter) == Converted(r.value.symbol, r.value.base)
    ensures r.Some? ==> exists i :: FirstAccepted(unitInput, i, UnitAccepted) && r.value.letter == ToUpper(unitInput[i])
    ensures r.Some? ==> exists j :: FirstAccepted(sizeInput, j, MagnitudeAccepted) && sizeInput[j] == Number(r.value.amount)
    ensures r.None? <==> NoneAccepted(unitInput, UnitAccepted) || NoneAccepted(sizeInput, MagnitudeAccepted)
    ensures r == SizeEntered(unitInput, sizeInput)
  {
    var unit, unitUsed := ReadUnit(unitInput);
    if unit.None? {
      return None;
    }
    var size, sizeUsed := ReadMagnitude(sizeInput);
    if size.None? {
      return None;
    }
    FirstAcceptedIsFirstIndex(unitInput, unitUsed - 1, UnitAccepted);
    FirstAcceptedIsFirstIndex(sizeInput, sizeUsed - 1, MagnitudeAccepted);
    var c := SizeToBits(size.value, unit.value);
    r := Some(Reading(unit.value, size.value, c.symbol, c.base));
  }

  /**
    The connection-speed prompt: the first accepted unit letter and the
    first accepted speed, the label and the speed in bits per second.
  */
  method GetConnectionSpeedBps(unitInput: seq<char>, speedInput: seq<Token>) returns (r: Option<Reading>)
    ensures r.Some? ==> IsUnitLetter(r.value.letter) && r.value.amount > 0.0
    ensures r.Some? ==> SpeedToBps(r.value.amount, r.value.letter) == Converted(r.value.symbol, r.value.base)
    ensures r.Some? ==> exists i :: FirstAccepted(unitInput, i, UnitAccepted) && r.value.letter == ToUpper(unitInput[i])
    ensures r.Some? ==> exists j :: FirstAccepted(speedInput, j, MagnitudeAccepted) && speedInput[j] == Number(r.value.amount)
    ensures r.None? <==> NoneAccepted(unitInput, UnitAccepted) || NoneAccepted(speedInput, MagnitudeAccepted)
    ensures r == SpeedEntered(unitInput, speedInput)
  {
    var unit, unitUsed := ReadUnit(unitInput);
    if unit.None? {
      return None;
    }
    var speed, speedUsed := ReadMagnitude(speedInput);
    if speed.None? {
      return None;
    }
    FirstAcceptedIsFirstIndex(unitInput, unitUsed - 1, UnitAccepted);
    FirstAcceptedIsFirstIndex(speedInput, speedUsed - 1, MagnitudeAccepted);
    var c := SpeedToBps(speed.value, unit.value);
    r := Some(Reading(unit.value, speed.value, c.symbol, c.base));
  }

  /** The four duration fields as entered, and the total the prompt returns (-1.0 when it is not positive). */
  datatype TimeInput = TimeInput(fields: Clock, total: real)

  /**
    The duration prompts: days, hours and minutes as whole numbers, then
    seconds, each the first accepted attempt; the total is their composition,
    or the error value when that is not positive.
  */
  method GetTimeSeconds(days: seq<Entry>, hours: seq<Entry>, minutes: seq<Entry>, seconds: seq<Token>)
    returns (r: Option<TimeInput>)
    ensures r.Some? ==> NonNegative(r.value.fields) && r.value.total == TimeSeconds(r.value.fields)
    ensures r.Some? ==> exists i :: FirstAccepted(days, i, CountAccepted) && days[i].parsed == Some(r.value.fields.days)
    ensures r.Some? ==> exists i :: FirstAccepted(hours, i, CountAccepted) && hours[i].parsed == Some(r.value.fields.hours)
    ensures r.Some? ==> exists i :: FirstAccepted(minutes, i, CountAccepted) && minutes[i].parsed == Some(r.value.fields.minutes)
    ensures r.Some? ==> exists i :: FirstAccepted(seconds, i, SecondsAccepted) && seconds[i] == Number(r.value.fields.seconds)
    ensures r.None? <==> NoneAccepted(days, CountAccepted) || NoneAccepted(hours, CountAccepted)
                         || NoneAccepted(minutes, CountAccepted) || NoneAccepted(seconds, SecondsAccepted)
    ensures r.None? <==> DurationEntered(days, hours, minutes, seconds).None?
    ensures r.Some? ==> r.value.fields == DurationEntered(days, hours, minutes, seconds).value
  {
    var d, dUsed := ReadCount(days);
    if d.None? {
      return None;
    }
    var h, hUsed := ReadCount(hours);
    if h.None? {
      return None;
    }
    var m, mUsed := ReadCount(minutes);
    if m.None? {
      return None;
    }
    var s, sUsed := ReadSeconds(seconds);
    if s.None? {
      return None;
    }
    FirstAcceptedIsFirstIndex(days, dUsed - 1, CountAccepted);
    FirstAcceptedIsFirstIndex(hours, hUsed - 1, CountAccepted);
    FirstAcceptedIsFirstIndex(minutes, mUsed - 1, CountAccepted);
    FirstAcceptedIsFirstIndex(seconds, sUsed - 1, SecondsAccepted);
    var fields := Clock(d.value, h.value, m.value, s.value);
    var total := TotalSeconds(fields);
    if total <= 0.0 {
      total := -1.0;
    }
    r := Some(TimeInput(fields, total));
  }
}
