# Bandwidth Calculator (bwcalc) — a verified Dafny model

bwcalc is an interactive command-line calculator. Its one argument selects a mode:

- `time` computes how long a file of a given size takes over a connection of a given speed;
- `speed` computes the bandwidth needed to move the file within a given duration;
- `about` prints the program information.

This project models the calculator's logic and proves properties of it:

- the unit tables (binary file-size factors times eight, decimal speed factors);
- composing days, hours, minutes and seconds into seconds, with the -1.0 error value;
- breaking seconds back down using C's `round` and C's truncating `/` and `%`;
- which duration fields are shown, and singular versus plural labels;
- the bandwidth display-unit threshold chain;
- the input retry loops;
- the argument check;
- the top-level dispatch and exit status.

Modules, one per component:

- `Constants` (constants.dfy): the constants of `bwcalc.h`.
- `Units` (units.dfy): unit letters, labels and the two unit switches.
- `Duration` (duration.dfy): composing and breaking down durations.
- `Display` (display.dfy): the two result screens, without their text.
- `Calculate` (calculate.dfy): the two quotients.
- `Input` (input.dfy): the prompts and their retry loops.
- `Arguments` (arguments.dfy): `check_arguments`.
- `Bwcalc` (bwcalc.dfy): `main`.
- `Scenarios` (scenarios.dfy): worked cases.
- `Wrappers` (wrappers.dfy): `Option`.

Console input is abstracted. Each prompt gets the sequence of attempts the user makes at it:

- characters for a unit prompt;
- `Token`s, a number or a failed parse, for a `%lf` prompt;
- `Entry`s, the parsed number plus the rest of its line, for a `%lld` prompt.

Each retry loop is a method with loop invariants. It returns the first acceptable attempt and proves that every attempt before it was rejected. If the attempts run out it returns `None`; what the C loops do at end of input is listed under "Left out".

What the user entered is also defined without loops. `Input.FirstIndex` is the index of the first acceptable attempt. `Input.SizeEntered`, `Input.SpeedEntered` and `Input.DurationEntered` give the values found there. The prompt methods are proved to return exactly these values. `Bwcalc.Run` is then specified in terms of them: the screen it shows is stated as a function of the console input.

In time mode, hours is a remainder modulo a day, so it is below 24 for any total of at least zero (`Duration.BreakDown`).

## Model

| member | source | states |
|---|---|---|
| Constants.SizeFactorsArePowers | bwcalc.h:21-25 | the five size factors are 1024^0 … 1024^4 |
| Constants.SpeedFactorsArePowers | bwcalc.h:28-32 | the five speed factors are 1000^0 … 1000^4 |
| Constants.FactorsIncrease | bwcalc.h:21-32 | each factor table grows strictly with the unit |
| Constants.TimeFactorsNest | bwcalc.h:35-37 | an hour is 60 minutes and a day is 24 hours |
| Units.SizeToBits | bwcalc.c:147-177 | a valid letter, the k-th of B/K/M/G/T, gives label B/KiB/MiB/GiB/TiB and size·1024^k·8 bits, and the label fits the 4-byte buffer; any other letter is the fatal invalid-unit result |
| Units.SpeedToBps | bwcalc.c:224-254 | a valid letter, the k-th of B/K/M/G/T, gives label bps/Kbps/Mbps/Gbps/Tbps and speed·1000^k bps, and the label fits the 5-byte buffer; any other letter is the fatal invalid-unit result |
| Units.UnitLetterCaseInsensitive | bwcalc.c:124-127 | after upper-casing, a lower-case letter is a unit exactly when it is one of b, k, m, g, t |
| Units.LabelBuffersAreTight | bwcalc.h:40-41 | every label plus its terminator fits its buffer, and "KiB" and "Kbps" fill their buffers exactly |
| Units.SizeAndSpeedBasesDiffer | bwcalc.h:20-32 | the same letter means the same factor for size (in bytes) and speed only for B: binary and decimal units differ |
| Calculate.CalculateTimeSeconds | bwcalc.c:261-266 | time · bps gives back the bits, and the time is positive for positive inputs |
| Calculate.CalculateSpeedBps | bwcalc.c:442-447 | bandwidth · seconds gives back the bits, and the bandwidth is positive for positive inputs |
| Calculate.TimeAndSpeedAreInverse | bwcalc.c:261-266 | the bandwidth needed for the computed transfer time is the original speed |
| Duration.TotalSeconds | bwcalc.c:425-427 | the composed total is the seconds field plus a whole number of seconds from days, hours and minutes at 86400, 3600 and 60; for fields a user can enter it is at least the seconds field and at least zero |
| Duration.TimeSeconds | bwcalc.c:425-438 | the result is negative exactly when the composed total is not positive, in which case it is -1.0; otherwise it is the positive total |
| Duration.ErrorOnlyForEmptyDuration | bwcalc.c:429-435 | for non-negative fields the error value is returned exactly when every field is zero |
| Duration.Round | bwcalc.c:273 | round(): distance at most 1/2 from x, with halfway cases away from zero (determines the result uniquely) |
| Duration.RoundIsNearest | bwcalc.c:273 | no integer is closer to x than Round(x) |
| Duration.RoundNonNegative | bwcalc.c:273 | a total of at least zero rounds to at least zero |
| Duration.Fraction | bwcalc.c:288 | the fraction removed by rounding has absolute value at most 1/2 and restores x when added back |
| Duration.QuotientBounds | bwcalc.c:276 | the Euclidean quotient of n ≥ 0 by b > 0 and its negation bracket n and -n between consecutive multiples of b |
| Duration.CDiv | bwcalc.c:276 | C's `/` for a positive divisor: the quotient truncated toward zero |
| Duration.CMod | bwcalc.c:277 | C's `%`: quotient·b + remainder = a, with the remainder in [0, b) for a ≥ 0 and in (-b, 0] for a < 0 |
| Duration.BreakDown | bwcalc.c:276-285 | days·86400 + hours·3600 + minutes·60 + seconds equals the total; for a total ≥ 0, hours < 24, minutes < 60 and seconds < 60, all non-negative; below zero every field is ≤ 0 |
| Duration.CanonicalIsUnique | bwcalc.c:276-285 | two breakdowns in those ranges with the same total are equal, so the breakdown is the only one |
| Display.Labelled | bwcalc.c:301-314 | a label is the singular exactly when the value equals 1, and otherwise the singular plus "s" |
| Display.DurationFields | bwcalc.c:298-314 | between one and four fields are printed, and the last is always seconds with its singular or plural label |
| Display.FieldVisibility | bwcalc.c:298-314 | the shown fields are a run of days/hours/minutes/seconds ending at seconds; days is shown iff days > 0, hours iff hours or days > 0, minutes iff minutes, hours or days > 0 |
| Display.ShownFrom | bwcalc.c:298-314 | the printed fields are the four fields from the first one to be shown: days if days > 0, else hours if hours > 0, else minutes if minutes > 0, else seconds alone |
| Display.SuppressedFieldsAreZero | bwcalc.c:456-472 | for fields a user can enter, every field left off the speed screen is zero |
| Display.PluralRule | bwcalc.c:459-472 | each of the four labels is day/hour/minute/second exactly when its value is 1, and takes "s" otherwise |
| Display.BandwidthScale | bwcalc.c:475-495 | the unit chosen is the first of bps, Kbps, Mbps, Gbps whose next-larger factor exceeds the bandwidth, otherwise Tbps |
| Display.FormatBandwidth | bwcalc.c:475-495 | the shown magnitude times the chosen factor is the bandwidth, with that unit's label |
| Display.BandwidthMagnitude | bwcalc.c:475-495 | a positive bandwidth below 1e12 is shown with a magnitude in [1, 1000), or in (0, 1000) for bps; Tbps is chosen exactly from 1e12 up |
| Display.BandwidthScaleMonotone | bwcalc.c:475-490 | a larger bandwidth never gets a smaller unit |
| Display.FormatTimeOutput | bwcalc.c:269-315 | as written (predicate `ShowsTime`): the size and speed are echoed as entered; the shown fields add up to the unrounded total; shown seconds minus the rounding fraction is the whole leftover of the rounded total; those fields are in range when the rounded total is ≥ 0; the printed fields follow the visibility rule |
| Display.ShowsTimeIsUnique | bwcalc.c:273-315 | for a rounded total ≥ 0, two time screens that meet `ShowsTime` for the same inputs are equal, so the screen is determined by its inputs |
| Display.NegativeSecondsShown | bwcalc.c:273-291 | as written, 74.5 B at 10 bps, whose quotient is 59.6 s, is shown as "1 minute" and "-0.4 seconds" |
| Display.FormatTimeOutputCorrected | bwcalc.c:269-315 | corrected: the fields add up to the total and, for a total ≥ 0, are in range with the shown seconds in [0, 60); the printed fields follow the visibility rule |
| Display.FormatSpeedOutput | bwcalc.c:450-496 | the size and the four duration fields are shown as entered, printed by the visibility rule; the bandwidth is shown in the threshold-chosen unit, and magnitude times factor is the bandwidth |
| Input.FirstIndex | bwcalc.c:121-139 | the index where a retry loop stops: the first accepted attempt when below the length; when equal to it, no attempt is accepted |
| Input.FirstAcceptedIsFirstIndex | bwcalc.c:121-139 | there is only one first accepted attempt, and it is at `FirstIndex` |
| Input.Entered | bwcalc.c:121-139 | nothing is entered exactly when the unit prompt or the number prompt has no accepted attempt; otherwise the entry is a unit letter and a positive number |
| Input.DurationEntered | bwcalc.c:330-414 | nothing is entered exactly when one of the four duration prompts has no accepted attempt; otherwise the fields are all non-negative |
| Input.ReadUnit | bwcalc.c:121-127 | the accepted unit is the first input character whose upper case is B/K/M/G/T, and every character skipped was not |
| Input.ReadMagnitude | bwcalc.c:129-139 | the accepted value is the first attempt that parses to a value > 0, and every attempt skipped was malformed, negative or zero |
| Input.ReadSeconds | bwcalc.c:403-414 | the accepted seconds are the first attempt that parses to a value ≥ 0, and every attempt skipped was malformed or negative |
| Input.RestIsBlank | bwcalc.c:338-346 | the rest of the line is reported clean exactly when all of its characters are whitespace |
| Input.ReadCount | bwcalc.c:330-353 | the accepted count is the first line that parses, is ≥ 0 and has only whitespace after the number; every line skipped failed one of those |
| Input.GetFileSizeBits | bwcalc.c:107-181 | the reading holds the first accepted letter and the first accepted size, stored unchanged, with the label and bits of the size switch; nothing is read only when one of the prompts never gets an acceptable attempt; the result is `SizeEntered` of the two prompts' attempts |
| Input.GetConnectionSpeedBps | bwcalc.c:184-258 | the same for speeds, with the label and bps of the speed switch; the result is `SpeedEntered` |
| Input.GetTimeSeconds | bwcalc.c:318-439 | the four fields are the first accepted attempts at their prompts, all non-negative, and the total is their composition, or -1.0 when that is not positive; the fields are `DurationEntered` |
| Arguments.CheckArguments | bwcalc.c:69-104 | the status is 0 exactly when there is one argument equal to time, speed or about ignoring case, and 1 otherwise |
| Arguments.ModeNamesDiffer | bwcalc.c:24-49 | no argument matches two of about, time and speed, so the dispatch in `main` takes at most one branch |
| Arguments.CheckIgnoresCase | bwcalc.c:88-89 | two arguments that differ only in letter case get the same status |
| Arguments.ArgumentExamples | bwcalc.c:69-104 | "Time" is accepted; no argument, two arguments and "times" are refused |
| Bwcalc.ExitStatus | bwcalc.c:17-66 | status 1 exactly for bad arguments and for a rejected duration; no status where the program never returns or is undefined |
| Bwcalc.Run | bwcalc.c:17-66 | the usage path is taken iff the arguments are refused; about iff the argument is about. In time and speed mode nothing is shown when the size prompts run out. Time mode: when the speed prompts run out nothing is shown; otherwise total = bits / bps of the entered size and speed; the run is undefined when Round(total) does not fit a long long, and otherwise shows the screen `ShowsTime` describes for the entered size, speed and total. Speed mode: nothing is shown when a duration prompt runs out; the duration is rejected exactly when the entered fields total at most zero; otherwise the screen is `FormatSpeedOutput` of the entered size and fields and bits / total seconds. Status 0 exactly on a shown screen |
| Scenarios.OneGibibyteAtHundredMbps | bwcalc.c:269-314 | the time screen for 1 GiB at 100 Mbps (85.89934592 s, rounded to 86 = 1 minute 26 s) shows "1 minute" and 25.89934592 "seconds", with labels GiB and Mbps |
| Scenarios.TenMebibytesInOneMinute | bwcalc.c:475-489 | 10 MiB in one minute needs about 1.40 Mbps, shown in Mbps |
| Scenarios.RejectedInputs | bwcalc.c:121-139 | an all-zero duration gives -1.0; unit 'x', sizes -5 and 0, and a count followed by "x" are rejected, while 'k' is accepted as K |
| Scenarios.AnswersEntered | bwcalc.c:121-139 | on a console with one acceptable attempt per prompt, the entered size, speed and duration are those attempts, converted by the unit switches |
| Scenarios.TimeRunShowsNegativeSeconds | bwcalc.c:17-66 | the whole run of "bwcalc time" with 74.5 B at 10 bps shows 1 minute and -0.4 seconds with labels B and bps |
| Scenarios.ZeroDurationIsRejected | bwcalc.c:49-57 | "bwcalc speed" with an all-zero duration is rejected with status 1 |
| Scenarios.RetriedAttemptsSkipped | bwcalc.c:330-353 | after a wrong unit, a malformed size, a zero size and a minutes line with trailing text, the entered values are the later accepted attempts: 2 KiB and 0 days 0 hours 1 minute 4 seconds |
| Scenarios.SpeedRunSkipsRejectedAttempts | bwcalc.c:49-63 | the whole run of "bwcalc speed" on that console shows 2 KiB, 1 minute 4 seconds and 256 bps |

## Findings

| source | as written | input that shows it | evidently intended | confidence | as-written member | corrected member |
|---|---|---|---|---|---|---|
| bwcalc.c:273-291 | the total is rounded to the nearest second before the breakdown, then the signed rounding fraction is added back to the leftover seconds | 74.5 B at 10 bps takes 59.6 s: it rounds to 60, is broken down as 1 minute 0 s and shown as "1 minute, -0.40 seconds" (any total that rounds up to a whole number of minutes, such as 119.7 s, gives a negative seconds field) | break down the whole part of the total and add the fraction in [0, 1), so the shown seconds lie in [0, 60) | high (not executed) | Display.NegativeSecondsShown | Display.FormatTimeOutputCorrected |

`Display.FormatTimeOutput` models the code as written, and `Bwcalc.Run` calls it, so the whole run shows the negative seconds as well (`Scenarios.TimeRunShowsNegativeSeconds`). `Display.FormatTimeOutputCorrected` is the intended breakdown, stated on its own.

## Left out

- Console output: the banners, usage text, the about text, the "Calculator mode" line and the `%.2f` formatting. The model shows the values and labels that reach `printf`, not the printed text.
- scanf and getchar: parsing with `%c`, `%lf` and `%lld`, and line buffering. Each prompt's attempts arrive already parsed, as a separate sequence per prompt, not as one shared input stream.
- End of input: the model returns `None` from a prompt whose attempts run out, and `Run` returns `InputExhausted`. What the C loops do at EOF differs by loop:
  - the size and speed loops (bwcalc.c:134, 211) drain the line with `getchar() != '\n'`, which spins forever once `getchar` returns EOF;
  - the unit loops (bwcalc.c:124-127) test `unit` after a `scanf(" %c")` that failed, so on EOF they test an uninitialised or stale character;
  - the days, hours and minutes loops (bwcalc.c:339, 364, 388) and the seconds loop (bwcalc.c:409) stop draining at EOF, find the attempt invalid, and prompt again without end.
- Floating point: all `double` arithmetic (conversions, both quotients, `round`) is exact `real` arithmetic. IEEE rounding, infinities and NaN are not modelled.
- Input.ReadMagnitude and Input.ReadSeconds: a `Token` is a real number or a failed parse, so "nan" and "inf" cannot be entered. In C, `scanf("%lf")` accepts both. For NaN, `size < 0.0` and `size <= 0.0` are both false (bwcalc.c:132, 139, 209, 216), so the size and speed loops exit on NaN and on infinity. The seconds loop (bwcalc.c:406, 414) also exits on NaN. The model's promise that these loops exit only with a value > 0, or ≥ 0 for seconds, holds of real numbers, not of the program on those inputs.
- Calculate.CalculateTimeSeconds: requires a non-zero speed. In C, dividing by zero gives an infinity, but the speed prompt never returns zero anyway.
- Calculate.CalculateSpeedBps: requires a non-zero duration. `main` never passes one, because it stops on the -1.0 error value first.
- Display.FormatTimeOutput: requires the rounded total to fit a `long long`. Outside that range the C conversion is undefined behaviour; `Run` returns `Undefined` there.
- `long long` range of the parsed days, hours and minutes: these are unbounded integers. Overflow inside `scanf("%lld")` is not modelled.
- `STRCASECMP` and `toupper`: modelled as ASCII case mapping. The choice between `_stricmp` and `strcasecmp` by compiler is not modelled.
- Seconds pluralisation compares a `double` with 1.0. It is modelled as exact equality of reals.
