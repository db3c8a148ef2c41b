/**
  Durations: composing days, hours, minutes and seconds into a total number
  of seconds (speed mode), and breaking a total back into those fields
  (time mode) with the C semantics of round() and of integer / and %.
*/
module Duration {
  import opened Constants

  /** Four duration fields as the user enters them, or as time mode displays them. */
  datatype Clock = Clock(days: int, hours: int, minutes: int, seconds: real)

  /** The composition of the four fields into seconds. */
  function TotalSeconds(c: Clock): (t: real)
    ensures t - c.seconds == WholeSeconds(c.days, c.hours, c.minutes, 0) as real
    ensures NonNegative(c) ==> t >= c.seconds >= 0.0
  {
    (c.days * SecondsPerDay) as real + (c.hours * SecondsPerHour) as real
      + (c.minutes * SecondsPerMinute) as real + c.seconds
  }

  /** The fields a user can enter: whole days, hours and minutes and real seconds, none negative. */
  predicate NonNegative(c: Clock)
  {
    c.days >= 0 && c.hours >= 0 && c.minutes >= 0 && c.seconds >= 0.0
  }

  /**
    The total the time prompt returns: the composed seconds when they are
    positive, otherwise the error value -1.0, which the caller recognises
    because it is negative.
  */
  function TimeSeconds(c: Clock): (t: real)
    ensures t < 0.0 <==> TotalSeconds(c) <= 0.0
    ensures t >= 0.0 ==> t == TotalSeconds(c) && t > 0.0
    ensures t < 0.0 ==> t == -1.0
  {
    var total := TotalSeconds(c);
    if total <= 0.0 then -1.0 else total
  }

  /** For fields a user can enter, the error value comes back exactly when every field is zero. */
  lemma ErrorOnlyForEmptyDuration(c: Clock)
    requires NonNegative(c)
    ensures TimeSeconds(c) < 0.0 <==> c == Clock(0, 0, 0, 0.0)
  {
  }

  /**
    C's round(): the nearest integer, halfway cases away from zero. The
    three clauses below determine the result uniquely.
  */
  function Round(x: real): (n: int)
    ensures -0.5 <= x - n as real <= 0.5
    ensures x - n as real == 0.5 ==> x < 0.0
    ensures x - n as real == -0.5 ==> x > 0.0
  {
    if x >= 0.0 then (x + 0.5).Floor else -((-x + 0.5).Floor)
  }

  /** No integer is closer to x than Round(x). */
  lemma RoundIsNearest(x: real, m: int)
    ensures Distance(x, Round(x)) <= Distance(x, m)
  {
    var n := Round(x);
    if m < n {
      assert m as real <= n as real - 1.0;
    } else if m > n {
      assert m as real >= n as real + 1.0;
    }
  }

  /** The distance between x and the integer m. */
  function Distance(x: real, m: int): real
  {
    if m as real >= x then m as real - x else x - m as real
  }

  /** Rounding a value that is at least zero never gives a negative integer. */
  lemma RoundNonNegative(x: real)
    requires x >= 0.0
    ensures Round(x) >= 0
  {
  }

  /** The part of x that rounding removes; time mode adds it back to the displayed seconds. */
  function Fraction(x: real): (f: real)
    ensures -0.5 <= f <= 0.5
    ensures x == Round(x) as real + f
  {
    x - Round(x) as real
  }

  /** C's integer division of a by a positive b: the quotient truncated toward zero. */
  function CDiv(a: int, b: int): (q: int)
    requires b > 0
    ensures a >= 0 ==> q >= 0 && q * b <= a < (q + 1) * b
    ensures a < 0 ==> q <= 0 && (q - 1) * b < a <= q * b
  {
    if a >= 0 then
      QuotientBounds(a, b);
      a / b
    else
      QuotientBounds(-a, b);
      -((-a) / b)
  }

  /** Euclidean division of n >= 0 by b > 0 lands in the interval of multiples of b around n, and so does its negation. */
  lemma QuotientBounds(n: int, b: int)
    requires n >= 0 && b > 0
    ensures n / b >= 0 && (n / b) * b <= n < (n / b + 1) * b
    ensures (-(n / b) - 1) * b < -n <= -(n / b) * b
  {
    var q, r := n / b, n % b;
    assert n == q * b + r && 0 <= r < b;
    assert (q + 1) * b == q * b + b;
    assert -(q) * b == -(q * b);
    assert (-q - 1) * b == -(q * b) - b;
  }

  /** C's remainder: a - (a / b) * b with the truncating quotient, so it has the sign of a. */
  function CMod(a: int, b: int): (r: int)
    requires b > 0
    ensures CDiv(a, b) * b + r == a
    ensures a >= 0 ==> 0 <= r < b
    ensures a < 0 ==> -b < r <= 0
  {
    a - CDiv(a, b) * b
  }

  /** Whole-second fields in their usual ranges: no more than 23 hours, 59 minutes, 59 seconds. */
  predicate IsCanonical(days: int, hours: int, minutes: int, seconds: int)
  {
    days >= 0 && 0 <= hours < 24 && 0 <= minutes < 60 && 0 <= seconds < 60
  }

  /** The whole seconds the fields stand for. */
  function WholeSeconds(days: int, hours: int, minutes: int, seconds: int): int
  {
    days * SecondsPerDay + hours * SecondsPerHour + minutes * SecondsPerMinute + seconds
  }

  /**
    The breakdown of a rounded total, largest unit first, each step taking a
    quotient and keeping the remainder. The fields always add back up to the
    total; for a total of at least zero they are in their usual ranges, and
    below zero every field is at most zero (C truncation).
  */
  method BreakDown(total: int) returns (days: int, hours: int, minutes: int, seconds: int)
    ensures WholeSeconds(days, hours, minutes, seconds) == total
    ensures total >= 0 ==> IsCanonical(days, hours, minutes, seconds)
    ensures total < 0 ==> days <= 0 && -24 < hours <= 0 && -60 < minutes <= 0 && -60 < seconds <= 0
  {
    days := CDiv(total, SecondsPerDay);
    var remaining := CMod(total, SecondsPerDay);
    hours := CDiv(remaining, SecondsPerHour);
    remaining := CMod(remaining, SecondsPerHour);
    minutes := CDiv(remaining, SecondsPerMinute);
    remaining := CMod(remaining, SecondsPerMinute);
    seconds := remaining;
  }

  /** Two canonical breakdowns of the same total are the same: the breakdown is unique. */
  lemma CanonicalIsUnique(d1: int, h1: int, m1: int, s1: int, d2: int, h2: int, m2: int, s2: int)
    requires IsCanonical(d1, h1, m1, s1) && IsCanonical(d2, h2, m2, s2)
    requires WholeSeconds(d1, h1, m1, s1) == WholeSeconds(d2, h2, m2, s2)
    ensures d1 == d2 && h1 == h2 && m1 == m2 && s1 == s2
  {
  }
}
