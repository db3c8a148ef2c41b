/** The command-line check: exactly one argument, naming a mode in any letter case. */
module Arguments {

  /** tolower in the C locale: only 'A'..'Z' change. */
  function ToLower(c: char): char
  {
    if 'A' <= c <= 'Z' then (c as int + 32) as char else c
  }

  /** strcasecmp(a, b) == 0: equal length and equal letter by letter after lower-casing. */
  predicate EqualsIgnoreCase(a: string, b: string)
  {
    |a| == |b| && forall i :: 0 <= i < |a| ==> ToLower(a[i]) == ToLower(b[i])
  }

  /** One of the three mode names, in any letter case. */
  predicate IsModeName(arg: string)
  {
    EqualsIgnoreCase(arg, "time") || EqualsIgnoreCase(arg, "speed") || EqualsIgnoreCase(arg, "about")
  }

  /**
    The exit status of the argument check, given the whole argument vector
    (program name first): 0 exactly when there is one argument and it names
    a mode, 1 for a missing argument, too many arguments or an unknown one.
  */
  function CheckArguments(args: seq<string>): (status: int)
    ensures status == 0 || status == 1
    ensures status == 0 <==> |args| == 2 && IsModeName(args[1])
  {
    if |args| == 1 then 1
    else if |args| != 2 then 1
    else if !EqualsIgnoreCase(args[1], "time") && !EqualsIgnoreCase(args[1], "speed")
            && !EqualsIgnoreCase(args[1], "about") then 1
    else 0
  }

  /** No argument names two modes, since the mode names differ in a letter even after lower-casing. */
  lemma ModeNamesDiffer(arg: string)
    ensures !(EqualsIgnoreCase(arg, "about") && EqualsIgnoreCase(arg, "speed"))
    ensures !(EqualsIgnoreCase(arg, "about") && EqualsIgnoreCase(arg, "time"))
    ensures !(EqualsIgnoreCase(arg, "time") && EqualsIgnoreCase(arg, "speed"))
  {
    assert ToLower("about"[0]) != ToLower("speed"[0]);
  }

  /** Two arguments that differ only in letter case get the same verdict. */
  lemma CheckIgnoresCase(program: string, a: string, b: string)
    requires EqualsIgnoreCase(a, b)
    ensures CheckArguments([program, a]) == CheckArguments([program, b])
  {
  }

  /** "Time" is accepted like "time"; a second argument or an unknown word is refused. */
  lemma ArgumentExamples()
    ensures CheckArguments(["bwcalc", "Time"]) == 0
    ensures CheckArguments(["bwcalc"]) == 1
    ensures CheckArguments(["bwcalc", "time", "speed"]) == 1
    ensures CheckArguments(["bwcalc", "times"]) == 1
  {
    assert EqualsIgnoreCase("Time", "time") by {
      assert ToLower('T') == 't';
    }
    assert ToLower("times"[0]) != ToLower("speed"[0]);
    assert ToLower("times"[0]) != ToLower("about"[0]);
  }
}
