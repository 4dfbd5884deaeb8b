/** Severity levels and their two name tables (log.go: Level, Level.String,
    entryLevel). */
module Levels {
  import opened Wrappers
  import opened Numbers
  import opened Itoa

  /** Level is a Go `int`; lower values are more verbose. */
  type Level = Int64

  const Debug: Level := -10
  const Info: Level := 0
  const Warn: Level := 10
  const Error: Level := 20

  /** One of the four predefined levels. */
  predicate IsPredefined(l: Level) {
    l == Debug || l == Info || l == Warn || l == Error
  }

  /** Level.String as written: a predefined level by its constant name, any
      other level as "Level(" + itoa(l, -1) + ")". For a negative level itoa
      emits a single wrapped byte, not a signed numeral. */
  function LevelStringAsWritten(l: Level): string {
    if l == Debug then "Debug"
    else if l == Info then "Info"
    else if l == Warn then "Warn"
    else if l == Error then "Error"
    else "Level(" + IntText(l, -1) + ")"
  }

  /** Level.String as intended: any other level as "Level(<signed decimal>)". */
  function LevelString(l: Level): string {
    if l == Debug then "Debug"
    else if l == Info then "Info"
    else if l == Warn then "Warn"
    else if l == Error then "Error"
    else "Level(" + SignedDigits(l) + ")"
  }

  /** entryLevel: the upper-case name shown in a header, "???" otherwise. */
  function EntryLevel(l: Level): string {
    if l == Debug then "DEBUG"
    else if l == Info then "INFO"
    else if l == Warn then "WARN"
    else if l == Error then "ERROR"
    else "???"
  }

  /** ASCII upper-casing. */
  function Upper(s: string): (r: string)
    ensures |r| == |s|
  {
    seq(|s|, k requires 0 <= k < |s| => if 'a' <= s[k] <= 'z' then (s[k] as int - 32) as char else s[k])
  }

  /** As written, a negative level prints a byte that is not its numeral:
      Level(-5) prints "Level(+)", and Level(-250) prints the same text as
      Level(6). */
  lemma LevelStringNegativeAsWritten()
    ensures LevelStringAsWritten(-5) == "Level(+)"
    ensures LevelStringAsWritten(-250) == LevelStringAsWritten(6)
    ensures LevelString(-5) == "Level(-5)"
  {
    assert IntText(-5, -1) == "+";
    assert IntText(-250, -1) == "6";
    assert IntText(6, -1) == "6";
    assert SignedDigits(-5) == "-" + Digits(5) == "-5";
  }

  /** The corrected table agrees with the code wherever the code is right. */
  lemma LevelStringAgrees(l: Level)
    requires l >= 0
    ensures LevelStringAsWritten(l) == LevelString(l)
  {
    IntTextMeaning(l, -1);
  }

  /** Every other level prints its signed decimal between "Level(" and ")",
      and that numeral parses back to the level. */
  lemma LevelStringParses(l: Level)
    requires !IsPredefined(l)
    ensures var s := LevelString(l);
      |s| > 7 && s[..6] == "Level(" && s[|s| - 1] == ')' && Atoi(s[6..|s| - 1]) == Some(l)
  {
    var s := LevelString(l);
    assert s[6..|s| - 1] == SignedDigits(l);
    AtoiSignedDigits(l);
  }

  /** Distinct levels have distinct names. */
  lemma LevelStringInjective(a: Level, b: Level)
    requires LevelString(a) == LevelString(b)
    ensures a == b
  {
    if !IsPredefined(a) && !IsPredefined(b) {
      LevelStringParses(a);
      LevelStringParses(b);
    }
  }

  /** The header name of a predefined level is its String upper-cased; any
      other level shows as "???". */
  lemma EntryLevelNames(l: Level)
    ensures EntryLevel(l) == "???" <==> !IsPredefined(l)
    ensures IsPredefined(l) ==> EntryLevel(l) == Upper(LevelString(l))
  {
    assert Upper("Debug") == "DEBUG";
    assert Upper("Info") == "INFO";
    assert Upper("Warn") == "WARN";
    assert Upper("Error") == "ERROR";
  }
}
