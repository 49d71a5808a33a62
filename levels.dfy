/** The severity levels of package out and their names. */
module Levels {
  import opened Prelude

  /** Go's `type Level int`. */
  type Level = int

  /** The two pseudo-levels: raw passthrough to the standard streams. */
  const StdErr: Level := -2
  const StdOut: Level := -1

  /** The seven ordered tiers, most severe first. */
  const Crit: Level := 0
  const Error: Level := 1
  const Warn: Level := 2
  const Info: Level := 3
  const Verbose: Level := 4
  const Debug: Level := 5
  const Trace: Level := 6

  /** Number of ordered tiers; the size of the per-level tables. */
  const LevelsCount: Level := 7

  /** A level that owns a slot in the per-level tables. */
  predicate IsOrdered(lvl: Level) {
    0 <= lvl < LevelsCount
  }

  /** Level.String exactly as the source writes it: there is no case for Crit,
      so the most severe level is printed as "-", like any unknown level. */
  function StringAsWritten(lvl: Level): (name: seq<Byte>)
    ensures name == "-" <==> !(Error <= lvl <= Trace)
  {
    if lvl == Error then "Error"
    else if lvl == Warn then "Warn"
    else if lvl == Info then "Info"
    else if lvl == Verbose then "Verbose"
    else if lvl == Debug then "Debug"
    else if lvl == Trace then "Trace"
    else "-"
  }

  /** The discrepancy: Crit and the pseudo-level StdErr get the same name. */
  lemma CritNamedLikeUnknown()
    ensures StringAsWritten(Crit) == StringAsWritten(StdErr) == "-"
    ensures Crit != StdErr
  {
  }

  /** Level.String as evidently intended: every ordered tier has its own name
      and only levels outside the tables print as "-". */
  function String(lvl: Level): (name: seq<Byte>)
    ensures name == "-" <==> !IsOrdered(lvl)
    ensures Error <= lvl <= Trace ==> name == StringAsWritten(lvl)
  {
    if lvl == Crit then "Crit" else StringAsWritten(lvl)
  }

  /** With the correction, the name identifies the ordered tier. */
  lemma {:induction false} StringInjective(a: Level, b: Level)
    requires IsOrdered(a) && IsOrdered(b)
    requires String(a) == String(b)
    ensures a == b
  {
    var names: seq<seq<Byte>> := ["Crit", "Error", "Warn", "Info", "Verbose", "Debug", "Trace"];
    forall i | 0 <= i < LevelsCount
      ensures String(i) == names[i]
    {
    }
  }
}
