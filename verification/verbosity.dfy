/** Verbosity levels selected by the number of `-v` flags (input/verbosity.go). */
module InputVerbosity {
  datatype Verbosity = NonVerbose | Verbose | VeryVerbose

  /** The `iota` value of a level; Go orders the levels by it. */
  function Level(v: Verbosity): (n: int)
    ensures 0 <= n <= 2
  {
    match v
    case NonVerbose => 0
    case Verbose => 1
    case VeryVerbose => 2
  }

  /** `ParseVerbosity`: every count of two or more is `VeryVerbose`, exactly one
      is `Verbose`, and none (or a negative count) is `NonVerbose`. */
  function ParseVerbosity(v: int): (r: Verbosity)
    ensures r == VeryVerbose <==> v >= 2
    ensures r == Verbose <==> v == 1
    ensures r == NonVerbose <==> v <= 0
  {
    if v >= 2 then VeryVerbose
    else if v == 1 then Verbose
    else NonVerbose
  }

  /** More flags never give a lower level. */
  lemma ParseVerbosityMonotone(v1: int, v2: int)
    requires v1 <= v2
    ensures Level(ParseVerbosity(v1)) <= Level(ParseVerbosity(v2))
  {
  }

  /** Passing a level's own code as the flag count yields that level. */
  lemma ParseVerbosityOfLevel(l: Verbosity)
    ensures ParseVerbosity(Level(l)) == l
  {
  }
}
