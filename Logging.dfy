/**
 * The two console loggers (internal/infra/log and terminal): a global level set from a
 * string, and level gates deciding whether a message is printed. What is printed (colours,
 * icons, formatting) is not modelled, only whether it would be.
 */
module Logging {
  import opened Text

  /** The log levels, in the order of their `iota` values. */
  datatype Level = Silent | Error | Warn | Info | Debug

  /** The numeric value of a level: Silent < Error < Warn < Info < Debug. */
  function Rank(l: Level): nat {
    match l
    case Silent => 0
    case Error => 1
    case Warn => 2
    case Info => 3
    case Debug => 4
  }

  /** The canonical spelling of each level. */
  function LevelName(l: Level): string {
    match l
    case Silent => "SILENT"
    case Error => "ERROR"
    case Warn => "WARN"
    case Info => "INFO"
    case Debug => "DEBUG"
  }

  /**
   * `SetLogLevelFromString`'s mapping: upper-cased and trimmed, then matched against the
   * level names and their aliases; the empty string and anything unrecognised give Info.
   */
  function ParseLevel(s: string): (l: Level)
    ensures l != Info ==> Keyword(s) in {"DEBUG", "WARN", "WARNING", "ERROR", "SILENT", "QUIET"}
  {
    LevelOfKeyword(Keyword(s))
  }

  /** The string as the switch sees it: upper-cased, surrounding white space removed. */
  function Keyword(s: string): string {
    TrimSpace(ToUpper(s))
  }

  /** The switch on the normalised string. */
  function LevelOfKeyword(u: string): Level {
    if u == "" || u == "INFO" then Info
    else if u == "DEBUG" then Debug
    else if u == "WARN" || u == "WARNING" then Warn
    else if u == "ERROR" then Error
    else if u == "SILENT" || u == "QUIET" then Silent
    else Info
  }

  /** A word of upper-case letters is its own keyword. */
  lemma ParseKeyword(n: string)
    requires n != [] && forall i :: 0 <= i < |n| ==> 'A' <= n[i] <= 'Z'
    ensures Keyword(n) == n
  {
    UpperFixed(n);
    TrimSpaceFixed(n);
  }

  /** Every level is read back from its name. */
  lemma ParseLevelNames(l: Level)
    ensures ParseLevel(LevelName(l)) == l
  {
    LevelNameLetters(l);
    ParseKeyword(LevelName(l));
    LevelOfName(l);
  }

  lemma LevelNameLetters(l: Level)
    ensures LevelName(l) != [] && forall i :: 0 <= i < |LevelName(l)| ==> 'A' <= LevelName(l)[i] <= 'Z'
  {
  }

  lemma LevelOfName(l: Level)
    ensures LevelOfKeyword(LevelName(l)) == l
  {
  }

  /** The aliases WARNING and QUIET name Warn and Silent. */
  lemma ParseLevelAliases()
    ensures ParseLevel("WARNING") == Warn
    ensures ParseLevel("QUIET") == Silent
  {
    ParseKeyword("WARNING");
    ParseKeyword("QUIET");
  }

  /** The mapping ignores case. */
  lemma ParseLevelIgnoresCase(s: string)
    ensures ParseLevel(ToLower(s)) == ParseLevel(s)
  {
    UpperOfLower(s);
  }

  /** The kinds of console message, one per print function. */
  datatype Kind = DebugMsg | InfoMsg | SuccessMsg | WarnMsg | ErrorMsg | StepMsg

  /** The lowest level at which a kind of message is printed. */
  function Threshold(k: Kind): Level {
    match k
    case DebugMsg => Debug
    case InfoMsg => Info
    case SuccessMsg => Info
    case StepMsg => Info
    case WarnMsg => Warn
    case ErrorMsg => Error
  }

  /** The terminal logger's gate: the current level reaches the message's threshold. */
  predicate TerminalShows(k: Kind, level: Level) {
    Rank(level) >= Rank(Threshold(k))
  }

  /** The infra logger's gate: as the terminal's, and Debug and Warn also need verbose output. */
  predicate InfraShows(k: Kind, level: Level, verbose: bool) {
    && Rank(level) >= Rank(Threshold(k))
    && ((k == DebugMsg || k == WarnMsg) ==> verbose)
  }

  /** Raising the level never hides a message that was shown. */
  lemma GatesMonotone(k: Kind, lo: Level, hi: Level, verbose: bool)
    requires Rank(lo) <= Rank(hi)
    ensures TerminalShows(k, lo) ==> TerminalShows(k, hi)
    ensures InfraShows(k, lo, verbose) ==> InfraShows(k, hi, verbose)
  {
  }

  /** The two loggers agree, except that the infra one keeps Debug and Warn for verbose runs. */
  lemma GatesAgree(k: Kind, level: Level, verbose: bool)
    ensures InfraShows(k, level, verbose) <==>
            TerminalShows(k, level) && (verbose || (k != DebugMsg && k != WarnMsg))
    ensures !TerminalShows(k, Silent) && !InfraShows(k, Silent, verbose)
    ensures TerminalShows(k, Debug)
  {
  }

  /**
   * The gates level by level: errors show at every level but Silent, warnings from Warn up,
   * information, success and step lines from Info up, and debug lines only at Debug.
   */
  lemma TerminalGates(k: Kind, level: Level)
    ensures k == ErrorMsg ==> (TerminalShows(k, level) <==> level != Silent)
    ensures k == WarnMsg ==> (TerminalShows(k, level) <==> level == Warn || level == Info || level == Debug)
    ensures k in {InfoMsg, SuccessMsg, StepMsg} ==> (TerminalShows(k, level) <==> level == Info || level == Debug)
    ensures k == DebugMsg ==> (TerminalShows(k, level) <==> level == Debug)
  {
  }

  /** The internal/infra/log package state: its level and the build-time verbose flag. */
  class InfraLog {
    var level: Level
    var verboseFlag: string

    /** The package's initial state: level Info, verbose flag "false". */
    constructor ()
      ensures level == Info && verboseFlag == "false"
    {
      level := Info;
      verboseFlag := "false";
    }

    /** `Verbose`: the flag is exactly "true". */
    predicate Verbose()
      reads this
    {
      verboseFlag == "true"
    }

    /** `SetLogLevelFromString`: only the level changes. */
    method SetLogLevelFromString(s: string)
      modifies this
      ensures level == ParseLevel(s)
      ensures verboseFlag == old(verboseFlag)
    {
      level := ParseLevel(s);
    }

    /** Whether `Debug`, `Info`, `Success`, `Warn`, `Error` or `Step` would print now. */
    predicate Shows(k: Kind)
      reads this
    {
      InfraShows(k, level, Verbose())
    }
  }

  /** The terminal package state: its level only. */
  class TerminalLog {
    var level: Level

    /** The package's initial state: level Info. */
    constructor ()
      ensures level == Info
    {
      level := Info;
    }

    /** `SetLogLevelFromString`. */
    method SetLogLevelFromString(s: string)
      modifies this
      ensures level == ParseLevel(s)
    {
      level := ParseLevel(s);
    }

    /** Whether a print function would print now. */
    predicate Shows(k: Kind)
      reads this
    {
      TerminalShows(k, level)
    }
  }
}
