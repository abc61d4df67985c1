/**
 * The value types the logger works with: Cake's Verbosity and LogLevel,
 * Serilog's LogEventLevel, the console colours, the palette record and the
 * arguments a message carries.
 */
module Diagnostics {

  /** Cake's Verbosity. Only the order matters: a message is shown when its
      verbosity is at most the logger's threshold. */
  datatype Verbosity = Quiet | Minimal | Normal | Verbose | Diagnostic

  /** The position of a verbosity in its order (the enum's integer value). */
  function Rank(v: Verbosity): (r: nat)
    ensures r <= 4
    ensures r == 0 <==> v == Quiet
    ensures r == 4 <==> v == Diagnostic
  {
    match v
    case Quiet => 0
    case Minimal => 1
    case Normal => 2
    case Verbose => 3
    case Diagnostic => 4
  }

  /** The ranks follow the declaration order, so the gate sees the whole order. */
  lemma RankOrder()
    ensures Rank(Quiet) < Rank(Minimal) < Rank(Normal) < Rank(Verbosity.Verbose) < Rank(Diagnostic)
  {
  }

  /** `a > b` on the enum. */
  predicate Exceeds(a: Verbosity, b: Verbosity)
  {
    Rank(a) > Rank(b)
  }

  /** Cake's LogLevel: selects the palette and the sink severity. */
  datatype LogLevel = Fatal | Error | Warning | Information | Verbose | Debug

  /** Serilog's LogEventLevel: the severity handed to the structured sink. */
  datatype LogEventLevel = Verbose | Debug | Information | Warning | Error | Fatal

  /** System.ConsoleColor. */
  datatype ConsoleColor =
    | Black | DarkBlue | DarkGreen | DarkCyan | DarkRed | DarkMagenta | DarkYellow | Gray
    | DarkGray | Blue | Green | Cyan | Red | Magenta | Yellow | White

  /** Cake's ConsolePalette: colours for literal text and for arguments. */
  datatype ConsolePalette = ConsolePalette(
    background: ConsoleColor,
    foreground: ConsoleColor,
    argumentBackground: ConsoleColor,
    argumentForeground: ConsoleColor)

  /** An exception value: its Message, and the rest of what its ToString shows
      (type name, stack trace). */
  datatype Exception = Exception(message: string, details: string)

  /** A message argument (a CLR object): only the two kinds the host passes. */
  datatype Arg = StringArg(text: string) | ExceptionArg(exception: Exception)
}
