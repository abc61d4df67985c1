/**
 * What the logger can be observed doing. IConsole (colours, Write, WriteLine,
 * ResetColor) and Serilog's global Log.Logger are modelled together as one
 * object whose `trace` records, in order, every call made on either of them,
 * so that the order of console output and sink forwarding is visible.
 */
module ConsoleOutput {
  import opened Diagnostics

  datatype Event =
    | SetBackground(color: ConsoleColor)
    | SetForeground(color: ConsoleColor)
    | WriteText(text: string)
    | ResetColor
    | WriteLine
    | SinkWrite(level: LogEventLevel, format: string, args: seq<Arg>)

  /** Events that are console calls rather than the structured-sink call. */
  predicate IsConsoleEvent(e: Event)
  {
    !e.SinkWrite?
  }

  /** Events that end a console line and restore its colours. */
  predicate IsCleanup(e: Event)
  {
    e.ResetColor? || e.WriteLine?
  }

  class Output {
    /** The console's current colours. */
    var background: ConsoleColor
    var foreground: ConsoleColor
    /** The colours ResetColor restores. */
    const defaultBackground: ConsoleColor
    const defaultForeground: ConsoleColor
    /** Whether the structured sink throws on a given event (its internals are
        not part of this model). */
    const sinkFails: (LogEventLevel, string, seq<Arg>) -> bool
    /** Every call made so far, oldest first. */
    var trace: seq<Event>

    constructor (defaultBackground: ConsoleColor, defaultForeground: ConsoleColor,
                 sinkFails: (LogEventLevel, string, seq<Arg>) -> bool)
      ensures this.defaultBackground == defaultBackground && this.defaultForeground == defaultForeground
      ensures this.sinkFails == sinkFails
      ensures background == defaultBackground && foreground == defaultForeground
      ensures trace == []
    {
      this.defaultBackground := defaultBackground;
      this.defaultForeground := defaultForeground;
      this.sinkFails := sinkFails;
      background := defaultBackground;
      foreground := defaultForeground;
      trace := [];
    }

    /** `BackgroundColor = color`. */
    method SetBackground(color: ConsoleColor)
      modifies this`background, this`trace
      ensures background == color
      ensures trace == old(trace) + [Event.SetBackground(color)]
    {
      background := color;
      trace := trace + [Event.SetBackground(color)];
    }

    /** `ForegroundColor = color`. */
    method SetForeground(color: ConsoleColor)
      modifies this`foreground, this`trace
      ensures foreground == color
      ensures trace == old(trace) + [Event.SetForeground(color)]
    {
      foreground := color;
      trace := trace + [Event.SetForeground(color)];
    }

    /** `Write("{0}", text)`: writes the text in the current colours. */
    method Write(text: string)
      modifies this`trace
      ensures trace == old(trace) + [WriteText(text)]
    {
      trace := trace + [WriteText(text)];
    }

    /** `WriteLine()`. */
    method WriteLine()
      modifies this`trace
      ensures trace == old(trace) + [Event.WriteLine]
    {
      trace := trace + [Event.WriteLine];
    }

    /** `ResetColor()`: both colours go back to the defaults. */
    method ResetColor()
      modifies this`background, this`foreground, this`trace
      ensures background == defaultBackground && foreground == defaultForeground
      ensures trace == old(trace) + [Event.ResetColor]
    {
      background := defaultBackground;
      foreground := defaultForeground;
      trace := trace + [Event.ResetColor];
    }

    /** `Log.Logger.Write(level, format, args)`: the call is recorded; `ok` is
        false when the sink throws. */
    method SinkWrite(level: LogEventLevel, format: string, args: seq<Arg>) returns (ok: bool)
      modifies this`trace
      ensures ok == !sinkFails(level, format, args)
      ensures trace == old(trace) + [Event.SinkWrite(level, format, args)]
    {
      trace := trace + [Event.SinkWrite(level, format, args)];
      ok := !sinkFails(level, format, args);
    }
  }
}
