/**
 * HostLog: a verbosity-gated, colourised console logger that also forwards
 * every message it shows to a structured sink.
 *
 * The pure part (palette table, severity map, and the event sequence one
 * Write call produces) is given by functions; the HostLog class performs the
 * calls step by step and is proved to produce exactly that sequence.
 */
module HostLogging {
  import opened Wrappers
  import opened Diagnostics
  import opened ConsoleOutput

  /** The two kinds of token FormatParser produces: literal text, and a
      placeholder for the argument at `position` (with an optional format). */
  datatype FormatToken =
    | LiteralToken(text: string)
    | PropertyToken(position: nat, format: Option<string>)

  /** FormatParser.Parse and FormatToken.Render, whose code is not part of
      this model; `render` yields None where Render throws. */
  datatype Formatter = Formatter(
    parse: string -> seq<FormatToken>,
    render: (FormatToken, seq<Arg>) -> Option<string>)

  /** The arguments of one Write call. */
  datatype Request = Request(verbosity: Verbosity, level: LogLevel, format: string, args: seq<Arg>)

  /** Why a Write call ended in an exception. */
  datatype WriteError =
    | PaletteMissing(level: LogLevel)   // the dictionary lookup throws
    | RenderFailed(token: nat)          // Render throws on this token
    | SinkFailed                        // the structured sink throws

  /** How a Write call ends: it returns, or it throws after its cleanup. */
  datatype WriteOutcome = Completed | Threw(error: WriteError)

  type Palettes = map<LogLevel, ConsolePalette>

  /** The palette table, built from the console's background colour at
      construction. It has no entry for Fatal. */
  function CreatePalette(background: ConsoleColor): (r: Palettes)
    ensures r.Keys == {LogLevel.Error, LogLevel.Warning, LogLevel.Information, LogLevel.Verbose, LogLevel.Debug}
    ensures LogLevel.Fatal !in r
    ensures r[LogLevel.Error] == ConsolePalette(DarkRed, White, Red, White)
    ensures forall l :: l in r && l != LogLevel.Error ==> r[l].background == background
  {
    map[
      LogLevel.Error := ConsolePalette(DarkRed, White, Red, White),
      LogLevel.Warning := ConsolePalette(background, Yellow, background, Yellow),
      LogLevel.Information := ConsolePalette(background, White, DarkBlue, White),
      LogLevel.Verbose := ConsolePalette(background, Gray, background, White),
      LogLevel.Debug := ConsolePalette(background, DarkGray, background, Gray)
    ]
  }

  /** The severity forwarded to the sink: one-to-one on the five named levels,
      Debug for everything else. */
  function GetLogLevel(level: LogLevel): (r: LogEventLevel)
    ensures r == LogEventLevel.Fatal <==> level == LogLevel.Fatal
    ensures r == LogEventLevel.Error <==> level == LogLevel.Error
    ensures r == LogEventLevel.Warning <==> level == LogLevel.Warning
    ensures r == LogEventLevel.Information <==> level == LogLevel.Information
    ensures r == LogEventLevel.Verbose <==> level == LogLevel.Verbose
    ensures r == LogEventLevel.Debug <==> level !in {LogLevel.Fatal, LogLevel.Error, LogLevel.Warning, LogLevel.Information, LogLevel.Verbose}
  {
    match level
    case Fatal => LogEventLevel.Fatal
    case Error => LogEventLevel.Error
    case Warning => LogEventLevel.Warning
    case Information => LogEventLevel.Information
    case Verbose => LogEventLevel.Verbose
    case _ => LogEventLevel.Debug
  }

  /** The two colour assignments made before a token is written: argument
      colours for a property token, base colours otherwise. */
  function PaletteEvents(token: FormatToken, palette: ConsolePalette): seq<Event>
  {
    if token.PropertyToken? then
      [Event.SetBackground(palette.argumentBackground), Event.SetForeground(palette.argumentForeground)]
    else
      [Event.SetBackground(palette.background), Event.SetForeground(palette.foreground)]
  }

  /** The index of the first token whose rendering fails, or |tokens|. */
  function RenderFailure(tokens: seq<FormatToken>, args: seq<Arg>, render: (FormatToken, seq<Arg>) -> Option<string>): (k: nat)
    ensures k <= |tokens|
    ensures forall i :: 0 <= i < k ==> render(tokens[i], args).Some?
    ensures k < |tokens| ==> render(tokens[k], args).None?
    decreases |tokens|
  {
    if tokens == [] || render(tokens[0], args).None? then 0
    else 1 + RenderFailure(tokens[1..], args, render)
  }

  /** The console events of the token loop: for each token its colours, then
      its rendered text; on the first failing token only its colours, since
      the colours are set before Render runs. */
  function TokenEvents(tokens: seq<FormatToken>, args: seq<Arg>,
                       render: (FormatToken, seq<Arg>) -> Option<string>, palette: ConsolePalette): seq<Event>
    decreases |tokens|
  {
    if tokens == [] then []
    else
      PaletteEvents(tokens[0], palette) +
      match render(tokens[0], args)
      case None => []
      case Some(text) => [WriteText(text)] + TokenEvents(tokens[1..], args, render, palette)
  }

  /** The events of the try block: the token loop, then the sink call if the
      loop finished. Empty when the palette lookup throws. */
  function TryEvents(palettes: Palettes, formatter: Formatter, request: Request): seq<Event>
  {
    if request.level !in palettes then []
    else
      var tokens := formatter.parse(request.format);
      TokenEvents(tokens, request.args, formatter.render, palettes[request.level]) +
      (if RenderFailure(tokens, request.args, formatter.render) == |tokens|
       then [SinkWrite(GetLogLevel(request.level), request.format, request.args)]
       else [])
  }

  /** The events one Write call produces under threshold `threshold`. */
  function WriteEvents(threshold: Verbosity, palettes: Palettes, formatter: Formatter, request: Request): seq<Event>
  {
    if Exceeds(request.verbosity, threshold) then []
    else TryEvents(palettes, formatter, request) + [Event.ResetColor, Event.WriteLine]
  }

  /** How one Write call ends under threshold `threshold`. */
  function WriteOutcomeOf(threshold: Verbosity, palettes: Palettes, formatter: Formatter,
                          sinkFails: (LogEventLevel, string, seq<Arg>) -> bool, request: Request): WriteOutcome
  {
    if Exceeds(request.verbosity, threshold) then Completed
    else if request.level !in palettes then Threw(PaletteMissing(request.level))
    else
      var tokens := formatter.parse(request.format);
      var k := RenderFailure(tokens, request.args, formatter.render);
      if k < |tokens| then Threw(RenderFailed(k))
      else if sinkFails(GetLogLevel(request.level), request.format, request.args) then Threw(SinkFailed)
      else Completed
  }

  class HostLog {
    const output: Output
    const palettes: Palettes
    const formatter: Formatter
    /** The threshold: messages with a greater verbosity are dropped. */
    var verbosity: Verbosity

    /** `debuggerAttached` stands for Debugger.IsAttached. */
    constructor (console: Output, debuggerAttached: bool, formatter: Formatter)
      ensures output == console && this.formatter == formatter
      ensures palettes == CreatePalette(console.background)
      ensures verbosity == if debuggerAttached then Diagnostic else Normal
    {
      output := console;
      this.formatter := formatter;
      palettes := CreatePalette(console.background);
      verbosity := if debuggerAttached then Diagnostic else Normal;
    }

    method SetVerbosity(v: Verbosity)
      modifies this`verbosity
      ensures verbosity == v
      ensures unchanged(output)
    {
      verbosity := v;
    }

    method SetPalette(token: FormatToken, palette: ConsolePalette)
      modifies output`background, output`foreground, output`trace
      ensures output.trace == old(output.trace) + PaletteEvents(token, palette)
      ensures output.background == if token.PropertyToken? then palette.argumentBackground else palette.background
      ensures output.foreground == if token.PropertyToken? then palette.argumentForeground else palette.foreground
    {
      if token.PropertyToken? {
        output.SetBackground(palette.argumentBackground);
        output.SetForeground(palette.argumentForeground);
      } else {
        output.SetBackground(palette.background);
        output.SetForeground(palette.foreground);
      }
    }

    /** The foreach over the tokens: sets each token's colours, then writes
        its rendered text; stops at the first token whose Render throws and
        returns its index. */
    method WriteTokens(tokens: seq<FormatToken>, args: seq<Arg>, palette: ConsolePalette) returns (failed: Option<nat>)
      modifies output`background, output`foreground, output`trace
      ensures output.trace == old(output.trace) + TokenEvents(tokens, args, formatter.render, palette)
      ensures var k := RenderFailure(tokens, args, formatter.render);
        failed == if k < |tokens| then Some(k) else None
      ensures tokens == [] ==>
        output.background == old(output.background) && output.foreground == old(output.foreground)
      ensures tokens != [] ==>
        var last := if failed.Some? then failed.value else |tokens| - 1;
        output.background == (if tokens[last].PropertyToken? then palette.argumentBackground else palette.background) &&
        output.foreground == (if tokens[last].PropertyToken? then palette.argumentForeground else palette.foreground)
    {
      ghost var k := RenderFailure(tokens, args, formatter.render);
      failed := None;
      var i := 0;
      while i < |tokens| && failed.None?
        invariant 0 <= i <= k <= |tokens|
        invariant failed.None? ==> output.trace == old(output.trace) + TokenEvents(tokens[..i], args, formatter.render, palette)
        invariant failed.Some? ==> i == k < |tokens| && failed == Some(k)
        invariant failed.Some? ==> output.trace == old(output.trace) + TokenEvents(tokens, args, formatter.render, palette)
        invariant i == 0 && failed.None? ==>
          output.background == old(output.background) && output.foreground == old(output.foreground)
        invariant i > 0 || failed.Some? ==>
          var last := if failed.Some? then i else i - 1;
          output.background == (if tokens[last].PropertyToken? then palette.argumentBackground else palette.background) &&
          output.foreground == (if tokens[last].PropertyToken? then palette.argumentForeground else palette.foreground)
        decreases |tokens| - i, if failed.None? then 1 else 0
      {
        SetPalette(tokens[i], palette);
        var text := formatter.render(tokens[i], args);
        if text.None? {
          failed := Some(i);
          TokenEventsAtFailure(tokens, args, formatter.render, palette);
        } else {
          output.Write(text.value);
          TokenEventsStep(tokens, i, args, formatter.render, palette);
          i := i + 1;
        }
      }
      if failed.None? {
        assert tokens[..i] == tokens;
      }
    }

    method Write(v: Verbosity, level: LogLevel, format: string, args: seq<Arg>) returns (outcome: WriteOutcome)
      modifies output`background, output`foreground, output`trace
      ensures output.trace == old(output.trace) + WriteEvents(verbosity, palettes, formatter, Request(v, level, format, args))
      ensures outcome == WriteOutcomeOf(verbosity, palettes, formatter, output.sinkFails, Request(v, level, format, args))
      ensures Exceeds(v, verbosity) ==> unchanged(output)
      ensures !Exceeds(v, verbosity) ==>
                output.background == output.defaultBackground && output.foreground == output.defaultForeground
    {
      if Exceeds(v, verbosity) {
        return Completed;
      }
      ghost var request := Request(v, level, format, args);
      ghost var before := output.trace;
      var error: Option<WriteError> := None;
      if level !in palettes {
        error := Some(PaletteMissing(level));
        assert TryEvents(palettes, formatter, request) == [];
      } else {
        var tokens := formatter.parse(format);
        ghost var events := TokenEvents(tokens, args, formatter.render, palettes[level]);
        var failed := WriteTokens(tokens, args, palettes[level]);
        if failed.Some? {
          error := Some(RenderFailed(failed.value));
          assert TryEvents(palettes, formatter, request) == events;
        } else {
          var ok := output.SinkWrite(GetLogLevel(level), format, args);
          assert TryEvents(palettes, formatter, request) == events + [SinkWrite(GetLogLevel(level), format, args)];
          if !ok {
            error := Some(SinkFailed);
          }
        }
      }
      assert output.trace == before + TryEvents(palettes, formatter, request);
      output.ResetColor();
      output.WriteLine();
      outcome := if error.None? then Completed else Threw(error.value);
    }
  }

  /** TokenEvents distributes over concatenation when the first part renders. */
  lemma {:induction false} TokenEventsAppend(a: seq<FormatToken>, b: seq<FormatToken>, args: seq<Arg>,
                                             render: (FormatToken, seq<Arg>) -> Option<string>, palette: ConsolePalette)
    requires forall i :: 0 <= i < |a| ==> render(a[i], args).Some?
    ensures TokenEvents(a + b, args, render, palette) == TokenEvents(a, args, render, palette) + TokenEvents(b, args, render, palette)
    decreases |a|
  {
    if a != [] {
      assert (a + b)[1..] == a[1..] + b;
      TokenEventsAppend(a[1..], b, args, render, palette);
    } else {
      assert a + b == b;
    }
  }

  /** One more rendered token appends its colours and its text. */
  lemma TokenEventsStep(tokens: seq<FormatToken>, i: nat, args: seq<Arg>,
                        render: (FormatToken, seq<Arg>) -> Option<string>, palette: ConsolePalette)
    requires i < |tokens|
    requires forall j :: 0 <= j <= i ==> render(tokens[j], args).Some?
    ensures TokenEvents(tokens[..i + 1], args, render, palette)
         == TokenEvents(tokens[..i], args, render, palette) + PaletteEvents(tokens[i], palette)
            + [WriteText(render(tokens[i], args).value)]
  {
    assert tokens[..i + 1] == tokens[..i] + [tokens[i]];
    TokenEventsAppend(tokens[..i], [tokens[i]], args, render, palette);
    assert [tokens[i]][1..] == [];
  }

  /** When token k is the first that fails, the loop's events are the full
      events of the tokens before it followed by the colours of token k. */
  lemma TokenEventsAtFailure(tokens: seq<FormatToken>, args: seq<Arg>,
                             render: (FormatToken, seq<Arg>) -> Option<string>, palette: ConsolePalette)
    requires RenderFailure(tokens, args, render) < |tokens|
    ensures var k := RenderFailure(tokens, args, render);
      TokenEvents(tokens, args, render, palette) == TokenEvents(tokens[..k], args, render, palette) + PaletteEvents(tokens[k], palette)
  {
    var k := RenderFailure(tokens, args, render);
    assert tokens == tokens[..k] + tokens[k..];
    TokenEventsAppend(tokens[..k], tokens[k..], args, render, palette);
    assert tokens[k..][0] == tokens[k];
  }

  /** The token loop only calls the console, and never resets it or ends the line. */
  lemma {:induction false} TokenEventsAreConsoleOutput(tokens: seq<FormatToken>, args: seq<Arg>,
                                                       render: (FormatToken, seq<Arg>) -> Option<string>, palette: ConsolePalette)
    ensures forall e :: e in TokenEvents(tokens, args, render, palette) ==> IsConsoleEvent(e) && !IsCleanup(e)
    decreases |tokens|
  {
    if tokens != [] {
      TokenEventsAreConsoleOutput(tokens[1..], args, render, palette);
    }
  }

  /** When every token renders, the loop emits exactly three events per token,
      in token order: background, foreground (argument colours for a property
      token, base colours otherwise), then the rendered text. */
  lemma {:induction false} TokenEventsRendered(tokens: seq<FormatToken>, args: seq<Arg>,
                                               render: (FormatToken, seq<Arg>) -> Option<string>, palette: ConsolePalette)
    requires RenderFailure(tokens, args, render) == |tokens|
    ensures |TokenEvents(tokens, args, render, palette)| == 3 * |tokens|
    ensures forall i :: 0 <= i < |tokens| ==>
      TokenEvents(tokens, args, render, palette)[3 * i] == Event.SetBackground(
        if tokens[i].PropertyToken? then palette.argumentBackground else palette.background) &&
      TokenEvents(tokens, args, render, palette)[3 * i + 1] == Event.SetForeground(
        if tokens[i].PropertyToken? then palette.argumentForeground else palette.foreground) &&
      TokenEvents(tokens, args, render, palette)[3 * i + 2] == WriteText(render(tokens[i], args).value)
    decreases |tokens|
  {
    if tokens != [] {
      var rest := TokenEvents(tokens[1..], args, render, palette);
      TokenEventsRendered(tokens[1..], args, render, palette);
      var all := TokenEvents(tokens, args, render, palette);
      assert all == PaletteEvents(tokens[0], palette) + [WriteText(render(tokens[0], args).value)] + rest;
      forall i | 1 <= i < |tokens|
        ensures all[3 * i] == rest[3 * (i - 1)] && all[3 * i + 1] == rest[3 * (i - 1) + 1]
             && all[3 * i + 2] == rest[3 * (i - 1) + 2]
        ensures tokens[i] == tokens[1..][i - 1]
      {
      }
    }
  }

  /** The verbosity gate: a Write call produces events exactly when the
      message's verbosity does not exceed the threshold; a dropped message
      returns normally. */
  lemma GateDecidesOutput(threshold: Verbosity, palettes: Palettes, formatter: Formatter,
                          sinkFails: (LogEventLevel, string, seq<Arg>) -> bool, request: Request)
    ensures WriteEvents(threshold, palettes, formatter, request) == [] <==> Exceeds(request.verbosity, threshold)
    ensures Exceeds(request.verbosity, threshold) ==> WriteOutcomeOf(threshold, palettes, formatter, sinkFails, request) == Completed
  {
  }

  /** Whenever the gate passes, whatever fails, the last two events are the
      colour reset and the newline, and neither occurs earlier. */
  lemma GatePassedEndsWithCleanup(threshold: Verbosity, palettes: Palettes, formatter: Formatter, request: Request)
    requires !Exceeds(request.verbosity, threshold)
    ensures var ev := WriteEvents(threshold, palettes, formatter, request);
      |ev| >= 2 && ev[|ev| - 2] == Event.ResetColor && ev[|ev| - 1] == Event.WriteLine &&
      forall i :: 0 <= i < |ev| - 2 ==> !IsCleanup(ev[i])
  {
    var try := TryEvents(palettes, formatter, request);
    if request.level in palettes {
      TokenEventsAreConsoleOutput(formatter.parse(request.format), request.args, formatter.render, palettes[request.level]);
    }
    assert forall e :: e in try ==> !IsCleanup(e);
    var ev := WriteEvents(threshold, palettes, formatter, request);
    assert ev == try + [Event.ResetColor, Event.WriteLine];
    forall i | 0 <= i < |ev| - 2 ensures !IsCleanup(ev[i]) {
      assert ev[i] == try[i];
    }
  }

  /** When the lookup succeeds and every token renders: three events per
      token, then exactly one sink call carrying the untokenized format, the
      same arguments and the mapped severity, then reset and newline. The
      call ends normally unless the sink throws. */
  lemma WriteAllTokens(threshold: Verbosity, palettes: Palettes, formatter: Formatter,
                       sinkFails: (LogEventLevel, string, seq<Arg>) -> bool, request: Request)
    requires !Exceeds(request.verbosity, threshold)
    requires request.level in palettes
    requires RenderFailure(formatter.parse(request.format), request.args, formatter.render) == |formatter.parse(request.format)|
    ensures var tokens := formatter.parse(request.format);
      var n := |tokens|;
      var palette := palettes[request.level];
      var ev := WriteEvents(threshold, palettes, formatter, request);
      |ev| == 3 * n + 3 &&
      (forall i :: 0 <= i < n ==>
        ev[3 * i] == Event.SetBackground(if tokens[i].PropertyToken? then palette.argumentBackground else palette.background) &&
        ev[3 * i + 1] == Event.SetForeground(if tokens[i].PropertyToken? then palette.argumentForeground else palette.foreground) &&
        ev[3 * i + 2] == WriteText(formatter.render(tokens[i], request.args).value)) &&
      ev[3 * n] == SinkWrite(GetLogLevel(request.level), request.format, request.args) &&
      ev[3 * n + 1] == Event.ResetColor && ev[3 * n + 2] == Event.WriteLine &&
      (forall i :: 0 <= i < |ev| && i != 3 * n ==> IsConsoleEvent(ev[i]))
    ensures WriteOutcomeOf(threshold, palettes, formatter, sinkFails, request)
         == if sinkFails(GetLogLevel(request.level), request.format, request.args) then Threw(SinkFailed) else Completed
  {
    var tokens := formatter.parse(request.format);
    var palette := palettes[request.level];
    var loop := TokenEvents(tokens, request.args, formatter.render, palette);
    TokenEventsRendered(tokens, request.args, formatter.render, palette);
    TokenEventsAreConsoleOutput(tokens, request.args, formatter.render, palette);
    var ev := WriteEvents(threshold, palettes, formatter, request);
    assert ev == loop + [SinkWrite(GetLogLevel(request.level), request.format, request.args), Event.ResetColor, Event.WriteLine];
    forall i | 0 <= i < |loop| ensures ev[i] == loop[i] && IsConsoleEvent(ev[i]) {
      assert loop[i] in loop;
    }
  }

  /** When Render throws on token k (the lookup having succeeded): the k
      tokens before it are fully written, token k's colours are set, there is
      no sink call, reset and newline follow, and the call throws. */
  lemma WriteStopsAtRenderFailure(threshold: Verbosity, palettes: Palettes, formatter: Formatter,
                                  sinkFails: (LogEventLevel, string, seq<Arg>) -> bool, request: Request)
    requires !Exceeds(request.verbosity, threshold)
    requires request.level in palettes
    requires RenderFailure(formatter.parse(request.format), request.args, formatter.render) < |formatter.parse(request.format)|
    ensures var tokens := formatter.parse(request.format);
      var k := RenderFailure(tokens, request.args, formatter.render);
      var palette := palettes[request.level];
      var written := TokenEvents(tokens[..k], request.args, formatter.render, palette);
      var ev := WriteEvents(threshold, palettes, formatter, request);
      |written| == 3 * k &&
      (forall i :: 0 <= i < k ==> written[3 * i + 2] == WriteText(formatter.render(tokens[i], request.args).value)) &&
      ev == written + PaletteEvents(tokens[k], palette) + [Event.ResetColor, Event.WriteLine] &&
      (forall e :: e in ev ==> IsConsoleEvent(e))
    ensures WriteOutcomeOf(threshold, palettes, formatter, sinkFails, request)
         == Threw(RenderFailed(RenderFailure(formatter.parse(request.format), request.args, formatter.render)))
  {
    var tokens := formatter.parse(request.format);
    var k := RenderFailure(tokens, request.args, formatter.render);
    var palette := palettes[request.level];
    TokenEventsAtFailure(tokens, request.args, formatter.render, palette);
    assert RenderFailure(tokens[..k], request.args, formatter.render) == k by {
      RenderFailurePrefix(tokens, k, request.args, formatter.render);
    }
    TokenEventsRendered(tokens[..k], request.args, formatter.render, palette);
    TokenEventsAreConsoleOutput(tokens, request.args, formatter.render, palette);
    forall i | 0 <= i < k ensures tokens[..k][i] == tokens[i] { }
  }

  /** A prefix of tokens that all render has no failure. */
  lemma {:induction false} RenderFailurePrefix(tokens: seq<FormatToken>, k: nat, args: seq<Arg>,
                                               render: (FormatToken, seq<Arg>) -> Option<string>)
    requires k <= RenderFailure(tokens, args, render)
    ensures RenderFailure(tokens[..k], args, render) == k
    decreases k
  {
    if k > 0 {
      assert tokens[..k][1..] == tokens[1..][..k - 1];
      RenderFailurePrefix(tokens[1..], k - 1, args, render);
    }
  }

  /** The palette table has no Fatal entry: a Fatal message that passes the
      gate throws at the lookup, writes nothing but the reset and the newline,
      and never reaches the sink. */
  lemma FatalWriteFailsAtLookup(threshold: Verbosity, background: ConsoleColor, formatter: Formatter,
                                sinkFails: (LogEventLevel, string, seq<Arg>) -> bool, request: Request)
    requires request.level == LogLevel.Fatal
    requires !Exceeds(request.verbosity, threshold)
    ensures WriteEvents(threshold, CreatePalette(background), formatter, request) == [Event.ResetColor, Event.WriteLine]
    ensures WriteOutcomeOf(threshold, CreatePalette(background), formatter, sinkFails, request) == Threw(PaletteMissing(LogLevel.Fatal))
  {
  }
}
