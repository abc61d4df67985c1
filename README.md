# CakeBoss host logging, command selection and script code generation in Dafny

This project models three pieces of the CakeBoss build host:

- **HostLog**, the host's console logger. It keeps a verbosity threshold. It
  drops messages above that threshold. Every other message is split into
  format tokens, and each token is written in the colours of the message's
  palette. The original message is then forwarded to Serilog's structured
  sink. Colours are always reset and the line ended, even when something
  throws.
- **HostApplication**, the entry point. It parses the command line, sets the
  log verbosity, picks a command from the option flags, runs it, and reports
  any exception as one `Error: {0}` line.
- **RoslynCodeGenerator**, which builds the script compiler's input. It
  joins the using-alias directives, the generated alias code and the script
  lines with CRLF.

Modules, one per file:

- `Wrappers` (`wrappers.dfy`): Option and Result.
- `Diagnostics` (`diagnostics.dfy`): Verbosity and its order, LogLevel,
  Serilog's LogEventLevel, ConsoleColor, ConsolePalette, message arguments.
- `ConsoleOutput` (`output.dfy`): the class `Output`. It stands for the
  console (IConsole) and the structured sink together. One `trace` records
  every call made on either, in order. Colours are fields that
  `ResetColor` restores to the console's defaults.
- `HostLogging` (`hostlog.dfy`): the palette table, the severity map, the
  events one `Write` produces (`WriteEvents`, `WriteOutcomeOf`), and the
  class `HostLog`. Its `Write` is proved to append exactly `WriteEvents` to
  the trace. Lemmas state the gate, the per-token event triples, the cleanup
  at the end, the single sink forward, render failures and the missing Fatal
  palette.
- `Hosting` (`hostapplication.dfy`): the option record, the command kinds,
  the decision table `SelectCommand`, and the class `HostApplication`. That
  class records each call it makes on its collaborators (log, console,
  command factory, commands) in order.
- `CodeGeneration` (`roslyncodegenerator.dfy`): `Join` (string.Join) with a
  CRLF splitter as its inverse, the `GetAliasCode` loop, and `Generate`.

Four behaviours of the code are worth knowing:

- The palette table has no Fatal entry (HostLog.cs:107-114). So a Fatal
  message that passes the gate throws at the lookup on line 64. There is no
  fallback palette and no fixed alert colour for Fatal.
- The Warning palette gives arguments the same colours as literal text
  (line 110). They are not a distinct pair.
- When rendering token k throws, tokens 0..k-1 have been written. Token k's
  background and foreground have also been set, because `SetPalette` runs
  before `Render` (lines 68-69). Reset and newline follow, and nothing
  reaches the sink.
- `ResetColor` (line 76) returns the console to its default colours, not
  to the colours it had before the call. The two differ whenever something
  set a non-default colour before `Write`.

## Model

| member | source | states |
|---|---|---|
| `Diagnostics.Rank` | src/CakeBoss.Host/Console/HostLog.cs:56 | the verbosity order the gate compares: Quiet lowest, Diagnostic highest |
| `Diagnostics.RankOrder` | src/CakeBoss.Host/Console/HostLog.cs:56 | the gate's order is the full chain Quiet < Minimal < Normal < Verbose < Diagnostic |
| `ConsoleOutput.Output.ResetColor` | src/CakeBoss.Host/Console/HostLog.cs:76 | both console colours return to the console's defaults, and the call is recorded |
| `ConsoleOutput.Output.SinkWrite` | src/CakeBoss.Host/Console/HostLog.cs:72 | the sink call is recorded with its severity, format and arguments; it reports whether the sink threw |
| `HostLogging.CreatePalette` | src/CakeBoss.Host/Console/HostLog.cs:104-116 | entries exist exactly for Error, Warning, Information, Verbose and Debug (none for Fatal); Error is DarkRed/White/Red/White whatever the ambient colour; every other entry's background is the ambient background |
| `HostLogging.GetLogLevel` | src/CakeBoss.Host/Console/HostLog.cs:118-139 | Fatal, Error, Warning, Information and Verbose map one-to-one to the same-named severity, in both directions, and every other level maps to Debug |
| `HostLogging.RenderFailure` | src/CakeBoss.Host/Console/HostLog.cs:66-70 | the index of the first token whose Render throws: every earlier token renders, and the token at that index does not (or it is the token count) |
| `HostLogging.HostLog.constructor` | src/CakeBoss.Host/Console/HostLog.cs:32-38 | the palette table is built from the console's background at construction; the threshold starts at Diagnostic with a debugger attached and at Normal otherwise |
| `HostLogging.HostLog.SetVerbosity` | src/CakeBoss.Host/Console/HostLog.cs:82-85 | the threshold becomes the argument; the console, the sink trace and the palette table do not change |
| `HostLogging.HostLog.SetPalette` | src/CakeBoss.Host/Console/HostLog.cs:87-100 | sets background then foreground (recorded in that order, and the console's colours afterwards are those): argument colours for a property token, base colours otherwise |
| `HostLogging.HostLog.WriteTokens` | src/CakeBoss.Host/Console/HostLog.cs:66-70 | the token loop appends exactly the token events (colours, then text, per token, in order) and reports the first token whose rendering throws; the console is left in the colours of the last token handled (the failing one, or the last), and untouched for no tokens |
| `HostLogging.HostLog.Write` | src/CakeBoss.Host/Console/HostLog.cs:54-80 | appends exactly `WriteEvents` for the current threshold and ends as `WriteOutcomeOf` says; a dropped message leaves the console untouched; otherwise the colours end at the console defaults |
| `HostLogging.TokenEventsAreConsoleOutput` | src/CakeBoss.Host/Console/HostLog.cs:66-70 | the token loop only calls the console and never resets colours or ends the line |
| `HostLogging.TokenEventsRendered` | src/CakeBoss.Host/Console/HostLog.cs:66-70 | when every token renders, the loop emits exactly three events per token in token order: background, foreground (argument colours for a property token), rendered text |
| `HostLogging.GateDecidesOutput` | src/CakeBoss.Host/Console/HostLog.cs:56-59 | a Write produces events if and only if the message's verbosity does not exceed the threshold; a dropped message returns normally |
| `HostLogging.GatePassedEndsWithCleanup` | src/CakeBoss.Host/Console/HostLog.cs:62-78 | whenever the gate passes, whatever throws, the last two events are ResetColor then WriteLine, and neither occurs earlier |
| `HostLogging.WriteAllTokens` | src/CakeBoss.Host/Console/HostLog.cs:64-72 | with a palette and every token rendered: 3n token events, then exactly one sink call carrying the untokenized format, the same arguments and GetLogLevel(level), then reset and newline; it throws only if the sink throws |
| `HostLogging.WriteStopsAtRenderFailure` | src/CakeBoss.Host/Console/HostLog.cs:66-78 | when token k fails to render: the k earlier tokens are fully written, token k's colours are set, no sink call occurs, reset and newline follow, and the call throws |
| `HostLogging.FatalWriteFailsAtLookup` | src/CakeBoss.Host/Console/HostLog.cs:64 | a Fatal message that passes the gate produces only ResetColor and WriteLine, never reaches the sink and throws for the missing palette |
| `Hosting.SelectCommand` | src/CakeBoss.Host/Host/HostApplication.cs:111-148 | each command kind is characterised exactly (if and only if): help when help is asked; version without help; with a script, dry run, then description, then build; otherwise help in the error decorator |
| `Hosting.HelpWins` | src/CakeBoss.Host/Host/HostApplication.cs:115-118 | with help asked for, the other flags do not matter |
| `Hosting.ScriptPrecedence` | src/CakeBoss.Host/Host/HostApplication.cs:125-139 | with a script, dry run wins over description, description over build, and build is the default |
| `Hosting.NoScriptPath` | src/CakeBoss.Host/Host/HostApplication.cs:142-147 | without options, or without help, version or script: the calls are exactly one blank console line, the three error messages in order, then the help command's creation; the result is help in the error decorator |
| `Hosting.HostApplication.SetLogVerbosity` | src/CakeBoss.Host/Host/HostApplication.cs:89 | the log's verbosity becomes the argument and the call is recorded |
| `Hosting.HostApplication.CreateCommand` | src/CakeBoss.Host/Host/HostApplication.cs:111-148 | returns `SelectCommand`; the calls made are the factory call, preceded by setting the verbosity on the description path and by the blank line and three errors on the error path; the verbosity changes only on the description path |
| `Hosting.HostApplication.ReportException` | src/CakeBoss.Host/Host/HostApplication.cs:96-108 | logs one "Error: {0}" line carrying the whole exception at Diagnostic verbosity and only its message otherwise |
| `Hosting.HostApplication.Run` | src/CakeBoss.Host/Host/HostApplication.cs:81-109 | returns `RunResult` and makes exactly the calls `RunCalls` lists; the log verbosity ends as the parsed options' verbosity when options were parsed, and is otherwise unchanged |
| `Hosting.RunWithoutException` | src/CakeBoss.Host/Host/HostApplication.cs:86-94 | without an exception Run returns what Execute returns and logs no "Error: {0}" line; with parsed options, setting the verbosity is the first call (before the command is created); with null options the verbosity is never set |
| `Hosting.RunReportsException` | src/CakeBoss.Host/Host/HostApplication.cs:96-108 | with an exception from the parser or from Execute, Run returns false; its last call is the only "Error: {0}" line, carrying the whole exception at Diagnostic verbosity and only its message otherwise |
| `CodeGeneration.SplitJoin` | src/Cake.Host/Scripting/Roslyn/RoslynCodeGenerator.cs:26 | joining with CRLF puts separators only between elements, none leading or trailing: cutting the result at CRLF gives back the elements when none contains CRLF |
| `CodeGeneration.JoinThree` | src/Cake.Host/Scripting/Roslyn/RoslynCodeGenerator.cs:14 | the three-argument join is a + CRLF + b + CRLF + c, even when a part is empty |
| `CodeGeneration.AliasChunks` | src/Cake.Host/Scripting/Roslyn/RoslynCodeGenerator.cs:20-25 | exactly one chunk per alias, in alias order; Method aliases go through the method generator, every other type through the property generator |
| `CodeGeneration.GetAliasCode` | src/Cake.Host/Scripting/Roslyn/RoslynCodeGenerator.cs:17-27 | the loop's result is the CRLF join of one generated chunk per alias, in alias order |
| `CodeGeneration.Generate` | src/Cake.Host/Scripting/Roslyn/RoslynCodeGenerator.cs:9-15 | the output is joined directives + CRLF + alias code + CRLF + joined script lines; the directives are a prefix and the script lines a verbatim suffix |
| `CodeGeneration.GeneratedCodeLines` | src/Cake.Host/Scripting/Roslyn/RoslynCodeGenerator.cs:9-15 | when no element contains CRLF, the output's lines are the directives, then one chunk per alias, then the script lines; an empty section still gives one empty line |

## Left out

- The `lock` in `Write` (HostLog.cs:60) is not modelled. Write is modelled sequentially, so mutual exclusion between concurrent writers is not stated.
- `Debugger.IsAttached` is a constructor parameter, since it is an environment query.
- `FormatParser.Parse` and `FormatToken.Render` are not part of this model. They are function values given to the constructor. Render yields None where it would throw. `Parse` is assumed not to throw.
- Serilog's `Log.Logger.Write` is a recorded call. Whether it throws is a function value of the `Output` object. What the sink does with the event is not modelled.
- Console colours are an abstract enum: the current and default colours are fields that `ResetColor` restores, but what a colour looks like on a terminal, the cursor and real output are out of scope. `IConsole.Write("{0}", text)` is recorded as writing `text`.
- `HostLogging.GetLogLevel`: Cake's LogLevel has exactly six values, so the `switch` default (HostLog.cs:138) is reached only by Debug.
- The HostApplication constructor's null checks (HostApplication.cs:47-62) are left out. Dafny references here are never null.
- The argument parser, the command factory, `ICommand.Execute` and `ErrorCommandDecorator` are abstract. The parser and Execute are function values whose failure stands for an exception. The factory's `Create*Command` calls are recorded. The decorator is the `ErrorCommand` wrapper.
- `Hosting.HostApplication.Run`: only exceptions from the parser and from Execute are modelled. Exceptions raised inside `CreateCommand`, by the log or the factory, are not.
- HostApplication's `_log.Error(...)` calls are recorded as calls on the log interface. They are not rendered through `HostLog.Write` here (Cake's `Error` extension writes at Quiet verbosity and Error level; that extension is not part of this model).
- `ScriptAliasType` has the cases Method, Property and Unknown; Unknown stands for every value other than Method and Property, which the property generator handles like Property.
- `MethodAliasGenerator.Generate` and `PropertyAliasGenerator.Generate` are not part of this model. They are function values.
