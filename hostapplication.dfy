/**
 * HostApplication: parses the command line, sets the log's verbosity,
 * picks the command to run from the option flags, runs it, and reports any
 * exception through the log.
 *
 * Its collaborators (the argument parser, the command factory, the commands
 * themselves, the log and the console) are seen only through the calls the
 * application makes on them: each call is recorded, in order, in `calls`,
 * and the log's Verbosity property is the field `logVerbosity`.
 */
module Hosting {
  import opened Wrappers
  import opened Diagnostics

  /** CakeOptions as the host reads them; `script` is None when Script is null. */
  datatype Options = Options(
    showHelp: bool,
    showVersion: bool,
    performDryRun: bool,
    showDescription: bool,
    script: Option<string>,
    verbosity: Verbosity)

  /** The commands the factory creates; ErrorCommand is ErrorCommandDecorator. */
  datatype Command =
    | HelpCommand
    | VersionCommand
    | DryRunCommand
    | DescriptionCommand
    | BuildCommand
    | ErrorCommand(inner: Command)

  /** One call on a collaborator. LogError is the log's Error extension
      (a Write at Quiet verbosity and Error level); Create is a factory call. */
  datatype Call =
    | SetLogVerbosity(verbosity: Verbosity)
    | ConsoleWriteLine
    | LogError(format: string, args: seq<Arg>)
    | Create(command: Command)
    | Execute(command: Command, options: Option<Options>)

  const NoScriptMessages: seq<string> := [
    "Could not find a build script to execute.",
    "Either the first argument must the build script's path,",
    "or build script should follow default script name conventions."
  ]

  const ErrorFormat: string := "Error: {0}"

  /** Options were parsed, neither help nor version was asked for, and a
      script was named: one of the script commands runs. */
  predicate HasScript(options: Option<Options>)
  {
    options.Some? && !options.value.showHelp && !options.value.showVersion && options.value.script.Some?
  }

  /** The command CreateCommand returns, as a decision table in priority
      order: help, version, then (with a script) dry run, description,
      build; otherwise help wrapped in the error decorator. */
  function SelectCommand(options: Option<Options>): (c: Command)
    ensures c == HelpCommand <==> options.Some? && options.value.showHelp
    ensures c == VersionCommand <==> options.Some? && !options.value.showHelp && options.value.showVersion
    ensures c == DryRunCommand <==> HasScript(options) && options.value.performDryRun
    ensures c == DescriptionCommand <==>
              HasScript(options) && !options.value.performDryRun && options.value.showDescription
    ensures c == BuildCommand <==>
              HasScript(options) && !options.value.performDryRun && !options.value.showDescription
    ensures c.ErrorCommand? <==>
              options.None? || (!options.value.showHelp && !options.value.showVersion && options.value.script.None?)
    ensures c.ErrorCommand? ==> c == ErrorCommand(HelpCommand)
  {
    if options.Some? && options.value.showHelp then HelpCommand
    else if options.Some? && options.value.showVersion then VersionCommand
    else if options.Some? && options.value.script.Some? then
      if options.value.performDryRun then DryRunCommand
      else if options.value.showDescription then DescriptionCommand
      else BuildCommand
    else ErrorCommand(HelpCommand)
  }

  /** The calls CreateCommand makes before returning. */
  function CreateCommandCalls(options: Option<Options>): seq<Call>
  {
    match SelectCommand(options)
    case DescriptionCommand => [SetLogVerbosity(options.value.verbosity), Create(DescriptionCommand)]
    case ErrorCommand(_) =>
      [ConsoleWriteLine, LogError(NoScriptMessages[0], []), LogError(NoScriptMessages[1], []),
       LogError(NoScriptMessages[2], []), Create(HelpCommand)]
    case c => [Create(c)]
  }

  /** The one line Run logs for an exception: the whole exception when the
      log is at Diagnostic verbosity, its message otherwise. */
  function ErrorReport(verbosity: Verbosity, ex: Exception): Call
  {
    LogError(ErrorFormat, [if verbosity == Diagnostic then ExceptionArg(ex) else StringArg(ex.message)])
  }

  /** The calls of the try block of Run, up to and including Execute. */
  function RunSetupCalls(options: Option<Options>): seq<Call>
  {
    (if options.Some? then [SetLogVerbosity(options.value.verbosity)] else [])
    + CreateCommandCalls(options)
    + [Execute(SelectCommand(options), options)]
  }

  /** The calls one Run makes, from log verbosity `verbosity`. */
  function RunCalls(verbosity: Verbosity, parser: seq<string> -> Result<Option<Options>, Exception>,
                    execute: (Command, Option<Options>) -> Result<bool, Exception>, args: seq<string>): seq<Call>
  {
    match parser(args)
    case Failure(ex) => [ErrorReport(verbosity, ex)]
    case Success(options) =>
      var after := if options.Some? then options.value.verbosity else verbosity;
      match execute(SelectCommand(options), options)
      case Success(_) => RunSetupCalls(options)
      case Failure(ex) => RunSetupCalls(options) + [ErrorReport(after, ex)]
  }

  /** What one Run returns. */
  function RunResult(parser: seq<string> -> Result<Option<Options>, Exception>,
                     execute: (Command, Option<Options>) -> Result<bool, Exception>, args: seq<string>): bool
  {
    match parser(args)
    case Failure(_) => false
    case Success(options) =>
      match execute(SelectCommand(options), options)
      case Success(result) => result
      case Failure(_) => false
  }

  class HostApplication {
    /** IArgumentParser.Parse; Failure where it throws. */
    const parser: seq<string> -> Result<Option<Options>, Exception>
    /** ICommand.Execute for each command; Failure where it throws. */
    const execute: (Command, Option<Options>) -> Result<bool, Exception>
    /** The log's Verbosity property. */
    var logVerbosity: Verbosity
    /** The calls made so far on the log, console, factory and commands. */
    var calls: seq<Call>

    constructor (logVerbosity: Verbosity, parser: seq<string> -> Result<Option<Options>, Exception>,
                 execute: (Command, Option<Options>) -> Result<bool, Exception>)
      ensures this.logVerbosity == logVerbosity && this.parser == parser && this.execute == execute
      ensures calls == []
    {
      this.logVerbosity := logVerbosity;
      this.parser := parser;
      this.execute := execute;
      calls := [];
    }

    method SetLogVerbosity(v: Verbosity)
      modifies this`logVerbosity, this`calls
      ensures logVerbosity == v
      ensures calls == old(calls) + [Call.SetLogVerbosity(v)]
    {
      logVerbosity := v;
      calls := calls + [Call.SetLogVerbosity(v)];
    }

    method Record(call: Call)
      requires !call.SetLogVerbosity?
      modifies this`calls
      ensures calls == old(calls) + [call]
    {
      calls := calls + [call];
    }

    method CreateCommand(options: Option<Options>) returns (command: Command)
      modifies this`logVerbosity, this`calls
      ensures command == SelectCommand(options)
      ensures calls == old(calls) + CreateCommandCalls(options)
      ensures logVerbosity == if command == DescriptionCommand then options.value.verbosity else old(logVerbosity)
    {
      if options.Some? {
        if options.value.showHelp {
          Record(Create(HelpCommand));
          return HelpCommand;
        }
        if options.value.showVersion {
          Record(Create(VersionCommand));
          return VersionCommand;
        }
        if options.value.script.Some? {
          if options.value.performDryRun {
            Record(Create(DryRunCommand));
            return DryRunCommand;
          }
          if options.value.showDescription {
            SetLogVerbosity(options.value.verbosity);
            Record(Create(DescriptionCommand));
            return DescriptionCommand;
          }
          Record(Create(BuildCommand));
          return BuildCommand;
        }
      }
      Record(ConsoleWriteLine);
      Record(LogError(NoScriptMessages[0], []));
      Record(LogError(NoScriptMessages[1], []));
      Record(LogError(NoScriptMessages[2], []));
      Record(Create(HelpCommand));
      command := ErrorCommand(HelpCommand);
    }

    /** The catch block of Run. */
    method ReportException(ex: Exception)
      modifies this`calls
      ensures calls == old(calls) + [ErrorReport(logVerbosity, ex)]
    {
      if logVerbosity == Diagnostic {
        Record(LogError(ErrorFormat, [ExceptionArg(ex)]));
      } else {
        Record(LogError(ErrorFormat, [StringArg(ex.message)]));
      }
    }

    method Run(args: seq<string>) returns (ok: bool)
      modifies this`logVerbosity, this`calls
      ensures ok == RunResult(parser, execute, args)
      ensures calls == old(calls) + RunCalls(old(logVerbosity), parser, execute, args)
      ensures logVerbosity == match parser(args)
                              case Success(Some(options)) => options.verbosity
                              case _ => old(logVerbosity)
    {
      ghost var calls0 := calls;
      var parsed := parser(args);
      if parsed.Failure? {
        ReportException(parsed.error);
        return false;
      }
      var options := parsed.value;
      if options.Some? {
        SetLogVerbosity(options.value.verbosity);
      }
      var command := CreateCommand(options);
      Record(Execute(command, options));
      assert calls == calls0 + RunSetupCalls(options);
      var result := execute(command, options);
      if result.Failure? {
        ReportException(result.error);
        return false;
      }
      ok := result.value;
    }
  }

  /** Help wins over every other flag. */
  lemma HelpWins(o: Options, p: Options)
    requires o.showHelp && p.showHelp
    ensures SelectCommand(Some(o)) == SelectCommand(Some(p)) == HelpCommand
  {
  }

  /** With a script, a dry run wins over a description, and a description
      over a build: the lower flag does not matter once a higher one is set. */
  lemma ScriptPrecedence(o: Options)
    requires HasScript(Some(o))
    ensures o.performDryRun ==>
      SelectCommand(Some(o.(showDescription := true))) == SelectCommand(Some(o.(showDescription := false))) == DryRunCommand
    ensures !o.performDryRun && o.showDescription ==> SelectCommand(Some(o)) == DescriptionCommand
    ensures !o.performDryRun && !o.showDescription ==> SelectCommand(Some(o)) == BuildCommand
  {
  }

  /** Without options or without help, version or script, CreateCommand
      writes one blank line, logs the three messages in order, creates the
      help command, and returns it in the error decorator. */
  lemma NoScriptPath(options: Option<Options>)
    requires !HasScript(options)
    requires options.None? || (!options.value.showHelp && !options.value.showVersion)
    ensures SelectCommand(options) == ErrorCommand(HelpCommand)
    ensures CreateCommandCalls(options)
         == [ConsoleWriteLine, LogError(NoScriptMessages[0], []), LogError(NoScriptMessages[1], []),
             LogError(NoScriptMessages[2], []), Create(HelpCommand)]
  {
  }

  /** Without an exception Run returns what the command's Execute returns and
      logs no "Error: {0}" line; when options were parsed, setting the
      verbosity is its first call, before the command is created. */
  lemma RunWithoutException(verbosity: Verbosity, parser: seq<string> -> Result<Option<Options>, Exception>,
                            execute: (Command, Option<Options>) -> Result<bool, Exception>, args: seq<string>)
    requires parser(args).Success?
    requires execute(SelectCommand(parser(args).value), parser(args).value).Success?
    ensures RunResult(parser, execute, args) == execute(SelectCommand(parser(args).value), parser(args).value).value
    ensures var calls := RunCalls(verbosity, parser, execute, args);
      (forall i :: 0 <= i < |calls| ==> !(calls[i].LogError? && calls[i].format == ErrorFormat)) &&
      (parser(args).value.Some? ==> calls[0] == Call.SetLogVerbosity(parser(args).value.value.verbosity)) &&
      (parser(args).value.None? ==> forall i :: 0 <= i < |calls| ==> !calls[i].SetLogVerbosity?)
  {
  }

  /** With an exception from the parser or the command, Run returns false and
      its last call is the one "Error: {0}" line, carrying the whole exception
      at Diagnostic verbosity and its message otherwise. */
  lemma RunReportsException(verbosity: Verbosity, parser: seq<string> -> Result<Option<Options>, Exception>,
                            execute: (Command, Option<Options>) -> Result<bool, Exception>, args: seq<string>)
    requires parser(args).Failure? || execute(SelectCommand(parser(args).value), parser(args).value).Failure?
    ensures !RunResult(parser, execute, args)
    ensures var calls := RunCalls(verbosity, parser, execute, args);
      var ex := if parser(args).Failure? then parser(args).error
                else execute(SelectCommand(parser(args).value), parser(args).value).error;
      var current := if parser(args).Success? && parser(args).value.Some? then parser(args).value.value.verbosity else verbosity;
      |calls| > 0 &&
      calls[|calls| - 1] == LogError(ErrorFormat, [if current == Diagnostic then ExceptionArg(ex) else StringArg(ex.message)]) &&
      forall i :: 0 <= i < |calls| - 1 ==> !(calls[i].LogError? && calls[i].format == ErrorFormat)
  {
  }
}
