/** `Commander.Run` as a pure decision procedure. Where the Go code prints,
    logs and calls os.Exit, the model returns a Decision recording which
    terminal state was reached, the exit code, the log lines in order, the
    usage text written to the flag output, and which command's handler was
    called with which arguments. */
module Dispatcher {
  import opened Wrappers
  import opened Commands
  import GoQuote

  /** Exit code of log.Fatal and log.Fatalf. */
  const FatalExitCode := 1
  /** Exit code after a handler's usage error. */
  const UsageExitCode := 2

  /** The six ways a run of the dispatcher ends. */
  datatype Terminal =
    | HelpShown
    | UnknownCommand
    | HandlerSuccess
    | UsageFailed
    | ExplicitExit
    | FatalError

  /** A handler call: the command's index in registration order, the
      arguments it received, and the usage text its flag set prints while
      the handler runs. */
  datatype Invocation = Invocation(command: nat, args: seq<string>, usage: string)

  datatype Decision = Decision(
    state: Terminal,
    exitCode: int,
    logs: seq<string>,
    output: string,
    invoked: Option<Invocation>)

  /** What each terminal state implies about the rest of the decision. */
  predicate Consistent(d: Decision) {
    match d.state
    case HelpShown =>
      d.exitCode == 0 && d.logs == [] && d.invoked.None?
    case UnknownCommand =>
      d.exitCode == FatalExitCode && |d.logs| == 2 && d.output == "" && d.invoked.None?
    case HandlerSuccess =>
      d.exitCode == 0 && d.logs == [] && d.output == "" && d.invoked.Some?
    case UsageFailed =>
      d.exitCode == UsageExitCode && |d.logs| == 1 && d.invoked.Some?
      && d.output == d.invoked.value.usage
    case ExplicitExit =>
      |d.logs| <= 1 && d.output == "" && d.invoked.Some?
    case FatalError =>
      d.exitCode == FatalExitCode && |d.logs| == 1 && d.output == "" && d.invoked.Some?
  }

  /** How a decision reports a handler's outcome: the state it selects and
      the lines it logs (and, for an exit-code error, the code it exits with). */
  predicate Reports(d: Decision, o: Outcome) {
    match o
    case Success => d.state == HandlerSuccess
    case Usage(e) => d.state == UsageFailed && d.logs == [e.message]
    case ExitCode(inner, code) =>
      && d.state == ExplicitExit
      && d.exitCode == code
      && d.logs == (if inner.Some? then [inner.value.message] else [])
    case Other(e) => d.state == FatalError && d.logs == [e.message]
  }

  /** flag.FlagSet.Arg: the i-th positional argument, or "" past the end. */
  function Arg(positional: seq<string>, i: nat): string {
    if i < |positional| then positional[i] else ""
  }

  /** The help check that precedes every other step. */
  predicate HelpRequested(positional: seq<string>) {
    Arg(positional, 0) == "help" || |positional| == 0
  }

  /** The first of the two log lines for an unresolved name. */
  function UnknownMessage(cmdName: string, name: string): string {
    cmdName + ": unknown subcommand " + GoQuote.Quote(name)
  }

  /** The fatal follow-up line for an unresolved name. */
  function HelpHint(cmdName: string): string {
    "Run '" + cmdName + " help' for usage."
  }

  /** The resolution loop: the index of the first command, in registration
      order, whose name or alias equals `name`. */
  function Resolve(c: Commander, name: string): (r: Option<nat>)
    ensures r.Some? ==> r.value < |c| && Matches(c[r.value], name)
    ensures r.Some? ==> forall j :: 0 <= j < r.value ==> !Matches(c[j], name)
    ensures r.None? <==> forall j :: 0 <= j < |c| ==> !Matches(c[j], name)
    decreases |c|
  {
    if |c| == 0 then None
    else if Matches(c[0], name) then Some(0)
    else match Resolve(c[1..], name)
      case None => None
      case Some(i) => Some(i + 1)
  }

  /** Resolution depends on names and aliases only, so it finds the same
      command before and after the usage renderers are installed. */
  lemma ResolveConfigured(c: Commander, cmdName: string, name: string)
    ensures Resolve(ConfigureUsage(c, cmdName), name) == Resolve(c, name)
  {
  }

  /** Commands registered after the first match are never consulted. */
  lemma ResolveAppend(c: Commander, e: Commander, name: string)
    requires Resolve(c, name).Some?
    ensures Resolve(c + e, name) == Resolve(c, name)
  {
    assert forall j :: 0 <= j < |c| ==> (c + e)[j] == c[j];
  }

  /** The error-to-exit mapping applied to the outcome of the matched
      handler; `cmd` is the command with its usage renderer installed. */
  function Conclude(index: nat, cmd: Command, args: seq<string>): (d: Decision)
    ensures Consistent(d)
    ensures Reports(d, cmd.handler(args))
    ensures d.invoked == Some(Invocation(index, args, cmd.flagSet.usage))
  {
    var inv := Some(Invocation(index, args, cmd.flagSet.usage));
    match cmd.handler(args)
    case Success => Decision(HandlerSuccess, 0, [], "", inv)
    case Usage(e) => Decision(UsageFailed, UsageExitCode, [e.message], cmd.flagSet.usage, inv)
    case ExitCode(inner, code) =>
      Decision(ExplicitExit, code, if inner.Some? then [inner.value.message] else [], "", inv)
    case Other(e) => Decision(FatalError, FatalExitCode, [e.message], "", inv)
  }

  /** Commander.Run, after flag parsing, as one decision. */
  function Dispatch(c: Commander, cmdName: string, usageText: string, positional: seq<string>): (d: Decision)
    ensures Consistent(d)
    // "help" or no argument: top-level usage, whatever is registered
    ensures d.state == HelpShown <==> HelpRequested(positional)
    ensures d.state == HelpShown ==> d.output == usageText
    // no command answers to the name: two log lines naming it, fatal exit
    ensures d.state == UnknownCommand <==>
      !HelpRequested(positional) && Resolve(c, positional[0]).None?
    ensures d.state == UnknownCommand ==>
      d.logs == [UnknownMessage(cmdName, positional[0]), HelpHint(cmdName)]
    // otherwise the first matching command's handler runs without the name
    ensures d.invoked.Some? <==>
      !HelpRequested(positional) && Resolve(c, positional[0]).Some?
    ensures d.invoked.Some? ==>
      var i := d.invoked.value.command;
      && Resolve(c, positional[0]) == Some(i)
      && d.invoked.value.args == positional[1..]
      && d.invoked.value.usage == UsageText(c[i], cmdName)
      && Reports(d, c[i].handler(positional[1..]))
  {
    if HelpRequested(positional) then
      Decision(HelpShown, 0, [], usageText, None)
    else
      var cmds := ConfigureUsage(c, cmdName);
      var name := positional[0];
      ResolveConfigured(c, cmdName, name);
      match Resolve(cmds, name)
      case None =>
        Decision(UnknownCommand, FatalExitCode,
                 [UnknownMessage(cmdName, name), HelpHint(cmdName)], "", None)
      case Some(i) => Conclude(i, cmds[i], positional[1..])
  }

  /** The loop that installs each command's usage renderer. */
  method InstallUsage(c: Commander, cmdName: string) returns (cmds: Commander)
    ensures cmds == ConfigureUsage(c, cmdName)
  {
    cmds := [];
    var k := 0;
    while k < |c|
      invariant 0 <= k <= |c|
      invariant |cmds| == k
      invariant forall j :: 0 <= j < k ==> cmds[j] == WithUsage(c[j], cmdName)
    {
      cmds := cmds + [WithUsage(c[k], cmdName)];
      k := k + 1;
    }
  }

  /** The scan for the first command that matches `name`. */
  method FindCommand(cmds: Commander, name: string) returns (r: Option<nat>)
    ensures r == Resolve(cmds, name)
  {
    var i := 0;
    while i < |cmds|
      invariant 0 <= i <= |cmds|
      invariant forall j :: 0 <= j < i ==> !Matches(cmds[j], name)
    {
      if Matches(cmds[i], name) {
        return Some(i);
      }
      i := i + 1;
    }
    return None;
  }

  /** Commander.Run written as the Go code is: the help check, the loop that
      installs usage renderers, then the scan for the first matching command. */
  method Run(c: Commander, cmdName: string, usageText: string, positional: seq<string>)
    returns (d: Decision)
    ensures d == Dispatch(c, cmdName, usageText, positional)
  {
    if Arg(positional, 0) == "help" || |positional| == 0 {
      return Decision(HelpShown, 0, [], usageText, None);
    }
    var cmds := InstallUsage(c, cmdName);
    var name := positional[0];
    var found := FindCommand(cmds, name);
    match found
    case Some(i) =>
      d := Conclude(i, cmds[i], positional[1..]);
    case None =>
      d := Decision(UnknownCommand, FatalExitCode,
                    [UnknownMessage(cmdName, name), HelpHint(cmdName)], "", None);
  }

  /** First match wins: once some registered command answers to the name,
      registering further commands after it changes nothing about the run,
      even if they answer to the same name. */
  lemma FirstMatchWins(c: Commander, e: Commander, cmdName: string, usageText: string, positional: seq<string>)
    requires |positional| > 0 && Resolve(c, positional[0]).Some?
    ensures Dispatch(c + e, cmdName, usageText, positional) == Dispatch(c, cmdName, usageText, positional)
  {
    if !HelpRequested(positional) {
      var name := positional[0];
      ResolveAppend(c, e, name);
      ConfigureAppend(c, e, cmdName);
      ResolveConfigured(c, cmdName, name);
      ResolveConfigured(c + e, cmdName, name);
      var i := Resolve(c, name).value;
      assert ConfigureUsage(c + e, cmdName)[i] == ConfigureUsage(c, cmdName)[i];
    }
  }

  /** A handler cannot tell by which of its names it was invoked: any two
      names that resolve to the same command give the same run. */
  lemma AliasIndistinguishable(c: Commander, cmdName: string, usageText: string,
                               a: string, b: string, rest: seq<string>)
    requires a != "help" && b != "help"
    requires Resolve(c, a).Some? && Resolve(c, a) == Resolve(c, b)
    ensures Dispatch(c, cmdName, usageText, [a] + rest) == Dispatch(c, cmdName, usageText, [b] + rest)
  {
  }

  /** The unknown-subcommand log line names the unresolved argument
      recoverably: stripping the program-name prefix and unquoting gives the
      argument back exactly. */
  lemma UnknownNameRecoverable(c: Commander, cmdName: string, usageText: string, positional: seq<string>)
    requires Dispatch(c, cmdName, usageText, positional).state == UnknownCommand
    ensures
      var line := Dispatch(c, cmdName, usageText, positional).logs[0];
      var prefix := cmdName + ": unknown subcommand ";
      && prefix <= line
      && GoQuote.Unquote(line[|prefix|..]) == Some(positional[0])
  {
    var prefix := cmdName + ": unknown subcommand ";
    var line := UnknownMessage(cmdName, positional[0]);
    assert line == prefix + GoQuote.Quote(positional[0]);
    assert line[|prefix|..] == GoQuote.Quote(positional[0]);
    GoQuote.QuoteRoundTrip(positional[0]);
  }

  /** A run logs nothing exactly when it shows help, the handler succeeds, or
      the handler asks for an exit code without a cause. */
  lemma SilentIff(c: Commander, cmdName: string, usageText: string, positional: seq<string>)
    ensures var d := Dispatch(c, cmdName, usageText, positional);
      d.logs == [] <==>
        || d.state == HelpShown
        || d.state == HandlerSuccess
        || (d.state == ExplicitExit
            && c[d.invoked.value.command].handler(positional[1..]).inner.None?)
  {
  }
}
