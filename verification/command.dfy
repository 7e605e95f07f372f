/** The data model of cmder.go: a Command (its flag set, aliases, handler and
    optional usage function), a Commander (the ordered list of commands), the
    outcomes a handler can return, and the two pieces of per-command logic:
    name/alias matching and the choice of usage renderer. */
module Commands {
  import opened Wrappers

  /** An error value a handler returns; `message` is what its Error() yields
      and therefore what the log shows. */
  datatype Error = Error(message: string)

  /** What a handler returned, classified the way Run classifies it:
      nil, *UsageError, *ExitCodeError, or any other non-nil error. A usage
      error carries the text it logs: even with a nil Err, fmt recovers the
      panic of its Error() method and logs a placeholder text, and the run
      goes on to print the usage and exit 2. An exit-code error may carry no
      cause, in which case nothing is logged. */
  datatype Outcome =
    | Success
    | Usage(cause: Error)
    | ExitCode(inner: Option<Error>, code: int)
    | Other(cause: Error)

  /** The parts of a command's flag.FlagSet the dispatcher uses: its name,
      the text PrintDefaults writes, and the text its current Usage function
      writes. */
  datatype FlagSet = FlagSet(name: string, defaults: string, usage: string)

  /** A subcommand. `usageFunc` is the text the command's own UsageFunc
      writes, None when that field is nil. */
  datatype Command = Command(
    flagSet: FlagSet,
    aliases: seq<string>,
    handler: seq<string> -> Outcome,
    usageFunc: Option<string>)

  /** Commands in registration order. */
  type Commander = seq<Command>

  /** The alias scan of `matches`: true iff some alias equals `name`. */
  function AnyAlias(aliases: seq<string>, name: string): (b: bool)
    ensures b <==> name in aliases
    decreases |aliases|
  {
    if |aliases| == 0 then false
    else if name == aliases[0] then true
    else AnyAlias(aliases[1..], name)
  }

  /** `matches`: the flag-set name first, then each alias, each compared by
      exact string equality (no case folding, trimming or prefixes). */
  function Matches(cmd: Command, name: string): (b: bool)
    ensures b <==> name == cmd.flagSet.name || name in cmd.aliases
  {
    if name == cmd.flagSet.name then true else AnyAlias(cmd.aliases, name)
  }

  /** The usage text Run synthesises for a command without a UsageFunc. */
  function DefaultUsage(cmdName: string, name: string, defaults: string): string {
    "Usage of '" + cmdName + " " + name + "':\n" + defaults
  }

  /** The renderer Run selects for a command: its own UsageFunc when set,
      otherwise the default naming both the program and the subcommand. */
  function UsageText(cmd: Command, cmdName: string): string {
    match cmd.usageFunc
    case Some(text) => text
    case None => DefaultUsage(cmdName, cmd.flagSet.name, cmd.flagSet.defaults)
  }

  /** A command after Run has installed its usage renderer. */
  function WithUsage(cmd: Command, cmdName: string): Command {
    cmd.(flagSet := cmd.flagSet.(usage := UsageText(cmd, cmdName)))
  }

  /** The "configure default usage funcs" loop: every command's flag set
      gets the selected usage renderer and nothing else about any command
      changes. */
  function ConfigureUsage(c: Commander, cmdName: string): (r: Commander)
    ensures |r| == |c|
    ensures forall i :: 0 <= i < |c| ==>
      && r[i].flagSet.name == c[i].flagSet.name
      && r[i].flagSet.defaults == c[i].flagSet.defaults
      && r[i].aliases == c[i].aliases
      && r[i].handler == c[i].handler
      && r[i].usageFunc == c[i].usageFunc
    ensures forall i :: 0 <= i < |c| && c[i].usageFunc.Some? ==>
      r[i].flagSet.usage == c[i].usageFunc.value
    ensures forall i :: 0 <= i < |c| && c[i].usageFunc.None? ==>
      r[i].flagSet.usage == DefaultUsage(cmdName, c[i].flagSet.name, c[i].flagSet.defaults)
  {
    seq(|c|, i requires 0 <= i < |c| => WithUsage(c[i], cmdName))
  }

  /** Running the configuration twice renders exactly what running it once
      does: the synthesised usage is a pure function of the command. */
  lemma ConfigureIdempotent(c: Commander, cmdName: string)
    ensures ConfigureUsage(ConfigureUsage(c, cmdName), cmdName) == ConfigureUsage(c, cmdName)
  {
  }

  /** Configuration distributes over concatenation, so commands registered
      later never alter the renderers of those registered earlier. */
  lemma ConfigureAppend(c: Commander, e: Commander, cmdName: string)
    ensures ConfigureUsage(c + e, cmdName) == ConfigureUsage(c, cmdName) + ConfigureUsage(e, cmdName)
  {
  }
}
