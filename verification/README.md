# cmder dispatcher, modelled in Dafny

`cmder` is a small Go package for command-line programs with subcommands. A
program registers a list of `Command`s (a `Commander`): each has its own
flag set (whose name is the subcommand's name), a list of aliases, a handler
and an optional usage function. `Commander.Run` then does the following:

1. It shows the top-level usage when there is no positional argument or the
   first one is `help`.
2. It installs a usage renderer on every command.
3. It resolves the first positional argument against the commands in
   registration order.
4. It calls the matched handler with the remaining arguments.
5. It turns the handler's error into log lines and an exit code.

The Go code prints, logs and calls `os.Exit` inline. The model is pure
instead. `Dispatcher.Dispatch` returns a `Decision` with these parts:

- the terminal state reached: help shown, unknown command, handler success,
  usage error, explicit exit, or fatal error;
- the exit code;
- the log lines, in order;
- the usage text written to the flag output;
- which command's handler was called, with which arguments.

A handler is a total function from its arguments to an `Outcome`. A Go handler closure could also read global state such as `os.Args` or `flag.CommandLine.Arg(0)`. The model does not give handlers that access, which is what makes Dispatcher.AliasIndistinguishable hold. An
`Outcome` is `Success`, `Usage(cause)` (a `*UsageError`),
`ExitCode(inner, code)` (a `*ExitCodeError`), or `Other(cause)` (any other
error). `Dispatcher.Run` is the same procedure written with the two loops of
the Go code, and it is proved to compute exactly what `Dispatch` computes.

The unknown-subcommand log line formats the name with Go's `%q` verb. The
module `GoQuote` models that verb (strconv.Quote) together with its inverse,
so the model proves that the log line names the argument without loss. The
name is escaped, not written verbatim between plain quotes: a name holding a
quote, a backslash or a control character shows up as a Go escape sequence.

Files:

- `wrappers.dfy`: `Option`.
- `quote.dfy`: `%q` quoting and unquoting.
- `command.dfy`: commands, outcomes, `matches`, and usage-renderer selection.
- `dispatch.dfy`: `Run` as a decision.
- `kurl.dfy`: the example program's three invocations.

## Model

| member | source | states |
|---|---|---|
| Commands.AnyAlias | cmder.go:34-39 | the alias scan answers true exactly when the name is one of the aliases |
| Commands.Matches | cmder.go:30-40 | a command matches a name iff the name equals its flag-set name or one of its aliases, by exact equality with no normalisation |
| Commands.ConfigureUsage | cmder.go:69-80 | every command keeps its name, flag defaults, aliases, handler and usage function; its usage becomes its own UsageFunc when set, else the header `Usage of '<cmdName> <name>':` followed by the flag defaults |
| Commands.ConfigureIdempotent | cmder.go:69-80 | installing the renderers a second time gives exactly the commands the first pass gave |
| Commands.ConfigureAppend | cmder.go:70-80 | the installation treats each command on its own, so commands added later leave earlier renderers untouched |
| Dispatcher.Resolve | cmder.go:83-88 | the result is the index of the first command, in registration order, that matches the name; it is None only when no command matches |
| Dispatcher.ResolveAppend | cmder.go:84-88 | once a command matches, appending more commands does not change which one is found |
| Dispatcher.Conclude | cmder.go:90-104 | nil exits 0 and logs nothing; a usage error logs its cause, prints the command's usage and exits 2; an exit-code error logs only a present cause and exits with its own code, 0 included; any other error logs and exits 1 |
| Dispatcher.Dispatch | cmder.go:63-107 | every run ends in one terminal state whose exit code is fixed (help 0, unknown 1, success 0, usage error 2, fatal 1, explicit exit its own code); help is chosen iff there is no argument or the first is `help`, whatever is registered, and prints the top-level usage; unknown is chosen iff no command matches and logs the unknown line and the help hint; otherwise the first match's handler runs on the arguments after the name, with its selected usage, and its outcome is reported as Conclude states; the help test (HelpRequested), the two unknown-subcommand lines (UnknownMessage, HelpHint) and the usage selection (UsageText, DefaultUsage) are the format helpers this contract uses |
| Dispatcher.InstallUsage | cmder.go:69-80 | the renderer-installing loop produces exactly the configured commander |
| Dispatcher.FindCommand | cmder.go:83-88 | the scanning loop finds exactly the first match, or none |
| Dispatcher.Run | cmder.go:51-108 | the imperative procedure, following the Go control flow, reaches the same decision as Dispatch on every input |
| Dispatcher.FirstMatchWins | cmder.go:84-105 | commands registered after the first matching one, even ones answering to the same name, cannot change the run |
| Dispatcher.AliasIndistinguishable | cmder.go:83-90 | two names that resolve to the same command give identical runs: cmder passes the handler only the arguments after the name, and the model makes a handler a function of those arguments alone |
| Dispatcher.UnknownNameRecoverable | cmder.go:106 | the unknown-subcommand line is `<cmdName>: unknown subcommand ` followed by a quoted literal that unquotes to exactly the unresolved argument |
| Dispatcher.SilentIff | cmder.go:90-104 | a run logs nothing iff it shows help, the handler succeeds, or the handler returns an exit-code error without a cause |
| GoQuote.EscapeChar | cmder.go:106 | how `%q` writes one ASCII character: one to four characters, never a bare double quote or newline, and a single character exactly when no backslash escape is used |
| GoQuote.Quote | cmder.go:106 | the `%q` rendering is wrapped in double quotes and is at least two characters longer than its argument; QuoteRoundTrip makes it injective |
| GoQuote.UnescapeEscape | cmder.go:106 | unescaping the escaped body of any string gives the string back |
| GoQuote.QuoteRoundTrip | cmder.go:106 | Unquote recovers every string from its `%q` rendering |
| Kurl.FetchRunsGet | example/kurl/get.go:24-53 | `kurl fetch https://x` reaches get's handler with just `["https://x"]`, the custom usage in force, and exits 0 silently |
| Kurl.NoArgumentsShowsHelp | cmder.go:63-67 | `kurl` with no argument prints the top-level usage text and exits 0 |
| Kurl.BogusIsUnknown | cmder.go:106-107 | `kurl bogus` ends as an unknown command with exit code 1 and the two log lines |
| Kurl.QuoteBogus | cmder.go:106 | `%q` renders `bogus` as `"bogus"` |

## Left out

- Flag parsing by Go's `flag` package, and the panic when `Parse` fails under a non-exiting error mode (cmder.go:56-61): the model starts from the parsed positional arguments, as if `flag.ExitOnError` is in use.
- Real output and termination: `fmt.Fprint`, `log.Println`, `log.Printf`, `log.Fatal`, `log.Fatalf` and `os.Exit` become fields of `Decision`. Log lines are modelled as messages, without the log package's prefix, timestamp or trailing newline. Log lines and usage text go to separate fields, so their interleaving on a shared stream is not modelled; in the usage-error case the log line is written before the usage. The default renderer writes its header to `flag.CommandLine.Output()` (cmder.go:77), while `PrintDefaults` writes to the subcommand flag set's own output (cmder.go:78). These become different writers once a program calls `SetOutput`; the model joins both into the one `output` string.
- The exit code is the integer passed to `os.Exit`. The operating system's truncation to 8 bits is not modelled.
- The `Error()` methods of `UsageError` and `ExitCodeError` (cmder.go:118, 131) only forward to the inner error. An `Error`'s `message` stands for that text. `Usage` always carries the text that is logged. For a `*UsageError` whose `Err` is nil, the log package formats through fmt, which recovers the panic in `Error()`. The log line is then fmt's placeholder: `%!v(PANIC=Error method: ...)` for `&UsageError{}`, and `<nil>` for a typed-nil pointer. The run still prints the usage and exits 2. The model covers these runs as `Usage` with that placeholder as the message.
- The handlers' bodies and side effects are not modelled. A handler is a total function from its arguments to an `Outcome`. A Go handler closure could also read global state such as `os.Args` or `flag.CommandLine.Arg(0)`. The model does not give handlers that access, which is what makes Dispatcher.AliasIndistinguishable hold. The handler itself chooses the outcome's tag. Go's dispatcher decides by type assertion on the concrete pointer type, so a wrapped `*UsageError` counts as `Other`; the model expresses that by the handler returning `Other`.
- Paths where `Run` itself panics are not modelled. A nil `*Command` entry in the list panics in the configure loop when `cmd.UsageFunc` is read (cmder.go:72). A `Command` with a nil `FlagSet` also panics in that loop, when `cmd.FlagSet.Usage` is assigned (cmder.go:73 or 76). Because the loop runs over the whole list after the help check and before resolution, either panic ends every non-help run, even when an earlier command matches the name. A matched command with a nil `Handler` panics when called (cmder.go:90). A typed-nil `*ExitCodeError` passes the type assertion and panics when `e.Err` is read (cmder.go:97). `Outcome` and the total `handler` field cannot express any of these. Several commands sharing one `*flag.FlagSet` is not modelled either; in Go the last usage assignment would win.
- Dispatcher.FirstMatchWins: holds only for the lists the model can express, which have no nil `*Command` entries and no nil flag sets. In Go, a later command with a nil `FlagSet` makes the run panic in the configure loop even though an earlier command matches.
- GoQuote.EscapeChar: non-printable non-ASCII characters (U+0085, for one) come back unchanged, whereas Go's `%q` writes them as a `\u` or `\U` escape of six or ten characters; only the ASCII cases follow strconv.
- GoQuote.Quote: only the ASCII behaviour of strconv.Quote is modelled. Non-ASCII characters are copied verbatim, whereas Go escapes non-printable non-ASCII runes as `\u`/`\U` and invalid UTF-8 bytes as `\x`; Dafny strings are sequences of Unicode characters, not bytes.
- The example program `example/kurl` appears only as the scenario lemmas in `kurl.dfy`. Its registration in `init` through a global list, its printing, and its full help texts are not modelled.
