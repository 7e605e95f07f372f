/** The example program `kurl`: one subcommand "get", aliased "fetch", with
    its own usage function and a handler that returns nil. */
module Kurl {
  import opened Wrappers
  import opened Commands
  import opened Dispatcher

  /** What PrintDefaults writes for get's single boolean flag. */
  const GetDefaults := "  -verbose\n    \tinclude verbose information (default true)\n"

  const GetUsage := "Usage of 'kurl get':\n" + GetDefaults + "\nExamples: ...\n"

  const Get := Command(FlagSet("get", GetDefaults, ""), ["fetch"], _ => Success, Some(GetUsage))

  const UsageTextKurl := "kurl is a tool that makes HTTP requests.\n..."

  /** `kurl fetch https://x` reaches get's handler with the URL alone. */
  lemma FetchRunsGet()
    ensures var d := Dispatch([Get], "kurl", UsageTextKurl, ["fetch", "https://x"]);
      && d.invoked == Some(Invocation(0, ["https://x"], GetUsage))
      && d.state == HandlerSuccess && d.exitCode == 0 && d.logs == []
  {
  }

  /** `kurl` with no arguments shows the top-level usage and exits 0. */
  lemma NoArgumentsShowsHelp()
    ensures var d := Dispatch([Get], "kurl", UsageTextKurl, []);
      d.state == HelpShown && d.exitCode == 0 && d.output == UsageTextKurl
  {
  }

  /** `%q` renders a plain word as the word in double quotes. */
  lemma QuoteBogus()
    ensures GoQuote.Quote("bogus") == "\"bogus\""
  {
  }

  /** `kurl bogus` logs the unknown name and the help hint and exits
      fatally; QuoteBogus shows how the name appears in the first line. */
  lemma BogusIsUnknown()
    ensures var d := Dispatch([Get], "kurl", UsageTextKurl, ["bogus"]);
      && d.state == UnknownCommand && d.exitCode == 1
      && d.logs == [UnknownMessage("kurl", "bogus"), HelpHint("kurl")]
  {
  }
}
