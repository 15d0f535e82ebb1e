/** Composing options: the caller's options are applied one after another to a
    single builder, the first error stops the sequence, and the test entry point
    always appends default assembly after the caller's options. */
module Compose {
  import opened Wrappers
  import opened Fixture
  import Options

  /** An option of the Prosody package, with the outcome of the operating
      system's listen and close calls carried by the listener options. */
  datatype Opt =
    | ConfigFile(cfg: Config)
    | Ctl(ctlArgs: seq<string>)
    | ListenC2S(listen: Result<Port, Error>, release: Outcome<Error>)
    | ListenS2S(listen: Result<Port, Error>, release: Outcome<Error>)
    | VHost(hosts: seq<string>)
    | CreateUser(addr: string, password: string)
    | Modules(mods: seq<string>)
    | TrustAll
    | DefaultConfig  // unexported in the package: only the test entry point appends it

  /** One option applied to the builder. Every option only accumulates
      arguments and deferred work. */
  function Step(s: CmdState, o: Opt, parse: Parser): (r: Applied)
    ensures Grows(s, r.after)
    ensures !o.ConfigFile? ==> ConfigOf(s).modules <= ConfigOf(r.after).modules
  {
    match o
    case ConfigFile(cfg) => Options.ConfigFile(s, cfg)
    case Ctl(args) => Options.Ctl(s, args)
    case ListenC2S(listen, release) => Options.ListenC2S(s, listen, release)
    case ListenS2S(listen, release) => Options.ListenS2S(s, listen, release)
    case VHost(hosts) => Options.VHost(s, hosts)
    case CreateUser(addr, pass) => Options.CreateUser(s, addr, pass, parse)
    case Modules(mods) => Options.Modules(s, mods)
    case TrustAll => Options.TrustAll(s)
    case DefaultConfig => Options.DefaultConfig(s, parse)
  }

  /** Options applied in order, stopping at the first one that fails. */
  function Run(s: CmdState, opts: seq<Opt>, parse: Parser): (r: Applied)
    ensures Grows(s, r.after)
    decreases |opts|
  {
    if opts == [] then Applied(Pass, s)
    else
      var first := Step(s, opts[0], parse);
      if first.out.Fail? then first
      else
        var rest := Run(first.after, opts[1..], parse);
        GrowsTransitive(s, first.after, rest.after);
        rest
  }

  /** The test entry point: the caller's options, then default assembly. */
  function Test(s: CmdState, opts: seq<Opt>, parse: Parser): (r: Applied)
    ensures Grows(s, r.after)
  {
    Run(s, opts + [DefaultConfig], parse)
  }
}
