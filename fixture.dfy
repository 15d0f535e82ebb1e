/** The data an option of the Prosody test fixture works on: the structured
    configuration, the addresses and deferred work it refers to, and a value
    snapshot of the shared command builder. */
module Fixture {
  import opened Wrappers

  /** Name of the daemon binary; `exec.Cmd` keeps it as the first argument. */
  const CmdName := "prosody"
  /** Name of the daemon's administration tool. */
  const CtlName := "prosodyctl"
  const CfgFileName := "prosody.cfg.lua"
  const ConfigFlag := "--config"

  /** Defaults injected by the default-assembly step. */
  const Localhost := "localhost"
  const DefaultLocalPrefix := "me@"
  const DefaultPassword := "password"

  /** The module enabled by the trust-all option, and the file that implements it. */
  const TrustAllModule := "trustall"
  const TrustAllFileName := "mod_" + TrustAllModule + ".lua"

  /** A TCP port number as the operating system reports it. */
  type Port = p: int | 0 <= p < 0x1_0000

  /** The structured configuration rendered into the daemon's config file.
      Its zero value (no vhosts, no modules, both ports 0) is `EmptyConfig`. */
  datatype Config = Config(vhosts: seq<string>, modules: seq<string>, c2sPort: Port, s2sPort: Port)

  const EmptyConfig := Config([], [], 0, 0)

  /** An XMPP address split into its parts; `ZeroJid` is Go's `jid.JID{}`. */
  datatype Jid = Jid(local: string, domain: string, resource: string)

  const ZeroJid := Jid("", "", "")

  /** The address parser, an external collaborator: `None` is a parse error. */
  type Parser = string -> Option<Jid>

  /** What a registered file will contain: the config template rendered with a
      configuration and the config directory, or the static trust-all script. */
  datatype FileBody = Rendered(cfg: Config, configDir: string) | TrustAllScript

  /** Work registered on the builder and performed when the daemon is started. */
  datatype Action =
    | WriteFile(name: string, body: FileBody)
    | IssueCert(host: string)
    | CtlRun(argv: seq<string>)

  /** The helpers of the process-lifecycle package that an option calls. */
  datatype Helper = TempFileHelper | DeferHelper | CertHelper | UserHelper | ArgsHelper

  datatype Error =
    | BadAddress(addr: string)
    | OsError(reason: string)
    | HelperFailed(helper: Helper)

  /** A snapshot of the command builder. `config` is `None` while the Go field is
      still nil. `configDir` and `faults` never change: the first is the
      directory the lifecycle manager owns, the second says which of its helpers
      report an error when called. */
  datatype CmdState = CmdState(
    config: Option<Config>,
    args: seq<string>,
    deferred: seq<Action>,
    user: Jid,
    pass: string,
    configDir: string,
    faults: set<Helper>)

  /** The error an option returned, and the builder afterwards. */
  datatype Applied = Applied(out: Outcome<Error>, after: CmdState)

  /** A new, unstarted daemon command: nothing configured yet. */
  function Initial(configDir: string, faults: set<Helper>): CmdState
  {
    CmdState(None, [CmdName], [], ZeroJid, "", configDir, faults)
  }

  /** The configuration an option reads: the stored one, or the zero value. */
  function ConfigOf(s: CmdState): Config
  {
    match s.config
    case Some(cfg) => cfg
    case None => EmptyConfig
  }

  /** Joining a directory and a file name. */
  function JoinPath(dir: string, name: string): string
  {
    if dir == [] then name else dir + "/" + name
  }

  function CfgFilePath(configDir: string): string
  {
    JoinPath(configDir, CfgFileName)
  }

  /** The command line of an administration-tool run: always pointed at the
      rendered config file, then the caller's arguments. */
  function CtlArgv(configDir: string, args: seq<string>): seq<string>
  {
    [CtlName, ConfigFlag, CfgFilePath(configDir)] + args
  }

  /** The builder only accumulates: arguments and deferred work are extended,
      never shortened or reordered, and the fixed context stays as it was. */
  predicate Grows(s: CmdState, t: CmdState)
  {
    s.args <= t.args && s.deferred <= t.deferred &&
    t.configDir == s.configDir && t.faults == s.faults
  }

  lemma GrowsTransitive(s: CmdState, t: CmdState, u: CmdState)
    requires Grows(s, t) && Grows(t, u)
    ensures Grows(s, u)
  {
    assert s.args == t.args[..|s.args|] == u.args[..|t.args|][..|s.args|];
    assert s.deferred == t.deferred[..|s.deferred|] == u.deferred[..|t.deferred|][..|s.deferred|];
  }

  lemma PrefixKeeps<T>(x: T, a: seq<T>, b: seq<T>)
    requires a <= b && x in a
    ensures x in b
  {
    var i :| 0 <= i < |a| && a[i] == x;
    assert b[i] == x;
  }
}
