/** The shared command builder of a Prosody fixture and the options that mutate
    it in place. Every method is proved to leave the builder, and to return the
    error, that its specification in `Options` or `Compose` prescribes. */
module Prosody {
  import opened Wrappers
  import opened Fixture
  import Integration
  import Options
  import Compose

  class Cmd {
    /** The structured configuration; `None` while the Go field is nil. */
    var config: Option<Config>
    /** The daemon's command line, starting with the binary's name. */
    var args: seq<string>
    /** Files, certificates and administration runs registered for start-up. */
    var deferred: seq<Action>
    /** The recorded default user and password; `ZeroJid` when none. */
    var user: Jid
    var pass: string
    /** The config directory owned by the lifecycle manager. */
    const configDir: string
    /** The lifecycle helpers that report an error on this fixture. */
    const faults: set<Helper>

    /** The builder as a value. */
    function Snapshot(): CmdState
      reads this
    {
      CmdState(config, args, deferred, user, pass, configDir, faults)
    }

    /** A new, unstarted daemon command. */
    constructor (configDir: string, faults: set<Helper>)
      ensures Snapshot() == Initial(configDir, faults)
    {
      config := None;
      args := [CmdName];
      deferred := [];
      user := ZeroJid;
      pass := "";
      this.configDir := configDir;
      this.faults := faults;
    }

    // The lifecycle helpers, one method each.

    method TempFile(name: string, body: FileBody) returns (out: Outcome<Error>)
      modifies this
      ensures Applied(out, Snapshot()) == Integration.TempFile(old(Snapshot()), name, body)
    {
      if TempFileHelper in faults { return Fail(HelperFailed(TempFileHelper)); }
      deferred := deferred + [WriteFile(name, body)];
      out := Pass;
    }

    method Defer(action: Action) returns (out: Outcome<Error>)
      modifies this
      ensures Applied(out, Snapshot()) == Integration.Defer(old(Snapshot()), action)
    {
      if DeferHelper in faults { return Fail(HelperFailed(DeferHelper)); }
      deferred := deferred + [action];
      out := Pass;
    }

    method Cert(host: string) returns (out: Outcome<Error>)
      modifies this
      ensures Applied(out, Snapshot()) == Integration.Cert(old(Snapshot()), host)
    {
      if CertHelper in faults { return Fail(HelperFailed(CertHelper)); }
      deferred := deferred + [IssueCert(host)];
      out := Pass;
    }

    method SetUser(j: Jid, password: string) returns (out: Outcome<Error>)
      modifies this
      ensures Applied(out, Snapshot()) == Integration.User(old(Snapshot()), j, password)
    {
      if UserHelper in faults { return Fail(HelperFailed(UserHelper)); }
      user, pass := j, password;
      out := Pass;
    }

    method AddArgs(extra: seq<string>) returns (out: Outcome<Error>)
      modifies this
      ensures Applied(out, Snapshot()) == Integration.Args(old(Snapshot()), extra)
    {
      if ArgsHelper in faults { return Fail(HelperFailed(ArgsHelper)); }
      args := args + extra;
      out := Pass;
    }

    // The options of the Prosody package.

    /** Reads the configuration, first storing the zero value if none is stored. */
    method GetConfig() returns (cfg: Config)
      modifies this
      ensures cfg == ConfigOf(old(Snapshot()))
      ensures Snapshot() == Options.GetConfig(old(Snapshot()))
    {
      if config.None? {
        config := Some(EmptyConfig);
      }
      cfg := config.value;
    }

    method ConfigFile(cfg: Config) returns (out: Outcome<Error>)
      modifies this
      ensures Applied(out, Snapshot()) == Options.ConfigFile(old(Snapshot()), cfg)
    {
      config := Some(cfg);
      out := TempFile(CfgFileName, Rendered(cfg, configDir));
      if out.Fail? {
        return;
      }
      out := AddArgs([ConfigFlag, CfgFilePath(configDir)]);
    }

    method Ctl(ctlArgs: seq<string>) returns (out: Outcome<Error>)
      modifies this
      ensures Applied(out, Snapshot()) == Options.Ctl(old(Snapshot()), ctlArgs)
    {
      out := Defer(CtlRun(CtlArgv(configDir, ctlArgs)));
    }

    method ListenC2S(listen: Result<Port, Error>, release: Outcome<Error>) returns (out: Outcome<Error>)
      modifies this
      ensures Applied(out, Snapshot()) == Options.ListenC2S(old(Snapshot()), listen, release)
    {
      if listen.Failure? {
        return Fail(listen.error);
      }
      var port := listen.value;
      if release.Fail? {
        return release;
      }
      var cfg := GetConfig();
      cfg := cfg.(c2sPort := port);
      config := Some(cfg);
      out := Pass;
    }

    method ListenS2S(listen: Result<Port, Error>, release: Outcome<Error>) returns (out: Outcome<Error>)
      modifies this
      ensures Applied(out, Snapshot()) == Options.ListenS2S(old(Snapshot()), listen, release)
    {
      if listen.Failure? {
        return Fail(listen.error);
      }
      var port := listen.value;
      if release.Fail? {
        return release;
      }
      var cfg := GetConfig();
      cfg := cfg.(s2sPort := port);
      config := Some(cfg);
      out := Pass;
    }

    method VHost(hosts: seq<string>) returns (out: Outcome<Error>)
      modifies this
      ensures Applied(out, Snapshot()) == Options.VHost(old(Snapshot()), hosts)
    {
      var cfg := GetConfig();
      cfg := cfg.(vhosts := cfg.vhosts + hosts);
      config := Some(cfg);
      out := Pass;
    }

    method CreateUser(addr: string, password: string, parse: Parser) returns (out: Outcome<Error>)
      modifies this
      ensures Applied(out, Snapshot()) == Options.CreateUser(old(Snapshot()), addr, password, parse)
    {
      var j := parse(addr);
      if j.None? {
        return Fail(BadAddress(addr));
      }
      out := Ctl(["register", j.value.local, j.value.domain, password]);
      if out.Fail? {
        return;
      }
      out := SetUser(j.value, password);
    }

    /** Appends the module names one at a time. */
    method Modules(mods: seq<string>) returns (out: Outcome<Error>)
      modifies this
      ensures Applied(out, Snapshot()) == Options.Modules(old(Snapshot()), mods)
    {
      var cfg := GetConfig();
      for i := 0 to |mods|
        invariant cfg.modules == ConfigOf(old(Snapshot())).modules + mods[..i]
        invariant cfg.(modules := ConfigOf(old(Snapshot())).modules) == ConfigOf(old(Snapshot()))
        invariant Snapshot() == Options.GetConfig(old(Snapshot()))
      {
        cfg := cfg.(modules := cfg.modules + [mods[i]]);
      }
      assert mods[..|mods|] == mods;
      config := Some(cfg);
      out := Pass;
    }

    method TrustAll() returns (out: Outcome<Error>)
      modifies this
      ensures Applied(out, Snapshot()) == Options.TrustAll(old(Snapshot()))
    {
      out := Modules([TrustAllModule]);
      if out.Fail? {
        return;
      }
      out := TempFile(TrustAllFileName, TrustAllScript);
    }

    /** Scans the daemon's arguments for the config flag. */
    method HasConfigFlag() returns (found: bool)
      ensures found <==> ConfigFlag in args
    {
      for i := 0 to |args|
        invariant forall k :: 0 <= k < i ==> args[k] != ConfigFlag
      {
        if args[i] == ConfigFlag {
          return true;
        }
      }
      return false;
    }

    method DefaultConfig(parse: Parser) returns (out: Outcome<Error>)
      modifies this
      ensures Applied(out, Snapshot()) == Options.DefaultConfig(old(Snapshot()), parse)
    {
      var flagged := HasConfigFlag();
      if flagged {
        return Pass;
      }
      ghost var start := old(Snapshot());
      var cfg := GetConfig();
      ghost var read := Snapshot();
      if |cfg.vhosts| == 0 {
        cfg := cfg.(vhosts := cfg.vhosts + [Localhost]);
        assert cfg == ConfigOf(read).(vhosts := [Localhost]);
        out := Cert(Localhost);
        if out.Fail? {
          return;
        }
        assert Snapshot() == Integration.Cert(read, Localhost).after;
      }
      assert Options.DefaultConfig(start, parse) == Options.DefaultUserAndFile(Snapshot(), cfg, parse);
      config := Some(cfg);
      if user == ZeroJid {
        out := CreateUser(DefaultLocalPrefix + cfg.vhosts[0], DefaultPassword, parse);
        if out.Fail? {
          return;
        }
      }
      out := ConfigFile(cfg);
    }

    /** Applies one option. */
    method Apply(o: Compose.Opt, parse: Parser) returns (out: Outcome<Error>)
      modifies this
      ensures Applied(out, Snapshot()) == Compose.Step(old(Snapshot()), o, parse)
    {
      match o
      case ConfigFile(cfg) => out := ConfigFile(cfg);
      case Ctl(ctlArgs) => out := Ctl(ctlArgs);
      case ListenC2S(listen, release) => out := ListenC2S(listen, release);
      case ListenS2S(listen, release) => out := ListenS2S(listen, release);
      case VHost(hosts) => out := VHost(hosts);
      case CreateUser(addr, password) => out := CreateUser(addr, password, parse);
      case Modules(mods) => out := Modules(mods);
      case TrustAll => out := TrustAll();
      case DefaultConfig => out := DefaultConfig(parse);
    }

    /** Applies the options in order and stops at the first error. */
    method ApplyAll(opts: seq<Compose.Opt>, parse: Parser) returns (out: Outcome<Error>)
      modifies this
      ensures Applied(out, Snapshot()) == Compose.Run(old(Snapshot()), opts, parse)
    {
      for i := 0 to |opts|
        invariant Compose.Run(old(Snapshot()), opts, parse) == Compose.Run(Snapshot(), opts[i..], parse)
      {
        out := Apply(opts[i], parse);
        if out.Fail? {
          return;
        }
        assert opts[i..][1..] == opts[i + 1..];
      }
      assert opts[|opts|..] == [];
      out := Pass;
    }
  }

  /** A daemon command with the caller's options applied. */
  method New(configDir: string, faults: set<Helper>, opts: seq<Compose.Opt>, parse: Parser)
    returns (cmd: Cmd, out: Outcome<Error>)
    ensures fresh(cmd)
    ensures Applied(out, cmd.Snapshot()) == Compose.Run(Initial(configDir, faults), opts, parse)
  {
    cmd := new Cmd(configDir, faults);
    out := cmd.ApplyAll(opts, parse);
  }

  /** The test entry point: default assembly always runs after the caller's options. */
  method Test(configDir: string, faults: set<Helper>, opts: seq<Compose.Opt>, parse: Parser)
    returns (cmd: Cmd, out: Outcome<Error>)
    ensures fresh(cmd)
    ensures Applied(out, cmd.Snapshot()) == Compose.Test(Initial(configDir, faults), opts, parse)
  {
    cmd, out := New(configDir, faults, opts + [Compose.DefaultConfig], parse);
  }
}
