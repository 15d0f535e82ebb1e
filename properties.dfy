/** Properties that relate several options, or an option and the sequence it
    runs in. */
module Properties {
  import opened Wrappers
  import opened Fixture
  import Options
  import opened Compose

  /** Two `VHost` options in a row amount to one with the joined host list. */
  lemma VHostConcat(s: CmdState, a: seq<string>, b: seq<string>)
    ensures Options.VHost(Options.VHost(s, a).after, b) == Options.VHost(s, a + b)
  {
    assert ConfigOf(s).vhosts + a + b == ConfigOf(s).vhosts + (a + b);
  }

  /** Two `Modules` options in a row amount to one with the joined module list. */
  lemma ModulesConcat(s: CmdState, a: seq<string>, b: seq<string>)
    ensures Options.Modules(Options.Modules(s, a).after, b) == Options.Modules(s, a + b)
  {
    assert ConfigOf(s).modules + a + b == ConfigOf(s).modules + (a + b);
  }

  /** A second successful listener option overwrites the first: only the last
      port acquired for a connection class is kept. */
  lemma ListenKeepsLast(s: CmdState, p: Port, q: Port)
    ensures Options.ListenC2S(Options.ListenC2S(s, Success(p), Pass).after, Success(q), Pass)
         == Options.ListenC2S(s, Success(q), Pass)
    ensures Options.ListenS2S(Options.ListenS2S(s, Success(p), Pass).after, Success(q), Pass)
         == Options.ListenS2S(s, Success(q), Pass)
  {
  }

  /** Running two option lists back to back is running the first, then, if it
      succeeded, the second from where the first left the builder. */
  lemma {:induction false} RunConcat(s: CmdState, a: seq<Opt>, b: seq<Opt>, parse: Parser)
    ensures Run(s, a + b, parse) ==
      var ra := Run(s, a, parse);
      if ra.out.Fail? then ra else Run(ra.after, b, parse)
    decreases |a|
  {
    if a == [] {
      assert a + b == b;
    } else {
      assert (a + b)[0] == a[0];
      assert (a + b)[1..] == a[1..] + b;
      var first := Step(s, a[0], parse);
      if first.out.Pass? {
        RunConcat(first.after, a[1..], b, parse);
      }
    }
  }

  /** Default assembly always sees the builder exactly as the caller's options
      left it, and runs only when none of them failed. */
  lemma TestRunsDefaultLast(s: CmdState, opts: seq<Opt>, parse: Parser)
    ensures Test(s, opts, parse) ==
      var r := Run(s, opts, parse);
      if r.out.Fail? then r else Options.DefaultConfig(r.after, parse)
  {
    RunConcat(s, opts, [DefaultConfig], parse);
    var r := Run(s, opts, parse);
    if r.out.Pass? {
      var d := Step(r.after, DefaultConfig, parse);
      assert d == Options.DefaultConfig(r.after, parse);
      assert [DefaultConfig][1..] == [];
      assert Run(d.after, [], parse) == Applied(Pass, d.after);
    }
  }

  /** A fixture that the test entry point set up without error always has the
      daemon pointed at a config file. */
  lemma TestEndsConfigured(s: CmdState, opts: seq<Opt>, parse: Parser)
    ensures Test(s, opts, parse).out.Pass? ==> ConfigFlag in Test(s, opts, parse).after.args
  {
    TestRunsDefaultLast(s, opts, parse);
  }

  /** True when every option is a `VHost` or a `Modules` option. */
  predicate OnlyLists(opts: seq<Opt>)
  {
    forall i :: 0 <= i < |opts| ==> opts[i].VHost? || opts[i].Modules?
  }

  /** All hosts of the `VHost` options, in order. */
  function HostsOf(opts: seq<Opt>): seq<string>
  {
    if opts == [] then []
    else (if opts[0].VHost? then opts[0].hosts else []) + HostsOf(opts[1..])
  }

  /** All module names of the `Modules` options, in order. */
  function ModulesOf(opts: seq<Opt>): seq<string>
  {
    if opts == [] then []
    else (if opts[0].Modules? then opts[0].mods else []) + ModulesOf(opts[1..])
  }

  /** `t` is `s` with `hosts` appended to the vhosts and `mods` to the modules,
      and nothing else changed. */
  predicate ListsAppended(s: CmdState, t: CmdState, hosts: seq<string>, mods: seq<string>)
  {
    ConfigOf(t).vhosts == ConfigOf(s).vhosts + hosts &&
    ConfigOf(t).modules == ConfigOf(s).modules + mods &&
    ConfigOf(t).c2sPort == ConfigOf(s).c2sPort &&
    ConfigOf(t).s2sPort == ConfigOf(s).s2sPort &&
    t.(config := s.config) == s
  }

  lemma ListsAppendedChain(s: CmdState, t: CmdState, u: CmdState,
                           h1: seq<string>, m1: seq<string>, h2: seq<string>, m2: seq<string>)
    requires ListsAppended(s, t, h1, m1) && ListsAppended(t, u, h2, m2)
    ensures ListsAppended(s, u, h1 + h2, m1 + m2)
  {
    assert ConfigOf(s).vhosts + h1 + h2 == ConfigOf(s).vhosts + (h1 + h2);
    assert ConfigOf(s).modules + m1 + m2 == ConfigOf(s).modules + (m1 + m2);
  }

  /** Any sequence of `VHost` and `Modules` options succeeds and leaves the vhost
      and module lists equal to the concatenation, in call order, of their
      arguments; ports, arguments, deferred work and user are untouched. */
  lemma {:induction false} RunOnlyLists(s: CmdState, opts: seq<Opt>, parse: Parser)
    requires OnlyLists(opts)
    ensures Run(s, opts, parse).out == Pass
    ensures ListsAppended(s, Run(s, opts, parse).after, HostsOf(opts), ModulesOf(opts))
    decreases |opts|
  {
    if opts == [] {
      assert ListsAppended(s, s, [], []);
    } else {
      var o, rest := opts[0], opts[1..];
      assert OnlyLists(rest) by {
        forall i | 0 <= i < |rest| ensures rest[i].VHost? || rest[i].Modules? {
          assert rest[i] == opts[i + 1];
        }
      }
      var first := Step(s, o, parse);
      var h, m := if o.VHost? then o.hosts else [], if o.Modules? then o.mods else [];
      assert first.out.Pass? && ListsAppended(s, first.after, h, m) by {
        if o.VHost? {
          assert first == Options.VHost(s, o.hosts);
        } else {
          assert first == Options.Modules(s, o.mods);
        }
      }
      assert Run(s, opts, parse) == Run(first.after, rest, parse);
      RunOnlyLists(first.after, rest, parse);
      ListsAppendedChain(s, first.after, Run(s, opts, parse).after, h, m, HostsOf(rest), ModulesOf(rest));
    }
  }

  /** Once `--config` is among the daemon's arguments it stays there, whatever
      options follow. */
  lemma FlagPersists(s: CmdState, opts: seq<Opt>, parse: Parser)
    requires ConfigFlag in s.args
    ensures ConfigFlag in Run(s, opts, parse).after.args
  {
    PrefixKeeps(ConfigFlag, s.args, Run(s, opts, parse).after.args);
  }

  /** A successful `ConfigFile(cfg)` anywhere among the options leaves
      `--config` among the daemon's arguments and the rendering of `cfg`, as it
      was when the option ran, among the deferred work. */
  lemma {:induction false} ConfigFileSticks(s: CmdState, opts: seq<Opt>, cfg: Config, parse: Parser)
    requires ConfigFile(cfg) in opts
    requires Run(s, opts, parse).out.Pass?
    ensures ConfigFlag in Run(s, opts, parse).after.args
    ensures WriteFile(CfgFileName, Rendered(cfg, s.configDir)) in Run(s, opts, parse).after.deferred
    decreases |opts|
  {
    var r := Run(s, opts, parse);
    var first := Step(s, opts[0], parse);
    assert first.out.Pass?;
    assert r == Run(first.after, opts[1..], parse);
    if opts[0] == ConfigFile(cfg) {
      assert ConfigFlag in first.after.args;
      assert WriteFile(CfgFileName, Rendered(cfg, s.configDir)) in first.after.deferred;
      PrefixKeeps(ConfigFlag, first.after.args, r.after.args);
      PrefixKeeps(WriteFile(CfgFileName, Rendered(cfg, s.configDir)), first.after.deferred, r.after.deferred);
    } else {
      assert ConfigFile(cfg) in opts[1..];
      ConfigFileSticks(first.after, opts[1..], cfg, parse);
    }
  }

  /** An explicit config file switches default assembly off: when the caller's
      options include `ConfigFile(cfg)`, the test entry point ends exactly where
      the caller's options end. */
  lemma ConfigFileDisablesDefaults(s: CmdState, opts: seq<Opt>, cfg: Config, parse: Parser)
    requires ConfigFile(cfg) in opts
    ensures Test(s, opts, parse) == Run(s, opts, parse)
  {
    TestRunsDefaultLast(s, opts, parse);
    if Run(s, opts, parse).out.Pass? {
      ConfigFileSticks(s, opts, cfg, parse);
    }
  }

  /** Trust-all holds whatever else the caller asked for, as long as no explicit
      config file replaces the configuration: if the test entry point succeeds,
      `trustall` is an enabled module and `mod_trustall.lua` is registered. */
  lemma {:induction false} TrustAllSurvives(s: CmdState, opts: seq<Opt>, parse: Parser)
    requires TrustAll in opts
    requires forall i :: 0 <= i < |opts| ==> !opts[i].ConfigFile?
    ensures Test(s, opts, parse).out.Pass? ==>
      TrustAllModule in ConfigOf(Test(s, opts, parse).after).modules &&
      WriteFile(TrustAllFileName, TrustAllScript) in Test(s, opts, parse).after.deferred
    decreases |opts|
  {
    var t := Test(s, opts, parse);
    if t.out.Pass? {
      var first := Step(s, opts[0], parse);
      RunConcat(s, [opts[0]], opts[1..] + [DefaultConfig], parse);
      assert [opts[0]] + (opts[1..] + [DefaultConfig]) == opts + [DefaultConfig];
      assert [opts[0]][1..] == [];
      assert Run(s, [opts[0]], parse) == first;
      assert first.out.Pass?;
      assert t == Test(first.after, opts[1..], parse);
      if opts[0] == TrustAll {
        assert TrustAllModule in ConfigOf(first.after).modules;
        assert WriteFile(TrustAllFileName, TrustAllScript) in first.after.deferred;
        ModulesGrowWithoutConfigFile(first.after, opts[1..] + [DefaultConfig], parse);
        PrefixKeeps(TrustAllModule, ConfigOf(first.after).modules, ConfigOf(t.after).modules);
        PrefixKeeps(WriteFile(TrustAllFileName, TrustAllScript), first.after.deferred, t.after.deferred);
      } else {
        assert TrustAll in opts[1..];
        TrustAllSurvives(first.after, opts[1..], parse);
      }
    }
  }

  /** Without an explicit config file, enabled modules are only ever added to. */
  lemma {:induction false} ModulesGrowWithoutConfigFile(s: CmdState, opts: seq<Opt>, parse: Parser)
    requires forall i :: 0 <= i < |opts| ==> !opts[i].ConfigFile?
    ensures ConfigOf(s).modules <= ConfigOf(Run(s, opts, parse).after).modules
    decreases |opts|
  {
    if opts != [] {
      var first := Step(s, opts[0], parse);
      if first.out.Pass? {
        ModulesGrowWithoutConfigFile(first.after, opts[1..], parse);
        var m0, m1, m2 := ConfigOf(s).modules, ConfigOf(first.after).modules, ConfigOf(Run(s, opts, parse).after).modules;
        assert m0 == m1[..|m0|] == m2[..|m1|][..|m0|];
      }
    }
  }

  /** With no caller option, a fixture whose helpers all succeed and whose
      address parser splits `me@localhost` gets the vhost `localhost` and its
      certificate, the user `me@localhost` with password `password`, and a
      config file rendered for exactly that one vhost. */
  lemma DefaultsForEmptyFixture(configDir: string, parse: Parser)
    requires parse("me@localhost") == Some(Jid("me", "localhost", ""))
    ensures Test(Initial(configDir, {}), [], parse) == Applied(Pass, CmdState(
      Some(Config([Localhost], [], 0, 0)),
      [CmdName, ConfigFlag, CfgFilePath(configDir)],
      [ IssueCert(Localhost),
        CtlRun([CtlName, ConfigFlag, CfgFilePath(configDir), "register", "me", "localhost", "password"]),
        WriteFile(CfgFileName, Rendered(Config([Localhost], [], 0, 0), configDir)) ],
      Jid("me", "localhost", ""), "password", configDir, {}))
  {
    var s := Initial(configDir, {});
    TestRunsDefaultLast(s, [], parse);
    assert ConfigFlag !in s.args;
    var r := Options.DefaultConfig(s, parse);
    assert DefaultLocalPrefix + Localhost == "me@localhost";
    assert r.out.Pass?;
    assert r.after.config == Some(Config([Localhost], [], 0, 0));
    assert r.after.user == Jid("me", "localhost", "");
    assert Run(s, [], parse) == Applied(Pass, s);
    assert Test(s, [], parse) == r;
    assert r.after.args == [CmdName] + [ConfigFlag, CfgFilePath(configDir)];
    assert r.after.deferred == [] + [IssueCert(Localhost)]
      + [CtlRun(CtlArgv(configDir, ["register", "me", "localhost", DefaultPassword]))]
      + [WriteFile(CfgFileName, Rendered(Config([Localhost], [], 0, 0), configDir))];
    assert r.after.pass == "password";
    assert CtlArgv(configDir, ["register", "me", "localhost", DefaultPassword])
        == [CtlName, ConfigFlag, CfgFilePath(configDir), "register", "me", "localhost", "password"];
    assert r.after.configDir == configDir && r.after.faults == {};
  }
}
