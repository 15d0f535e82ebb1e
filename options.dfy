/** The Prosody options as specifications: each function gives the error an
    option returns and the builder it leaves, as a function of the builder it
    was applied to. The methods of `Prosody.Cmd` are proved against them. */
module Options {
  import opened Wrappers
  import opened Fixture
  import Integration

  /** Reading the configuration stores the zero value when none is stored yet;
      a stored configuration is returned and left as it is. */
  function GetConfig(s: CmdState): (r: CmdState)
    ensures r.config.Some? && ConfigOf(r) == ConfigOf(s)
    ensures s.config.Some? ==> r == s
    ensures s.config.None? ==> r.config == Some(EmptyConfig)
    ensures r == s.(config := r.config)
  {
    s.(config := Some(ConfigOf(s)))
  }

  /** The explicit config file: the given configuration replaces the stored one,
      its rendering is registered, and only then is the daemon pointed at it. */
  function ConfigFile(s: CmdState, cfg: Config): (r: Applied)
    ensures r.after.config == Some(cfg)
    ensures Grows(s, r.after) && r.after.user == s.user && r.after.pass == s.pass
    ensures r.out.Pass? <==> TempFileHelper !in s.faults && ArgsHelper !in s.faults
    ensures r.out.Pass? ==>
      r.after.args == s.args + [ConfigFlag, CfgFilePath(s.configDir)] &&
      r.after.deferred == s.deferred + [WriteFile(CfgFileName, Rendered(cfg, s.configDir))]
    ensures r.out.Fail? ==> r.after.args == s.args
  {
    var t := Integration.TempFile(s.(config := Some(cfg)), CfgFileName, Rendered(cfg, s.configDir));
    if t.out.Fail? then t
    else Integration.Args(t.after, [ConfigFlag, CfgFilePath(s.configDir)])
  }

  /** An administration-tool run, registered for after start-up. */
  function Ctl(s: CmdState, args: seq<string>): (r: Applied)
    ensures r.out.Pass? <==> DeferHelper !in s.faults
    ensures r.out.Pass? ==> r.after == s.(deferred := s.deferred + [CtlRun(CtlArgv(s.configDir, args))])
    ensures r.out.Fail? ==> r.after == s
  {
    Integration.Defer(s, CtlRun(CtlArgv(s.configDir, args)))
  }

  /** Client-to-server listener: a failed listen or close is returned and the
      builder is untouched; otherwise the acquired port becomes `c2sPort` and no
      other part of the configuration changes. */
  function ListenC2S(s: CmdState, listen: Result<Port, Error>, release: Outcome<Error>): (r: Applied)
    ensures listen.Failure? ==> r == Applied(Fail(listen.error), s)
    ensures listen.Success? && release.Fail? ==> r == Applied(release, s)
    ensures listen.Success? && release.Pass? ==>
      r.out.Pass? && r.after.config.Some? &&
      ConfigOf(r.after).c2sPort == listen.value &&
      ConfigOf(r.after).s2sPort == ConfigOf(s).s2sPort &&
      ConfigOf(r.after).vhosts == ConfigOf(s).vhosts &&
      ConfigOf(r.after).modules == ConfigOf(s).modules
    ensures r.after == s.(config := r.after.config)
  {
    match listen
    case Failure(e) => Applied(Fail(e), s)
    case Success(port) =>
      if release.Fail? then Applied(release, s)
      else
        var cfg := ConfigOf(GetConfig(s));
        Applied(Pass, s.(config := Some(cfg.(c2sPort := port))))
  }

  /** Server-to-server listener, the mirror image of `ListenC2S`. */
  function ListenS2S(s: CmdState, listen: Result<Port, Error>, release: Outcome<Error>): (r: Applied)
    ensures listen.Failure? ==> r == Applied(Fail(listen.error), s)
    ensures listen.Success? && release.Fail? ==> r == Applied(release, s)
    ensures listen.Success? && release.Pass? ==>
      r.out.Pass? && r.after.config.Some? &&
      ConfigOf(r.after).s2sPort == listen.value &&
      ConfigOf(r.after).c2sPort == ConfigOf(s).c2sPort &&
      ConfigOf(r.after).vhosts == ConfigOf(s).vhosts &&
      ConfigOf(r.after).modules == ConfigOf(s).modules
    ensures r.after == s.(config := r.after.config)
  {
    match listen
    case Failure(e) => Applied(Fail(e), s)
    case Success(port) =>
      if release.Fail? then Applied(release, s)
      else
        var cfg := ConfigOf(GetConfig(s));
        Applied(Pass, s.(config := Some(cfg.(s2sPort := port))))
  }

  /** Virtual hosts are appended in call order; nothing else changes. */
  function VHost(s: CmdState, hosts: seq<string>): (r: Applied)
    ensures r.out == Pass && r.after.config.Some?
    ensures ConfigOf(r.after).vhosts == ConfigOf(s).vhosts + hosts
    ensures ConfigOf(r.after).modules == ConfigOf(s).modules
    ensures ConfigOf(r.after).c2sPort == ConfigOf(s).c2sPort && ConfigOf(r.after).s2sPort == ConfigOf(s).s2sPort
    ensures r.after == s.(config := r.after.config)
  {
    var cfg := ConfigOf(GetConfig(s));
    Applied(Pass, s.(config := Some(cfg.(vhosts := cfg.vhosts + hosts))))
  }

  /** A user registration: an address that does not parse is an error with no
      effect; otherwise the registration run is deferred and only after it was
      registered is the parsed address recorded as the fixture's user. */
  function CreateUser(s: CmdState, addr: string, pass: string, parse: Parser): (r: Applied)
    ensures parse(addr).None? ==> r == Applied(Fail(BadAddress(addr)), s)
    ensures r.out.Pass? <==> parse(addr).Some? && DeferHelper !in s.faults && UserHelper !in s.faults
    ensures r.out.Pass? ==>
      var j := parse(addr).value;
      r.after == s.(deferred := s.deferred + [CtlRun(CtlArgv(s.configDir, ["register", j.local, j.domain, pass]))],
                    user := j, pass := pass)
    ensures r.out.Fail? ==> r.after.user == s.user && r.after.pass == s.pass
    ensures Grows(s, r.after) && r.after.config == s.config && r.after.args == s.args
  {
    match parse(addr)
    case None => Applied(Fail(BadAddress(addr)), s)
    case Some(j) =>
      var c := Ctl(s, ["register", j.local, j.domain, pass]);
      if c.out.Fail? then c
      else Integration.User(c.after, j, pass)
  }

  /** Module names are appended in order, duplicates kept; nothing else changes. */
  function Modules(s: CmdState, mods: seq<string>): (r: Applied)
    ensures r.out == Pass && r.after.config.Some?
    ensures ConfigOf(r.after).modules == ConfigOf(s).modules + mods
    ensures ConfigOf(r.after).vhosts == ConfigOf(s).vhosts
    ensures ConfigOf(r.after).c2sPort == ConfigOf(s).c2sPort && ConfigOf(r.after).s2sPort == ConfigOf(s).s2sPort
    ensures r.after == s.(config := r.after.config)
  {
    var cfg := ConfigOf(GetConfig(s));
    Applied(Pass, s.(config := Some(cfg.(modules := cfg.modules + mods))))
  }

  /** Trust-all: the `trustall` module is enabled in every case, and its script
      is registered as `mod_trustall.lua` unless that registration fails. */
  function TrustAll(s: CmdState): (r: Applied)
    ensures r.after.config.Some?
    ensures ConfigOf(r.after).modules == ConfigOf(s).modules + [TrustAllModule]
    ensures ConfigOf(r.after).vhosts == ConfigOf(s).vhosts
    ensures ConfigOf(r.after).c2sPort == ConfigOf(s).c2sPort && ConfigOf(r.after).s2sPort == ConfigOf(s).s2sPort
    ensures r.out.Pass? <==> TempFileHelper !in s.faults
    ensures r.after.deferred ==
      s.deferred + if r.out.Pass? then [WriteFile(TrustAllFileName, TrustAllScript)] else []
    ensures Grows(s, r.after) && r.after.args == s.args && r.after.user == s.user && r.after.pass == s.pass
  {
    var m := Modules(s, [TrustAllModule]);
    if m.out.Fail? then m
    else Integration.TempFile(m.after, TrustAllFileName, TrustAllScript)
  }

  /** Default assembly, run after every caller option. With `--config` already
      among the arguments it does nothing. Otherwise it adds the `localhost`
      vhost (and its certificate) only when there is no vhost, creates the user
      `me@<first vhost>` only when no user is recorded, and renders the config
      file. Caller vhosts are never removed or reordered, and the other parts of
      the configuration are kept. It succeeds exactly when the flag was present
      or every step it takes succeeds. The deferred work below is listed in the
      order it is registered, which is not the order it runs in: files are
      written before the daemon starts, `prosodyctl` runs after. */
  function DefaultConfig(s: CmdState, parse: Parser): (r: Applied)
    ensures ConfigFlag in s.args ==> r == Applied(Pass, s)
    ensures r.out.Pass? <==>
      ConfigFlag in s.args ||
      ((ConfigOf(s).vhosts != [] || CertHelper !in s.faults) &&
       (s.user != ZeroJid ||
        (parse(DefaultLocalPrefix + (if ConfigOf(s).vhosts == [] then Localhost else ConfigOf(s).vhosts[0])).Some? &&
         DeferHelper !in s.faults && UserHelper !in s.faults)) &&
       TempFileHelper !in s.faults && ArgsHelper !in s.faults)
    ensures ConfigFlag !in s.args ==> r.after.config.Some?
    ensures Grows(s, r.after)
    ensures ConfigOf(s).vhosts <= ConfigOf(r.after).vhosts
    ensures ConfigOf(r.after).modules == ConfigOf(s).modules
    ensures ConfigOf(r.after).c2sPort == ConfigOf(s).c2sPort && ConfigOf(r.after).s2sPort == ConfigOf(s).s2sPort
    ensures s.user != ZeroJid ==> r.after.user == s.user && r.after.pass == s.pass
    ensures r.out.Pass? ==> ConfigFlag in r.after.args
    ensures r.out.Fail? ==> r.after.args == s.args
    ensures ConfigFlag !in s.args && r.out.Pass? ==>
      ConfigOf(r.after).vhosts == (if ConfigOf(s).vhosts == [] then [Localhost] else ConfigOf(s).vhosts) &&
      r.after.args == s.args + [ConfigFlag, CfgFilePath(s.configDir)] &&
      (s.user == ZeroJid ==>
        parse(DefaultLocalPrefix + ConfigOf(r.after).vhosts[0]) == Some(r.after.user) &&
        r.after.pass == DefaultPassword) &&
      r.after.deferred == s.deferred
        + (if ConfigOf(s).vhosts == [] then [IssueCert(Localhost)] else [])
        + (if s.user == ZeroJid
           then [CtlRun(CtlArgv(s.configDir, ["register", r.after.user.local, r.after.user.domain, DefaultPassword]))]
           else [])
        + [WriteFile(CfgFileName, Rendered(ConfigOf(r.after), s.configDir))]
  {
    if ConfigFlag in s.args then Applied(Pass, s)
    else
      var s1 := GetConfig(s);
      var cfg := ConfigOf(s1);
      if cfg.vhosts == [] then
        var c := Integration.Cert(s1, Localhost);
        if c.out.Fail? then c
        else DefaultUserAndFile(c.after, cfg.(vhosts := [Localhost]), parse)
      else DefaultUserAndFile(s1, cfg, parse)
  }

  /** The rest of default assembly once the vhosts are settled: store them, create
      the default user if none is recorded, then render the config file. The
      deferred work is registered in that order. */
  function DefaultUserAndFile(s: CmdState, cfg: Config, parse: Parser): (r: Applied)
    requires cfg.vhosts != []
    ensures Grows(s, r.after) && r.after.config == Some(cfg)
    ensures r.out.Pass? <==>
      (s.user != ZeroJid ||
       (parse(DefaultLocalPrefix + cfg.vhosts[0]).Some? && DeferHelper !in s.faults && UserHelper !in s.faults)) &&
      TempFileHelper !in s.faults && ArgsHelper !in s.faults
    ensures s.user != ZeroJid ==> r.after.user == s.user && r.after.pass == s.pass
    ensures r.out.Pass? ==>
      r.after.args == s.args + [ConfigFlag, CfgFilePath(s.configDir)] &&
      (s.user == ZeroJid ==>
        parse(DefaultLocalPrefix + cfg.vhosts[0]) == Some(r.after.user) &&
        r.after.pass == DefaultPassword) &&
      r.after.deferred == s.deferred
        + (if s.user == ZeroJid
           then [CtlRun(CtlArgv(s.configDir, ["register", r.after.user.local, r.after.user.domain, DefaultPassword]))]
           else [])
        + [WriteFile(CfgFileName, Rendered(cfg, s.configDir))]
    ensures r.out.Fail? ==> r.after.args == s.args
  {
    var s2 := s.(config := Some(cfg));
    var u := if s2.user == ZeroJid
             then CreateUser(s2, DefaultLocalPrefix + cfg.vhosts[0], DefaultPassword, parse)
             else Applied(Pass, s2);
    if u.out.Fail? then u
    else ConfigFile(u.after, cfg)
  }
}
