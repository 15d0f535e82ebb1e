/** The helpers of the process-lifecycle package that the Prosody options call.
    Their code is not part of this model: each one either records its work on the
    builder and succeeds, or, when the fixture lists it among its faults, returns
    an error and leaves the builder as it was. */
module Integration {
  import opened Wrappers
  import opened Fixture

  function Fails(s: CmdState, h: Helper): Applied
  {
    Applied(Fail(HelperFailed(h)), s)
  }

  /** Registers a file to be written into the config directory at start-up. */
  function TempFile(s: CmdState, name: string, body: FileBody): Applied
  {
    if TempFileHelper in s.faults then Fails(s, TempFileHelper)
    else Applied(Pass, s.(deferred := s.deferred + [WriteFile(name, body)]))
  }

  /** Registers work to be run once the daemon has started. */
  function Defer(s: CmdState, action: Action): Applied
  {
    if DeferHelper in s.faults then Fails(s, DeferHelper)
    else Applied(Pass, s.(deferred := s.deferred + [action]))
  }

  /** Requests a self-signed certificate for a host. */
  function Cert(s: CmdState, host: string): Applied
  {
    if CertHelper in s.faults then Fails(s, CertHelper)
    else Applied(Pass, s.(deferred := s.deferred + [IssueCert(host)]))
  }

  /** Records the fixture's default user. */
  function User(s: CmdState, j: Jid, pass: string): Applied
  {
    if UserHelper in s.faults then Fails(s, UserHelper)
    else Applied(Pass, s.(user := j, pass := pass))
  }

  /** Appends command-line arguments for the daemon. */
  function Args(s: CmdState, extra: seq<string>): Applied
  {
    if ArgsHelper in s.faults then Fails(s, ArgsHelper)
    else Applied(Pass, s.(args := s.args + extra))
  }
}
