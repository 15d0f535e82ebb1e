# Prosody test-fixture configuration, modelled in Dafny

This project models the option layer of the Prosody integration-test fixture
(`internal/integration/prosody/prosody.go`). A fixture is one Prosody daemon
prepared for a test. The caller hands the test entry point a list of options.
Each option mutates one shared command builder: the structured `Config`
(virtual hosts, modules, client-to-server and server-to-server ports), the
daemon's command line, the work deferred to start-up (files to write,
certificates to issue, `prosodyctl` runs) and the recorded default user. After
the caller's options, default assembly always runs: if `--config` is already on
the command line it does nothing; otherwise it fills in only what the caller
left empty (the `localhost` vhost with a certificate, the user
`me@<first vhost>` / `password`) and renders `prosody.cfg.lua`.

Layout:

- `wrappers.dfy` — `Option`, `Result`, `Outcome` (a Go `error` is `Pass` or `Fail(e)`).
- `fixture.dfy` — constants, `Config`, `Jid`, deferred `Action`s, `Error`, the
  builder snapshot `CmdState`, and `Grows` (the builder only accumulates).
- `integration.dfy` — stand-ins for the lifecycle package's helpers
  (`TempFile`, `Defer`, `Cert`, `User`, `Args`): each records its work, or fails
  when the fixture lists it among its `faults`.
- `options.dfy` — every option as a function from the builder to the returned
  error and the new builder. These are the specifications.
- `compose.dfy` — options as data (`Opt`), applying them in order with early
  abort (`Run`), and the test entry point (`Test`, default assembly last).
- `properties.dfy` — lemmas relating several options.
- `prosody.dfy` — `class Cmd`, the builder with fields updated in place. Its
  methods follow the Go code line by line and are proved to return and leave
  exactly what the specification functions say.

External collaborators are inputs. The address parser (`jid.Parse`) is an
arbitrary `Parser` function. The operating system's listen and close outcomes
are carried by the listener options. Which lifecycle helpers fail is the
fixture's `faults` set.

## Model

| member | source | states |
|---|---|---|
| Options.GetConfig | internal/integration/prosody/prosody.go:77-82 | an unset config becomes the empty `Config`; a stored config is returned and left unchanged; nothing else in the builder changes |
| Options.ConfigFile | internal/integration/prosody/prosody.go:43-61 | the given config replaces the stored one in every case; on success the `prosody.cfg.lua` rendering of that config is registered and exactly `--config <dir>/prosody.cfg.lua` is appended to the arguments; if a step fails no arguments are appended; user unchanged |
| Options.Ctl | internal/integration/prosody/prosody.go:66-75 | registers a deferred run `prosodyctl --config <dir>/prosody.cfg.lua <args>` and nothing else; a failing registration changes nothing |
| Options.ListenC2S | internal/integration/prosody/prosody.go:85-108 | a listen or close failure is returned and the builder is untouched; otherwise only `C2SPort` is set to the acquired port, and the other port, vhosts, modules and the rest of the builder are unchanged |
| Options.ListenS2S | internal/integration/prosody/prosody.go:111-134 | the same for `S2SPort`, leaving `C2SPort` unchanged |
| Options.VHost | internal/integration/prosody/prosody.go:140-147 | never fails; `VHosts` becomes the old list followed by the hosts in call order; modules, ports, arguments, deferred work and user unchanged |
| Options.CreateUser | internal/integration/prosody/prosody.go:153-165 | an unparsable address is a `BadAddress` error with no effect; success iff the address parses and both helpers succeed; then exactly one run `register <local> <domain> <pass>` is deferred and the parsed address and password are recorded; on failure no user is recorded |
| Options.Modules | internal/integration/prosody/prosody.go:168-177 | never fails; `Modules` becomes the old list followed by every given name in order, duplicates kept (so it grows by exactly the number of names); nothing else changes |
| Options.TrustAll | internal/integration/prosody/prosody.go:181-202 | `trustall` is always appended to the modules; `mod_trustall.lua` with the static script is registered exactly when that registration succeeds; arguments, user, vhosts and ports unchanged |
| Options.DefaultConfig | internal/integration/prosody/prosody.go:204-229 | no-op with no error when `--config` is among the arguments; caller vhosts are never removed or reordered and modules and ports are kept; a recorded user is never replaced; on success `--config` is among the arguments, `localhost` and its certificate are added only when there was no vhost, user `me@<first vhost>`/`password` is created only when none was recorded, and the deferred work is exactly that certificate, that registration and the config rendering, registered in that order; it succeeds exactly when the flag was present or the certificate (when needed), the user creation (when needed) and the config-file steps all succeed, so their failures are passed on; on failure no argument is added |
| Options.DefaultUserAndFile | internal/integration/prosody/prosody.go:220-228 | stores the settled config; creates the default user only when none is recorded; succeeds exactly when that user creation (if needed) and the config-file step succeed; on success appends `--config <path>` and registers the rendering of that config after the registration |
| Compose.Step | internal/integration/prosody/prosody.go:43-229 | every option only extends the arguments and deferred work, never shortens or reorders them, and every option except `ConfigFile` keeps the enabled modules as a prefix |
| Compose.Run | internal/integration/prosody/prosody.go:30-35 | applying options in order with early abort only extends the arguments and deferred work |
| Compose.Test | internal/integration/prosody/prosody.go:236-239 | the caller's options followed by default assembly only extend arguments and deferred work; what it means is proved by `Properties.TestRunsDefaultLast` and `Properties.TestEndsConfigured` |
| Properties.TestEndsConfigured | internal/integration/prosody/prosody.go:236-239 | a fixture set up without error always has `--config` on the daemon's command line |
| Properties.VHostConcat | internal/integration/prosody/prosody.go:140-147 | two successive `VHost` calls equal one call with the concatenated list |
| Properties.ModulesConcat | internal/integration/prosody/prosody.go:168-177 | two successive `Modules` calls equal one call with the concatenated list |
| Properties.ListenKeepsLast | internal/integration/prosody/prosody.go:85-134 | after two successful listens for the same connection class only the last port is kept |
| Properties.RunConcat | internal/integration/prosody/prosody.go:236-238 | running `a + b` is running `a`, then `b` from where `a` left off unless `a` failed (early abort) |
| Properties.TestRunsDefaultLast | internal/integration/prosody/prosody.go:236-239 | the test entry point returns the caller options' error if one failed, and otherwise default assembly applied to the builder exactly as the caller's options left it |
| Properties.RunOnlyLists | internal/integration/prosody/prosody.go:140-177 | any sequence of `VHost` and `Modules` options succeeds, leaves vhosts and modules equal to the in-order concatenation of their arguments, and changes nothing else |
| Properties.FlagPersists | internal/integration/prosody/prosody.go:204-209 | once `--config` is among the arguments no later option removes it |
| Properties.ConfigFileSticks | internal/integration/prosody/prosody.go:43-61 | if the options succeed and include `ConfigFile(cfg)`, `--config` is among the arguments and the rendering of `cfg` as it was when the option ran is registered |
| Properties.ConfigFileDisablesDefaults | internal/integration/prosody/prosody.go:37-42 | with an explicit config file among the caller's options, default assembly has no effect: the test entry point ends exactly where the caller's options end |
| Properties.ModulesGrowWithoutConfigFile | internal/integration/prosody/prosody.go:168-177 | without `ConfigFile`, enabled modules are only added to |
| Properties.TrustAllSurvives | internal/integration/prosody/prosody.go:181-202 | whatever other options (except an explicit config file) come with `TrustAll`, a successful test fixture enables `trustall` and registers `mod_trustall.lua` |
| Properties.DefaultsForEmptyFixture | internal/integration/prosody/prosody.go:204-229 | with no caller option: vhost `localhost` and its certificate, user `me@localhost`/`password` registered through `prosodyctl`, a config rendered for exactly that vhost, and `--config <dir>/prosody.cfg.lua` on the command line |
| Prosody.Cmd.constructor | internal/integration/prosody/prosody.go:30-35 | a new command: no config, arguments `["prosody"]`, no deferred work, no user |
| Prosody.Cmd.GetConfig | internal/integration/prosody/prosody.go:77-82 | returns the stored config or the empty one, storing the latter, as `Options.GetConfig` |
| Prosody.Cmd.ConfigFile | internal/integration/prosody/prosody.go:43-61 | updates the builder and returns the error as `Options.ConfigFile` |
| Prosody.Cmd.Ctl | internal/integration/prosody/prosody.go:66-75 | updates the builder as `Options.Ctl` |
| Prosody.Cmd.ListenC2S | internal/integration/prosody/prosody.go:85-108 | updates the builder as `Options.ListenC2S` |
| Prosody.Cmd.ListenS2S | internal/integration/prosody/prosody.go:111-134 | updates the builder as `Options.ListenS2S` |
| Prosody.Cmd.VHost | internal/integration/prosody/prosody.go:140-147 | updates the builder as `Options.VHost` |
| Prosody.Cmd.CreateUser | internal/integration/prosody/prosody.go:153-165 | updates the builder as `Options.CreateUser` |
| Prosody.Cmd.Modules | internal/integration/prosody/prosody.go:168-177 | appends the names one at a time in a loop and ends as `Options.Modules` |
| Prosody.Cmd.TrustAll | internal/integration/prosody/prosody.go:181-202 | updates the builder as `Options.TrustAll` |
| Prosody.Cmd.HasConfigFlag | internal/integration/prosody/prosody.go:205-209 | the scan of the arguments finds the flag exactly when `--config` is among them |
| Prosody.Cmd.DefaultConfig | internal/integration/prosody/prosody.go:204-229 | updates the builder as `Options.DefaultConfig` |
| Prosody.Cmd.Apply | internal/integration/prosody/prosody.go:43-229 | applies one option as `Compose.Step` |
| Prosody.Cmd.ApplyAll | internal/integration/prosody/prosody.go:30-35 | applies options in order, stopping at the first error, as `Compose.Run` |
| Prosody.New | internal/integration/prosody/prosody.go:30-35 | a fresh command with the options applied, as `Compose.Run` from the initial builder |
| Prosody.Test | internal/integration/prosody/prosody.go:236-239 | a fresh command with the caller's options and then default assembly applied, as `Compose.Test` |

## Left out

- Process execution: starting, stopping and killing the daemon and running `prosodyctl` (prosody.go:70-72) are not modelled; a `prosodyctl` run is the deferred record `CtlRun(argv)`, so its exit status is not modelled either.
- Sockets: the listen and close calls of `ListenC2S`/`ListenS2S` are inputs (`Result<Port, Error>` and `Outcome<Error>`). The listener the lifecycle package may keep, and the race between releasing the port and the daemon binding it, are not modelled. Two listens yielding distinct ports is a property of the operating system and is not stated.
- Template rendering and the config struct are not part of this model: a rendered file is the record `Rendered(cfg, configDir)`, and rendering errors show only as a failing file registration.
- The static Lua text of the trust-all script (prosody.go:189-198) is the constant `TrustAllScript`.
- The lifecycle package's helpers (`TempFile`, `Defer`, `Cert`, `User`, `Args`, `New`'s option loop) are not part of this model. Each is modelled as an append (or, for `User`, an overwrite) of builder state that either succeeds or fails atomically; which ones fail is fixed per fixture (`faults`). `New` is modelled as applying the options in order with early abort.
- Address parsing (`jid.Parse`) and `jid.JID.Equal` are not part of this model: parsing is an arbitrary `Parser`, equality is structural equality of the three parts. Whether an address without `@` fails to parse is therefore not stated.
- `context.Context` cancellation is not modelled.
- `filepath.Join` is modelled as `dir + "/" + name` (or `name` for an empty directory); its path cleaning is not modelled.
- Ports are the operating system's 16-bit range; Go's `int` width plays no role.
- Options are modelled as the closed set `Opt`; arbitrary caller-written options are not.
- Configuration only grows except under `ConfigFile`, and the ports, which the latest listener overwrites: the code replaces the whole stored config in `ConfigFile`, so the model does too, and the lemmas about modules exclude explicit config files.
