/**
 `synthorg init` up to the point where files are written: the state built from the answers, and what
 a re-init carries over from the state it replaces (cli/cmd/init.go).
 */
module InitFlow {

  import opened Text
  import opened Config
  import opened ComposeParams

  /** What the user answered; `natsPort` is 0 when the wizard set none, `gid` what the host reports for the socket. */
  datatype Answers = Answers(
    absoluteDir: bool, backendPort: string, webPort: string, sandbox: bool, dockerSock: string, gid: Option<int>,
    logLevel: string, persistence: string, memory: string, bus: string, postgresPort: int, natsPort: int,
    channel: string,
    imageTag: string, telemetry: bool, fineTuning: bool, variant: string, encryptSecrets: bool)

  /** What the random generator delivers. */
  datatype Generated = Generated(secrets: Secrets, password: string)

  /** Which of the command's flags were given. */
  datatype Flags = Flags(persistence: bool, postgresPort: bool)

  function ParsePort(lib: Lib, s: string): Option<int> {
    var n := lib.atoi(TrimSpace(s));
    if n.Some? && PortInRange(n.value) then n else None
  }

  /** setupPostgresConfig: the port and password of the new state. */
  function SetupPostgres(a: Answers, backend: int, web: int, password: string): Option<(int, string)> {
    if a.persistence != "postgres" then Some((0, ""))
    else
      var port := if a.postgresPort == 0 then 3002 else a.postgresPort;
      if port == backend || port == web then None else Some((port, password))
  }

  function ResolveImageTag(override: string, version: string): string {
    if override != "" then override
    else if version != "" && version != "dev" then version
    else "latest"
  }

  /** buildState. */
  function BuildState(lib: Lib, a: Answers, g: Generated, version: string): Option<State> {
    var backend, web := ParsePort(lib, a.backendPort), ParsePort(lib, a.webPort);
    var sock := TrimSpace(a.dockerSock);
    if !a.absoluteDir || backend.None? || web.None? || (a.sandbox && !lib.validDockerSock(sock)) then None
    else
      match SetupPostgres(a, backend.value, web.value, g.password)
      case None => None
      case Some(pg) =>
        Some(State(
          Images(ResolveImageTag(a.imageTag, version), "", "", "", "", "", map[]),
          g.secrets,
          Ports(backend.value, web.value, 3003, pg.0),
          Backends(a.persistence, a.memory, if a.bus == "" then "internal" else a.bus, pg.1),
          Features(if a.channel == "" then "stable" else a.channel, a.sandbox, sock,
                   if a.sandbox && a.gid.Some? then a.gid.value else -1, a.logLevel,
                   a.encryptSecrets, a.telemetry, a.fineTuning, a.variant, "", ""),
          Tuning(map[], map[], map[], "", map[])))
  }

  // ---------------------------------------------------------------- re-init

  function Keep(prev: string, made: string): string { if prev != "" then prev else made }

  /** Settings key, master key and cursor secret survive; the JWT secret is replaced. */
  function PreserveSecrets(s: State, prev: State): State {
    s.(secrets := s.secrets.(settingsKey := Keep(prev.secrets.settingsKey, s.secrets.settingsKey),
                             masterKey := Keep(prev.secrets.masterKey, s.secrets.masterKey),
                             cursorSecret := Keep(prev.secrets.cursorSecret, s.secrets.cursorSecret)))
  }

  /** preservePostgresFromOldState. */
  function PreservePostgres(s: State, prev: State, flags: Flags): Option<State> {
    var inherits := !flags.persistence && prev.backends.persistence == "postgres";
    var persistence := if inherits then "postgres" else s.backends.persistence;
    if persistence != "postgres" then
      Some(s.(backends := s.backends.(persistence := persistence, postgresPassword := ""),
              ports := s.ports.(postgres := 0)))
    else
      var port := if prev.ports.postgres != 0 && !flags.postgresPort then prev.ports.postgres else s.ports.postgres;
      if port == s.ports.backend || port == s.ports.web then None
      else Some(s.(backends := s.backends.(persistence := persistence,
                                           postgresPassword := Keep(prev.backends.postgresPassword,
                                                                    s.backends.postgresPassword)),
                   ports := s.ports.(postgres := port)))
  }

  /** handleReinit, once confirmed. */
  function Reinit(s: State, prev: State, flags: Flags): Option<State> {
    PreservePostgres(PreserveSecrets(s, prev), prev, flags)
  }

  /** The preservation part of runInitInteractive. */
  function ReinitInteractive(a: Answers, s: State, prev: State, flags: Flags): Option<State> {
    var kept := PreserveSecrets(s, prev);
    var changedBackend := a.persistence != prev.backends.persistence;
    var changedPort := a.persistence == "postgres" && a.postgresPort != 0 && a.postgresPort != prev.ports.postgres;
    if !changedBackend && !changedPort then PreservePostgres(kept, prev, flags)
    else if kept.backends.persistence == "postgres" then
      Some(kept.(backends := kept.backends.(postgresPassword := Keep(prev.backends.postgresPassword,
                                                                     kept.backends.postgresPassword))))
    else Some(kept)
  }

  // ---------------------------------------------------------------- what is kept

  predicate KeptValue(prev: string, now: string) { prev != "" ==> now == prev }

  /** A state that may follow another in one data directory. */
  predicate Kept(prev: State, now: State) {
    && KeptValue(prev.secrets.settingsKey, now.secrets.settingsKey)
    && KeptValue(prev.secrets.masterKey, now.secrets.masterKey)
    && KeptValue(prev.secrets.cursorSecret, now.secrets.cursorSecret)
    && (prev.backends.persistence == "postgres" && now.backends.persistence == "postgres" ==>
          now.backends.postgresPassword == prev.backends.postgresPassword)
  }

  /** Both re-init paths keep the secrets, and the password while the backend stays postgres. */
  lemma ReinitKeeps(lib: Lib, a: Answers, s: State, prev: State, flags: Flags)
    requires Validate(lib, prev)
    ensures Reinit(s, prev, flags).Some? ==> Kept(prev, Reinit(s, prev, flags).value)
    ensures ReinitInteractive(a, s, prev, flags).Some? ==> Kept(prev, ReinitInteractive(a, s, prev, flags).value)
  {
    assert prev.backends.persistence == "postgres" ==> prev.backends.postgresPassword != "";
  }

  /** A re-init on flags: an explicit backend or port always wins, and without one the deployment that is
      replaced decides; it fails exactly when the resulting Postgres port is the backend or web port. */
  lemma ReinitHonoursFlags(s: State, prev: State, flags: Flags)
    ensures var t := Reinit(s, prev, flags);
            var postgres := if flags.persistence then s.backends.persistence == "postgres"
                            else s.backends.persistence == "postgres" || prev.backends.persistence == "postgres";
            var port := if flags.postgresPort || prev.ports.postgres == 0 then s.ports.postgres
                        else prev.ports.postgres;
            && (t.None? <==> postgres && (port == s.ports.backend || port == s.ports.web))
            && (t.Some? && postgres ==>
                  t.value.backends.persistence == "postgres" && t.value.ports.postgres == port
                  && (prev.backends.postgresPassword == "" ==>
                        t.value.backends.postgresPassword == s.backends.postgresPassword))
            && (t.Some? && !postgres ==>
                  t.value.backends.persistence == s.backends.persistence && t.value.ports.postgres == 0
                  && t.value.backends.postgresPassword == "")
  {
  }

  /** A re-init in the wizard: the backend chosen there, and a Postgres port typed there, are never reverted to
      the old ones. */
  lemma InteractiveChoiceWins(a: Answers, s: State, prev: State, flags: Flags)
    requires s.backends.persistence == a.persistence
    requires a.persistence == "postgres" && a.postgresPort != 0 ==> s.ports.postgres == a.postgresPort
    ensures var t := ReinitInteractive(a, s, prev, flags);
            t.Some? ==>
              && t.value.backends.persistence == a.persistence
              && (a.persistence == "postgres" && a.postgresPort != 0 ==> t.value.ports.postgres == a.postgresPort)
  {
  }

  // ---------------------------------------------------------------- what is changed

  /** Re-init touches nothing else: the images, features and tuning are those of the new answers, and so are
      the secrets that the old state did not have. */
  lemma ReinitChangesOnlyStorage(a: Answers, s: State, prev: State, flags: Flags)
    ensures Reinit(s, prev, flags).Some? ==> SameElsewhere(s, prev, Reinit(s, prev, flags).value)
    ensures ReinitInteractive(a, s, prev, flags).Some? ==>
              SameElsewhere(s, prev, ReinitInteractive(a, s, prev, flags).value)
  {
  }

  predicate SameElsewhere(s: State, prev: State, t: State) {
    && (prev.secrets.settingsKey == "" ==> t.secrets.settingsKey == s.secrets.settingsKey)
    && (prev.secrets.masterKey == "" ==> t.secrets.masterKey == s.secrets.masterKey)
    && (prev.secrets.cursorSecret == "" ==> t.secrets.cursorSecret == s.secrets.cursorSecret)
    && t.images == s.images && t.features == s.features && t.tuning == s.tuning && t.secrets.jwt == s.secrets.jwt
    && t.ports.backend == s.ports.backend && t.ports.web == s.ports.web && t.ports.nats == s.ports.nats
    && t.backends.memory == s.backends.memory && t.backends.bus == s.backends.bus
  }

  // ---------------------------------------------------------------- loadable

  /** What every state that init writes looks like. */
  predicate InitShape(s: State) {
    && s.images.pins == map[] && s.images.registryHost == "" && s.images.repoPrefix == "" && s.images.dhiRegistry == ""
    && s.images.postgresTag == "" && s.images.natsTag == ""
    && s.tuning == Tuning(map[], map[], map[], "", map[])
    && s.features.natsURL == "" && s.features.streamPrefix == ""
    && (s.features.sandbox || s.features.dockerSockGID == -1)
  }

  /** The switches, backends and ports are the ones answered, with the documented defaults for blank ones; the
      Postgres port is free, and there is a password exactly for Postgres. */
  predicate Answered(lib: Lib, a: Answers, g: Generated, s: State) {
    && s.backends.persistence == a.persistence && s.backends.memory == a.memory
    && (a.bus != "" ==> s.backends.bus == a.bus) && (a.bus == "" ==> s.backends.bus == "internal")
    && (a.channel != "" ==> s.features.channel == a.channel) && (a.channel == "" ==> s.features.channel == "stable")
    && s.features.sandbox == a.sandbox && s.features.logLevel == a.logLevel && s.features.telemetry == a.telemetry
    && s.features.fineTuning == a.fineTuning && s.features.variant == a.variant
    && s.features.encryptSecrets == a.encryptSecrets && s.features.dockerSock == TrimSpace(a.dockerSock)
    && (a.sandbox && a.gid.Some? ==> s.features.dockerSockGID == a.gid.value)
    && (a.imageTag != "" ==> s.images.tag == a.imageTag) && s.ports.nats == 3003
    && (a.persistence == "postgres" ==> s.ports.postgres == if a.postgresPort != 0 then a.postgresPort else 3002)
    && lib.atoi(TrimSpace(a.backendPort)) == Some(s.ports.backend) && PortInRange(s.ports.backend)
    && lib.atoi(TrimSpace(a.webPort)) == Some(s.ports.web) && PortInRange(s.ports.web)
    && s.secrets == g.secrets
    && (if s.backends.persistence == "postgres"
        then s.ports.postgres != s.ports.backend && s.ports.postgres != s.ports.web
             && s.backends.postgresPassword == g.password
        else s.ports.postgres == 0 && s.backends.postgresPassword == "")
  }

  lemma BuiltShape(lib: Lib, a: Answers, g: Generated, version: string)
    ensures BuildState(lib, a, g, version).Some? ==>
              var s := BuildState(lib, a, g, version).value;
              InitShape(s) && Answered(lib, a, g, s)
  {
  }

  /** A state is built exactly when the directory is absolute, both ports are numbers in range, the sandbox has a
      usable socket, and the Postgres port is neither of the two. */
  lemma BuildsExactly(lib: Lib, a: Answers, g: Generated, version: string)
    ensures BuildState(lib, a, g, version).Some? <==>
              && a.absoluteDir
              && (exists p :: lib.atoi(TrimSpace(a.backendPort)) == Some(p) && PortInRange(p) && FreeFor(a, p))
              && (exists p :: lib.atoi(TrimSpace(a.webPort)) == Some(p) && PortInRange(p) && FreeFor(a, p))
              && (a.sandbox ==> lib.validDockerSock(TrimSpace(a.dockerSock)))
  {
    if BuildState(lib, a, g, version).Some? {
      var s := BuildState(lib, a, g, version).value;
      BuiltShape(lib, a, g, version);
      assert FreeFor(a, s.ports.backend) && FreeFor(a, s.ports.web);
    }
  }

  predicate FreeFor(a: Answers, port: int) {
    a.persistence == "postgres" ==> port != if a.postgresPort == 0 then 3002 else a.postgresPort
  }

  /** The tag of the new state: the answer, else the running version, else latest. */
  lemma BuiltTag(lib: Lib, a: Answers, g: Generated, version: string)
    requires BuildState(lib, a, g, version).Some? && a.imageTag == ""
    ensures BuildState(lib, a, g, version).value.images.tag == if version in {"", "dev"} then "latest" else version
  {
  }

  /** Init writes a state without validating it.  Generating compose.yml checks most of it, so the
      written state loads again exactly when fine-tuning is on a supported machine and a master key
      in use is a proper one; otherwise every later command stops at loading. */
  lemma InitStateLoads(lib: Lib, env: Env, configured: Identity, s: State)
    requires InitShape(s) && NoControl(s.backends.postgresPassword)
    requires ValidChannel(s.features.channel) && (s.features.variant == "" || ValidVariant(s.features.variant))
    requires PortInRange(Loaded(s).ports.nats)
    requires ParamsFromState(lib, env, s).Some? && Generate(lib, configured, ParamsFromState(lib, env, s).value).Some?
    ensures LoadOf(lib, Some(s)).Some? <==>
            && (s.features.fineTuning ==> lib.amd64)
            && (s.features.encryptSecrets && TrimSpace(s.secrets.masterKey) != "" ==>
                  lib.validFernetKey(s.secrets.masterKey))
  {
    var t := Loaded(s);
    GenerateChecksPorts(lib, env, configured, s, map[]);
    assert ValidImages(lib, t.images);
    assert ValidTuning(lib, t.tuning);
    assert ValidPorts(t.ports);
    assert ValidBackends(t.backends, t.ports);
  }

  // ---------------------------------------------------------------- a state that does not load

  /** The validators accept what the CLI itself fills in. */
  ghost predicate AcceptsDefaults(lib: Lib) {
    && lib.validHost(DEFAULT_IDENTITY.registryHost) && lib.validHost(DEFAULT_IDENTITY.dhiRegistry)
    && lib.validRepoPrefix(DEFAULT_IDENTITY.repoPrefix) && lib.validURL(DEFAULT_NATS_URL)
    && lib.validStreamPrefix(DEFAULT_STREAM_PREFIX) && lib.validDockerSock("/s")
    && lib.atoi("3001") == Some(3001) && lib.atoi("3000") == Some(3000)
    && (forall i :: lib.dhiPin(i).Some? ==> lib.validDigest(lib.dhiPin(i).value))
  }

  const SECRET := "0123456789abcdef"

  /** The answers of a user who keeps the defaults and switches fine-tuning on. */
  const TUNED := Answers(true, "3001", "3000", true, "/s", None, "info", "sqlite", "mem0", "internal", 0, 0, "",
                         "", false, true, "gpu", false)

  const NO_ENV := Env(Identity("", "", "", "", ""), "", "", true)

  function Tuned(): State {
    State(Images("latest", "", "", "", "", "", map[]), Secrets(SECRET, SECRET, SECRET, SECRET),
          Ports(3001, 3000, 3003, 0),
          Backends("sqlite", "mem0", "internal", ""),
          Features("stable", true, "/s", -1, "info", false, false, true, "gpu", "", ""),
          Tuning(map[], map[], map[], "", map[]))
  }

  lemma Trims()
    ensures TrimSpace("3001") == "3001" && TrimSpace("3000") == "3000" && TrimSpace("/s") == "/s" && TrimSpace("") == ""
  {
  }

  lemma TunedIsBuilt(lib: Lib)
    requires AcceptsDefaults(lib)
    ensures BuildState(lib, TUNED, Generated(Secrets(SECRET, SECRET, SECRET, SECRET), ""), "dev") == Some(Tuned())
  {
    Trims();
  }

  lemma DefaultTags()
    ensures ValidTag("latest") && ValidTag(DEFAULT_IDENTITY.postgresTag) && ValidTag(DEFAULT_IDENTITY.natsTag)
  {
  }

  lemma SecretIsTight()
    ensures TrimSpace(SECRET) == SECRET && |SECRET| == 16
  {
    assert !IsSpace(SECRET[0]) && !IsSpace(SECRET[15]);
  }

  lemma DefaultsResolve(lib: Lib)
    requires AcceptsDefaults(lib)
    ensures ResolveTunables(lib, NO_ENV, Tuned()) ==
            Some(Tunables(DEFAULT_IDENTITY, DEFAULT_NATS_URL, DEFAULT_STREAM_PREFIX, false))
  {
    DefaultIdentity();
    DefaultTags();
    DefaultBus();
    BlankFirst(DEFAULT_NATS_URL);
    BlankFirst(DEFAULT_STREAM_PREFIX);
  }

  lemma DefaultIdentity()
    ensures EffectiveIdentity(NO_ENV, Tuned().images) == DEFAULT_IDENTITY
  {
    Trims();
    EnvironmentOverState(NO_ENV, Tuned().images);
  }

  lemma BlankFirst(d: string)
    requires TrimSpace(d) == d
    ensures FirstNonEmpty("", "", d) == d
  {
    Trims();
  }

  lemma TunedGenerates(lib: Lib)
    requires AcceptsDefaults(lib)
    ensures ParamsFromState(lib, NO_ENV, Tuned()).Some?
    ensures Generate(lib, DEFAULT_IDENTITY, ParamsFromState(lib, NO_ENV, Tuned()).value).Some?
  {
    DefaultsResolve(lib);
    DefaultTags();
    SecretIsTight();
    var q := ApplyComposeDefaults(lib, ParamsFromState(lib, NO_ENV, Tuned()).value);
    assert ValidImageParams(lib, q);
    assert ValidPortParams(q);
    SocketIsSafe("/s");
    assert ValidFeatureParams(q);
  }

  lemma SocketIsSafe(path: string)
    requires path == "/s"
    ensures SafePath(path)
  {
  }

  /** A run of init after which every command stops at loading: fine-tuning on a machine that does not
      support it.  compose.yml is generated, and the state is written and does not load. */
  lemma TunedDoesNotLoad(lib: Lib)
    requires AcceptsDefaults(lib) && !lib.amd64
    ensures BuildState(lib, TUNED, Generated(Secrets(SECRET, SECRET, SECRET, SECRET), ""), "dev") == Some(Tuned())
    ensures ParamsFromState(lib, NO_ENV, Tuned()).Some?
            && Generate(lib, DEFAULT_IDENTITY, ParamsFromState(lib, NO_ENV, Tuned()).value).Some?
    ensures LoadOf(lib, Some(Tuned())).None?
  {
    TunedIsBuilt(lib);
    TunedGenerates(lib);
  }
}
