/**
 The persisted state, its validation, and the single-key edits of `config set` and `config unset`
 (cli/internal/config/state.go, cli/cmd/config.go, cli/cmd/config_tunables.go).  What library
 calls and regular expressions decide about a single string is a parameter: everything below
 holds whatever they decide.
 */
module Config {

  import opened Text

  // ---------------------------------------------------------------- state

  datatype Auto = ApplyCompose | Cleanup | Pull | Restart | StartAfterWipe | UpdateCLI
  datatype Pref = Color | Output | Timestamps | Hints | ChangelogView
  datatype Timeout =
    | BackupCreate | BackupRestore | HealthCheck | SelfUpdateHTTP | SelfUpdateAPI | TUFFetch
    | AttestationHTTP | ImageVerify | ImagePullRetryDelay
  datatype Size = MaxAPIResponse | MaxBinary | MaxArchiveEntry

  /** The image tag, the five overrides that identify the deployment ("" = default) and the digests
      verified so far. */
  datatype Images = Images(tag: string, registryHost: string, repoPrefix: string, dhiRegistry: string,
                           postgresTag: string, natsTag: string, pins: map<string, string>)

  datatype Secrets = Secrets(jwt: string, settingsKey: string, masterKey: string, cursorSecret: string)

  datatype Ports = Ports(backend: int, web: int, nats: int, postgres: int)

  datatype Backends = Backends(persistence: string, memory: string, bus: string, postgresPassword: string)

  datatype Features = Features(channel: string, sandbox: bool, dockerSock: string, dockerSockGID: int, logLevel: string,
                               encryptSecrets: bool, telemetry: bool, fineTuning: bool, variant: string,
                               natsURL: string, streamPrefix: string)

  /** Absent keys are unset: "" for strings, false for switches, 0 for sizes. */
  datatype Tuning = Tuning(autos: map<Auto, bool>, prefs: map<Pref, string>, timeouts: map<Timeout, string>,
                           pullAttempts: string, sizes: map<Size, int>)

  datatype State = State(images: Images, secrets: Secrets, ports: Ports, backends: Backends, features: Features,
                         tuning: Tuning)

  const DEFAULT_STATE := State(
    Images("latest", "", "", "", "", "", map[]),
    Secrets("", "", "", ""),
    Ports(3001, 3000, 3003, 3002),
    Backends("sqlite", "mem0", "internal", ""),
    Features("stable", true, "", -1, "info", true, false, false, "", "", ""),
    Tuning(map[], map[], map[], "", map[]))

  /** What the CLI's libraries and patterns say about single values. */
  datatype Lib = Lib(
    validHost: string -> bool, validRepoPrefix: string -> bool, validStreamPrefix: string -> bool,
    validURL: string -> bool, validFernetKey: string -> bool, validDigest: string -> bool,
    validDockerSock: string -> bool,
    parseDuration: string -> Option<int>, formatDuration: int -> string,
    atoi: string -> Option<int>, itoa: int -> string, parseBytes: string -> Option<int>,
    dhiPin: string -> Option<string>, amd64: bool)

  // ---------------------------------------------------------------- validate

  predicate AlphaNum(c: char) { 'a' <= c <= 'z' || 'A' <= c <= 'Z' || '0' <= c <= '9' }

  /** IsValidImageTag. */
  predicate ValidTag(t: string) {
    && 0 < |t| <= 128 && AlphaNum(t[0])
    && forall i :: 0 < i < |t| ==> AlphaNum(t[i]) || t[i] == '.' || t[i] == '_' || t[i] == '-'
  }

  const MAX_BYTES := 1024 * 1024 * 1024
  const MAX_PULL_ATTEMPTS := 100
  const SECOND := 1_000_000_000

  predicate PortInRange(p: int) { 1 <= p <= 65535 }

  predicate ValidPersistence(v: string) { v == "sqlite" || v == "postgres" }
  predicate ValidBus(v: string) { v == "internal" || v == "nats" }
  predicate ValidChannel(v: string) { v == "stable" || v == "dev" }
  predicate ValidLogLevel(v: string) { v == "debug" || v == "info" || v == "warn" || v == "error" }
  predicate ValidVariant(v: string) { v == "gpu" || v == "cpu" }

  predicate ValidPref(p: Pref, v: string) {
    match p
    case Color => v == "always" || v == "auto" || v == "never"
    case Output => v == "text" || v == "json"
    case Timestamps => v == "relative" || v == "iso8601"
    case Hints => v == "always" || v == "auto" || v == "never"
    case ChangelogView => v == "highlights" || v == "commits"
  }

  predicate NoControl(s: string) {
    forall i :: 0 <= i < |s| ==> s[i] != '\0' && s[i] != '\n' && s[i] != '\r' && s[i] != '\t'
  }

  predicate ValidImages(lib: Lib, i: Images) {
    && (i.tag == "" || ValidTag(i.tag))
    && (forall n :: n in i.pins ==> lib.validDigest(i.pins[n]))
    && (i.registryHost == "" || lib.validHost(i.registryHost))
    && (i.dhiRegistry == "" || lib.validHost(i.dhiRegistry))
    && (i.repoPrefix == "" || lib.validRepoPrefix(i.repoPrefix))
    && (i.postgresTag == "" || ValidTag(i.postgresTag))
    && (i.natsTag == "" || ValidTag(i.natsTag))
  }

  predicate ValidPorts(p: Ports) {
    PortInRange(p.backend) && PortInRange(p.web) && (p.nats == 0 || PortInRange(p.nats))
  }

  predicate ValidBackends(b: Backends, p: Ports) {
    && ValidPersistence(b.persistence) && b.memory == "mem0" && (b.bus == "" || ValidBus(b.bus))
    && (b.persistence == "postgres" ==>
          PortInRange(p.postgres) && TrimSpace(b.postgresPassword) != "" && |b.postgresPassword| >= 32
          && NoControl(b.postgresPassword))
  }

  predicate ValidMasterKey(lib: Lib, encrypt: bool, key: string) {
    encrypt && TrimSpace(key) != "" ==> lib.validFernetKey(key)
  }

  predicate ValidFeatures(lib: Lib, f: Features, s: Secrets) {
    && -1 <= f.dockerSockGID <= 4294967295
    && (f.channel == "" || ValidChannel(f.channel))
    && (f.logLevel == "" || ValidLogLevel(f.logLevel))
    && ValidMasterKey(lib, f.encryptSecrets, s.masterKey)
    && (f.fineTuning ==> f.sandbox && lib.amd64)
    && (f.variant == "" || ValidVariant(f.variant))
    && (f.natsURL == "" || lib.validURL(f.natsURL))
    && (f.streamPrefix == "" || lib.validStreamPrefix(f.streamPrefix))
  }

  predicate ValidTimeout(lib: Lib, t: Timeout, v: string) {
    v != "" ==>
      var d := lib.parseDuration(v);
      d.Some? && d.value > 0 && (t == ImageVerify ==> d.value >= SECOND)
  }

  predicate ValidTuning(lib: Lib, t: Tuning) {
    && (forall p :: p in t.prefs && t.prefs[p] != "" ==> ValidPref(p, t.prefs[p]))
    && (forall k :: k in t.timeouts ==> ValidTimeout(lib, k, t.timeouts[k]))
    && (t.pullAttempts != "" ==>
          lib.atoi(t.pullAttempts).Some? && 1 <= lib.atoi(t.pullAttempts).value <= MAX_PULL_ATTEMPTS)
    && (forall z :: z in t.sizes ==> 0 <= t.sizes[z] <= MAX_BYTES)
  }

  /** State.validate and validateTunables. */
  predicate Validate(lib: Lib, s: State) {
    && ValidImages(lib, s.images) && ValidPorts(s.ports) && ValidBackends(s.backends, s.ports)
    && ValidFeatures(lib, s.features, s.secrets) && ValidTuning(lib, s.tuning)
  }

  /** What comes back when a saved state is read onto the defaults: the two optional ports are not
      written when they are 0. */
  function Loaded(s: State): State {
    var d := DEFAULT_STATE.ports;
    s.(ports := s.ports.(nats := if s.ports.nats == 0 then d.nats else s.ports.nats,
                         postgres := if s.ports.postgres == 0 then d.postgres else s.ports.postgres))
  }

  /** The two ports come back from a file that leaves them out exactly when they are the default ones. */
  lemma OmittedPortsAreDefaults(s: State)
    ensures Loaded(s.(ports := s.ports.(nats := 0, postgres := 0))) == s <==>
            s.ports.nats == 3003 && s.ports.postgres == 3002
  {
    var t := Loaded(s.(ports := s.ports.(nats := 0, postgres := 0)));
    assert t == s.(ports := s.ports.(nats := 3003, postgres := 3002));
  }

  /** Load: without a file, the defaults with the sandbox off; a file that does not validate is an error. */
  function LoadOf(lib: Lib, saved: Option<State>): Option<State> {
    match saved
    case None => Some(DEFAULT_STATE.(features := DEFAULT_STATE.features.(sandbox := false)))
    case Some(s) => if Validate(lib, Loaded(s)) then Some(Loaded(s)) else None
  }

  /** Whatever Load returns validates, the defaults included. */
  lemma LoadedValidates(lib: Lib, saved: Option<State>)
    requires LoadOf(lib, saved).Some?
    ensures Validate(lib, LoadOf(lib, saved).value)
  {
    assert ValidTag("latest");
  }

  // ---------------------------------------------------------------- config set

  datatype Key =
    | AutoKey(a: Auto) | PrefKey(p: Pref) | BackendPort | WebPort | Channel | DockerSock | ImageTag | LogLevel
    | Sandbox | FineTuning | FineTuningVariant | TelemetryOptIn
    | RegistryHost | ImageRepoPrefix | DHIRegistry | PostgresImageTag | NATSImageTag | DefaultNATSURL | StreamPrefix
    | TimeoutKey(t: Timeout) | PullAttempts | SizeKey(z: Size) | Unknown

  function Check<T>(ok: bool, v: T): Option<T> {
    if ok then Some(v) else None
  }

  /** setPort: in range and different from the other of the two ports. */
  function PortValue(lib: Lib, value: string, other: int): Option<int> {
    var n := lib.atoi(value);
    if n.Some? && PortInRange(n.value) && n.value != other then n else None
  }

  predicate ValidBool(v: string) { v == "true" || v == "false" }

  function SetImages(lib: Lib, i: Images, key: Key, value: string): Option<Images> {
    match key
    case ImageTag => Check(ValidTag(value), i.(tag := value))
    case RegistryHost => Check(lib.validHost(value), i.(registryHost := value))
    case ImageRepoPrefix => Check(lib.validRepoPrefix(value), i.(repoPrefix := value))
    case DHIRegistry => Check(lib.validHost(value), i.(dhiRegistry := value))
    case PostgresImageTag => Check(ValidTag(value), i.(postgresTag := value))
    case NATSImageTag => Check(ValidTag(value), i.(natsTag := value))
    case _ => None
  }

  function SetFeatures(lib: Lib, f: Features, key: Key, value: string): Option<Features> {
    match key
    case Channel => Check(ValidChannel(value), f.(channel := value))
    case DockerSock => Check(lib.validDockerSock(value), f.(dockerSock := value))
    case LogLevel => Check(ValidLogLevel(value), f.(logLevel := value))
    case Sandbox => Check(ValidBool(value), f.(sandbox := value == "true"))
    case FineTuning => Check(ValidBool(value), f.(fineTuning := value == "true"))
    case FineTuningVariant => Check(ValidVariant(value), f.(variant := value))
    case TelemetryOptIn => Check(ValidBool(value), f.(telemetry := value == "true"))
    case DefaultNATSURL => Check(lib.validURL(value), f.(natsURL := value))
    case StreamPrefix => Check(lib.validStreamPrefix(value), f.(streamPrefix := value))
    case _ => None
  }

  function SetTuning(lib: Lib, t: Tuning, key: Key, value: string): Option<Tuning> {
    match key
    case AutoKey(a) => Check(ValidBool(value), t.(autos := t.autos[a := value == "true"]))
    case PrefKey(p) => Check(ValidPref(p, value), t.(prefs := t.prefs[p := value]))
    case TimeoutKey(k) =>
      var d := lib.parseDuration(value);
      if d.Some? && d.value > 0 then Some(t.(timeouts := t.timeouts[k := lib.formatDuration(d.value)])) else None
    case PullAttempts =>
      var n := lib.atoi(value);
      if n.Some? && 1 <= n.value <= MAX_PULL_ATTEMPTS then Some(t.(pullAttempts := lib.itoa(n.value))) else None
    case SizeKey(z) =>
      var n := lib.parseBytes(value);
      if n.Some? && 0 < n.value <= MAX_BYTES then Some(t.(sizes := t.sizes[z := n.value])) else None
    case _ => None
  }

  datatype Section = InImages | InPorts | InFeatures | InTuning | Nowhere

  function SectionOf(key: Key): Section {
    match key
    case ImageTag | RegistryHost | ImageRepoPrefix | DHIRegistry | PostgresImageTag | NATSImageTag => InImages
    case BackendPort | WebPort => InPorts
    case Channel | DockerSock | LogLevel | Sandbox | FineTuning | FineTuningVariant | TelemetryOptIn
       | DefaultNATSURL | StreamPrefix => InFeatures
    case AutoKey(_) | PrefKey(_) | TimeoutKey(_) | PullAttempts | SizeKey(_) => InTuning
    case Unknown => Nowhere
  }

  /** applyConfigValue and applyTunableConfigValue. */
  function Apply(lib: Lib, s: State, key: Key, value: string): Option<State> {
    match SectionOf(key)
    case InImages =>
      var i := SetImages(lib, s.images, key, value);
      if i.Some? then Some(s.(images := i.value)) else None
    case InPorts =>
      var n := PortValue(lib, value, if key.BackendPort? then s.ports.web else s.ports.backend);
      if n.None? then None
      else if key.BackendPort? then Some(s.(ports := s.ports.(backend := n.value)))
      else Some(s.(ports := s.ports.(web := n.value)))
    case InFeatures =>
      var f := SetFeatures(lib, s.features, key, value);
      if f.Some? then Some(s.(features := f.value)) else None
    case InTuning =>
      var t := SetTuning(lib, s.tuning, key, value);
      if t.Some? then Some(s.(tuning := t.value)) else None
    case Nowhere => None
  }

  // ---------------------------------------------------------------- config unset

  function ResetImages(i: Images, key: Key): Images {
    match key
    case ImageTag => i.(tag := "latest")
    case RegistryHost => i.(registryHost := "")
    case ImageRepoPrefix => i.(repoPrefix := "")
    case DHIRegistry => i.(dhiRegistry := "")
    case PostgresImageTag => i.(postgresTag := "")
    case NATSImageTag => i.(natsTag := "")
    case _ => i
  }

  function ResetPorts(p: Ports, key: Key): Ports {
    match key
    case BackendPort => p.(backend := 3001)
    case WebPort => p.(web := 3000)
    case _ => p
  }

  function ResetFeatures(f: Features, key: Key): Features {
    match key
    case Channel => f.(channel := "stable")
    case DockerSock => f.(dockerSock := "")
    case LogLevel => f.(logLevel := "info")
    case Sandbox => f.(sandbox := true)
    case FineTuning => f.(fineTuning := false, variant := "")
    case FineTuningVariant => f.(variant := "")
    case TelemetryOptIn => f.(telemetry := false)
    case DefaultNATSURL => f.(natsURL := "")
    case StreamPrefix => f.(streamPrefix := "")
    case _ => f
  }

  function ResetTuning(t: Tuning, key: Key): Tuning {
    match key
    case AutoKey(a) => t.(autos := t.autos - {a})
    case PrefKey(p) => t.(prefs := t.prefs - {p})
    case TimeoutKey(k) => t.(timeouts := t.timeouts - {k})
    case PullAttempts => t.(pullAttempts := "")
    case SizeKey(z) => t.(sizes := t.sizes - {z})
    case _ => t
  }

  /** resetConfigValue and resetTunableConfigValue. */
  function Reset(s: State, key: Key): State {
    State(ResetImages(s.images, key), s.secrets, ResetPorts(s.ports, key), s.backends,
          ResetFeatures(s.features, key), ResetTuning(s.tuning, key))
  }

  /** Resetting a key of a valid state leaves it valid, although `config unset` never validates. */
  lemma ResetValidates(lib: Lib, s: State, key: Key)
    requires Validate(lib, s)
    ensures Validate(lib, Reset(s, key))
  {
    ResetPortsValid(s.backends, s.ports, key);
    ResetFeaturesValid(lib, s.features, s.secrets, key);
    ResetTuningValid(lib, s.tuning, key);
  }

  lemma ResetPortsValid(b: Backends, p: Ports, key: Key)
    requires ValidPorts(p) && ValidBackends(b, p)
    ensures ValidPorts(ResetPorts(p, key)) && ValidBackends(b, ResetPorts(p, key))
  {
  }

  lemma ResetFeaturesValid(lib: Lib, f: Features, s: Secrets, key: Key)
    requires ValidFeatures(lib, f, s)
    ensures ValidFeatures(lib, ResetFeatures(f, key), s)
  {
    ResetIsTidy(lib, f, key);
    TidyValid(lib, f, ResetFeatures(f, key), s);
  }

  /** Each choice of g is that of f or cleared, or it passes its own check. */
  predicate Tidy(lib: Lib, f: Features, g: Features) {
    && g.encryptSecrets == f.encryptSecrets && g.dockerSockGID == f.dockerSockGID
    && (g.channel == f.channel || ValidChannel(g.channel)) && (g.logLevel == f.logLevel || ValidLogLevel(g.logLevel))
    && (g.variant == f.variant || g.variant == "" || ValidVariant(g.variant))
    && (g.natsURL == f.natsURL || g.natsURL == "" || lib.validURL(g.natsURL))
    && (g.streamPrefix == f.streamPrefix || g.streamPrefix == "" || lib.validStreamPrefix(g.streamPrefix))
  }

  lemma ResetIsTidy(lib: Lib, f: Features, key: Key)
    ensures Tidy(lib, f, ResetFeatures(f, key))
    ensures ResetFeatures(f, key).fineTuning ==> f.fineTuning && (f.sandbox ==> ResetFeatures(f, key).sandbox)
  {
  }

  /** What is left to check then is that fine-tuning has the sandbox and the processor. */
  lemma TidyValid(lib: Lib, f: Features, g: Features, s: Secrets)
    requires ValidFeatures(lib, f, s) && Tidy(lib, f, g)
    ensures ValidFeatures(lib, g, s) <==> (g.fineTuning ==> g.sandbox && lib.amd64)
  {
  }

  lemma ResetTuningValid(lib: Lib, t: Tuning, key: Key)
    requires ValidTuning(lib, t)
    ensures ValidTuning(lib, ResetTuning(t, key))
  {
    var r := ResetTuning(t, key);
    assert forall p :: p in r.prefs ==> p in t.prefs && r.prefs[p] == t.prefs[p];
    assert forall k :: k in r.timeouts ==> k in t.timeouts && r.timeouts[k] == t.timeouts[k];
    assert forall z :: z in r.sizes ==> z in t.sizes && r.sizes[z] == t.sizes[z];
  }

  // ---------------------------------------------------------------- key classes

  /** invalidatesVerifiedDigests. */
  predicate InvalidatesDigests(key: Key) {
    key.ImageTag? || key.RegistryHost? || key.ImageRepoPrefix? || key.DHIRegistry? || key.PostgresImageTag?
    || key.NATSImageTag?
  }

  /** composeAffectingKeys. */
  predicate AffectsCompose(key: Key) {
    || key.BackendPort? || key.WebPort? || key.Sandbox? || key.DockerSock? || key.ImageTag? || key.LogLevel?
    || key.TelemetryOptIn? || key.RegistryHost? || key.ImageRepoPrefix? || key.DHIRegistry? || key.PostgresImageTag?
    || key.NATSImageTag? || key.DefaultNATSURL? || key.StreamPrefix? || key.FineTuning? || key.FineTuningVariant?
  }

  function WithoutPins(s: State, key: Key): State {
    if InvalidatesDigests(key) then s.(images := s.images.(pins := map[])) else s
  }

  /** An edit by this key reaches no further than this: the identity overrides and the tag change
      only under keys that drop the pins, ports and features other than the channel only under keys that
      regenerate compose.yml, and no key touches secrets or backends. */
  predicate Confined(s: State, t: State, key: Key) {
    && t.secrets == s.secrets && t.backends == s.backends
    && (!InvalidatesDigests(key) ==> t.images == s.images)
    && (!AffectsCompose(key) ==> t.ports == s.ports && t.features == s.features.(channel := t.features.channel))
  }

  lemma ApplyIsConfined(lib: Lib, s: State, key: Key, value: string)
    ensures Apply(lib, s, key, value).Some? ==> Confined(s, Apply(lib, s, key, value).value, key)
  {
    match SectionOf(key)
    case InImages =>
    case InPorts =>
    case InFeatures =>
      if !AffectsCompose(key) && SetFeatures(lib, s.features, key, value).Some? {
        FeaturesConfined(lib, s.features, key, value);
      }
    case _ =>
  }

  lemma FeaturesConfined(lib: Lib, f: Features, key: Key, value: string)
    requires !AffectsCompose(key) && SetFeatures(lib, f, key, value).Some?
    ensures SetFeatures(lib, f, key, value).value == f.(channel := SetFeatures(lib, f, key, value).value.channel)
  {
  }

  lemma ResetIsConfined(s: State, key: Key)
    ensures Confined(s, Reset(s, key), key)
  {
  }
}
