/**
 From the saved state and the environment to the image references of compose.yml
 (cli/internal/config/tunables.go, cli/internal/compose/generate.go): which deployment identity is
 in effect, and when a cached digest may be used.
 */
module ComposeParams {

  import opened Text
  import opened Config

  // ---------------------------------------------------------------- identity

  /** The five fields that say which images a deployment runs. */
  datatype Identity = Identity(registryHost: string, repoPrefix: string, dhiRegistry: string, postgresTag: string,
                               natsTag: string)

  const DEFAULT_IDENTITY := Identity("ghcr.io", "aureliolo/synthorg-", "dhi.io", "18-debian13", "2.12-debian13")
  const DEFAULT_NATS_URL := "nats://nats:4222"
  const DEFAULT_STREAM_PREFIX := "SYNTHORG"

  /** The environment overrides; `restResolves` says whether the timeouts, counts and sizes resolve. */
  datatype Env = Env(identity: Identity, natsURL: string, streamPrefix: string, restResolves: bool)

  function FirstNonEmpty(a: string, b: string, c: string): string {
    if TrimSpace(a) != "" then TrimSpace(a)
    else if TrimSpace(b) != "" then TrimSpace(b)
    else TrimSpace(c)
  }

  /** Environment over state over default, field by field. */
  function EffectiveIdentity(env: Env, i: Images): Identity {
    Identity(FirstNonEmpty(env.identity.registryHost, i.registryHost, DEFAULT_IDENTITY.registryHost),
             FirstNonEmpty(env.identity.repoPrefix, i.repoPrefix, DEFAULT_IDENTITY.repoPrefix),
             FirstNonEmpty(env.identity.dhiRegistry, i.dhiRegistry, DEFAULT_IDENTITY.dhiRegistry),
             FirstNonEmpty(env.identity.postgresTag, i.postgresTag, DEFAULT_IDENTITY.postgresTag),
             FirstNonEmpty(env.identity.natsTag, i.natsTag, DEFAULT_IDENTITY.natsTag))
  }

  predicate SetHere(v: string) { TrimSpace(v) != "" }

  /** The trimmed environment value if there is one, else the trimmed saved one, else the default. */
  predicate Precedes(env: string, saved: string, standard: string, v: string) {
    && (SetHere(env) ==> v == TrimSpace(env))
    && (!SetHere(env) && SetHere(saved) ==> v == TrimSpace(saved))
    && (!SetHere(env) && !SetHere(saved) ==> v == standard)
  }

  /** What each of the five fields is, for every environment and state. */
  lemma EnvironmentOverState(env: Env, i: Images)
    ensures var id := EffectiveIdentity(env, i);
            && Precedes(env.identity.registryHost, i.registryHost, DEFAULT_IDENTITY.registryHost, id.registryHost)
            && Precedes(env.identity.repoPrefix, i.repoPrefix, DEFAULT_IDENTITY.repoPrefix, id.repoPrefix)
            && Precedes(env.identity.dhiRegistry, i.dhiRegistry, DEFAULT_IDENTITY.dhiRegistry, id.dhiRegistry)
            && Precedes(env.identity.postgresTag, i.postgresTag, DEFAULT_IDENTITY.postgresTag, id.postgresTag)
            && Precedes(env.identity.natsTag, i.natsTag, DEFAULT_IDENTITY.natsTag, id.natsTag)
  {
    DefaultsAreTight();
  }

  /** The same for the two NATS settings; and the registry counts as custom exactly when the identity is not
      the default one. */
  lemma TunablesResolve(lib: Lib, env: Env, s: State)
    requires ResolveTunables(lib, env, s).Some?
    ensures var t := ResolveTunables(lib, env, s).value;
            && Precedes(env.natsURL, s.features.natsURL, DEFAULT_NATS_URL, t.natsURL)
            && Precedes(env.streamPrefix, s.features.streamPrefix, DEFAULT_STREAM_PREFIX, t.streamPrefix)
            && t.identity == EffectiveIdentity(env, s.images)
            && (t.customRegistry <==> t.identity != DEFAULT_IDENTITY)
  {
    DefaultBus();
  }

  lemma DefaultBus()
    ensures TrimSpace(DEFAULT_NATS_URL) == DEFAULT_NATS_URL && TrimSpace(DEFAULT_STREAM_PREFIX) == DEFAULT_STREAM_PREFIX
  {
  }

  datatype Tunables = Tunables(identity: Identity, natsURL: string, streamPrefix: string, customRegistry: bool)

  /** ResolveTunables. */
  function ResolveTunables(lib: Lib, env: Env, s: State): Option<Tunables> {
    var id := EffectiveIdentity(env, s.images);
    var url := FirstNonEmpty(env.natsURL, s.features.natsURL, DEFAULT_NATS_URL);
    var stream := FirstNonEmpty(env.streamPrefix, s.features.streamPrefix, DEFAULT_STREAM_PREFIX);
    if lib.validHost(id.registryHost) && lib.validHost(id.dhiRegistry) && lib.validRepoPrefix(id.repoPrefix)
       && ValidTag(id.postgresTag) && ValidTag(id.natsTag) && lib.validURL(url) && lib.validStreamPrefix(stream)
       && env.restResolves
    then Some(Tunables(id, url, stream, id != DEFAULT_IDENTITY))
    else None
  }

  // ---------------------------------------------------------------- parameters

  datatype Params = Params(state: State, bus: string, natsPort: int, identity: Identity, natsURL: string,
                           postgresDigest: string, natsDigest: string, disableDefaultPins: bool,
                           pins: map<string, string>)

  function PinOr(lib: Lib, image: string, current: string): string {
    if current != "" then current
    else match lib.dhiPin(image) case Some(d) => d case None => ""
  }

  function PostgresImage(id: Identity): string { id.dhiRegistry + "/postgres:" + id.postgresTag }

  function NatsImage(id: Identity): string { id.dhiRegistry + "/nats:" + id.natsTag }

  /** ParamsFromState: cached and compiled-in digests only without a custom registry. */
  function ParamsFromState(lib: Lib, env: Env, s: State): Option<Params> {
    if s.features.fineTuning && !s.features.sandbox then None
    else
      match ResolveTunables(lib, env, s)
      case None => None
      case Some(tun) =>
        Some(Params(s, if s.backends.bus == "" then "internal" else s.backends.bus,
                    if s.ports.nats == 0 then 3003 else s.ports.nats,
                    tun.identity, tun.natsURL,
                    if tun.customRegistry then "" else PinOr(lib, PostgresImage(tun.identity), ""),
                    if tun.customRegistry then "" else PinOr(lib, NatsImage(tun.identity), ""),
                    tun.customRegistry,
                    if tun.customRegistry then map[] else s.images.pins))
  }

  function Or(a: string, b: string): string { if a == "" then b else a }

  /** applyComposeDefaults: empty identity fields get their defaults, and the compiled-in digests are
      filled in only when all five fields are the defaults and pins are not disabled. */
  function ApplyComposeDefaults(lib: Lib, p: Params): Params {
    var id := Identity(Or(p.identity.registryHost, DEFAULT_IDENTITY.registryHost),
                       Or(p.identity.repoPrefix, DEFAULT_IDENTITY.repoPrefix),
                       Or(p.identity.dhiRegistry, DEFAULT_IDENTITY.dhiRegistry),
                       Or(p.identity.postgresTag, DEFAULT_IDENTITY.postgresTag),
                       Or(p.identity.natsTag, DEFAULT_IDENTITY.natsTag));
    var q := p.(identity := id, natsURL := Or(p.natsURL, DEFAULT_NATS_URL));
    if q.disableDefaultPins || id != DEFAULT_IDENTITY then q
    else q.(postgresDigest := PinOr(lib, PostgresImage(id), q.postgresDigest),
            natsDigest := PinOr(lib, NatsImage(id), q.natsDigest))
  }

  // ---------------------------------------------------------------- validateParams

  predicate Distributed(bus: string) { bus != "" && bus != "internal" }

  /** The host ports of the services that run, pairwise different. */
  predicate PortsDistinct(backend: int, web: int, nats: Option<int>, postgres: Option<int>) {
    && backend != web
    && (nats.Some? ==> nats.value != backend && nats.value != web)
    && (postgres.Some? ==> postgres.value != backend && postgres.value != web)
    && (nats.Some? && postgres.Some? ==> nats.value != postgres.value)
  }

  predicate ValidPortParams(p: Params) {
    var b, w, pg := p.state.ports.backend, p.state.ports.web, p.state.ports.postgres;
    && PortInRange(b) && PortInRange(w) && b != w
    && (Distributed(p.bus) ==> PortInRange(p.natsPort) && p.natsPort != b && p.natsPort != w)
    && (p.state.backends.persistence == "postgres" ==>
          && PortInRange(pg) && pg != b && pg != w
          && (Distributed(p.bus) ==> pg != p.natsPort)
          && TrimSpace(p.state.backends.postgresPassword) != "" && |p.state.backends.postgresPassword| >= 32)
  }

  predicate ValidImageParams(lib: Lib, p: Params) {
    && ValidTag(p.state.images.tag) && ValidTag(p.identity.postgresTag) && ValidTag(p.identity.natsTag)
    && (p.postgresDigest == "" || lib.validDigest(p.postgresDigest))
    && (p.natsDigest == "" || lib.validDigest(p.natsDigest))
    && lib.validHost(p.identity.registryHost) && lib.validHost(p.identity.dhiRegistry)
    && lib.validRepoPrefix(p.identity.repoPrefix)
    && lib.validURL(p.natsURL)
    && forall n :: n in p.pins ==> lib.validDigest(p.pins[n])
  }

  const UNSAFE := "\"'`$\n\r{}[]"

  predicate SafePath(path: string) {
    forall i :: 0 <= i < |path| ==> path[i] !in UNSAFE
  }

  predicate ValidFeatureParams(p: Params) {
    var f := p.state.features;
    && (f.logLevel == "" || ValidLogLevel(f.logLevel))
    && (f.sandbox ==> f.dockerSock != "" && SafePath(f.dockerSock) && -1 <= f.dockerSockGID <= 4294967295)
    && ValidPersistence(p.state.backends.persistence) && p.state.backends.memory == "mem0"
    && (p.bus == "" || ValidBus(p.bus))
  }

  /** Secrets come all or none, or the cursor secret alone; they are trimmed first. */
  predicate ValidSecretParams(s: Secrets) {
    var jwt, key, cursor := TrimSpace(s.jwt), TrimSpace(s.settingsKey), TrimSpace(s.cursorSecret);
    && (jwt != "" <==> key != "") && (jwt != "" ==> cursor != "") && (cursor != "" ==> |cursor| >= 16)
  }

  predicate ValidateParams(lib: Lib, p: Params) {
    ValidImageParams(lib, p) && ValidPortParams(p) && ValidFeatureParams(p) && ValidSecretParams(p.state.secrets)
  }

  /** The effective ports of a state's services. */
  predicate StatePortsDistinct(s: State) {
    PortsDistinct(s.ports.backend, s.ports.web,
                  if Distributed(s.backends.bus) then Some(if s.ports.nats == 0 then 3003 else s.ports.nats) else None,
                  if s.backends.persistence == "postgres" then Some(s.ports.postgres) else None)
  }

  // ---------------------------------------------------------------- rendering

  /** An image reference: repo@digest, or repo:tag when the digest is "". */
  datatype Ref = Ref(repo: string, tag: string, digest: string)

  /** A reference of a compose file by name. */
  datatype RefName = SynthOrg(service: string) | ThirdParty(name: string)

  /** The references of a compose file: SynthOrg images by service, and third-party images; and the
      one inside which the file ends, if a write was cut short there. */
  datatype ComposeFile = ComposeFile(synthorg: map<string, Ref>, thirdParty: map<string, Ref>, cut: Option<RefName>)

  function Repo(host: string, prefix: string, service: string): string {
    host + "/" + prefix + service
  }

  function PinFor(pins: map<string, string>, service: string): string {
    if service in pins then pins[service] else ""
  }

  /** FormatImageRef drops a digest that is not one. */
  function Formatted(lib: Lib, pins: map<string, string>, service: string): string {
    if lib.validDigest(PinFor(pins, service)) then PinFor(pins, service) else ""
  }

  function FineTuneService(variant: string): string {
    if variant == "cpu" then "fine-tune-cpu" else "fine-tune-gpu"
  }

  /** BuildImageRefs: the services whose images a state needs. */
  function Services(f: Features): seq<string> {
    ["backend", "web"]
    + (if f.sandbox then ["sandbox", "sidecar"] else [])
    + (if f.sandbox && f.fineTuning then [FineTuneService(f.variant)] else [])
  }

  /** Backend and web are rendered from the parameters; the images the backend starts itself are
      rendered from the identity the process was configured with when it started. */
  function SynthOrgRef(lib: Lib, configured: Identity, p: Params, service: string): Ref {
    if service == "backend" || service == "web" then
      Ref(Repo(p.identity.registryHost, p.identity.repoPrefix, service), p.state.images.tag, PinFor(p.pins, service))
    else
      Ref(Repo(configured.registryHost, configured.repoPrefix, service), p.state.images.tag,
          Formatted(lib, p.pins, service))
  }

  function Render(lib: Lib, configured: Identity, p: Params): ComposeFile {
    ComposeFile(
      map n | n in Services(p.state.features) :: SynthOrgRef(lib, configured, p, n),
      (if p.state.backends.persistence == "postgres"
       then map["postgres" := Ref(p.identity.dhiRegistry + "/postgres", p.identity.postgresTag, p.postgresDigest)]
       else map[])
      + (if Distributed(p.bus)
         then map["nats" := Ref(p.identity.dhiRegistry + "/nats", p.identity.natsTag, p.natsDigest)] else map[]),
      None)
  }

  /** Generate. */
  function Generate(lib: Lib, configured: Identity, p: Params): (c: Option<ComposeFile>)
    ensures c.Some? ==> c.value.cut.None?
  {
    var q := ApplyComposeDefaults(lib, p);
    if ValidateParams(lib, q) then Some(Render(lib, configured, q)) else None
  }

  /** The file generated from a state and given pins, and the one from the state's own pins. */
  function FileWith(lib: Lib, env: Env, configured: Identity, s: State, pins: map<string, string>)
    : Option<ComposeFile>
  {
    match ParamsFromState(lib, env, s)
    case None => None
    case Some(p) => Generate(lib, configured, p.(pins := pins))
  }

  function FileOf(lib: Lib, env: Env, configured: Identity, s: State): Option<ComposeFile> {
    match ParamsFromState(lib, env, s)
    case None => None
    case Some(p) => Generate(lib, configured, p)
  }

  // ---------------------------------------------------------------- when digests are used

  lemma TrimNonEmpty(a: string, b: string, c: string)
    requires TrimSpace(c) != ""
    ensures FirstNonEmpty(a, b, c) != ""
  {
  }

  lemma DefaultsAreTight()
    ensures TrimSpace(DEFAULT_IDENTITY.registryHost) == DEFAULT_IDENTITY.registryHost
    ensures TrimSpace(DEFAULT_IDENTITY.repoPrefix) == DEFAULT_IDENTITY.repoPrefix
    ensures TrimSpace(DEFAULT_IDENTITY.dhiRegistry) == DEFAULT_IDENTITY.dhiRegistry
    ensures TrimSpace(DEFAULT_IDENTITY.postgresTag) == DEFAULT_IDENTITY.postgresTag
    ensures TrimSpace(DEFAULT_IDENTITY.natsTag) == DEFAULT_IDENTITY.natsTag
  {
  }

  /** Resolution never leaves an identity field empty, so the second layer of defaulting changes none
      of them: both layers agree on what the effective identity is. */
  lemma LayersAgree(lib: Lib, env: Env, s: State)
    requires ParamsFromState(lib, env, s).Some?
    ensures ApplyComposeDefaults(lib, ParamsFromState(lib, env, s).value).identity == EffectiveIdentity(env, s.images)
  {
    DefaultsAreTight();
    var i := s.images;
    TrimNonEmpty(env.identity.registryHost, i.registryHost, DEFAULT_IDENTITY.registryHost);
    TrimNonEmpty(env.identity.repoPrefix, i.repoPrefix, DEFAULT_IDENTITY.repoPrefix);
    TrimNonEmpty(env.identity.dhiRegistry, i.dhiRegistry, DEFAULT_IDENTITY.dhiRegistry);
    TrimNonEmpty(env.identity.postgresTag, i.postgresTag, DEFAULT_IDENTITY.postgresTag);
    TrimNonEmpty(env.identity.natsTag, i.natsTag, DEFAULT_IDENTITY.natsTag);
  }

  /** For every state and environment: digests reach the template only when all five effective
      identity fields are the defaults, and then they are the cached and the compiled-in ones. */
  lemma DigestsNeedDefaultIdentity(lib: Lib, env: Env, s: State)
    requires ParamsFromState(lib, env, s).Some?
    ensures var q := ApplyComposeDefaults(lib, ParamsFromState(lib, env, s).value);
            if EffectiveIdentity(env, s.images) == DEFAULT_IDENTITY
            then q.pins == s.images.pins
                 && q.postgresDigest == PinOr(lib, PostgresImage(DEFAULT_IDENTITY), "")
                 && q.natsDigest == PinOr(lib, NatsImage(DEFAULT_IDENTITY), "")
            else q.pins == map[] && q.postgresDigest == "" && q.natsDigest == ""
  {
    LayersAgree(lib, env, s);
  }

  /** A successful generation means that the effective ports do not collide. */
  lemma GenerateChecksPorts(lib: Lib, env: Env, configured: Identity, s: State, pins: map<string, string>)
    requires ParamsFromState(lib, env, s).Some?
    requires Generate(lib, configured, ParamsFromState(lib, env, s).value.(pins := pins)).Some?
             || Generate(lib, configured, ParamsFromState(lib, env, s).value).Some?
    ensures StatePortsDistinct(Loaded(s)) && ValidTag(s.images.tag)
  {
  }

  // ---------------------------------------------------------------- what is generated, and when

  /** The digest of a third-party image: the compiled-in one on the default identity, none on any other. */
  function StandardDigest(lib: Lib, id: Identity, image: string): string {
    if id == DEFAULT_IDENTITY then PinOr(lib, image, "") else ""
  }

  /** Backend and web in one repository, the images the backend starts itself in the other. */
  function RefFor(lib: Lib, id: Identity, configured: Identity, tag: string, pins: map<string, string>, n: string)
    : Ref
  {
    if n == "backend" || n == "web" then Ref(Repo(id.registryHost, id.repoPrefix, n), tag, PinFor(pins, n))
    else Ref(Repo(configured.registryHost, configured.repoPrefix, n), tag, Formatted(lib, pins, n))
  }

  /** Every file generated from a state, in any environment and with any pins: a reference for each service,
      backend and web in the effective repository and the others in the one the process started with, all
      under the state's tag; Postgres and NATS exactly when the state has them. */
  lemma GeneratedRefs(lib: Lib, env: Env, configured: Identity, s: State, pins: map<string, string>)
    requires ParamsFromState(lib, env, s).Some?
    requires Generate(lib, configured, ParamsFromState(lib, env, s).value.(pins := pins)).Some?
    ensures var c := Generate(lib, configured, ParamsFromState(lib, env, s).value.(pins := pins)).value;
            var id := EffectiveIdentity(env, s.images);
            && (forall n :: n in c.synthorg <==> Needs(s.features, n))
            && (forall n :: n in c.synthorg ==> c.synthorg[n] == RefFor(lib, id, configured, s.images.tag, pins, n))
  {
    LayersAgree(lib, env, s);
    var q := ApplyComposeDefaults(lib, ParamsFromState(lib, env, s).value.(pins := pins));
    assert q.state == s && q.pins == pins && q.identity == EffectiveIdentity(env, s.images);
    forall n ensures n in Services(s.features) <==> Needs(s.features, n) {
      ServicesAreNeeded(s.features, n);
    }
  }

  /** The services a deployment runs: backend and web always, sandbox and sidecar with the sandbox, and with
      fine-tuning the image of its variant, which is the GPU one unless CPU is asked for. */
  predicate Needs(f: Features, n: string) {
    || n == "backend" || n == "web" || (f.sandbox && (n == "sandbox" || n == "sidecar"))
    || (f.sandbox && f.fineTuning && f.variant == "cpu" && n == "fine-tune-cpu")
    || (f.sandbox && f.fineTuning && f.variant != "cpu" && n == "fine-tune-gpu")
  }

  lemma ServicesAreNeeded(f: Features, n: string)
    ensures n in Services(f) <==> Needs(f, n)
  {
    var a, b := if f.sandbox then ["sandbox", "sidecar"] else [],
                if f.sandbox && f.fineTuning then [FineTuneService(f.variant)] else [];
    assert n in ["backend", "web"] <==> n == "backend" || n == "web" by {
      assert ["backend", "web"][0] == "backend" && ["backend", "web"][1] == "web";
    }
    assert n in a <==> f.sandbox && (n == "sandbox" || n == "sidecar") by {
      assert f.sandbox ==> a[0] == "sandbox" && a[1] == "sidecar";
    }
    assert n in b <==> f.sandbox && f.fineTuning && n == FineTuneService(f.variant);
    assert Services(f) == ["backend", "web"] + a + b;
  }

  lemma GeneratedThirdParty(lib: Lib, env: Env, configured: Identity, s: State, pins: map<string, string>)
    requires ParamsFromState(lib, env, s).Some?
    requires Generate(lib, configured, ParamsFromState(lib, env, s).value.(pins := pins)).Some?
    ensures var c := Generate(lib, configured, ParamsFromState(lib, env, s).value.(pins := pins)).value;
            var id := EffectiveIdentity(env, s.images);
            && ("postgres" in c.thirdParty <==> s.backends.persistence == "postgres")
            && ("nats" in c.thirdParty <==> s.backends.bus == "nats")
            && ("postgres" in c.thirdParty ==>
                  c.thirdParty["postgres"]
                    == Ref(id.dhiRegistry + "/postgres", id.postgresTag, StandardDigest(lib, id, PostgresImage(id))))
            && ("nats" in c.thirdParty ==>
                  c.thirdParty["nats"]
                    == Ref(id.dhiRegistry + "/nats", id.natsTag, StandardDigest(lib, id, NatsImage(id))))
  {
    LayersAgree(lib, env, s);
    DigestsNeedDefaultIdentity(lib, env, s);
    var p := ParamsFromState(lib, env, s).value;
    var q := ApplyComposeDefaults(lib, p.(pins := pins));
    assert q.identity == EffectiveIdentity(env, s.images) && q.state == s;
    assert q.postgresDigest == ApplyComposeDefaults(lib, p).postgresDigest;
    assert q.natsDigest == ApplyComposeDefaults(lib, p).natsDigest;
  }

  /** What compose generation demands of a valid state beyond its validity, and nothing else. */
  predicate Generable(lib: Lib, env: Env, s: State) {
    && ResolveTunables(lib, env, s).Some? && s.images.tag != "" && StatePortsDistinct(s)
    && (s.features.sandbox ==> s.features.dockerSock != "" && SafePath(s.features.dockerSock))
    && SecretsShaped(TrimSpace(s.secrets.jwt), TrimSpace(s.secrets.settingsKey), TrimSpace(s.secrets.cursorSecret))
    && (EffectiveIdentity(env, s.images) == DEFAULT_IDENTITY ==>
          UsableDigest(lib, PinOr(lib, PostgresImage(DEFAULT_IDENTITY), ""))
          && UsableDigest(lib, PinOr(lib, NatsImage(DEFAULT_IDENTITY), "")))
  }

  /** The three permitted shapes: no secret, all three, or the cursor secret alone; a cursor secret is long enough. */
  predicate SecretsShaped(jwt: string, key: string, cursor: string) {
    || (jwt == "" && key == "" && cursor == "")
    || (jwt != "" && key != "" && |cursor| >= 16)
    || (jwt == "" && key == "" && |cursor| >= 16)
  }

  predicate UsableDigest(lib: Lib, d: string) { d == "" || lib.validDigest(d) }

  /** For every valid state and every environment, generation from the state's own pins succeeds exactly when
      the tunables resolve, the effective ports are pairwise different, the sandbox has a socket path, the
      secrets come in one of the three shapes and the compiled-in digests are digests. */
  lemma GeneratesExactly(lib: Lib, env: Env, configured: Identity, s: State)
    requires Validate(lib, s)
    ensures ParamsFromState(lib, env, s).Some? <==> ResolveTunables(lib, env, s).Some?
    ensures FileOf(lib, env, configured, s).Some? <==> Generable(lib, env, s)
  {
    FineTuningHasSandbox(lib, s);
    if ParamsFromState(lib, env, s).Some? {
      AppliedParams(lib, env, s);
      ParamsExactly(lib, env, s, ApplyComposeDefaults(lib, ParamsFromState(lib, env, s).value));
    }
  }

  lemma FineTuningHasSandbox(lib: Lib, s: State)
    requires Validate(lib, s)
    ensures s.features.fineTuning ==> s.features.sandbox
  {
  }

  predicate ReachesTemplate(lib: Lib, env: Env, s: State, q: Params) {
    && q.state == s && q.identity == EffectiveIdentity(env, s.images) && lib.validURL(q.natsURL)
    && q.bus == (if s.backends.bus == "" then "internal" else s.backends.bus)
    && q.natsPort == (if s.ports.nats == 0 then 3003 else s.ports.nats)
    && (if q.identity == DEFAULT_IDENTITY
        then q.pins == s.images.pins && q.postgresDigest == PinOr(lib, PostgresImage(DEFAULT_IDENTITY), "")
             && q.natsDigest == PinOr(lib, NatsImage(DEFAULT_IDENTITY), "")
        else q.pins == map[] && q.postgresDigest == "" && q.natsDigest == "")
  }

  lemma AppliedParams(lib: Lib, env: Env, s: State)
    requires ParamsFromState(lib, env, s).Some?
    ensures ReachesTemplate(lib, env, s, ApplyComposeDefaults(lib, ParamsFromState(lib, env, s).value))
  {
    LayersAgree(lib, env, s);
    DigestsNeedDefaultIdentity(lib, env, s);
    DefaultBus();
    TrimNonEmpty(env.natsURL, s.features.natsURL, DEFAULT_NATS_URL);
  }

  /** The same of the parameters that reach validateParams. */
  lemma ParamsExactly(lib: Lib, env: Env, s: State, q: Params)
    requires Validate(lib, s) && ResolveTunables(lib, env, s).Some? && ReachesTemplate(lib, env, s, q)
    ensures ValidateParams(lib, q) <==> Generable(lib, env, s)
  {
    ImageParamsExactly(lib, env, s, q);
    PortParamsExactly(lib, s, q);
    FeatureParamsExactly(lib, s, q);
  }

  lemma FeatureParamsExactly(lib: Lib, s: State, q: Params)
    requires Validate(lib, s) && q.state == s && q.bus == (if s.backends.bus == "" then "internal" else s.backends.bus)
    ensures ValidFeatureParams(q) <==>
              (s.features.sandbox ==> s.features.dockerSock != "" && SafePath(s.features.dockerSock))
  {
  }

  lemma ImageParamsExactly(lib: Lib, env: Env, s: State, q: Params)
    requires Validate(lib, s) && ResolveTunables(lib, env, s).Some? && ReachesTemplate(lib, env, s, q)
    ensures ValidImageParams(lib, q) <==>
              && s.images.tag != ""
              && (q.identity == DEFAULT_IDENTITY ==>
                    UsableDigest(lib, q.postgresDigest) && UsableDigest(lib, q.natsDigest))
  {
  }

  lemma PortParamsExactly(lib: Lib, s: State, q: Params)
    requires Validate(lib, s) && q.state == s && q.bus == (if s.backends.bus == "" then "internal" else s.backends.bus)
    requires q.natsPort == if s.ports.nats == 0 then 3003 else s.ports.nats
    ensures ValidPortParams(q) <==> StatePortsDistinct(s)
  {
  }

  /** A key that does not regenerate compose.yml cannot change what is generated: the file stays what the
      saved state generates. */
  lemma OtherKeysDoNotMatter(lib: Lib, env: Env, configured: Identity, s: State, t: State)
    requires t.images == s.images && t.secrets == s.secrets && t.ports == s.ports && t.backends == s.backends
    requires t.features == s.features.(channel := t.features.channel)
    ensures ParamsFromState(lib, env, t).Some? == ParamsFromState(lib, env, s).Some?
    ensures ParamsFromState(lib, env, s).Some? ==>
              Generate(lib, configured, ParamsFromState(lib, env, t).value)
                == Generate(lib, configured, ParamsFromState(lib, env, s).value)
  {
    if ParamsFromState(lib, env, s).Some? {
      var p, r := ParamsFromState(lib, env, s).value, ParamsFromState(lib, env, t).value;
      assert r == p.(state := t);
      var q := ApplyComposeDefaults(lib, p);
      assert ApplyComposeDefaults(lib, r) == q.(state := t);
      SameRendering(lib, configured, q, t);
    }
  }

  lemma SameRendering(lib: Lib, configured: Identity, p: Params, t: State)
    requires t.images == p.state.images && t.secrets == p.state.secrets && t.ports == p.state.ports
    requires t.backends == p.state.backends && t.features == p.state.features.(channel := t.features.channel)
    ensures ValidateParams(lib, p.(state := t)) == ValidateParams(lib, p)
    ensures Render(lib, configured, p.(state := t)) == Render(lib, configured, p)
  {
    var a, b := Render(lib, configured, p), Render(lib, configured, p.(state := t));
    assert Services(t.features) == Services(p.state.features);
    assert forall n :: n in Services(t.features) ==>
             SynthOrgRef(lib, configured, p.(state := t), n) == SynthOrgRef(lib, configured, p, n);
    assert a.synthorg == b.synthorg;
  }
}
