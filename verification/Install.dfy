/**
 One data directory under any sequence of CLI commands: `init`, `config set`, `config unset`, `start`
 and `update`, each in an environment of its own and with any of its steps failing
 (cli/cmd/init.go, config.go, start.go, update.go, root.go).

 Every step that changes the directory keeps Valid(), so what Valid() says holds after every prefix
 of every run.
 */
module Install {

  import opened Text
  import opened Config
  import opened ComposeParams
  import opened PinTrust
  import opened InitFlow
  import opened ConfigGet

  // ---------------------------------------------------------------- histories

  /** Every saved state kept what its predecessor requires. */
  ghost predicate Chain(h: seq<State>) {
    forall k :: 0 < k < |h| ==> Kept(h[k - 1], h[k])
  }

  ghost predicate StaysPostgres(h: seq<State>, i: nat, j: nat)
    requires i <= j < |h|
  {
    forall k :: i <= k <= j ==> h[k].backends.persistence == "postgres"
  }

  predicate SameKeys(prev: State, now: State) {
    && KeptValue(prev.secrets.settingsKey, now.secrets.settingsKey)
    && KeptValue(prev.secrets.masterKey, now.secrets.masterKey)
    && KeptValue(prev.secrets.cursorSecret, now.secrets.cursorSecret)
  }

  /** A non-empty settings key, master key or cursor secret is the same in every later state. */
  lemma {:induction false} KeysNeverChange(h: seq<State>, i: nat, j: nat)
    requires Chain(h) && i <= j < |h|
    ensures SameKeys(h[i], h[j])
    decreases j - i
  {
    if i < j {
      KeysNeverChange(h, i, j - 1);
      assert Kept(h[j - 1], h[j]);
    }
  }

  /** The Postgres password is the same as long as the saved backend stays postgres. */
  lemma {:induction false} PasswordNeverChanges(h: seq<State>, i: nat, j: nat)
    requires Chain(h) && i <= j < |h| && StaysPostgres(h, i, j)
    ensures h[j].backends.postgresPassword == h[i].backends.postgresPassword
    decreases j - i
  {
    if i < j {
      PasswordNeverChanges(h, i, j - 1);
      assert Kept(h[j - 1], h[j]);
    }
  }

  /** No service beyond backend and web has a port of its own. */
  predicate Plain(s: State) {
    s.backends.persistence != "postgres" && !Distributed(s.backends.bus)
  }

  /** Two states with the same backends and ports have the same effective ports. */
  lemma SamePorts(s: State, t: State)
    requires Loaded(s) == s && t.ports == s.ports && t.backends == s.backends
    ensures StatePortsDistinct(Loaded(t)) == StatePortsDistinct(s)
  {
  }

  lemma ApplyKeepsPlainPorts(lib: Lib, s: State, key: Key, value: string)
    requires Plain(s) && StatePortsDistinct(s) && Apply(lib, s, key, value).Some?
    ensures Plain(Apply(lib, s, key, value).value) && StatePortsDistinct(Loaded(Apply(lib, s, key, value).value))
  {
    ApplyIsConfined(lib, s, key, value);
  }

  lemma ResetKeepsPlainPorts(s: State, key: Key)
    requires Plain(s) && StatePortsDistinct(s)
    requires SectionOf(key) == InPorts ==> Reset(s, key).ports.backend != Reset(s, key).ports.web
    ensures Plain(Reset(s, key)) && StatePortsDistinct(Loaded(Reset(s, key)))
  {
    ResetIsConfined(s, key);
  }

  /** The ports that services other than backend and web occupy. */
  predicate Occupied(s: State, port: int) {
    || (Distributed(s.backends.bus) && port == Loaded(s).ports.nats)
    || (s.backends.persistence == "postgres" && port == Loaded(s).ports.postgres)
  }

  /** Why compose.yml must be there: a port edit on its own checks backend against web and nothing
      else, so without the regeneration it is safe exactly when the new port is not occupied. */
  lemma PortEditAlone(lib: Lib, s: State, key: Key, value: string)
    requires Loaded(s) == s && StatePortsDistinct(s)
    requires key.BackendPort? || key.WebPort?
    requires lib.atoi(value).Some? && Apply(lib, s, key, value).Some?
    ensures StatePortsDistinct(Loaded(Apply(lib, s, key, value).value)) <==> !Occupied(s, lib.atoi(value).value)
  {
    var t := Apply(lib, s, key, value).value;
    assert t.backends == s.backends && t.ports.nats == s.ports.nats && t.ports.postgres == s.ports.postgres;
  }

  /** The same for a reset, which checks the two ports against each other as well. */
  lemma PortResetAlone(s: State, key: Key)
    requires Loaded(s) == s && StatePortsDistinct(s)
    requires key.BackendPort? || key.WebPort?
    requires Reset(s, key).ports.backend != Reset(s, key).ports.web
    ensures StatePortsDistinct(Loaded(Reset(s, key))) <==> !Occupied(s, if key.BackendPort? then 3001 else 3000)
  {
  }

  /** A deployment with Postgres on the given port. */
  function OnPostgres(ports: Ports, password: string): State {
    DEFAULT_STATE.(ports := ports, backends := Backends("postgres", "mem0", "internal", password))
  }

  const PASSWORD := "0123456789abcdef0123456789abcdef"

  lemma OnPostgresValidates(lib: Lib, ports: Ports)
    requires PortInRange(ports.backend) && PortInRange(ports.web) && PortInRange(ports.nats)
             && PortInRange(ports.postgres)
    ensures Validate(lib, OnPostgres(ports, PASSWORD))
            && LoadOf(lib, Some(OnPostgres(ports, PASSWORD))) == Some(OnPostgres(ports, PASSWORD))
  {
    PasswordIsUsable();
    LoadedValidates(lib, None);
    var s, d := OnPostgres(ports, PASSWORD), LoadOf(lib, None).value;
    assert ValidImages(lib, s.images) && ValidTuning(lib, s.tuning) && ValidPorts(s.ports);
    assert ValidFeatures(lib, s.features, s.secrets) by { assert TrimSpace("") == ""; }
  }

  lemma PasswordIsUsable()
    ensures TrimSpace(PASSWORD) != "" && |PASSWORD| >= 32 && NoControl(PASSWORD)
  {
    assert !IsSpace(PASSWORD[0]) && !IsSpace(PASSWORD[31]);
  }

  /** One edit that is not: on a Postgres deployment that every command loads, the web port is moved to
      3002; what would be saved without compose.yml validates, and two services share the port. */
  lemma PortEditCollides(lib: Lib, value: string)
    requires lib.atoi(value) == Some(3002)
    ensures var s := OnPostgres(Ports(3001, 3000, 3003, 3002), PASSWORD);
            var t := OnPostgres(Ports(3001, 3002, 3003, 3002), PASSWORD);
            && LoadOf(lib, Some(s)) == Some(s) && StatePortsDistinct(s)
            && Apply(lib, s, WebPort, value) == Some(t)
            && Validate(lib, t) && !StatePortsDistinct(Loaded(t))
  {
    OnPostgresValidates(lib, Ports(3001, 3000, 3003, 3002));
    OnPostgresValidates(lib, Ports(3001, 3002, 3003, 3002));
  }

  /** And one reset: Postgres on 3000, and the web port reset to its default. */
  lemma PortResetCollides(lib: Lib)
    ensures var s := OnPostgres(Ports(3001, 3005, 3003, 3000), PASSWORD);
            var t := OnPostgres(Ports(3001, 3000, 3003, 3000), PASSWORD);
            && LoadOf(lib, Some(s)) == Some(s) && StatePortsDistinct(s)
            && Reset(s, WebPort) == t && t.ports.backend != t.ports.web
            && Validate(lib, t) && !StatePortsDistinct(Loaded(t))
  {
    OnPostgresValidates(lib, Ports(3001, 3005, 3003, 3000));
    OnPostgresValidates(lib, Ports(3001, 3000, 3003, 3000));
  }

  /** Pins survive an edit only with the tag and identity they were verified for. */
  lemma SurvivingPins(env: Env, s: State, t: State, key: Key, verified: set<Verification>)
    requires Confined(s, t, key) && PinsTrusted(s.images.pins, s.images.tag, verified)
    ensures PinsTrusted(WithoutPins(t, key).images.pins, WithoutPins(t, key).images.tag, verified)
    ensures WithoutPins(t, key).images.pins == map[] || WithoutPins(t, key).images == s.images
  {
  }

  lemma SurvivingPorts(s: State, t: State, key: Key)
    requires Confined(s, t, key) && Loaded(s) == s
    ensures WithoutPins(t, key).backends == s.backends && WithoutPins(t, key).secrets == s.secrets
    ensures StatePortsDistinct(Loaded(WithoutPins(t, key))) == StatePortsDistinct(Loaded(t))
    ensures !AffectsCompose(key) ==> StatePortsDistinct(Loaded(t)) == StatePortsDistinct(s)
  {
    if !AffectsCompose(key) {
      SamePorts(s, t);
    }
  }

  lemma WithoutPinsValidates(lib: Lib, s: State, key: Key)
    requires Validate(lib, s)
    ensures Validate(lib, WithoutPins(s, key))
  {
  }

  lemma SameSynthOrgTrusted(a: map<string, string>, b: map<string, string>, tag: string, verified: set<Verification>)
    requires SameSynthOrgPins(a, b) && PinsTrusted(a, tag, verified)
    ensures PinsTrusted(b, tag, verified)
  {
    forall n | n in b && !ThirdPartyPin(n) ensures Verification(n, RepoOf(DEFAULT_IDENTITY, n), tag, b[n]) in verified {
      assert n in a && a[n] == b[n];
    }
  }

  /** The image tag of a version: the version without a leading v if that is a valid tag other than dev, and
      latest otherwise. */
  predicate IsTarget(version: string, tag: string) {
    if |version| > 0 && version[0] == 'v' && ValidTag(version[1..]) && version[1..] != "dev" then tag == version[1..]
    else if (version == "" || version[0] != 'v') && ValidTag(version) && version != "dev" then tag == version
    else tag == "latest"
  }

  /** targetImageTag. */
  function TargetTag(version: string): (r: string)
    ensures IsTarget(version, r) && ValidTag(r)
  {
    var tag := if HasPrefix(version, "v") then version[1..] else version;
    if tag == "" || tag == "dev" || !ValidTag(tag) then "latest" else tag
  }

  /** hasSynthOrgDigests. */
  predicate HasSynthOrgDigests(s: State) {
    s.images.pins != map[] && forall n :: n in Services(s.features) ==> n in s.images.pins
  }

  predicate AllCached(s: State) {
    forall n :: n in Services(s.features) ==> n in s.images.pins
  }

  /** The cache counts as complete exactly when it has every service of the state; an empty one never does. */
  lemma CacheIsComplete(s: State)
    ensures HasSynthOrgDigests(s) <==> AllCached(s)
  {
    assert Services(s.features)[0] == "backend" && "backend" in Services(s.features);
  }

  function WithPins(s: State, tag: string, pins: map<string, string>): State {
    s.(images := s.images.(tag := tag, pins := pins))
  }

  lemma ReloadKeepsBackends(lib: Lib, before: Option<State>, now: Option<State>, s: State, pins: map<string, string>)
    requires LoadOf(lib, before) == Some(s) && (now == before || now == Some(WithPins(s, s.images.tag, pins)))
    ensures LoadOf(lib, now).Some? ==> LoadOf(lib, now).value.backends == s.backends
  {
  }

  lemma LoadedTwice(s: State)
    ensures Loaded(Loaded(s)) == Loaded(s)
  {
  }

  /** One more accepted edit: it loaded what the run so far saved. */
  lemma AfterOneMore(lib: Lib, first: Option<State>, now: Option<State>, done: seq<Edit>, e: Edit)
    requires LoadOf(lib, now).Some? && Edited(lib, LoadOf(lib, now).value, e).Some?
    requires done == [] ==> now == first
    requires done != [] ==> LoadOf(lib, first).Some? && now == After(lib, LoadOf(lib, first).value, done) && now.Some?
    ensures LoadOf(lib, first).Some?
    ensures After(lib, LoadOf(lib, first).value, done + [e]) == Edited(lib, LoadOf(lib, now).value, e)
  {
    assert (done + [e])[..|done|] == done;
    if done == [] && first.Some? {
      LoadedTwice(first.value);
    }
  }

  ghost predicate LastTouch(edits: seq<Edit>, j: nat, key: Key) {
    j < |edits| && Touches(edits[j], key) && forall k :: j < k < |edits| ==> !Touches(edits[k], key)
  }

  /** `t` reads as `s` with the edits made in order. */
  ghost predicate ReadsBack(lib: Lib, s: State, edits: seq<Edit>, t: State) {
    && (forall key, j: nat :: LastTouch(edits, j, key) ==> Get(lib, t, key) == Reads(lib, edits[j], key))
    && (forall key :: (forall k :: 0 <= k < |edits| ==> !Touches(edits[k], key)) ==>
          Get(lib, t, key) == Get(lib, s, key))
  }

  lemma EveryKeyReadsBack(lib: Lib, s: State, edits: seq<Edit>)
    requires Sane(lib) && After(lib, s, edits).Some?
    ensures ReadsBack(lib, s, edits, After(lib, s, edits).value)
  {
    var t := After(lib, s, edits).value;
    forall key, j: nat | LastTouch(edits, j, key) ensures Get(lib, t, key) == Reads(lib, edits[j], key) {
      LastEditWins(lib, s, edits, key, j);
    }
    forall key | forall k :: 0 <= k < |edits| ==> !Touches(edits[k], key) ensures Get(lib, t, key) == Get(lib, s, key) {
      UntouchedKeyStays(lib, s, edits, key);
    }
  }

  /** The state a successful init saves. */
  function InitState(lib: Lib, saved: Option<State>, interactive: bool, a: Answers, g: Generated, flags: Flags,
                     version: string): Option<State> {
    match BuildState(lib, a, g, version)
    case None => None
    case Some(b) =>
      var s := if interactive && a.natsPort > 0 then b.(ports := b.ports.(nats := a.natsPort)) else b;
      if saved.None? then Some(s)
      else
        match LoadOf(lib, saved)
        case None => None
        case Some(prev) => if interactive then ReinitInteractive(a, s, prev, flags) else Reinit(s, prev, flags)
  }

  /** What the flags and the wizard let through: a known channel and variant, a NATS port that is unset
      or in range, and generated or stored passwords without control characters. */
  predicate Admissible(lib: Lib, saved: Option<State>, a: Answers, g: Generated) {
    && (a.channel == "" || ValidChannel(a.channel)) && (a.variant == "" || ValidVariant(a.variant))
    && (a.natsPort > 0 ==> PortInRange(a.natsPort)) && NoControl(g.password)
    && (saved.Some? ==> NoControl(saved.value.backends.postgresPassword))
  }

  /** Fine-tuning only on a supported machine, and a master key in use that is a proper one. */
  predicate Loadable(lib: Lib, s: State) {
    && (s.features.fineTuning ==> lib.amd64)
    && (s.features.encryptSecrets && TrimSpace(s.secrets.masterKey) != "" ==> lib.validFernetKey(s.secrets.masterKey))
  }

  /** What init and re-init save has the shape of a built state. */
  lemma InitStateShape(lib: Lib, saved: Option<State>, interactive: bool, a: Answers, g: Generated, flags: Flags,
                       version: string)
    requires InitState(lib, saved, interactive, a, g, flags, version).Some? && Admissible(lib, saved, a, g)
    ensures var s := InitState(lib, saved, interactive, a, g, flags, version).value;
            && InitShape(s) && NoControl(s.backends.postgresPassword) && PortInRange(Loaded(s).ports.nats)
            && ValidChannel(s.features.channel) && (s.features.variant == "" || ValidVariant(s.features.variant))
  {
    BuiltShape(lib, a, g, version);
    var b := BuildState(lib, a, g, version).value;
    var s := if interactive && a.natsPort > 0 then b.(ports := b.ports.(nats := a.natsPort)) else b;
    if saved.Some? {
      var prev := LoadOf(lib, saved).value;
      ReinitChangesOnlyStorage(a, s, prev, flags);
      ReinitPassword(a, s, prev, flags);
    }
  }

  lemma ReinitPassword(a: Answers, s: State, prev: State, flags: Flags)
    requires NoControl(s.backends.postgresPassword) && NoControl(prev.backends.postgresPassword)
    ensures Reinit(s, prev, flags).Some? ==> NoControl(Reinit(s, prev, flags).value.backends.postgresPassword)
    ensures ReinitInteractive(a, s, prev, flags).Some? ==>
              NoControl(ReinitInteractive(a, s, prev, flags).value.backends.postgresPassword)
  {
  }

  /** So what a successful init or re-init saved loads again exactly when it is loadable. */
  lemma InitSavedLoads(lib: Lib, env: Env, configured: Identity, saved: Option<State>, interactive: bool, a: Answers,
                       g: Generated, flags: Flags, version: string)
    requires InitState(lib, saved, interactive, a, g, flags, version).Some? && Admissible(lib, saved, a, g)
    requires var s := InitState(lib, saved, interactive, a, g, flags, version).value;
             ParamsFromState(lib, env, s).Some? && Generate(lib, configured, ParamsFromState(lib, env, s).value).Some?
    ensures var s := InitState(lib, saved, interactive, a, g, flags, version).value;
            LoadOf(lib, Some(s)).Some? <==> Loadable(lib, s)
  {
    InitStateShape(lib, saved, interactive, a, g, flags, version);
    InitStateLoads(lib, env, configured, InitState(lib, saved, interactive, a, g, flags, version).value);
  }

  // ---------------------------------------------------------------- what commands accept

  /** What `config set` accepts when no call fails: a key whose value passes its own check, a state that is
      valid afterwards, and, if the key regenerates an existing compose.yml, one that generates (GeneratesExactly
      says when). */
  predicate SetAccepted(lib: Lib, env: Env, id: Identity, s: State, composed: bool, key: Key, value: string) {
    && Apply(lib, s, key, value).Some? && Validate(lib, Apply(lib, s, key, value).value)
    && (composed && AffectsCompose(key) ==>
          FileOf(lib, env, id, WithoutPins(Apply(lib, s, key, value).value, key)).Some?)
  }

  /** A known key, and no collision of the backend and web ports when it is one of the two. */
  predicate Resettable(s: State, key: Key) {
    !key.Unknown? && (key.BackendPort? || key.WebPort? ==> Reset(s, key).ports.backend != Reset(s, key).ports.web)
  }

  /** What `config unset` accepts: a key it can reset, and a state that generates when there is a file to write. */
  predicate UnsetAccepted(lib: Lib, env: Env, id: Identity, s: State, composed: bool, key: Key) {
    && Resettable(s, key)
    && (composed && AffectsCompose(key) ==>
          FileOf(lib, env, id, WithoutPins(Reset(s, key), key)).Some?)
  }

  lemma UnsetAcceptedMeans(lib: Lib, env: Env, id: Identity, s: State, t: Option<State>, composed: bool, key: Key)
    requires t == if Resettable(s, key) then Some(Reset(s, key)) else None
    ensures UnsetAccepted(lib, env, id, s, composed, key) <==>
            t.Some? && (composed && AffectsCompose(key) ==> FileOf(lib, env, id, WithoutPins(t.value, key)).Some?)
  {
  }

  /** Every command but init first needs a state that loads and tunables that resolve. */
  predicate Ready(lib: Lib, env: Env, saved: Option<State>) {
    LoadOf(lib, saved).Some? && ResolveTunables(lib, env, LoadOf(lib, saved).value).Some?
  }

  /** The identity a process starts with: the defaults when nothing resolves. */
  function StartIdentity(lib: Lib, env: Env, saved: Option<State>): Identity {
    match LoadOf(lib, saved)
    case None => DEFAULT_IDENTITY
    case Some(s) => if ResolveTunables(lib, env, s).Some? then EffectiveIdentity(env, s.images) else DEFAULT_IDENTITY
  }

  /** A verification that answered for every service, with a digest for each. */
  predicate Complete(results: Option<seq<Result>>, services: seq<string>) {
    results.Some? && ResultsFor(results.value, services) && forall r :: r in results.value ==> r.digest != ""
  }

  /** Every service of the state has a digest that was verified for the tag on the default identity. */
  ghost predicate AllVerified(f: Features, tag: string, verified: set<Verification>) {
    forall n :: n in Services(f) ==>
      exists v :: v in verified && v.service == n && v.repo == RepoOf(DEFAULT_IDENTITY, n) && v.tag == tag
  }

  lemma PinnedServicesVerified(f: Features, pins: map<string, string>, tag: string, verified: set<Verification>)
    requires PinsTrusted(pins, tag, verified) && forall n :: n in Services(f) ==> n in pins
    ensures AllVerified(f, tag, verified)
  {
    forall n | n in Services(f)
      ensures exists v :: v in verified && v.service == n && v.repo == RepoOf(DEFAULT_IDENTITY, n) && v.tag == tag
    {
      ServicesAreSynthOrg(f, n);
      assert Verification(n, RepoOf(DEFAULT_IDENTITY, n), tag, pins[n]) in verified;
    }
  }

  /** The third-party images of a state, and whether their compiled-in digests are all cached. */
  function ThirdPartyImages(b: Backends): seq<string> {
    (if b.persistence == "postgres" then [PostgresImage(DEFAULT_IDENTITY)] else [])
    + (if b.bus == "nats" then [NatsImage(DEFAULT_IDENTITY)] else [])
  }

  predicate HasDHIDigests(lib: Lib, s: State) {
    forall i :: i in ThirdPartyImages(s.backends) ==>
      CachedAsPinned(lib, s.images.pins, i)
  }

  /** The loaded state with the target tag of the version, and nothing else changed but the pins. */
  predicate Updated(version: string, s: State, saved: Option<State>) {
    && saved.Some? && IsTarget(version, saved.value.images.tag)
    && saved.value == WithPins(s, saved.value.images.tag, saved.value.images.pins)
  }

  /** The update stops before the images: the health check or the user stops it, Docker is missing, or the target tag
      is there and nothing is to be recovered. */
  predicate Stops(version: string, s: State, ch: Choices, compose: Option<ComposeFile>) {
    !ch.proceed || (Declines(ch, compose) && !ch.accepted) || StopsAtImages(version, s, ch)
  }

  predicate StopsAtImages(version: string, s: State, ch: Choices) {
    !ch.docker || !ch.confirmed || (!ch.recovered && IsTarget(version, s.images.tag))
  }

  /** The state may be saved in the place of `s` by an edit of the key. */
  predicate MayFollow(lib: Lib, s: State, t: State, key: Key) {
    && Confined(s, t, key) && Validate(lib, t)
    && (Plain(s) && StatePortsDistinct(s) ==> Plain(t) && StatePortsDistinct(Loaded(t)))
  }

  /** The checked edit of `config set`. */
  method ApplyEdit(lib: Lib, s: State, key: Key, value: string) returns (t: Option<State>)
    ensures t.Some? <==> Apply(lib, s, key, value).Some? && Validate(lib, Apply(lib, s, key, value).value)
    ensures t.Some? ==> t == Apply(lib, s, key, value) && MayFollow(lib, s, t.value, key)
  {
    t := Apply(lib, s, key, value);
    if t.Some? && !Validate(lib, t.value) {
      t := None;
    }
    if t.Some? {
      ApplyIsConfined(lib, s, key, value);
      if Plain(s) && StatePortsDistinct(s) {
        ApplyKeepsPlainPorts(lib, s, key, value);
      }
    }
  }

  /** The checked reset of `config unset`. */
  method ResetEdit(lib: Lib, s: State, key: Key) returns (t: Option<State>)
    requires Validate(lib, s)
    ensures t == if Resettable(s, key) then Some(Reset(s, key)) else None
    ensures t.Some? ==> !key.Unknown? && MayFollow(lib, s, t.value, key)
  {
    if key.Unknown? {
      return None;
    }
    t := Some(Reset(s, key));
    if (key.BackendPort? || key.WebPort?) && t.value.ports.backend == t.value.ports.web {
      return None;
    }
    ResetIsConfined(s, key);
    ResetValidates(lib, s, key);
    if Plain(s) && StatePortsDistinct(s) {
      ResetKeepsPlainPorts(s, key);
    }
  }

  /** Only the references of an existing file without a sandbox can be patched. */
  predicate CanPatch(configured: Identity, s: State, compose: Option<ComposeFile>) {
    compose.Some? && !s.features.sandbox && Patchable(configured, compose.value)
  }

  /** The changes of an existing file were declined. */
  predicate Declines(ch: Choices, compose: Option<ComposeFile>) {
    compose.Some? && !ch.same && ch.declined
  }

  /** The file of an image update: the existing one patched, or one generated for the new tag and pins. */
  function NextFile(lib: Lib, env: Env, configured: Identity, s: State, was: Option<ComposeFile>, tag: string,
                    pins: map<string, string>, preserve: bool)
    : Option<ComposeFile>
  {
    if !preserve then FileWith(lib, env, configured, WithPins(s, tag, s.images.pins), pins)
    else if was.None? then None
    else Some(PatchRefs(configured, was.value, tag, pins))
  }

  /** The images are updated: the target tag is saved, with pins for exactly the services of the state, all of them
      verified for that tag, or with none when verification is skipped; and compose.yml goes with it. */
  ghost predicate Renewed(lib: Lib, env: Env, configured: Identity, skip: bool, s: State, version: string,
                          was: Option<ComposeFile>, preserve: bool, saved: Option<State>,
                          compose: Option<ComposeFile>, verified: set<Verification>) {
    && Updated(version, s, saved)
    && (if skip then saved.value.images.pins == map[]
        else saved.value.images.pins.Keys == (set n | n in Services(s.features))
             && AllVerified(s.features, saved.value.images.tag, verified))
    && compose.Some?
    && compose == NextFile(lib, env, configured, s, was, saved.value.images.tag, saved.value.images.pins, preserve)
  }

  /** A generated file does not depend on the one before it. */
  lemma RenewedFrom(lib: Lib, env: Env, configured: Identity, skip: bool, s: State, version: string,
                    was: Option<ComposeFile>, now: Option<ComposeFile>, preserve: bool, saved: Option<State>,
                    compose: Option<ComposeFile>, verified: set<Verification>)
    requires preserve ==> now == was
    ensures Renewed(lib, env, configured, skip, s, version, now, preserve, saved, compose, verified) ==>
            Updated(version, s, saved)
            && Renewed(lib, env, configured, skip, s, version, was, preserve, saved, compose, verified)
  {
  }

  /** The refresh has nothing to generate, or can. */
  predicate Refreshable(lib: Lib, env: Env, configured: Identity, s: State, ch: Choices, compose: Option<ComposeFile>) {
    (compose.None? && !ch.recovered) || FileOf(lib, env, configured, s).Some?
  }

  /** An edit by a key that does not regenerate compose.yml does not change what is generated. */
  lemma EditStaysInStep(lib: Lib, env: Env, configured: Identity, s: State, t: State, key: Key)
    requires Confined(s, t, key)
    ensures !AffectsCompose(key) ==>
              FileOf(lib, env, configured, WithoutPins(t, key)) == FileOf(lib, env, configured, s)
  {
    if !AffectsCompose(key) {
      OtherKeysDoNotMatter(lib, env, configured, s, t);
    }
  }

  /** The third-party images of the state that have a compiled-in digest are in the cache with that digest. */
  predicate ThirdPartyCached(lib: Lib, b: Backends, pins: map<string, string>) {
    && (b.persistence == "postgres" && lib.dhiPin(PostgresImage(DEFAULT_IDENTITY)).Some? ==>
          CachedAsPinned(lib, pins, PostgresImage(DEFAULT_IDENTITY)))
    && (b.bus == "nats" && lib.dhiPin(NatsImage(DEFAULT_IDENTITY)).Some? ==>
          CachedAsPinned(lib, pins, NatsImage(DEFAULT_IDENTITY)))
  }

  /** The verifier answered for every third-party image of the state, and no image is named like an entry that
      stands beside another's. */
  predicate Covers(results: seq<DHIResult>, b: Backends) {
    var postgres, nats := PostgresImage(DEFAULT_IDENTITY), NatsImage(DEFAULT_IDENTITY);
    && (forall j :: 0 <= j < |results| ==> Unshadowed(results[j], postgres) && Unshadowed(results[j], nats))
    && (b.persistence == "postgres" ==> exists k :: 0 <= k < |results| && results[k].image == postgres)
    && (b.bus == "nats" ==> exists k :: 0 <= k < |results| && results[k].image == nats)
  }

  /** If the verifier answered for all of them, their digests are in the saved cache. */
  predicate CachesThirdParty(lib: Lib, dhi: Option<seq<DHIResult>>, b: Backends, saved: Option<State>) {
    (dhi.Some? ==> Covers(dhi.value, b)) && saved.Some? ==> ThirdPartyCached(lib, b, saved.value.images.pins)
  }

  lemma CachedThirdParty(lib: Lib, s: State)
    requires HasDHIDigests(lib, s)
    ensures ThirdPartyCached(lib, s.backends, s.images.pins)
  {
    var images := ThirdPartyImages(s.backends);
    assert s.backends.persistence == "postgres" ==> images[0] == PostgresImage(DEFAULT_IDENTITY) && images[0] in images;
    assert s.backends.bus == "nats" ==>
             images[|images| - 1] == NatsImage(DEFAULT_IDENTITY) && images[|images| - 1] in images;
  }

  // ---------------------------------------------------------------- commands

  /** The answers and outcomes of an update: whether the health check lets it go on and asks for recovery, whether
      the regenerated file is the same, whether its changes and then the images are declined, whether Docker is
      there, the images are confirmed and pulled, and how backup and rollback go. */
  datatype Choices = Choices(proceed: bool, recovered: bool, same: bool, declined: bool, accepted: bool, docker: bool,
                             confirmed: bool, pulled: bool, backupReadable: bool, rollbackWorks: bool)

  /** The commands with all that the outside answers; `calm` says that no file operation fails. */
  datatype Command =
    | ConfigSet(env: Env, calm: bool, key: Key, value: string)
    | ConfigUnset(env: Env, calm: bool, key: Key)
    | Init(env: Env, calm: bool, interactive: bool, answers: Answers, generated: Option<Generated>, flags: Flags,
           version: string, confirmed: bool)
    | Start(env: Env, calm: bool, skipVerify: bool, noPull: bool, results: Option<seq<Result>>,
            dhi: Option<seq<DHIResult>>)
    | Update(env: Env, calm: bool, skipVerify: bool, version: string, choices: Choices, results: Option<seq<Result>>)
    | DeleteCompose

  /** compose.yml is neither deleted by someone else nor unreadable when it is to be backed up. */
  predicate KeepsCompose(c: Command) {
    !c.DeleteCompose? && (c.Update? ==> c.choices.backupReadable)
  }

  /** No rollback write is cut short. */
  predicate KeepsWhole(c: Command) {
    c.Update? ==> c.choices.rollbackWorks
  }

  class Installation {
    const lib: Lib
    var saved: Option<State>
    var compose: Option<ComposeFile>

    // What was ever verified and saved, whether compose.yml was there since it was first needed, and
    // whether every rollback so far worked.
    ghost var verified: set<Verification>
    ghost var history: seq<State>
    ghost var intact: bool
    ghost var whole: bool

    ghost predicate Recorded()
      reads this
    {
      && (saved.Some? <==> |history| > 0) && (saved.Some? ==> saved.value == history[|history| - 1])
      && Chain(history)
    }

    ghost predicate Trusted()
      reads this
    {
      && OnlyDefaultRepos(verified)
      && (saved.Some? ==> PinsTrusted(saved.value.images.pins, saved.value.images.tag, verified))
      && (compose.Some? ==> RefsTrusted(lib, compose.value, verified) && (whole ==> compose.value.cut.None?))
    }

    ghost predicate PortsFree()
      reads this
    {
      intact && saved.Some? ==> StatePortsDistinct(Loaded(saved.value)) && (compose.None? ==> Plain(saved.value))
    }

    ghost predicate Valid()
      reads this
    {
      Recorded() && Trusted() && PortsFree()
    }

    /** The record of the past only grows. */
    twostate predicate Grows()
      reads this
    {
      old(verified) <= verified && old(history) <= history
    }

    /** An empty data directory. */
    constructor (l: Lib)
      ensures Valid() && lib == l && saved.None? && compose.None? && history == [] && verified == {} && intact && whole
    {
      lib, saved, compose := l, None, None;
      verified, history, intact, whole := {}, [], true, true;
    }

    // -------------------------------------------------------------- steps

    method Load(calm: bool) returns (r: Option<State>)
      ensures r.Some? || calm ==> r == LoadOf(lib, saved)
    {
      var readable: bool := *;
      r := if readable || calm then LoadOf(lib, saved) else None;
    }

    /** A failed save leaves the old file in place. */
    method Save(s: State, calm: bool) returns (ok: bool)
      requires Valid()
      requires PinsTrusted(s.images.pins, s.images.tag, verified)
      requires saved.Some? ==> Kept(saved.value, s)
      requires intact ==> StatePortsDistinct(Loaded(s)) && (compose.None? ==> Plain(s))
      modifies this`saved, this`history
      ensures Valid() && Grows() && (calm ==> ok)
      ensures if ok then saved == Some(s) && history == old(history) + [s]
              else saved == old(saved) && history == old(history)
    {
      ok := *;
      ok := ok || calm;
      if ok {
        saved := Some(s);
        history := history + [s];
      }
    }

    /** A failed write may have replaced the file before it failed. */
    method WriteCompose(c: ComposeFile, calm: bool) returns (ok: bool)
      requires Valid() && RefsTrusted(lib, c, verified) && (whole ==> c.cut.None?)
      modifies this`compose
      ensures Valid() && (calm ==> ok)
      ensures compose == Some(c) || (!ok && compose == old(compose))
    {
      ok := *;
      ok := ok || calm;
      var replaced: bool := *;
      if ok || replaced {
        compose := Some(c);
      }
    }

    /** applyTunables: the identity and the verification switch the process starts with. */
    method Prepare(env: Env, skipFlag: bool, calm: bool) returns (tun: Option<Tunables>, skip: bool)
      ensures tun.Some? ==> LoadOf(lib, saved).Some? && tun == ResolveTunables(lib, env, LoadOf(lib, saved).value)
      ensures tun.Some? ==> tun.value.identity == EffectiveIdentity(env, LoadOf(lib, saved).value.images)
      ensures tun.Some? ==> skip == (skipFlag || tun.value.identity != DEFAULT_IDENTITY)
      ensures calm && LoadOf(lib, saved).Some? ==> tun == ResolveTunables(lib, env, LoadOf(lib, saved).value)
    {
      tun, skip := None, skipFlag;
      var s := Load(calm);
      if s.Some? {
        tun := ResolveTunables(lib, env, s.value);
        skip := skipFlag || (tun.Some? && tun.value.customRegistry);
      }
    }

    /** What Load returns is trusted like the file it read. */
    lemma LoadedIsTrusted()
      requires Valid() && LoadOf(lib, saved).Some?
      ensures PinsTrusted(LoadOf(lib, saved).value.images.pins, LoadOf(lib, saved).value.images.tag, verified)
      ensures intact ==>
                StatePortsDistinct(LoadOf(lib, saved).value) && (compose.None? ==> Plain(LoadOf(lib, saved).value))
      ensures saved.Some? ==>
                saved.value.secrets == LoadOf(lib, saved).value.secrets
                && saved.value.backends == LoadOf(lib, saved).value.backends
    {
    }

    /** generate and write compose.yml from a state, with the state's own pins. */
    method GenerateAndWrite(env: Env, configured: Identity, s: State, calm: bool) returns (ok: bool)
      requires Valid()
      requires PinsTrusted(s.images.pins, s.images.tag, verified)
      requires s.images.pins == map[] || configured == EffectiveIdentity(env, s.images)
      modifies this`compose
      ensures Valid()
      ensures ok || compose != old(compose) ==>
                StatePortsDistinct(Loaded(s)) && compose.Some? && compose == FileOf(lib, env, configured, s)
      ensures calm ==> (ok <==> FileOf(lib, env, configured, s).Some?)
    {
      var p := ParamsFromState(lib, env, s);
      if p.None? { return false; }
      var c := Generate(lib, configured, p.value);
      if c.None? { return false; }
      RegeneratedTrusted(lib, env, configured, s, verified);
      GenerateChecksPorts(lib, env, configured, s, map[]);
      ok := WriteCompose(c.value, calm);
    }

    // -------------------------------------------------------------- config

    /** regenerateCompose: only when compose.yml exists. */
    method Regenerate(env: Env, configured: Identity, s: State, calm: bool) returns (ok: bool)
      requires Valid()
      requires PinsTrusted(s.images.pins, s.images.tag, verified)
      requires s.images.pins == map[] || configured == EffectiveIdentity(env, s.images)
      modifies this`compose
      ensures Valid()
      ensures old(compose).None? ==> compose.None? && ok
      ensures old(compose).Some? ==> compose.Some?
      ensures ok && compose.Some? ==> StatePortsDistinct(Loaded(s)) && compose == FileOf(lib, env, configured, s)
      ensures calm && old(compose).Some? ==> (ok <==> FileOf(lib, env, configured, s).Some?)
    {
      if compose.None? { return true; }
      ok := GenerateAndWrite(env, configured, s, calm);
    }

    /** What an edited state must satisfy to be regenerated from and saved. */
    ghost predicate Acceptable(env: Env, configured: Identity, t: State)
      reads this
    {
      && PinsTrusted(t.images.pins, t.images.tag, verified)
      && (t.images.pins == map[] || configured == EffectiveIdentity(env, t.images))
      && (saved.Some? ==> Kept(saved.value, t))
      && (intact && compose.None? ==> Plain(t) && StatePortsDistinct(Loaded(t)))
    }

    lemma EditIsAcceptable(env: Env, s: State, t: State, key: Key)
      requires Valid() && LoadOf(lib, saved) == Some(s) && Confined(s, t, key)
      requires Plain(s) && StatePortsDistinct(s) ==> Plain(t) && StatePortsDistinct(Loaded(t))
      ensures Acceptable(env, EffectiveIdentity(env, s.images), WithoutPins(t, key))
      ensures intact && !AffectsCompose(key) ==> StatePortsDistinct(Loaded(WithoutPins(t, key)))
    {
      LoadedIsTrusted();
      SurvivingPins(env, s, t, key, verified);
      SurvivingPorts(s, t, key);
      var u := WithoutPins(t, key);
      assert u.images.pins == map[] || EffectiveIdentity(env, s.images) == EffectiveIdentity(env, u.images);
      assert saved.Some? ==> Kept(saved.value, u);
      assert intact && compose.None? ==> Plain(u) && StatePortsDistinct(Loaded(u));
    }

    /** Regenerate when the key calls for it, then save. */
    method Commit(env: Env, configured: Identity, t: State, regenerate: bool, calm: bool) returns (ok: bool)
      requires Valid() && Acceptable(env, configured, t)
      requires intact && !regenerate ==> StatePortsDistinct(Loaded(t))
      modifies this`saved, this`history, this`compose
      ensures Valid() && Grows()
      ensures if ok then saved == Some(t) && history == old(history) + [t]
              else saved == old(saved) && history == old(history)
      ensures old(compose).Some? <==> compose.Some?
      ensures !regenerate ==> compose == old(compose)
      ensures ok && regenerate && compose.Some? ==> compose == FileOf(lib, env, configured, t)
      ensures calm ==> (ok <==> !regenerate || old(compose).None? || FileOf(lib, env, configured, t).Some?)
    {
      if regenerate {
        ok := Regenerate(env, configured, t, calm);
        if !ok { return; }
      }
      ok := Save(t, calm);
    }

    /** The end of both commands, on the edited state `t` of the loaded state `s`. */
    method CommitEdit(env: Env, id: Identity, s: State, t: State, key: Key, calm: bool) returns (ok: bool)
      requires Valid() && LoadOf(lib, saved) == Some(s) && id == EffectiveIdentity(env, s.images)
      requires MayFollow(lib, s, t, key)
      modifies this`saved, this`history, this`compose
      ensures Valid() && Grows()
      ensures if ok then saved == Some(WithoutPins(t, key)) && Validate(lib, saved.value)
              else saved == old(saved) && history == old(history)
      ensures old(compose).Some? <==> compose.Some?
      ensures !AffectsCompose(key) ==> compose == old(compose)
      ensures ok && compose.Some? && (AffectsCompose(key) || old(compose) == FileOf(lib, env, id, s)) ==>
                compose == FileOf(lib, env, id, WithoutPins(t, key))
      ensures calm ==>
                (ok <==> (old(compose).Some? && AffectsCompose(key) ==>
                            FileOf(lib, env, id, WithoutPins(t, key)).Some?))
    {
      EditIsAcceptable(env, s, t, key);
      EditStaysInStep(lib, env, id, s, t, key);
      WithoutPinsValidates(lib, t, key);
      ok := Commit(env, id, WithoutPins(t, key), AffectsCompose(key), calm);
    }

    /** runConfigSet: a state it saves is the edited one without pins the key invalidates, it validates, and a
        compose.yml that was what the old state generates is what the new one generates, whichever the
        key.  When no call fails, it accepts exactly what SetAccepted says. */
    method RunConfigSet(env: Env, key: Key, value: string, calm: bool) returns (ok: bool)
      requires Valid()
      modifies this`saved, this`history, this`compose
      ensures Valid() && Grows()
      ensures !ok ==> saved == old(saved) && history == old(history)
      ensures ok ==> LoadOf(lib, old(saved)).Some? && Apply(lib, LoadOf(lib, old(saved)).value, key, value).Some?
                     && saved == Some(WithoutPins(Apply(lib, LoadOf(lib, old(saved)).value, key, value).value, key))
                     && Validate(lib, saved.value)
      ensures old(compose).Some? <==> compose.Some?
      ensures !AffectsCompose(key) ==> compose == old(compose)
      ensures ok && compose.Some? && (AffectsCompose(key) || old(InStep(env))) ==>
                compose == FileOf(lib, env, old(Identified(env)), saved.value)
      ensures calm ==>
                (ok <==> Ready(lib, env, old(saved))
                         && SetAccepted(lib, env, old(Identified(env)), LoadOf(lib, old(saved)).value,
                                        old(compose).Some?, key, value))
    {
      var tun, _ := Prepare(env, false, calm);
      var s := Load(calm);
      ok := false;
      if tun.Some? && s.Some? {
        ok := SetLoaded(env, tun.value.identity, s.value, key, value, calm);
      }
    }

    method SetLoaded(env: Env, id: Identity, s: State, key: Key, value: string, calm: bool) returns (ok: bool)
      requires Valid() && LoadOf(lib, saved) == Some(s) && id == EffectiveIdentity(env, s.images)
      modifies this`saved, this`history, this`compose
      ensures Valid() && Grows()
      ensures !ok ==> saved == old(saved) && history == old(history)
      ensures ok ==> Apply(lib, s, key, value).Some? && saved == Some(WithoutPins(Apply(lib, s, key, value).value, key))
                     && Validate(lib, saved.value)
      ensures old(compose).Some? <==> compose.Some?
      ensures !AffectsCompose(key) ==> compose == old(compose)
      ensures ok && compose.Some? && (AffectsCompose(key) || old(compose) == FileOf(lib, env, id, s)) ==>
                compose == FileOf(lib, env, id, saved.value)
      ensures calm ==> (ok <==> SetAccepted(lib, env, id, s, old(compose).Some?, key, value))
    {
      var t := ApplyEdit(lib, s, key, value);
      if t.None? { return false; }
      ok := CommitEdit(env, id, s, t.value, key, calm);
    }

    /** runConfigUnset: the same, although it never validates. */
    method RunConfigUnset(env: Env, key: Key, calm: bool) returns (ok: bool)
      requires Valid()
      modifies this`saved, this`history, this`compose
      ensures Valid() && Grows()
      ensures !ok ==> saved == old(saved) && history == old(history)
      ensures ok ==> !key.Unknown? && LoadOf(lib, old(saved)).Some?
                     && saved == Some(WithoutPins(Reset(LoadOf(lib, old(saved)).value, key), key))
      ensures ok ==> Validate(lib, saved.value)
      ensures old(compose).Some? <==> compose.Some?
      ensures !AffectsCompose(key) ==> compose == old(compose)
      ensures ok && compose.Some? && (AffectsCompose(key) || old(InStep(env))) ==>
                compose == FileOf(lib, env, old(Identified(env)), saved.value)
      ensures calm ==>
                (ok <==> Ready(lib, env, old(saved))
                         && UnsetAccepted(lib, env, old(Identified(env)), LoadOf(lib, old(saved)).value,
                                          old(compose).Some?, key))
    {
      var tun, _ := Prepare(env, false, calm);
      var s := Load(calm);
      ok := false;
      if tun.Some? && s.Some? {
        ok := UnsetLoaded(env, tun.value.identity, s.value, key, calm);
      }
    }

    method UnsetLoaded(env: Env, id: Identity, s: State, key: Key, calm: bool) returns (ok: bool)
      requires Valid() && LoadOf(lib, saved) == Some(s) && id == EffectiveIdentity(env, s.images)
      modifies this`saved, this`history, this`compose
      ensures Valid() && Grows()
      ensures !ok ==> saved == old(saved) && history == old(history)
      ensures ok ==> !key.Unknown? && saved == Some(WithoutPins(Reset(s, key), key)) && Validate(lib, saved.value)
      ensures old(compose).Some? <==> compose.Some?
      ensures !AffectsCompose(key) ==> compose == old(compose)
      ensures ok && compose.Some? && (AffectsCompose(key) || old(compose) == FileOf(lib, env, id, s)) ==>
                compose == FileOf(lib, env, id, saved.value)
      ensures calm ==> (ok <==> UnsetAccepted(lib, env, id, s, old(compose).Some?, key))
    {
      LoadedValidates(lib, saved);
      var t := ResetEdit(lib, s, key);
      UnsetAcceptedMeans(lib, env, id, s, t, compose.Some?, key);
      if t.None? { return false; }
      ok := CommitEdit(env, id, s, t.value, key, calm);
    }

    /** The identity that a command in this environment works with. */
    function Identified(env: Env): Identity
      reads this
    {
      StartIdentity(lib, env, saved)
    }

    /** compose.yml is what the saved state generates in this environment. */
    predicate InStep(env: Env)
      reads this
    {
      LoadOf(lib, saved).Some? && compose == FileOf(lib, env, Identified(env), LoadOf(lib, saved).value)
    }

    /** One `config set` or `config unset`. */
    method RunEdit(env: Env, e: Edit, calm: bool) returns (ok: bool)
      requires Valid()
      modifies this`saved, this`history, this`compose
      ensures Valid() && Grows()
      ensures !ok ==> saved == old(saved)
      ensures ok ==>
                LoadOf(lib, old(saved)).Some? && saved == Edited(lib, LoadOf(lib, old(saved)).value, e) && saved.Some?
    {
      match e
      case SetKey(key, value) => ok := RunConfigSet(env, key, value, calm);
      case UnsetKey(key) => ok := RunConfigUnset(env, key, calm);
    }

    /** Any run of `config set` and `config unset`, each in an environment of its own and with any of its
        steps failing.  Afterwards `config get` reads a key as the last accepted edit that touched it
        says, and as before if there was none. */
    method RunEdits(edits: seq<(Env, Edit, bool)>) returns (done: seq<Edit>)
      requires Valid()
      modifies this`saved, this`history, this`compose
      ensures Valid() && Grows()
      ensures done == [] ==> saved == old(saved)
      ensures done != [] ==>
                LoadOf(lib, old(saved)).Some? && saved == After(lib, LoadOf(lib, old(saved)).value, done) && saved.Some?
      ensures Sane(lib) && done != [] ==> ReadsBack(lib, LoadOf(lib, old(saved)).value, done, saved.value)
    {
      done := [];
      for k := 0 to |edits|
        invariant Valid() && Grows()
        invariant done == [] ==> saved == old(saved)
        invariant done != [] ==>
                    LoadOf(lib, old(saved)).Some? && saved == After(lib, LoadOf(lib, old(saved)).value, done)
                    && saved.Some?
      {
        ghost var before := saved;
        var ok := RunEdit(edits[k].0, edits[k].1, edits[k].2);
        if ok {
          AfterOneMore(lib, old(saved), before, done, edits[k].1);
          done := done + [edits[k].1];
        }
      }
      if Sane(lib) && done != [] {
        EveryKeyReadsBack(lib, LoadOf(lib, old(saved)).value, done);
      }
    }

    // -------------------------------------------------------------- init

    /** writeInitFiles: compose.yml first, then the state. */
    method WriteInitFiles(env: Env, configured: Identity, s: State, calm: bool) returns (ok: bool)
      requires Valid() && s.images.pins == map[]
      requires saved.Some? ==> Kept(saved.value, s)
      modifies this`saved, this`history, this`compose, this`intact
      ensures Valid() && Grows()
      ensures if ok then saved == Some(s) && history == old(history) + [s] && intact
              else saved == old(saved) && history == old(history) && intact == old(intact)
      ensures ok ==> compose.Some? && compose == FileOf(lib, env, configured, s)
      ensures calm ==> (ok <==> FileOf(lib, env, configured, s).Some?)
    {
      ok := GenerateAndWrite(env, configured, s, calm);
      if !ok { return; }
      ok := Save(s, calm);
      if ok { intact := true; }
    }

    /** `init` goes on with the default identity when nothing resolves. */
    method PrepareInit(env: Env, calm: bool) returns (configured: Identity)
      ensures calm ==> configured == Identified(env)
    {
      var tun, _ := Prepare(env, false, calm);
      configured := if tun.Some? then tun.value.identity else DEFAULT_IDENTITY;
    }

    /** runInitInteractive and runInitNonInteractive: what is saved is the state built from the answers, with what
        a re-init preserves; and when no call fails, it is saved exactly when that state can be
        built, generates and replaces nothing without consent. */
    method RunInit(env: Env, interactive: bool, a: Answers, g: Option<Generated>, flags: Flags, version: string,
                   confirmed: bool, calm: bool)
      returns (ok: bool)
      requires Valid()
      modifies this`saved, this`history, this`compose, this`intact
      ensures Valid() && Grows()
      ensures !ok ==> saved == old(saved) && history == old(history) && intact == old(intact)
      ensures ok ==>
                intact && g.Some? && saved == InitState(lib, old(saved), interactive, a, g.value, flags, version)
                && saved.Some? && compose.Some?
      ensures ok && !interactive && old(saved).Some? ==> confirmed
      ensures ok && Admissible(lib, old(saved), a, g.value) ==>
                (LoadOf(lib, saved).Some? <==> Loadable(lib, saved.value))
      ensures ok && calm ==> compose == FileOf(lib, env, old(Identified(env)), saved.value)
      ensures calm ==>
                (ok <==> g.Some? && InitState(lib, old(saved), interactive, a, g.value, flags, version).Some?
                         && (old(saved).Some? ==> interactive || confirmed)
                         && FileOf(lib, env, old(Identified(env)),
                                   InitState(lib, old(saved), interactive, a, g.value, flags, version).value).Some?)
    {
      var configured := PrepareInit(env, calm);
      if g.None? { return false; }
      var s := BuildInitState(interactive, a, g.value, flags, version, confirmed, calm);
      if s.None? { return false; }
      ok := WriteInitFiles(env, configured, s.value, calm);
      if ok && Admissible(lib, old(saved), a, g.value) {
        InitSavedLoads(lib, env, configured, old(saved), interactive, a, g.value, flags, version);
      }
    }

    /** Everything of init before the files are written. */
    method BuildInitState(interactive: bool, a: Answers, g: Generated, flags: Flags, version: string, confirmed: bool,
                          calm: bool)
      returns (r: Option<State>)
      ensures r.Some? ==> r == InitState(lib, saved, interactive, a, g, flags, version) && r.value.images.pins == map[]
      ensures r.Some? && saved.Some? ==> Kept(saved.value, r.value) && (interactive || confirmed)
      ensures calm && (saved.Some? ==> interactive || confirmed) ==>
                r == InitState(lib, saved, interactive, a, g, flags, version)
    {
      r := BuildState(lib, a, g, version);
      if r.None? { return; }
      if interactive && a.natsPort > 0 {
        r := Some(r.value.(ports := r.value.ports.(nats := a.natsPort)));
      }
      if saved.Some? {
        var prev := Load(calm);
        if prev.None? || (!interactive && !confirmed) { return None; }
        LoadedValidates(lib, saved);
        ReinitKeeps(lib, a, r.value, prev.value, flags);
        ReinitChangesOnlyStorage(a, r.value, prev.value, flags);
        r := if interactive then ReinitInteractive(a, r.value, prev.value, flags)
             else Reinit(r.value, prev.value, flags);
      }
    }

    // -------------------------------------------------------------- start

    /** VerifyImages and digestPinMap, on the default identity: `results` is what the verifier answered. */
    method VerifyImages(services: seq<string>, tag: string, results: Option<seq<Result>>)
      returns (pins: Option<map<string, string>>)
      requires Valid()
      modifies this`verified
      ensures Valid() && Grows()
      ensures pins.Some? <==> Complete(results, services)
      ensures pins.Some? ==> PinsTrusted(pins.value, tag, verified) && pins.value.Keys == set n | n in services
      ensures pins.Some? ==> forall n :: n in pins.value ==> Result(n, pins.value[n]) in results.value
      ensures pins.None? ==> verified == old(verified)
    {
      if results.None? || !ResultsFor(results.value, services) { return None; }
      pins := DigestPinMap(results.value);
      if pins.Some? {
        SameServices(results.value, services);
        ghost var more := Verified(DEFAULT_IDENTITY, tag, results.value);
        FreshPinsTrusted(results.value, pins.value, tag);
        if saved.Some? { TrustGrows(saved.value.images.pins, saved.value.images.tag, verified, more); }
        if compose.Some? { RefTrustGrows(lib, compose.value, verified, more); }
        TrustGrows(pins.value, tag, more, verified);
        assert more + verified == verified + more;
        verified := verified + more;
      }
    }

    /** writeDigestPinnedCompose: the pins given replace the state's own. */
    method WriteDigestPinned(env: Env, configured: Identity, s: State, pins: map<string, string>, calm: bool)
      returns (ok: bool)
      requires Valid() && PinsTrusted(pins, s.images.tag, verified)
      requires pins == map[] || (EffectiveIdentity(env, s.images) == DEFAULT_IDENTITY && configured == DEFAULT_IDENTITY)
      modifies this`compose
      ensures Valid()
      ensures old(compose).Some? ==> compose.Some?
      ensures ok ==>
                StatePortsDistinct(Loaded(s)) && compose.Some? && compose == FileWith(lib, env, configured, s, pins)
      ensures calm ==> (ok <==> FileWith(lib, env, configured, s, pins).Some?)
    {
      var p := ParamsFromState(lib, env, s);
      if p.None? { return false; }
      var c := Generate(lib, configured, p.value.(pins := pins));
      if c.None? { return false; }
      GeneratedTrusted(lib, env, configured, s, pins, verified);
      GenerateChecksPorts(lib, env, configured, s, pins);
      ok := WriteCompose(c.value, calm);
    }

    /** verifyAndPinImages: compose.yml carries exactly the pins just verified; a save that fails is only
        a warning. */
    method VerifyAndPin(env: Env, s: State, results: Option<seq<Result>>, calm: bool)
      returns (pins: Option<map<string, string>>)
      requires Valid() && LoadOf(lib, saved) == Some(s) && compose.Some?
      requires EffectiveIdentity(env, s.images) == DEFAULT_IDENTITY
      modifies this`saved, this`history, this`compose, this`verified
      ensures Valid() && Grows() && compose.Some?
      ensures pins.Some? ==>
                Complete(results, Services(s.features)) && PinsTrusted(pins.value, s.images.tag, verified)
                && pins.value.Keys == set n | n in Services(s.features)
      ensures pins.Some? ==> compose == FileWith(lib, env, DEFAULT_IDENTITY, s, pins.value)
      ensures saved == old(saved) || (pins.Some? && saved == Some(WithPins(s, s.images.tag, pins.value)))
      ensures calm && pins.Some? ==> saved == Some(WithPins(s, s.images.tag, pins.value))
      ensures calm && Complete(results, Services(s.features)) && pins.None? ==>
                exists p: map<string, string> :: p.Keys == (set n | n in Services(s.features))
                                                 && FileWith(lib, env, DEFAULT_IDENTITY, s, p).None?
    {
      LoadedIsTrusted();
      pins := VerifyImages(Services(s.features), s.images.tag, results);
      if pins.None? { return; }
      var ok := WriteDigestPinned(env, DEFAULT_IDENTITY, s, pins.value, calm);
      if !ok { return None; }
      var t := WithPins(s, s.images.tag, pins.value);
      SamePorts(s, t);
      var _ := Save(t, calm);
    }

    /** The cache entries of the third-party images, unless they are there; a save that fails is only a warning. */
    method CacheDHIPins(s: State, dhi: Option<seq<DHIResult>>, calm: bool) returns (ok: bool)
      requires Valid() && LoadOf(lib, saved) == Some(s)
      modifies this`saved, this`history
      ensures Valid() && Grows()
      ensures ok <==> HasDHIDigests(lib, s) || dhi.Some?
      ensures saved != old(saved) ==>
                saved.Some? && saved.value == WithPins(s, s.images.tag, saved.value.images.pins)
                && SameSynthOrgPins(s.images.pins, saved.value.images.pins)
      ensures HasDHIDigests(lib, s) ==> saved == old(saved)
      ensures ok && calm ==> CachesThirdParty(lib, dhi, s.backends, saved)
    {
      LoadedIsTrusted();
      if HasDHIDigests(lib, s) {
        CachedThirdParty(lib, s);
        return true;
      }
      if dhi.None? { return false; }
      var pins := AddDHIPins(lib, s.images.pins, dhi.value);
      var t := WithPins(s, s.images.tag, pins);
      SameSynthOrgTrusted(s.images.pins, pins, s.images.tag, verified);
      SamePorts(s, t);
      var _ := Save(t, calm);
      ok := true;
    }

    /** The verifying part of verifyAndPullStartImages: it succeeds only with every service of the state verified. */
    method StartVerified(env: Env, s: State, results: Option<seq<Result>>, dhi: Option<seq<DHIResult>>, calm: bool)
      returns (ok: bool)
      requires Valid() && LoadOf(lib, saved) == Some(s) && compose.Some?
      requires EffectiveIdentity(env, s.images) == DEFAULT_IDENTITY
      modifies this`saved, this`history, this`compose, this`verified
      ensures Valid() && Grows() && compose.Some?
      ensures ok ==> AllVerified(s.features, s.images.tag, verified)
      ensures ok && calm ==> CachesThirdParty(lib, dhi, s.backends, saved)
      ensures AllCached(s) && HasDHIDigests(lib, s) ==>
                ok && saved == old(saved) && compose == old(compose) && verified == old(verified)
    {
      if HasSynthOrgDigests(s) {
        LoadedIsTrusted();
        PinnedServicesVerified(s.features, s.images.pins, s.images.tag, verified);
        ok := CacheDHIPins(s, dhi, calm);
        return;
      }
      CacheIsComplete(s);
      ok := StartFresh(env, s, results, dhi, calm);
    }

    /** Without a complete cache: verify, pin, load what was saved, and go on with that. */
    method StartFresh(env: Env, s: State, results: Option<seq<Result>>, dhi: Option<seq<DHIResult>>, calm: bool)
      returns (ok: bool)
      requires Valid() && LoadOf(lib, saved) == Some(s) && compose.Some?
      requires EffectiveIdentity(env, s.images) == DEFAULT_IDENTITY
      modifies this`saved, this`history, this`compose, this`verified
      ensures Valid() && Grows() && compose.Some?
      ensures ok ==> AllVerified(s.features, s.images.tag, verified) && Complete(results, Services(s.features))
      ensures ok && calm ==> CachesThirdParty(lib, dhi, s.backends, saved)
    {
      var pins := VerifyAndPin(env, s, results, calm);
      if pins.None? { return false; }
      PinnedServicesVerified(s.features, pins.value, s.images.tag, verified);
      var again := Load(calm);
      if again.None? { return false; }
      ReloadKeepsBackends(lib, old(saved), saved, s, pins.value);
      ok := CacheDHIPins(again.value, dhi, calm);
    }

    /** runStart up to the pull: on the default identity and without a skip it succeeds only with every service
        of the loaded state verified for its tag, and it changes nothing when all is cached, skipped or custom. */
    method RunStart(env: Env, skipFlag: bool, noPull: bool, results: Option<seq<Result>>, dhi: Option<seq<DHIResult>>,
                    calm: bool)
      returns (ok: bool)
      requires Valid()
      modifies this`saved, this`history, this`compose, this`verified
      ensures Valid() && Grows()
      ensures old(compose).None? ==> !ok && compose.None? && saved == old(saved) && verified == old(verified)
      ensures skipFlag || noPull ==> saved == old(saved) && compose == old(compose) && verified == old(verified)
      ensures old(Identified(env)) != DEFAULT_IDENTITY ==>
                saved == old(saved) && compose == old(compose) && verified == old(verified)
      ensures ok && !skipFlag && !noPull && old(Identified(env)) == DEFAULT_IDENTITY ==>
                LoadOf(lib, old(saved)).Some? &&
                var s := LoadOf(lib, old(saved)).value;
                && AllVerified(s.features, s.images.tag, verified)
                && (calm ==> CachesThirdParty(lib, dhi, s.backends, saved))
      ensures calm && old(compose).Some? && LoadOf(lib, old(saved)).Some?
              && ResolveTunables(lib, env, LoadOf(lib, old(saved)).value).Some?
              && (skipFlag || noPull || old(Identified(env)) != DEFAULT_IDENTITY
                  || (HasDHIDigests(lib, LoadOf(lib, old(saved)).value)
                      && AllCached(LoadOf(lib, old(saved)).value))) ==>
                ok && saved == old(saved) && compose == old(compose) && verified == old(verified)
    {
      var tun, skip := Prepare(env, skipFlag, calm);
      var s := Load(calm);
      if tun.None? || s.None? || compose.None? { return false; }
      if noPull || skip { return true; }
      ok := StartVerified(env, s.value, results, dhi, calm);
    }

    // -------------------------------------------------------------- update

    /** refreshCompose: recovery regenerates a missing file, a differing one is replaced or declined. */
    method RefreshCompose(env: Env, configured: Identity, s: State, ch: Choices, calm: bool)
      returns (ok: bool, applied: bool)
      requires Valid() && LoadOf(lib, saved) == Some(s) && configured == EffectiveIdentity(env, s.images)
      modifies this`compose
      ensures Valid()
      ensures old(compose).Some? ==> compose.Some?
      ensures ok ==> (applied <==> !Declines(ch, old(compose)))
      ensures ok && !applied ==> compose == old(compose)
      ensures compose != old(compose) ==> compose == FileOf(lib, env, configured, s)
      ensures ok && (old(compose).Some? || ch.recovered) && applied && !(old(compose).Some? && ch.same) ==>
                compose.Some? && compose == FileOf(lib, env, configured, s)
      ensures ok || calm ==> (ok <==> Refreshable(lib, env, configured, s, ch, old(compose)))
    {
      LoadedIsTrusted();
      if compose.None? && !ch.recovered { return true, true; }
      if FileOf(lib, env, configured, s).None? { return false, false; }
      if compose.Some? && ch.same {
        ok := *;                // writing nats.conf
        ok := ok || calm;
        return ok, ok;
      }
      if compose.Some? && ch.declined { return true, false; }
      ok := GenerateAndWrite(env, configured, s, calm);
      applied := ok;
    }

    /** writeOrPatchCompose. */
    method WriteOrPatch(env: Env, configured: Identity, s: State, pins: map<string, string>, preserve: bool, calm: bool)
      returns (ok: bool)
      requires Valid() && PinsTrusted(pins, s.images.tag, verified)
      requires configured == EffectiveIdentity(env, s.images) && (pins == map[] || configured == DEFAULT_IDENTITY)
      modifies this`compose
      ensures Valid()
      ensures old(compose).Some? ==> compose.Some?
      ensures ok ==> compose.Some?
      ensures ok && preserve ==>
                old(compose).Some? && compose == Some(PatchRefs(configured, old(compose).value, s.images.tag, pins))
      ensures ok && !preserve ==> StatePortsDistinct(Loaded(s)) && compose == FileWith(lib, env, configured, s, pins)
      ensures calm && preserve ==>
                (ok <==> CanPatch(configured, s, old(compose)))
      ensures calm && !preserve ==> (ok <==> FileWith(lib, env, configured, s, pins).Some?)
    {
      if !preserve {
        ok := WriteDigestPinned(env, configured, s, pins, calm);
        return;
      }
      // A generated file has no image line for the sandbox, so with the sandbox on one is missing.
      if compose.None? || s.features.sandbox || !Patchable(configured, compose.value) { return false; }
      PatchTrusted(lib, configured, compose.value, s.images.tag, pins, verified);
      ok := WriteCompose(PatchRefs(configured, compose.value, s.images.tag, pins), calm);
    }

    /** The rollback of pullAndPersist: a plain write that can be cut short anywhere, or a removal.  Removing
        a file that was there, because it could not be read for the backup, is a loss of compose.yml. */
    method Rollback(backup: Option<ComposeFile>, works: bool)
      requires Valid()
               && (backup.Some? ==> RefsTrusted(lib, backup.value, verified) && (whole ==> backup.value.cut.None?))
      modifies this`compose, this`intact, this`whole
      ensures Valid() && (works ==> whole == old(whole))
      ensures works ==> compose == backup
      ensures !works && backup.None? ==> compose == old(compose)
      ensures !works && backup.Some? ==> exists keep, at, k :: compose == Some(CutFile(backup.value, keep, at, k))
      ensures backup.Some? || (saved.Some? ==> Plain(saved.value)) ==> intact == old(intact)
    {
      if backup.Some? {
        var keep: set<RefName>, at: Option<RefName>, k: nat := *, *, *;
        CutTrusted(lib, backup.value, keep, at, k, verified);
        whole := whole && works;
        compose := if works then backup else Some(CutFile(backup.value, keep, at, k));
      } else if works {
        intact := intact && (saved.Some? ==> Plain(saved.value));
        compose := None;
      }
    }

    /** verifyAndPinForUpdate: verify for the new tag unless skipped, then write or patch. */
    method VerifyAndPinForUpdate(env: Env, configured: Identity, skip: bool, s: State, tag: string, preserve: bool,
                                 results: Option<seq<Result>>, calm: bool)
      returns (pins: Option<map<string, string>>)
      requires Valid() && configured == EffectiveIdentity(env, s.images) && (!skip ==> configured == DEFAULT_IDENTITY)
      modifies this`compose, this`verified
      ensures Valid() && Grows()
      ensures old(compose).Some? ==> compose.Some?
      ensures pins.Some? ==> compose.Some? && PinsTrusted(pins.value, tag, verified)
      ensures pins.Some? ==> pins.value.Keys == if skip then {} else set n | n in Services(s.features)
      ensures pins.Some? && preserve ==>
                old(compose).Some? && compose == Some(PatchRefs(configured, old(compose).value, tag, pins.value))
      ensures pins.Some? && !preserve ==>
                compose == FileWith(lib, env, configured, WithPins(s, tag, s.images.pins), pins.value)
      ensures skip ==> verified == old(verified)
      ensures !skip && !Complete(results, Services(s.features)) ==> pins.None? && compose == old(compose)
      ensures calm && (skip || Complete(results, Services(s.features))) && preserve
              && CanPatch(configured, s, old(compose)) ==>
                pins.Some?
      ensures calm && skip && !preserve
              && FileWith(lib, env, configured, WithPins(s, tag, s.images.pins), map[]).Some? ==>
                pins.Some?
    {
      pins := Some(map[]);
      if !skip {
        pins := VerifyImages(Services(s.features), tag, results);
        if pins.None? { return; }
      }
      var ok := WriteOrPatch(env, configured, WithPins(s, tag, s.images.pins), pins.value, preserve, calm);
      if !ok { pins := None; }
    }

    /** The second half of pullAndPersist: pull and save, or put compose.yml back. */
    method PullAndSave(s: State, tag: string, pins: Option<map<string, string>>, backup: Option<ComposeFile>,
                       pulled: bool, rollbackWorks: bool, calm: bool)
      returns (ok: bool)
      requires Valid() && LoadOf(lib, saved) == Some(s)
      requires backup.Some? ==> RefsTrusted(lib, backup.value, verified) && (whole ==> backup.value.cut.None?)
      requires pins.Some? ==> PinsTrusted(pins.value, tag, verified) && compose.Some?
      modifies this`saved, this`history, this`compose, this`intact, this`whole
      ensures Valid() && Grows() && (rollbackWorks ==> whole == old(whole))
      ensures !ok ==> saved == old(saved) && history == old(history)
      ensures !ok && rollbackWorks ==> compose == backup
      ensures ok ==> pins.Some? && saved == Some(WithPins(s, tag, pins.value)) && compose == old(compose)
      ensures backup.Some? || (old(saved).Some? ==> Plain(old(saved).value)) ==> intact == old(intact)
      ensures !pulled ==> !ok
      ensures calm ==> (ok <==> pins.Some? && pulled)
    {
      LoadedIsTrusted();
      ok := false;
      if pins.Some? && pulled {
        SamePorts(s, WithPins(s, tag, pins.value));
        ok := Save(WithPins(s, tag, pins.value), calm);
      }
      if !ok {
        Rollback(backup, rollbackWorks);
      }
    }

    /** pullAndPersist: verify for the new tag, write, pull, save; roll back on any failure. */
    method PullAndPersist(env: Env, configured: Identity, skip: bool, s: State, tag: string, preserve: bool,
                          results: Option<seq<Result>>, ch: Choices, calm: bool)
      returns (ok: bool)
      requires Valid() && LoadOf(lib, saved) == Some(s)
      requires configured == EffectiveIdentity(env, s.images) && (!skip ==> configured == DEFAULT_IDENTITY)
      modifies this`saved, this`history, this`compose, this`verified, this`intact, this`whole
      ensures Valid() && Grows() && (ch.rollbackWorks ==> whole == old(whole))
      ensures !ok ==> saved == old(saved) && history == old(history)
      ensures !ok && ch.rollbackWorks ==> compose == if ch.backupReadable then old(compose) else None
      ensures !ok && ch.rollbackWorks ==> (compose == old(compose) <==> ch.backupReadable || old(compose).None?)
      ensures ok ==> saved.Some? && compose.Some? && saved.value == WithPins(s, tag, saved.value.images.pins)
      ensures old(intact) && ch.backupReadable ==> intact
      ensures ok ==> saved.value.images.pins.Keys == if skip then {} else set n | n in Services(s.features)
      ensures ok ==>
                compose == NextFile(lib, env, configured, s, old(compose), tag, saved.value.images.pins, preserve)
      ensures ok ==> ch.pulled && (skip || Complete(results, Services(s.features)))
      ensures calm && ch.pulled && (skip || Complete(results, Services(s.features))) && preserve
              && CanPatch(configured, s, old(compose)) ==>
                ok
      ensures calm && ch.pulled && skip && !preserve
              && FileWith(lib, env, configured, WithPins(s, tag, s.images.pins), map[]).Some? ==>
                ok
    {
      var backup := if ch.backupReadable then compose else None;
      ghost var was := verified;
      var pins := VerifyAndPinForUpdate(env, configured, skip, s, tag, preserve, results, calm);
      if backup.Some? {
        RefTrustGrows(lib, backup.value, was, verified);
        assert was + verified == verified;
      }
      ok := PullAndSave(s, tag, pins, backup, ch.pulled, ch.rollbackWorks, calm);
    }

    /** updateComposeAndImages: a successful update that nothing stops before the images has saved the loaded state
        with the target tag and verified pins, and compose.yml is generated for them, or patched exactly when
        its changes were declined; one that is stopped saves and verifies nothing. */
    method RunUpdate(env: Env, skipFlag: bool, version: string, results: Option<seq<Result>>, ch: Choices, calm: bool)
      returns (ok: bool)
      requires Valid()
      modifies this`saved, this`history, this`compose, this`verified, this`intact, this`whole
      ensures Valid() && Grows() && (ch.rollbackWorks ==> whole == old(whole))
      ensures old(intact) && ch.backupReadable ==> intact
      ensures saved != old(saved) ==>
                LoadOf(lib, old(saved)).Some? && Updated(version, LoadOf(lib, old(saved)).value, saved)
      ensures ok ==> Ready(lib, env, old(saved))
      ensures ok && !Stops(version, LoadOf(lib, old(saved)).value, ch, old(compose)) ==>
                var id := old(Identified(env));
                ch.pulled && Renewed(lib, env, id, skipFlag || id != DEFAULT_IDENTITY, LoadOf(lib, old(saved)).value,
                                     version, old(compose), Declines(ch, old(compose)), saved, compose, verified)
      ensures LoadOf(lib, old(saved)).Some? && Stops(version, LoadOf(lib, old(saved)).value, ch, old(compose)) ==>
                saved == old(saved) && verified == old(verified) && history == old(history)
      ensures calm && Ready(lib, env, old(saved)) && Stops(version, LoadOf(lib, old(saved)).value, ch, old(compose)) ==>
                (ok <==> ch.proceed ==>
                           Refreshable(lib, env, old(Identified(env)), LoadOf(lib, old(saved)).value, ch,
                                       old(compose)))
    {
      var tun, skip := Prepare(env, skipFlag, calm);
      var s := Load(calm);
      ok := false;
      if tun.Some? && s.Some? {
        ok := UpdateLoaded(env, tun.value.identity, skip, s.value, version, results, ch, calm);
      }
    }

    method UpdateLoaded(env: Env, configured: Identity, skip: bool, s: State, version: string,
                        results: Option<seq<Result>>, ch: Choices, calm: bool)
      returns (ok: bool)
      requires Valid() && LoadOf(lib, saved) == Some(s)
      requires configured == EffectiveIdentity(env, s.images) && (!skip ==> configured == DEFAULT_IDENTITY)
      modifies this`saved, this`history, this`compose, this`verified, this`intact, this`whole
      ensures Valid() && Grows() && (ch.rollbackWorks ==> whole == old(whole))
      ensures old(intact) && ch.backupReadable ==> intact
      ensures saved == old(saved) || Updated(version, s, saved)
      ensures ok && !Stops(version, s, ch, old(compose)) ==>
                ch.pulled && Renewed(lib, env, configured, skip, s, version, old(compose), Declines(ch, old(compose)),
                                     saved, compose, verified)
      ensures Stops(version, s, ch, old(compose)) ==>
                saved == old(saved) && verified == old(verified) && history == old(history)
      ensures calm && Stops(version, s, ch, old(compose)) ==>
                (ok <==> ch.proceed ==> Refreshable(lib, env, configured, s, ch, old(compose)))
    {
      if !ch.proceed { return true; }
      var applied;
      ok, applied := RefreshCompose(env, configured, s, ch, calm);
      if ok && (applied || ch.accepted) {
        ghost var now := compose;
        ok := UpdateImages(env, configured, skip, s, version, !applied, results, ch, calm);
        RenewedFrom(lib, env, configured, skip, s, version, old(compose), now, !applied, saved, compose, verified);
      }
    }

    /** updateContainerImages: to the tag of the running version, unless it is there and nothing is to be recovered. */
    method UpdateImages(env: Env, configured: Identity, skip: bool, s: State, version: string, preserve: bool,
                        results: Option<seq<Result>>, ch: Choices, calm: bool)
      returns (ok: bool)
      requires Valid() && LoadOf(lib, saved) == Some(s)
      requires configured == EffectiveIdentity(env, s.images) && (!skip ==> configured == DEFAULT_IDENTITY)
      modifies this`saved, this`history, this`compose, this`verified, this`intact, this`whole
      ensures Valid() && Grows() && (ch.rollbackWorks ==> whole == old(whole))
      ensures old(intact) && ch.backupReadable ==> intact
      ensures !ok ==> saved == old(saved)
      ensures StopsAtImages(version, s, ch) ==>
                ok && saved == old(saved) && verified == old(verified) && history == old(history)
                && compose == old(compose)
      ensures ok && !StopsAtImages(version, s, ch) ==>
                ch.pulled && Renewed(lib, env, configured, skip, s, version, old(compose), preserve, saved, compose,
                                     verified)
    {
      var tag := TargetTag(version);
      if (s.images.tag == tag && !ch.recovered) || !ch.docker || !ch.confirmed { return true; }
      ok := PullAndPersist(env, configured, skip, s, tag, preserve, results, ch, calm);
      if ok && !skip {
        PinnedServicesVerified(s.features, saved.value.images.pins, tag, verified);
      }
    }

    // -------------------------------------------------------------- sessions

    /** Someone else deletes compose.yml. */
    method LoseCompose()
      requires Valid()
      modifies this`compose, this`intact
      ensures Valid() && compose.None?
    {
      compose := None;
      intact := false;
    }

    method Run(c: Command) returns (ok: bool)
      requires Valid()
      modifies this
      ensures Valid() && Grows()
      ensures old(intact) && KeepsCompose(c) ==> intact
      ensures old(whole) && KeepsWhole(c) ==> whole
    {
      match c
      case ConfigSet(env, calm, key, value) => ok := RunConfigSet(env, key, value, calm);
      case ConfigUnset(env, calm, key) => ok := RunConfigUnset(env, key, calm);
      case Init(env, calm, interactive, a, g, flags, version, confirmed) =>
        ok := RunInit(env, interactive, a, g, flags, version, confirmed, calm);
      case Start(env, calm, skip, noPull, results, dhi) => ok := RunStart(env, skip, noPull, results, dhi, calm);
      case Update(env, calm, skip, version, choices, results) =>
        ok := RunUpdate(env, skip, version, results, choices, calm);
      case DeleteCompose => LoseCompose(); ok := true;
    }

    /** Any sequence of commands, whatever each of them returns. */
    method Session(commands: seq<Command>)
      requires Valid()
      modifies this
      ensures Valid() && Grows()
      ensures old(intact) && (forall c :: c in commands ==> KeepsCompose(c)) ==> intact
      ensures old(whole) && (forall c :: c in commands ==> KeepsWhole(c)) ==> whole
    {
      for k := 0 to |commands|
        invariant Valid() && Grows()
        invariant old(intact) && (forall c :: c in commands ==> KeepsCompose(c)) ==> intact
        invariant old(whole) && (forall c :: c in commands ==> KeepsWhole(c)) ==> whole
      {
        var _ := Run(commands[k]);
      }
    }
  }

  /** Every run from an empty directory, under any environments and failures: the keys and the
      password are kept from each saved state to each later one, every cached SynthOrg pin was verified
      for the saved tag on the default identity, and every digest in compose.yml was verified for its own
      repository and tag or is the compiled-in one, except that the reference in which a failed rollback
      was cut short may hold a proper prefix of such a digest.  While every rollback works there is no
      such reference, and while compose.yml is not lost the effective ports of the services are pairwise
      different. */
  method EveryRun(lib: Lib, commands: seq<Command>) returns (i: Installation)
    ensures i.lib == lib && (i.saved.Some? ==> |i.history| > 0 && i.saved.value == i.history[|i.history| - 1])
    ensures forall j, k :: 0 <= j <= k < |i.history| ==> SameKeys(i.history[j], i.history[k])
    ensures forall j, k :: 0 <= j <= k < |i.history| && StaysPostgres(i.history, j, k) ==>
              i.history[k].backends.postgresPassword == i.history[j].backends.postgresPassword
    ensures i.saved.Some? ==> PinsTrusted(i.saved.value.images.pins, i.saved.value.images.tag, i.verified)
    ensures i.compose.Some? ==> RefsTrusted(lib, i.compose.value, i.verified)
    ensures OnlyDefaultRepos(i.verified)
    ensures (forall c :: c in commands ==> KeepsWhole(c)) && i.compose.Some? ==> i.compose.value.cut.None?
    ensures (forall c :: c in commands ==> KeepsCompose(c)) && i.saved.Some? ==>
              StatePortsDistinct(Loaded(i.saved.value))
  {
    i := new Installation(lib);
    i.Session(commands);
    forall j, k | 0 <= j <= k < |i.history| ensures SameKeys(i.history[j], i.history[k]) {
      KeysNeverChange(i.history, j, k);
    }
    forall j, k | 0 <= j <= k < |i.history| && StaysPostgres(i.history, j, k)
      ensures i.history[k].backends.postgresPassword == i.history[j].backends.postgresPassword
    {
      PasswordNeverChanges(i.history, j, k);
    }
  }
}
