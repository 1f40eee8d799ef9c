/**
 `config get` beside `config set` and `config unset` (configGetValue in cli/cmd/config.go and
 tunableConfigGetValue in cli/cmd/config_tunables.go): what is read back after an edit, and what an edit
 leaves alone.
 */
module ConfigGet {

  import opened Text
  import opened Config
  import opened ComposeParams

  // ---------------------------------------------------------------- config get

  function FormatBool(b: bool): string { if b then "true" else "false" }

  predicate StoredAuto(t: Tuning, a: Auto) { a in t.autos && t.autos[a] }

  function StoredPref(t: Tuning, p: Pref): string { if p in t.prefs then t.prefs[p] else "" }

  function StoredTimeout(t: Tuning, k: Timeout): string { if k in t.timeouts then t.timeouts[k] else "" }

  function StoredSize(t: Tuning, z: Size): int { if z in t.sizes then t.sizes[z] else 0 }

  /** The compiled-in durations, in seconds. */
  function DefaultSeconds(k: Timeout): int {
    match k
    case BackupCreate => 60
    case BackupRestore | SelfUpdateAPI | TUFFetch | AttestationHTTP => 30
    case HealthCheck => 5
    case SelfUpdateHTTP => 300
    case ImageVerify => 120
    case ImagePullRetryDelay => 2
  }

  function DefaultBytes(z: Size): int {
    match z
    case MaxAPIResponse => 1024 * 1024
    case MaxBinary => 256 * 1024 * 1024
    case MaxArchiveEntry => 128 * 1024 * 1024
  }

  function ImagesValue(i: Images, key: Key): string {
    match key
    case ImageTag => i.tag
    case RegistryHost => Or(i.registryHost, DEFAULT_IDENTITY.registryHost)
    case ImageRepoPrefix => Or(i.repoPrefix, DEFAULT_IDENTITY.repoPrefix)
    case DHIRegistry => Or(i.dhiRegistry, DEFAULT_IDENTITY.dhiRegistry)
    case PostgresImageTag => Or(i.postgresTag, DEFAULT_IDENTITY.postgresTag)
    case NATSImageTag => Or(i.natsTag, DEFAULT_IDENTITY.natsTag)
    case _ => ""
  }

  function FeaturesValue(f: Features, key: Key): string {
    match key
    case Channel => Or(f.channel, "stable")
    case DockerSock => f.dockerSock
    case LogLevel => f.logLevel
    case Sandbox => FormatBool(f.sandbox)
    case FineTuning => FormatBool(f.fineTuning)
    case FineTuningVariant => f.variant
    case TelemetryOptIn => FormatBool(f.telemetry)
    case DefaultNATSURL => Or(f.natsURL, DEFAULT_NATS_URL)
    case StreamPrefix => Or(f.streamPrefix, DEFAULT_STREAM_PREFIX)
    case _ => ""
  }

  /** An unset or unknown changelog view shows as the default one. */
  function PrefValue(p: Pref, stored: string): string {
    if p == ChangelogView then (if stored == "commits" then stored else "highlights") else stored
  }

  function TuningValue(lib: Lib, t: Tuning, key: Key): string {
    match key
    case AutoKey(a) => FormatBool(StoredAuto(t, a))
    case PrefKey(p) => PrefValue(p, StoredPref(t, p))
    case TimeoutKey(k) => Or(StoredTimeout(t, k), lib.formatDuration(DefaultSeconds(k) * SECOND))
    case PullAttempts => Or(t.pullAttempts, lib.itoa(3))
    case SizeKey(z) => lib.itoa(if StoredSize(t, z) <= 0 then DefaultBytes(z) else StoredSize(t, z))
    case _ => ""
  }

  /** configGetValue. */
  function Get(lib: Lib, s: State, key: Key): string {
    match SectionOf(key)
    case InImages => ImagesValue(s.images, key)
    case InPorts => lib.itoa(if key == BackendPort then s.ports.backend else s.ports.web)
    case InFeatures => FeaturesValue(s.features, key)
    case InTuning => TuningValue(lib, s.tuning, key)
    case Nowhere => ""
  }

  // ---------------------------------------------------------------- get after set

  /** The empty string passes no check of a value, and nothing prints as the empty string. */
  ghost predicate Sane(lib: Lib) {
    && !lib.validHost("") && !lib.validRepoPrefix("") && !lib.validURL("") && !lib.validStreamPrefix("")
    && (forall n :: lib.itoa(n) != "") && (forall d :: lib.formatDuration(d) != "")
  }

  /** How an accepted value is shown: numbers, durations and sizes in their printed form. */
  function Shown(lib: Lib, key: Key, value: string): string {
    match key
    case BackendPort | WebPort | PullAttempts =>
      (match lib.atoi(value) case Some(n) => lib.itoa(n) case None => value)
    case TimeoutKey(_) =>
      (match lib.parseDuration(value) case Some(d) => lib.formatDuration(d) case None => value)
    case SizeKey(_) =>
      (match lib.parseBytes(value) case Some(n) => lib.itoa(n) case None => value)
    case _ => value
  }

  /** What was set is what is read. */
  lemma GetAfterSet(lib: Lib, s: State, key: Key, value: string)
    requires Sane(lib) && Apply(lib, s, key, value).Some?
    ensures Get(lib, Apply(lib, s, key, value).value, key) == Shown(lib, key, value)
  {
  }

  /** No other key reads differently afterwards. */
  lemma SetLeavesOthers(lib: Lib, s: State, key: Key, value: string, other: Key)
    requires Apply(lib, s, key, value).Some? && other != key
    ensures Get(lib, Apply(lib, s, key, value).value, other) == Get(lib, s, other)
  {
    match SectionOf(key)
    case InImages => SetImagesLeaves(lib, s.images, key, value, other);
    case InPorts =>
    case InFeatures => SetFeaturesLeaves(lib, s.features, key, value, other);
    case InTuning => SetTuningLeaves(lib, s.tuning, key, value, other);
  }

  lemma SetImagesLeaves(lib: Lib, i: Images, key: Key, value: string, other: Key)
    requires SetImages(lib, i, key, value).Some? && other != key
    ensures ImagesValue(SetImages(lib, i, key, value).value, other) == ImagesValue(i, other)
  {
  }

  lemma SetFeaturesLeaves(lib: Lib, f: Features, key: Key, value: string, other: Key)
    requires SetFeatures(lib, f, key, value).Some? && other != key
    ensures FeaturesValue(SetFeatures(lib, f, key, value).value, other) == FeaturesValue(f, other)
  {
  }

  lemma SetTuningLeaves(lib: Lib, t: Tuning, key: Key, value: string, other: Key)
    requires SetTuning(lib, t, key, value).Some? && other != key
    ensures TuningValue(lib, SetTuning(lib, t, key, value).value, other) == TuningValue(lib, t, other)
  {
  }

  // ---------------------------------------------------------------- unset

  /** An unset key reads as in the default state. */
  lemma GetAfterUnset(lib: Lib, s: State, key: Key)
    ensures Get(lib, Reset(s, key), key) == Get(lib, DEFAULT_STATE, key)
  {
  }

  /** No other key reads differently, except that unsetting fine-tuning also clears its variant. */
  lemma UnsetLeavesOthers(lib: Lib, s: State, key: Key, other: Key)
    requires other != key
    ensures Get(lib, Reset(s, key), other) ==
              if key == FineTuning && other == FineTuningVariant then "" else Get(lib, s, other)
  {
    if SectionOf(other) == InTuning {
      UnsetTuningLeaves(lib, s.tuning, key, other);
    }
  }

  lemma UnsetTuningLeaves(lib: Lib, t: Tuning, key: Key, other: Key)
    requires other != key
    ensures TuningValue(lib, ResetTuning(t, key), other) == TuningValue(lib, t, other)
  {
  }

  /** With no file every key reads as its default, but the sandbox is off. */
  lemma FreshReads(lib: Lib, key: Key)
    ensures LoadOf(lib, None).Some?
    ensures Get(lib, LoadOf(lib, None).value, key) == if key == Sandbox then "false" else Get(lib, DEFAULT_STATE, key)
  {
  }

  // ---------------------------------------------------------------- what a setter takes

  /** The values that the help of `config set` names for a key; none for keys with free values. */
  function Documented(key: Key): seq<string> {
    match key
    case AutoKey(_) | Sandbox | FineTuning | TelemetryOptIn => ["true", "false"]
    case Channel => ["stable", "dev"]
    case LogLevel => ["debug", "info", "warn", "error"]
    case FineTuningVariant => ["gpu", "cpu"]
    case PrefKey(Color) | PrefKey(Hints) => ["always", "auto", "never"]
    case PrefKey(Output) => ["text", "json"]
    case PrefKey(Timestamps) => ["relative", "iso8601"]
    case PrefKey(ChangelogView) => ["highlights", "commits"]
    case _ => []
  }

  predicate OneOf(vs: seq<string>, v: string) { exists i :: 0 <= i < |vs| && vs[i] == v }

  /** A key with named values takes exactly these, whatever the state. */
  lemma SetTakesDocumented(lib: Lib, s: State, key: Key, value: string)
    requires Documented(key) != []
    ensures Apply(lib, s, key, value).Some? <==> OneOf(Documented(key), value)
  {
    var vs := Documented(key);
    assert OneOf(vs, value) <==>
           value == vs[0] || value == vs[1] || (|vs| > 2 && value == vs[2]) || (|vs| > 3 && value == vs[3]);
  }

  /** A port is taken from 1 to 65535 unless it is the other of the two, and a retry count from 1 to 100. */
  lemma SetTakesNumbers(lib: Lib, s: State, key: Key, value: string)
    requires key == BackendPort || key == WebPort || key == PullAttempts
    ensures Apply(lib, s, key, value).Some? <==>
              var n := lib.atoi(value);
              && n.Some? && 1 <= n.value <= (if key == PullAttempts then 100 else 65535)
              && (key == BackendPort ==> n.value != s.ports.web) && (key == WebPort ==> n.value != s.ports.backend)
  {
  }

  // ---------------------------------------------------------------- setters and validation

  /** What is printed reads back, so that a stored duration or count is the one that was set. */
  ghost predicate Prints(lib: Lib) {
    && (forall n :: lib.atoi(lib.itoa(n)) == Some(n))
    && (forall d :: lib.parseDuration(lib.formatDuration(d)) == Some(d))
  }

  /** The values a setter takes although the state that results is refused: fine-tuning without the sandbox or
      on another processor, no sandbox under fine-tuning, and an image check cut below a second. */
  predicate SetAgainstRules(lib: Lib, s: State, key: Key, value: string) {
    match key
    case FineTuning => value == "true" && !(s.features.sandbox && lib.amd64)
    case Sandbox => value == "false" && s.features.fineTuning
    case TimeoutKey(ImageVerify) => lib.parseDuration(value).Some? && lib.parseDuration(value).value < 1_000_000_000
    case _ => false
  }

  /** Of the edits that a setter accepts on a valid state, validation stops exactly these. */
  lemma SetValidates(lib: Lib, s: State, key: Key, value: string)
    requires Sane(lib) && Prints(lib) && Validate(lib, s) && Apply(lib, s, key, value).Some?
    ensures Validate(lib, Apply(lib, s, key, value).value) <==> !SetAgainstRules(lib, s, key, value)
  {
    match SectionOf(key)
    case InImages => SetImagesValid(lib, s.images, key, value);
    case InPorts =>
    case InFeatures => SetFeaturesValid(lib, s.features, s.secrets, key, value);
    case InTuning => SetTuningValid(lib, s.tuning, key, value);
  }

  lemma SetImagesValid(lib: Lib, i: Images, key: Key, value: string)
    requires ValidImages(lib, i) && SetImages(lib, i, key, value).Some?
    ensures ValidImages(lib, SetImages(lib, i, key, value).value)
  {
  }

  lemma SetFeaturesValid(lib: Lib, f: Features, s: Secrets, key: Key, value: string)
    requires ValidFeatures(lib, f, s) && SetFeatures(lib, f, key, value).Some?
    ensures ValidFeatures(lib, SetFeatures(lib, f, key, value).value, s) <==>
            !(key == FineTuning && value == "true" && !(f.sandbox && lib.amd64))
            && !(key == Sandbox && value == "false" && f.fineTuning)
  {
    SetIsTidy(lib, f, key, value);
    TidyValid(lib, f, SetFeatures(lib, f, key, value).value, s);
    assert f.fineTuning ==> f.sandbox && lib.amd64;
  }

  lemma SetIsTidy(lib: Lib, f: Features, key: Key, value: string)
    requires SetFeatures(lib, f, key, value).Some?
    ensures var g := SetFeatures(lib, f, key, value).value;
            && Tidy(lib, f, g)
            && (g.fineTuning <==> if key == FineTuning then value == "true" else f.fineTuning)
            && (g.sandbox <==> if key == Sandbox then value != "false" else f.sandbox)
  {
  }

  lemma SetTuningValid(lib: Lib, t: Tuning, key: Key, value: string)
    requires Sane(lib) && Prints(lib) && ValidTuning(lib, t) && SetTuning(lib, t, key, value).Some?
    ensures ValidTuning(lib, SetTuning(lib, t, key, value).value) <==>
            (key == TimeoutKey(ImageVerify) ==> lib.parseDuration(value).value >= 1_000_000_000)
  {
    if key.TimeoutKey? {
      TimeoutStored(lib, t.timeouts, key.t, lib.parseDuration(value).value);
    }
  }

  lemma TimeoutStored(lib: Lib, ts: map<Timeout, string>, k: Timeout, d: int)
    requires Sane(lib) && Prints(lib) && d > 0 && forall j :: j in ts ==> ValidTimeout(lib, j, ts[j])
    ensures var us := ts[k := lib.formatDuration(d)];
            (forall j :: j in us ==> ValidTimeout(lib, j, us[j])) <==> (k == ImageVerify ==> d >= 1_000_000_000)
  {
    var us := ts[k := lib.formatDuration(d)];
    assert ValidTimeout(lib, k, us[k]) <==> (k == ImageVerify ==> d >= 1_000_000_000);
  }

  // ---------------------------------------------------------------- runs of edits

  datatype Edit = SetKey(key: Key, value: string) | UnsetKey(key: Key)

  /** The state a command saves, from the state it loaded. */
  function Edited(lib: Lib, s: State, e: Edit): Option<State> {
    match e
    case UnsetKey(key) => Some(WithoutPins(Reset(s, key), key))
    case SetKey(key, value) =>
      match Apply(lib, s, key, value)
      case None => None
      case Some(t) => Some(WithoutPins(t, key))
  }

  /** The state that is saved after a run of accepted edits, each loading what the one before it saved. */
  function After(lib: Lib, s: State, edits: seq<Edit>): Option<State> {
    if edits == [] then Some(s)
    else
      match After(lib, s, edits[..|edits| - 1])
      case None => None
      case Some(t) => Edited(lib, Loaded(t), edits[|edits| - 1])
  }

  /** Unsetting fine-tuning takes its variant along. */
  predicate Touches(e: Edit, key: Key) {
    e.key == key || (e == UnsetKey(FineTuning) && key == FineTuningVariant)
  }

  /** What an edit makes a key it touches read as. */
  function Reads(lib: Lib, e: Edit, key: Key): string {
    if e.SetKey? then Shown(lib, key, e.value) else Get(lib, DEFAULT_STATE, key)
  }

  lemma GetOfLoaded(lib: Lib, s: State, key: Key, other: Key)
    ensures Get(lib, Loaded(s), key) == Get(lib, s, key) == Get(lib, WithoutPins(s, other), key)
  {
  }

  lemma EditedReads(lib: Lib, s: State, e: Edit, key: Key)
    requires Sane(lib) && Edited(lib, s, e).Some?
    ensures Get(lib, Edited(lib, s, e).value, key) == if Touches(e, key) then Reads(lib, e, key) else Get(lib, s, key)
  {
    match e
    case SetKey(k, value) =>
      GetOfLoaded(lib, Apply(lib, s, k, value).value, key, k);
      if k == key { GetAfterSet(lib, s, k, value); } else { SetLeavesOthers(lib, s, k, value, key); }
    case UnsetKey(k) =>
      GetOfLoaded(lib, Reset(s, k), key, k);
      if k == key { GetAfterUnset(lib, s, k); } else { UnsetLeavesOthers(lib, s, k, key); }
  }

  /** After every run of edits a key reads as the last edit that touched it says. */
  lemma {:induction false} LastEditWins(lib: Lib, s: State, edits: seq<Edit>, key: Key, j: nat)
    requires Sane(lib) && After(lib, s, edits).Some? && j < |edits| && Touches(edits[j], key)
    requires forall k :: j < k < |edits| ==> !Touches(edits[k], key)
    ensures Get(lib, After(lib, s, edits).value, key) == Reads(lib, edits[j], key)
    decreases |edits|
  {
    var n := |edits| - 1;
    var t := After(lib, s, edits[..n]).value;
    EditedReads(lib, Loaded(t), edits[n], key);
    if j < n {
      GetOfLoaded(lib, t, key, key);
      LastEditWins(lib, s, edits[..n], key, j);
    }
  }

  /** And a key that none of them touched reads as before. */
  lemma {:induction false} UntouchedKeyStays(lib: Lib, s: State, edits: seq<Edit>, key: Key)
    requires Sane(lib) && After(lib, s, edits).Some?
    requires forall k :: 0 <= k < |edits| ==> !Touches(edits[k], key)
    ensures Get(lib, After(lib, s, edits).value, key) == Get(lib, s, key)
    decreases |edits|
  {
    if edits != [] {
      var n := |edits| - 1;
      var t := After(lib, s, edits[..n]).value;
      EditedReads(lib, Loaded(t), edits[n], key);
      GetOfLoaded(lib, t, key, key);
      UntouchedKeyStays(lib, s, edits[..n], key);
    }
  }
}
