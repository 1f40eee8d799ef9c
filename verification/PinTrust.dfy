/**
 What a digest pin was verified for, and why compose generation never carries it elsewhere
 (cli/internal/compose/generate.go, cli/cmd/start.go, cli/cmd/config.go).
 */
module PinTrust {

  import opened Text
  import opened Config
  import opened ComposeParams

  /** One successful signature check: this digest is this service's image in that repository, under that tag. */
  datatype Verification = Verification(service: string, repo: string, tag: string, digest: string)

  function RepoOf(id: Identity, service: string): string { Repo(id.registryHost, id.repoPrefix, service) }

  const DHI_PREFIX := "dhi:"

  /** Pins of third-party images are cached beside the others under a prefix of their own. */
  predicate ThirdPartyPin(name: string) { HasPrefix(name, DHI_PREFIX) }

  /** Every cached SynthOrg pin was verified for this tag on the default registry identity. */
  predicate PinsTrusted(pins: map<string, string>, tag: string, verified: set<Verification>) {
    forall n :: n in pins && !ThirdPartyPin(n) ==>
      Verification(n, RepoOf(DEFAULT_IDENTITY, n), tag, pins[n]) in verified
  }

  /** A reference is by tag, or its digest was verified for exactly that repository and tag. */
  predicate RefTrusted(service: string, r: Ref, verified: set<Verification>) {
    r.digest == "" || Verification(service, r.repo, r.tag, r.digest) in verified
  }

  /** A third-party reference is by tag, or carries the digest compiled in for the default image. */
  predicate CompiledIn(lib: Lib, name: string, r: Ref) {
    || r.digest == ""
    || (name == "postgres" && r.repo == DEFAULT_IDENTITY.dhiRegistry + "/postgres"
        && r.tag == DEFAULT_IDENTITY.postgresTag
        && lib.dhiPin(PostgresImage(DEFAULT_IDENTITY)) == Some(r.digest))
    || (name == "nats" && r.repo == DEFAULT_IDENTITY.dhiRegistry + "/nats" && r.tag == DEFAULT_IDENTITY.natsTag
        && lib.dhiPin(NatsImage(DEFAULT_IDENTITY)) == Some(r.digest))
  }

  /** The digest is a proper prefix of one verified for that repository and tag. */
  predicate CutShort(service: string, r: Ref, verified: set<Verification>) {
    exists v :: v in verified && v.service == service && v.repo == r.repo && v.tag == r.tag && r.digest < v.digest
  }

  predicate CutShortThirdParty(lib: Lib, name: string, r: Ref) {
    || (name == "postgres" && r.repo == DEFAULT_IDENTITY.dhiRegistry + "/postgres"
        && r.tag == DEFAULT_IDENTITY.postgresTag
        && r.digest < PinOr(lib, PostgresImage(DEFAULT_IDENTITY), ""))
    || (name == "nats" && r.repo == DEFAULT_IDENTITY.dhiRegistry + "/nats" && r.tag == DEFAULT_IDENTITY.natsTag
        && r.digest < PinOr(lib, NatsImage(DEFAULT_IDENTITY), ""))
  }

  predicate SynthOrgTrusted(refs: map<string, Ref>, cut: Option<RefName>, verified: set<Verification>) {
    forall n :: n in refs ==>
      RefTrusted(n, refs[n], verified) || (cut == Some(SynthOrg(n)) && CutShort(n, refs[n], verified))
  }

  predicate ThirdPartyTrusted(lib: Lib, refs: map<string, Ref>, cut: Option<RefName>) {
    forall n :: n in refs ==>
      CompiledIn(lib, n, refs[n]) || (cut == Some(ThirdParty(n)) && CutShortThirdParty(lib, n, refs[n]))
  }

  /** Every reference is trusted, except that the one inside which the file was cut may carry a proper
      prefix of a trusted digest. */
  predicate RefsTrusted(lib: Lib, c: ComposeFile, verified: set<Verification>) {
    SynthOrgTrusted(c.synthorg, c.cut, verified) && ThirdPartyTrusted(lib, c.thirdParty, c.cut)
  }

  lemma TrustGrows(pins: map<string, string>, tag: string, verified: set<Verification>, more: set<Verification>)
    requires PinsTrusted(pins, tag, verified)
    ensures PinsTrusted(pins, tag, verified + more)
  {
  }

  lemma RefTrustGrows(lib: Lib, c: ComposeFile, verified: set<Verification>, more: set<Verification>)
    requires RefsTrusted(lib, c, verified)
    ensures RefsTrusted(lib, c, verified + more)
  {
    forall n | n in c.synthorg && CutShort(n, c.synthorg[n], verified)
      ensures CutShort(n, c.synthorg[n], verified + more)
    {
      var r := c.synthorg[n];
      var v :| v in verified && v.service == n && v.repo == r.repo && v.tag == r.tag && r.digest < v.digest;
      assert v in verified + more;
    }
  }

  lemma OtherInitial(n: string)
    requires n != "" && n[0] != 'd'
    ensures !ThirdPartyPin(n)
  {
    assert DHI_PREFIX[0] == 'd';
  }

  lemma ServicesAreSynthOrg(f: Features, n: string)
    requires n in Services(f)
    ensures !ThirdPartyPin(n)
  {
    assert n == "backend" || n == "web" || n == "sandbox" || n == "sidecar" || n == "fine-tune-cpu"
           || n == "fine-tune-gpu";
    OtherInitial(n);
  }

  // ---------------------------------------------------------------- generation

  lemma RenderedRefTrusted(lib: Lib, configured: Identity, p: Params, n: string, verified: set<Verification>)
    requires !ThirdPartyPin(n)
    requires PinsTrusted(p.pins, p.state.images.tag, verified)
    requires p.pins == map[] || (p.identity == DEFAULT_IDENTITY && configured == DEFAULT_IDENTITY)
    ensures RefTrusted(n, SynthOrgRef(lib, configured, p, n), verified)
  {
    if n in p.pins {
      assert Verification(n, RepoOf(DEFAULT_IDENTITY, n), p.state.images.tag, p.pins[n]) in verified;
    }
  }

  lemma RenderTrusted(lib: Lib, configured: Identity, p: Params, verified: set<Verification>)
    requires PinsTrusted(p.pins, p.state.images.tag, verified)
    requires p.pins == map[] || (p.identity == DEFAULT_IDENTITY && configured == DEFAULT_IDENTITY)
    requires p.postgresDigest == ""
             || (p.identity == DEFAULT_IDENTITY
                 && lib.dhiPin(PostgresImage(DEFAULT_IDENTITY)) == Some(p.postgresDigest))
    requires p.natsDigest == ""
             || (p.identity == DEFAULT_IDENTITY && lib.dhiPin(NatsImage(DEFAULT_IDENTITY)) == Some(p.natsDigest))
    ensures RefsTrusted(lib, Render(lib, configured, p), verified)
  {
    var c := Render(lib, configured, p);
    forall n | n in c.synthorg ensures RefTrusted(n, c.synthorg[n], verified) {
      ServicesAreSynthOrg(p.state.features, n);
      RenderedRefTrusted(lib, configured, p, n, verified);
    }
    forall n | n in c.thirdParty ensures CompiledIn(lib, n, c.thirdParty[n]) {
      assert n == "postgres" || n == "nats";
    }
  }

  /** Whatever the state and the environment, a generated file is trusted when the pins given to it are
      verified ones, and there are none unless the effective identity and the one the process started
      with are both the default. */
  lemma GeneratedTrusted(lib: Lib, env: Env, configured: Identity, s: State, pins: map<string, string>,
                         verified: set<Verification>)
    requires ParamsFromState(lib, env, s).Some?
    requires Generate(lib, configured, ParamsFromState(lib, env, s).value.(pins := pins)).Some?
    requires PinsTrusted(pins, s.images.tag, verified)
    requires pins == map[] || (EffectiveIdentity(env, s.images) == DEFAULT_IDENTITY && configured == DEFAULT_IDENTITY)
    ensures RefsTrusted(lib, Generate(lib, configured, ParamsFromState(lib, env, s).value.(pins := pins)).value,
                        verified)
  {
    var p := ParamsFromState(lib, env, s).value;
    LayersAgree(lib, env, s);
    DigestsNeedDefaultIdentity(lib, env, s);
    DefaultsAgree(lib, p, pins);
    RenderTrusted(lib, configured, ApplyComposeDefaults(lib, p.(pins := pins)), verified);
  }

  lemma DefaultsAgree(lib: Lib, p: Params, pins: map<string, string>)
    ensures ApplyComposeDefaults(lib, p.(pins := pins)) == ApplyComposeDefaults(lib, p).(pins := pins)
  {
  }

  /** The same for the pins that ParamsFromState itself takes from the state. */
  lemma RegeneratedTrusted(lib: Lib, env: Env, configured: Identity, s: State, verified: set<Verification>)
    requires ParamsFromState(lib, env, s).Some?
    requires Generate(lib, configured, ParamsFromState(lib, env, s).value).Some?
    requires PinsTrusted(s.images.pins, s.images.tag, verified)
    requires s.images.pins == map[] || configured == EffectiveIdentity(env, s.images)
    ensures RefsTrusted(lib, Generate(lib, configured, ParamsFromState(lib, env, s).value).value, verified)
  {
    var p := ParamsFromState(lib, env, s).value;
    assert p.(pins := p.pins) == p;
    DigestsNeedDefaultIdentity(lib, env, s);
    GeneratedTrusted(lib, env, configured, s, p.pins, verified);
  }

  predicate Pinned(c: ComposeFile) {
    (exists n :: n in c.synthorg && c.synthorg[n].digest != "")
    || (exists n :: n in c.thirdParty && c.thirdParty[n].digest != "")
  }

  /** For every state, environment and starting identity: a digest is rendered only when all five
      effective identity fields are the defaults. */
  lemma PinnedNeedsDefaultIdentity(lib: Lib, env: Env, configured: Identity, s: State)
    requires ParamsFromState(lib, env, s).Some?
    requires Generate(lib, configured, ParamsFromState(lib, env, s).value).Some?
    requires EffectiveIdentity(env, s.images) != DEFAULT_IDENTITY
    ensures !Pinned(Generate(lib, configured, ParamsFromState(lib, env, s).value).value)
  {
    DigestsNeedDefaultIdentity(lib, env, s);
    var q := ApplyComposeDefaults(lib, ParamsFromState(lib, env, s).value);
    var c := Render(lib, configured, q);
    forall n | n in c.synthorg ensures c.synthorg[n].digest == "" {
      assert PinFor(q.pins, n) == "";
    }
    forall n | n in c.thirdParty ensures c.thirdParty[n].digest == "" {
      assert n == "postgres" || n == "nats";
    }
  }

  /** And then they are rendered: on the default identity every service with a usable cached pin is
      referred to by exactly that pin, in its own repository. */
  lemma PinnedOnDefaultIdentity(lib: Lib, env: Env, s: State, n: string)
    requires ParamsFromState(lib, env, s).Some?
    requires Generate(lib, DEFAULT_IDENTITY, ParamsFromState(lib, env, s).value).Some?
    requires EffectiveIdentity(env, s.images) == DEFAULT_IDENTITY && n in Services(s.features)
    ensures var c := Generate(lib, DEFAULT_IDENTITY, ParamsFromState(lib, env, s).value).value;
            && n in c.synthorg && c.synthorg[n].repo == RepoOf(DEFAULT_IDENTITY, n) && c.synthorg[n].tag == s.images.tag
            && (n in s.images.pins ==> c.synthorg[n].digest == s.images.pins[n])
            && (n !in s.images.pins && !lib.validDigest("") ==> c.synthorg[n].digest == "")
  {
    LayersAgree(lib, env, s);
    DigestsNeedDefaultIdentity(lib, env, s);
    var q := ApplyComposeDefaults(lib, ParamsFromState(lib, env, s).value);
    assert q.state == s;
    assert n in s.images.pins ==> lib.validDigest(q.pins[n]);
  }

  // ---------------------------------------------------------------- patching

  function PatchedRef(configured: Identity, tag: string, pins: map<string, string>, service: string): Ref {
    Ref(RepoOf(configured, service), tag, PinFor(pins, service))
  }

  /** Of a generated file's references only backend and web stand on image lines. */
  predicate Patchable(configured: Identity, c: ComposeFile) {
    && "backend" in c.synthorg && c.synthorg["backend"].repo == RepoOf(configured, "backend")
    && "web" in c.synthorg && c.synthorg["web"].repo == RepoOf(configured, "web")
  }

  function PatchRefs(configured: Identity, c: ComposeFile, tag: string, pins: map<string, string>): ComposeFile {
    ComposeFile(
      c.synthorg["backend" := PatchedRef(configured, tag, pins, "backend")]
                ["web" := PatchedRef(configured, tag, pins, "web")],
      c.thirdParty,
      if c.cut == Some(SynthOrg("backend")) || c.cut == Some(SynthOrg("web")) then None else c.cut)
  }

  lemma PatchTrusted(lib: Lib, configured: Identity, c: ComposeFile, tag: string, pins: map<string, string>,
                     verified: set<Verification>)
    requires RefsTrusted(lib, c, verified)
    requires PinsTrusted(pins, tag, verified)
    requires pins == map[] || configured == DEFAULT_IDENTITY
    ensures RefsTrusted(lib, PatchRefs(configured, c, tag, pins), verified)
  {
    OtherInitial("backend");
    OtherInitial("web");
    assert RefTrusted("backend", PatchedRef(configured, tag, pins, "backend"), verified);
    assert RefTrusted("web", PatchedRef(configured, tag, pins, "web"), verified);
    var q := PatchRefs(configured, c, tag, pins);
    forall n | n in q.synthorg
      ensures RefTrusted(n, q.synthorg[n], verified)
              || (q.cut == Some(SynthOrg(n)) && CutShort(n, q.synthorg[n], verified))
    {
      if n != "backend" && n != "web" {
        assert q.synthorg[n] == c.synthorg[n];
      }
    }
  }

  // ---------------------------------------------------------------- files cut short

  function RefText(r: Ref): string {
    if r.digest != "" then r.repo + ("@" + r.digest) else if r.tag != "" then r.repo + (":" + r.tag) else r.repo
  }

  /** What `k` characters of a reference say: part of the repository, of the tag or of the digest. */
  function CutRef(r: Ref, k: nat): Ref {
    if k >= |RefText(r)| then r
    else if k <= |r.repo| then Ref(r.repo[..k], "", "")
    else if k == |r.repo| + 1 then Ref(r.repo, "", "")
    else if r.digest == "" then r.(tag := r.tag[..k - |r.repo| - 1])
    else r.(digest := r.digest[..k - |r.repo| - 1])
  }

  /** The cut is one of the text: what is left is its first `k` characters, up to a separator at the end. */
  lemma CutRefText(r: Ref, k: nat)
    requires k <= |RefText(r)|
    ensures RefText(CutRef(r, k)) == RefText(r)[..if k == |r.repo| + 1 && k < |RefText(r)| then k - 1 else k]
  {
    var t := RefText(r);
    assert t[..|t|] == t;
    assert k <= |r.repo| ==> t[..k] == r.repo[..k];
    assert t[..|r.repo|] == r.repo;
    if |r.repo| + 1 < k < |t| {
      var sep, rest := if r.digest != "" then "@" else ":", if r.digest != "" then r.digest else r.tag;
      var j := k - |r.repo| - 1;
      assert t[..k] == r.repo + (sep + rest[..j]);
    }
  }

  /** A file that ends inside a reference has nothing after it: cutting before it drops it. */
  predicate Survives(c: ComposeFile, keep: set<RefName>, at: Option<RefName>, name: RefName) {
    at == Some(name) || (name in keep && (at.None? || c.cut != Some(name)))
  }

  /** What a write of the file that stopped short leaves: some references, and `k` characters of the
      one it stopped in, if it stopped in one. */
  function CutFile(c: ComposeFile, keep: set<RefName>, at: Option<RefName>, k: nat): ComposeFile {
    ComposeFile(
      map n | n in c.synthorg && Survives(c, keep, at, SynthOrg(n)) ::
        if at == Some(SynthOrg(n)) then CutRef(c.synthorg[n], k) else c.synthorg[n],
      map n | n in c.thirdParty && Survives(c, keep, at, ThirdParty(n)) ::
        if at == Some(ThirdParty(n)) then CutRef(c.thirdParty[n], k) else c.thirdParty[n],
      if at.Some? then at else c.cut)
  }

  lemma CutRefKeeps(service: string, r: Ref, k: nat, verified: set<Verification>)
    requires RefTrusted(service, r, verified) || CutShort(service, r, verified)
    ensures RefTrusted(service, CutRef(r, k), verified) || CutShort(service, CutRef(r, k), verified)
  {
    var q := CutRef(r, k);
    if q.digest != "" && q != r {
      assert q.digest < r.digest && q.repo == r.repo && q.tag == r.tag;
      if RefTrusted(service, r, verified) {
        var v := Verification(service, r.repo, r.tag, r.digest);
        assert v in verified;
      } else {
        var v :| v in verified && v.service == service && v.repo == r.repo && v.tag == r.tag && r.digest < v.digest;
        assert q.digest < v.digest;
      }
    }
  }

  lemma CutThirdPartyKeeps(lib: Lib, name: string, r: Ref, k: nat)
    requires CompiledIn(lib, name, r) || CutShortThirdParty(lib, name, r)
    ensures CompiledIn(lib, name, CutRef(r, k)) || CutShortThirdParty(lib, name, CutRef(r, k))
  {
    var q := CutRef(r, k);
    if q.digest != "" && q != r {
      assert q.digest < r.digest && q.repo == r.repo && q.tag == r.tag;
    }
  }

  /** A write cut short at any character leaves a file that is trusted but for the reference it was cut in. */
  lemma CutTrusted(lib: Lib, c: ComposeFile, keep: set<RefName>, at: Option<RefName>, k: nat,
                   verified: set<Verification>)
    requires RefsTrusted(lib, c, verified)
    ensures RefsTrusted(lib, CutFile(c, keep, at, k), verified)
  {
    var t := CutFile(c, keep, at, k);
    forall n | n in t.synthorg
      ensures RefTrusted(n, t.synthorg[n], verified)
              || (t.cut == Some(SynthOrg(n)) && CutShort(n, t.synthorg[n], verified))
    {
      CutRefKeeps(n, c.synthorg[n], k, verified);
    }
    forall n | n in t.thirdParty
      ensures CompiledIn(lib, n, t.thirdParty[n])
              || (t.cut == Some(ThirdParty(n)) && CutShortThirdParty(lib, n, t.thirdParty[n]))
    {
      CutThirdPartyKeeps(lib, n, c.thirdParty[n], k);
    }
  }

  /** Digests all have the same length, so a trusted reference that loses its end stays trusted exactly
      when it was by tag or the cut leaves nothing of the digest. */
  lemma CutStaysTrusted(service: string, r: Ref, k: nat, verified: set<Verification>)
    requires RefTrusted(service, r, verified) && k < |RefText(r)|
    requires forall v :: v in verified ==> |v.digest| == |r.digest|
    ensures RefTrusted(service, CutRef(r, k), verified) <==> r.digest == "" || k <= |r.repo| + 1
  {
    var q := CutRef(r, k);
    if r.digest != "" && k > |r.repo| + 1 {
      assert |q.digest| < |r.digest|;
      assert Verification(service, q.repo, q.tag, q.digest) !in verified;
    }
  }

  /** So a rollback can leave a digest that nobody verified: any write of a verified reference that stops
      inside the digest does. */
  lemma CutDigestIsNotVerified(tag: string, digest: string, j: nat)
    requires 0 < j < |digest|
    ensures var repo := RepoOf(DEFAULT_IDENTITY, "web");
            var c := ComposeFile(map["web" := Ref(repo, tag, digest)], map[], None);
            var verified := {Verification("web", repo, tag, digest)};
            var t := CutFile(c, {}, Some(SynthOrg("web")), |repo| + 1 + j);
            && RefTrusted("web", c.synthorg["web"], verified)
            && t.synthorg["web"].digest == digest[..j] && !RefTrusted("web", t.synthorg["web"], verified)
  {
    var repo := RepoOf(DEFAULT_IDENTITY, "web");
    var r := Ref(repo, tag, digest);
    var verified := {Verification("web", repo, tag, digest)};
    assert |RefText(r)| == |repo| + 1 + |digest|;
    CutStaysTrusted("web", r, |repo| + 1 + j, verified);
  }

  // ---------------------------------------------------------------- standalone pulls

  /** The reference pullAllImages hands to `docker pull`: no test for a custom registry here. */
  function PullRef(lib: Lib, configured: Identity, i: Images, service: string): Ref {
    Ref(RepoOf(configured, service), i.tag, Formatted(lib, i.pins, service))
  }

  predicate OnlyDefaultRepos(verified: set<Verification>) {
    forall v :: v in verified ==> v.repo == RepoOf(DEFAULT_IDENTITY, v.service)
  }

  /** Unlike compose generation, a standalone pull can carry a digest to a repository it was not
      verified for: exactly when the pin is usable and the process runs on another repository. */
  lemma StandalonePull(lib: Lib, configured: Identity, i: Images, service: string, verified: set<Verification>)
    requires PinsTrusted(i.pins, i.tag, verified) && OnlyDefaultRepos(verified)
    requires !ThirdPartyPin(service) && !lib.validDigest("")
    ensures RefTrusted(service, PullRef(lib, configured, i, service), verified) <==>
            !(lib.validDigest(PinFor(i.pins, service))
              && RepoOf(configured, service) != RepoOf(DEFAULT_IDENTITY, service))
  {
    var r := PullRef(lib, configured, i, service);
    if lib.validDigest(PinFor(i.pins, service)) {
      assert service in i.pins;
      assert Verification(service, RepoOf(DEFAULT_IDENTITY, service), i.tag, i.pins[service]) in verified;
    }
  }

  /** One such pull: a sandbox pin verified on the default registry, and another registry in effect. */
  lemma StandalonePullEscapes(lib: Lib, tag: string, digest: string)
    requires lib.validDigest(digest) && !lib.validDigest("")
    ensures var i := Images(tag, "", "", "", "", "", map["sandbox" := digest]);
            var verified := {Verification("sandbox", RepoOf(DEFAULT_IDENTITY, "sandbox"), tag, digest)};
            && PinsTrusted(i.pins, i.tag, verified)
            && !RefTrusted("sandbox", PullRef(lib, DEFAULT_IDENTITY.(registryHost := "r.io"), i, "sandbox"), verified)
  {
    var i := Images(tag, "", "", "", "", "", map["sandbox" := digest]);
    var verified := {Verification("sandbox", RepoOf(DEFAULT_IDENTITY, "sandbox"), tag, digest)};
    var other := DEFAULT_IDENTITY.(registryHost := "r.io");
    assert RepoOf(other, "sandbox")[0] == 'r' && RepoOf(DEFAULT_IDENTITY, "sandbox")[0] == 'g';
    OtherInitial("sandbox");
    StandalonePull(lib, other, i, "sandbox", verified);
  }

  // ---------------------------------------------------------------- digestPinMap

  datatype Result = Result(service: string, digest: string)

  function Verified(id: Identity, tag: string, results: seq<Result>): set<Verification> {
    set r | r in results :: Verification(r.service, RepoOf(id, r.service), tag, r.digest)
  }

  /** digestPinMap: fails iff some result has no digest; otherwise pins every result, each pin being one
      of the results. */
  method DigestPinMap(results: seq<Result>) returns (pins: Option<map<string, string>>)
    ensures pins.None? <==> exists r :: r in results && r.digest == ""
    ensures pins.Some? ==> pins.value.Keys == set r | r in results :: r.service
    ensures pins.Some? ==> forall n :: n in pins.value ==> Result(n, pins.value[n]) in results
  {
    var m: map<string, string> := map[];
    for k := 0 to |results|
      invariant forall r :: r in results[..k] ==> r.digest != ""
      invariant m.Keys == set r | r in results[..k] :: r.service
      invariant forall n :: n in m ==> Result(n, m[n]) in results[..k]
    {
      var r := results[k];
      assert results[..k + 1] == results[..k] + [r];
      if r.digest == "" {
        assert r in results;
        return None;
      }
      m := m[r.service := r.digest];
    }
    assert results[..|results|] == results;
    pins := Some(m);
  }

  predicate ResultsFor(results: seq<Result>, services: seq<string>) {
    |results| == |services| && forall k :: 0 <= k < |services| ==> results[k].service == services[k]
  }

  lemma SameServices(results: seq<Result>, services: seq<string>)
    requires ResultsFor(results, services)
    ensures (set r | r in results :: r.service) == set n | n in services
  {
    forall n | n in services ensures n in set r | r in results :: r.service {
      var k :| 0 <= k < |services| && services[k] == n;
      assert results[k] in results;
    }
  }

  /** Verified on the default identity, so trusted. */
  lemma FreshPinsTrusted(results: seq<Result>, pins: map<string, string>, tag: string)
    requires forall n :: n in pins ==> Result(n, pins[n]) in results
    ensures PinsTrusted(pins, tag, Verified(DEFAULT_IDENTITY, tag, results))
  {
    forall n | n in pins
      ensures Verification(n, RepoOf(DEFAULT_IDENTITY, n), tag, pins[n]) in Verified(DEFAULT_IDENTITY, tag, results)
    {
      var r := Result(n, pins[n]);
      assert r in results;
    }
  }

  datatype DHIResult = DHIResult(image: string, digest: string, attestation: string, signature: string)

  ghost predicate SameSynthOrgPins(a: map<string, string>, b: map<string, string>) {
    forall n :: !ThirdPartyPin(n) ==> (n in a <==> n in b) && (n in a && n in b ==> a[n] == b[n])
  }

  /** The entry of one result under its own name is the compiled-in digest; the others carry what was found. */
  function CacheResult(lib: Lib, pins: map<string, string>, d: DHIResult): map<string, string> {
    var key := DHI_PREFIX + d.image;
    var pin := lib.dhiPin(d.image);
    var a := if pin.Some? then pins[key := pin.value] else pins;
    var b := if d.digest != "" then a[key + ":platform" := d.digest] else a;
    var c := if d.attestation != "" then b[key + ":attestation" := d.attestation] else b;
    if d.signature != "" then c[key + ":signature" := d.signature] else c
  }

  /** No entry that a result adds beside its own is the entry of this image. */
  predicate Unshadowed(d: DHIResult, image: string) {
    d.image + ":platform" != image && d.image + ":attestation" != image && d.image + ":signature" != image
  }

  lemma KeysDiffer(a: string, suffix: string, b: string)
    requires a + suffix != b
    ensures DHI_PREFIX + a + suffix != DHI_PREFIX + b
  {
    assert (DHI_PREFIX + a + suffix)[|DHI_PREFIX|..] == a + suffix && (DHI_PREFIX + b)[|DHI_PREFIX|..] == b;
  }

  lemma CacheResultEntry(lib: Lib, pins: map<string, string>, d: DHIResult, image: string)
    requires Unshadowed(d, image) && lib.dhiPin(image).Some?
    ensures var key := DHI_PREFIX + image;
            var r := CacheResult(lib, pins, d);
            && (d.image == image ==> key in r && r[key] == lib.dhiPin(image).value)
            && (key in pins && pins[key] == lib.dhiPin(image).value ==> key in r && r[key] == pins[key])
  {
    KeysDiffer(d.image, ":platform", image);
    KeysDiffer(d.image, ":attestation", image);
    KeysDiffer(d.image, ":signature", image);
    assert (DHI_PREFIX + d.image)[|DHI_PREFIX|..] == d.image && (DHI_PREFIX + image)[|DHI_PREFIX|..] == image;
  }

  lemma CacheResultOthers(lib: Lib, pins: map<string, string>, d: DHIResult)
    ensures SameSynthOrgPins(pins, CacheResult(lib, pins, d))
    ensures forall n :: n in pins ==> n in CacheResult(lib, pins, d)
  {
  }

  /** The compiled-in digest of the image is what the cache holds under its name. */
  predicate CachedAsPinned(lib: Lib, pins: map<string, string>, image: string) {
    DHI_PREFIX + image in pins && lib.dhiPin(image) == Some(pins[DHI_PREFIX + image])
  }

  /** The cache entries of verified third-party images hold the compiled-in digests and never touch a SynthOrg pin. */
  method AddDHIPins(lib: Lib, pins: map<string, string>, results: seq<DHIResult>) returns (r: map<string, string>)
    ensures SameSynthOrgPins(pins, r)
    ensures forall n :: n in pins ==> n in r
    ensures forall k :: 0 <= k < |results| && lib.dhiPin(results[k].image).Some?
                        && (forall j :: 0 <= j < |results| ==> Unshadowed(results[j], results[k].image)) ==>
              CachedAsPinned(lib, r, results[k].image)
  {
    r := pins;
    for k := 0 to |results|
      invariant SameSynthOrgPins(pins, r)
      invariant forall n :: n in pins ==> n in r
      invariant forall i :: 0 <= i < k && lib.dhiPin(results[i].image).Some?
                            && (forall j :: 0 <= j < |results| ==> Unshadowed(results[j], results[i].image)) ==>
                  CachedAsPinned(lib, r, results[i].image)
    {
      CacheResultOthers(lib, r, results[k]);
      forall i | 0 <= i <= k && lib.dhiPin(results[i].image).Some?
                 && (forall j :: 0 <= j < |results| ==> Unshadowed(results[j], results[i].image))
        ensures CachedAsPinned(lib, CacheResult(lib, r, results[k]), results[i].image)
      {
        CacheResultEntry(lib, r, results[k], results[i].image);
      }
      r := CacheResult(lib, r, results[k]);
    }
  }
}
