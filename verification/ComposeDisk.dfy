/**
 compose.yml, its side file nats.conf and config.json on disk, and the operations that write them
 (cli/internal/compose/writer.go, cli/cmd/update_compose.go, cli/cmd/update.go).  Every system
 call may fail.  The disk keeps a ghost trace of what its three files were after each call that
 can change them, so that a property of the whole trace is a property of every crash point.
 */
module ComposeDisk {

  import opened Text
  import opened ImageLines
  import opened Boilerplate

  /** Names in the data directory: the two compose files and staged copies of them. */
  datatype Name = Compose | Nats | Temp(dst: Name, nonce: nat)

  /** The part of the saved state an image update touches; `rest` stands for everything else. */
  datatype Config = Config(imageTag: string, pins: map<string, string>, bus: string, sandbox: bool, rest: string)

  /** What a reader of the three files sees. */
  datatype Snapshot = Snapshot(compose: Option<string>, nats: Option<string>, config: Option<Config>)

  function Get(files: map<Name, string>, n: Name): Option<string> {
    if n in files then Some(files[n]) else None
  }

  /** The snapshot with one of the compose files replaced. */
  function With(s: Snapshot, n: Name, content: Option<string>): Snapshot {
    match n
    case Compose => s.(compose := content)
    case Nats => s.(nats := content)
    case Temp(_, _) => s
  }

  /** Rendering of the compose template: from the state alone, or with the given pins.  The template
      mounts nats.conf only when the bus is nats. */
  type Generator = (Config, Option<map<string, string>>) -> Option<string>

  ghost predicate TemplateOk(gen: Generator) {
    forall c, p :: gen(c, p).Some? && ReferencesNats(gen(c, p).value) ==> c.bus == "nats"
  }

  /** A compose file that mounts nats.conf has a complete nats.conf beside it. */
  predicate PairOk(s: Snapshot, natsConf: string) {
    s.compose.Some? && ReferencesNats(s.compose.value) ==> s.nats == Some(natsConf)
  }

  /** The compose file mounts nats.conf only if the state's bus is nats. */
  predicate Aligned(s: Snapshot, bus: string) {
    s.compose.Some? && ReferencesNats(s.compose.value) ==> bus == "nats"
  }

  class Disk {
    var files: map<Name, string>
    var config: Option<Config>
    const natsConf: string
    ghost var trace: seq<Snapshot>

    constructor (files: map<Name, string>, config: Option<Config>, natsConf: string)
      ensures this.files == files && this.config == config && this.natsConf == natsConf && trace == []
    {
      this.files, this.config, this.natsConf := files, config, natsConf;
      trace := [];
    }

    function Shot(): Snapshot
      reads this
    {
      Snapshot(Get(files, Compose), Get(files, Nats), config)
    }

    /** Every crash point since `from` has a good pair, and so has the present. */
    ghost predicate Safe(from: nat)
      reads this
    {
      PairOk(Shot(), natsConf) && forall i :: from <= i < |trace| ==> PairOk(trace[i], natsConf)
    }

    // -------------------------------------------------------------- system calls

    method OpenExclusive(n: Name, calm: bool) returns (ok: bool)
      requires n.Temp?
      modifies this`files
      ensures calm ==> (ok <==> n !in old(files))
      ensures ok ==> n !in old(files) && files == old(files)[n := ""]
      ensures !ok ==> files == old(files)
      ensures Shot() == old(Shot())
    {
      ok := *;
      ok := (ok || calm) && n !in files;
      if ok {
        files := files[n := ""];
      }
    }

    /** A failed write leaves some prefix of the data. */
    method Write(n: Name, data: string, calm: bool) returns (ok: bool)
      requires n.Temp? && n in files
      modifies this`files
      ensures calm ==> ok
      ensures ok ==> files == old(files)[n := data]
      ensures exists k: nat :: k <= |data| && files == old(files)[n := data[..k]]
      ensures Shot() == old(Shot())
    {
      ok := *;
      ok := ok || calm;
      var k :| 0 <= k <= |data| && (ok ==> k == |data|);
      assert data[..|data|] == data;
      files := files[n := data[..k]];
    }

    method Rename(n: Name, dst: Name, calm: bool) returns (ok: bool)
      requires n.Temp? && !dst.Temp? && n in files
      modifies this`files, this`trace
      ensures calm ==> ok
      ensures ok ==>
                Shot() == With(old(Shot()), dst, Some(old(files)[n])) && trace == old(trace) + [Shot()] && n !in files
      ensures !ok ==> files == old(files) && trace == old(trace)
    {
      ok := *;
      ok := ok || calm;
      if ok {
        files := (files - {n})[dst := files[n]];
        trace := trace + [Shot()];
      }
    }

    method Remove(n: Name, works: bool)
      modifies this`files, this`trace
      ensures works ==> n !in files && Shot() == With(old(Shot()), n, None)
      ensures !works ==> files == old(files)
      ensures trace == old(trace) + [Shot()]
    {
      if works {
        files := files - {n};
      }
      trace := trace + [Shot()];
    }

    /** os.WriteFile: truncate, then write; a failure leaves some prefix. */
    method WriteFile(n: Name, data: string, works: bool)
      requires !n.Temp?
      modifies this`files, this`trace
      ensures works ==> Shot() == With(old(Shot()), n, Some(data))
      ensures exists k: nat :: k <= |data| && Shot() == With(old(Shot()), n, Some(data[..k]))
                               && trace == old(trace) + [With(old(Shot()), n, Some("")), Shot()]
    {
      files := files[n := ""];
      trace := trace + [Shot()];
      var k :| 0 <= k <= |data| && (works ==> k == |data|);
      assert data[..|data|] == data;
      files := files[n := data[..k]];
      trace := trace + [Shot()];
    }

    /** config.Save; a failed save leaves the old file. */
    method Save(c: Config, calm: bool) returns (ok: bool)
      modifies this`config, this`trace
      ensures calm ==> ok
      ensures ok ==> config == Some(c)
      ensures !ok ==> config == old(config)
      ensures trace == old(trace) + [Shot()]
    {
      ok := *;
      ok := ok || calm;
      if ok {
        config := Some(c);
      }
      trace := trace + [Shot()];
    }

    /** config.Load: the saved state, or some default without a file. */
    method Load() returns (c: Config)
      ensures config.Some? ==> c == config.value
    {
      c := *;
      if config.Some? {
        c := config.value;
      }
    }

    // -------------------------------------------------------------- writer.go

    /** atomicWriteRooted: all or nothing, with one visible step. */
    method AtomicWriteRooted(dst: Name, data: string, calm: bool) returns (ok: bool)
      requires !dst.Temp?
      modifies this`files, this`trace
      ensures calm ==> ok
      ensures ok ==> Shot() == With(old(Shot()), dst, Some(data)) && trace == old(trace) + [Shot()]
      ensures !ok ==> Shot() == old(Shot()) && forall i :: |old(trace)| <= i < |trace| ==> trace[i] == old(Shot())
      ensures old(trace) <= trace
    {
      SomeNameIsFree(files.Keys, dst);
      var nonce: nat :| calm ==> Temp(dst, nonce) !in files;
      var tmp := Temp(dst, nonce);
      ok := OpenExclusive(tmp, calm);
      if !ok {
        return;
      }
      var cleanup := true;
      ok := Write(tmp, data, calm);
      var synced: bool, closed: bool := *, *;
      ok := ok && (calm || (synced && closed));
      if ok {
        ok := Rename(tmp, dst, calm);
        cleanup := !ok;
      }
      if cleanup {
        var works: bool := *;
        Remove(tmp, works);
      }
    }

    /** WriteNATSConfig; the directory may turn out not to be usable. */
    method WriteNATSConfig(bus: string, calm: bool) returns (ok: bool)
      modifies this`files, this`trace
      ensures calm ==> ok
      ensures ok ==> Shot() == old(Shot()).(nats := if bus == "nats" then Some(natsConf) else None)
      ensures !ok ==> Shot() == old(Shot())
      ensures old(trace) <= trace && forall i :: |old(trace)| <= i < |trace| ==>
                trace[i] == old(Shot()) || trace[i] == Shot()
    {
      ok := *;
      ok := ok || calm;
      if !ok {
        return;
      }
      if bus != "nats" {
        if Nats in files {
          ok := *;
          ok := ok || calm;
          Remove(Nats, ok);
        }
        return;
      }
      ok := AtomicWriteRooted(Nats, natsConf, calm);
    }

    /** WriteComposeAndNATS keeps the pair good at every crash point, whatever the buses of the old
        and the new file, and replaces compose.yml or leaves it. */
    method WriteComposeAndNATS(yaml: string, bus: string, calm: bool) returns (ok: bool)
      requires PairOk(Shot(), natsConf) && (ReferencesNats(yaml) ==> bus == "nats")
      modifies this`files, this`trace
      ensures calm ==> ok
      ensures old(trace) <= trace && Safe(|old(trace)|)
      ensures ok ==>
                Get(files, Compose) == Some(yaml) && Get(files, Nats) == if bus == "nats" then Some(natsConf) else None
      ensures Get(files, Compose) == old(Get(files, Compose)) || Get(files, Compose) == Some(yaml)
      ensures bus == "nats" ==> Get(files, Nats) == old(Get(files, Nats)) || Get(files, Nats) == Some(natsConf)
    {
      if bus == "nats" {
        ok := WriteNATSConfig(bus, calm);
        if !ok {
          return;
        }
      }
      ok := *;
      if ok || calm {
        ok := AtomicWriteRooted(Compose, yaml, calm);
      }
      if !ok {
        return;
      }
      if bus != "nats" {
        ok := WriteNATSConfig(bus, calm);
      }
    }

    /** What init, the config commands and start do once the file is generated: write the pair, then save. */
    method WriteAndSave(generated: Option<string>, cfg: Config, saved: Config, calm: bool) returns (ok: bool)
      requires PairOk(Shot(), natsConf)
      requires generated.Some? && ReferencesNats(generated.value) ==> cfg.bus == "nats"
      modifies this
      ensures old(trace) <= trace && Safe(|old(trace)|)
      ensures ok ==> generated.Some? && Get(files, Compose) == generated && config == Some(saved)
      ensures ok ==> Get(files, Nats) == if cfg.bus == "nats" then Some(natsConf) else None
      ensures !ok ==> config == old(config)
      ensures calm ==> (ok <==> generated.Some?)
    {
      ok := generated.Some?;
      if ok {
        ok := WriteComposeAndNATS(generated.value, cfg.bus, calm);
      }
      if ok {
        ok := Save(saved, calm);
      }
    }

    // -------------------------------------------------------------- update_compose.go

    /** os.ReadFile of compose.yml: its content, nothing when absent, or a failure. */
    method ReadCompose(readable: bool) returns (content: Option<string>)
      ensures content == if readable then Get(files, Compose) else None
    {
      content := if readable then Get(files, Compose) else None;
    }

    /** refreshCompose: afterwards, unless it failed or the user declined, the compose file is the generated one and
        mounts nats.conf only if the state's bus is nats, and nats.conf is there exactly then.  The user is asked
        only about a file whose lines do not have the same shapes, and what is declined is not written. */
    method RefreshCompose(gen: Generator, cfg: Config, force: bool, approved: bool, calm: bool)
      returns (applied: bool, failed: bool)
      requires TemplateOk(gen) && PairOk(Shot(), natsConf)
      modifies this`files, this`trace
      ensures old(trace) <= trace && Safe(|old(trace)|)
      ensures applied && !failed ==> Aligned(Shot(), cfg.bus)
      ensures applied && !failed && (force || old(Get(files, Compose)).Some?) ==>
                Get(files, Compose).Some? && Get(files, Compose) == gen(cfg, None)
                && Get(files, Nats) == if cfg.bus == "nats" then Some(natsConf) else None
      ensures !applied && !failed ==> Shot() == old(Shot())
      ensures Get(files, Compose) == old(Get(files, Compose)) || Get(files, Compose) == gen(cfg, None)
      ensures !failed && old(Get(files, Compose)).Some? ==>
                gen(cfg, None).Some?
                && (applied <==> approved || Shapes(old(Get(files, Compose)).value) == Shapes(gen(cfg, None).value))
      ensures !failed && old(Get(files, Compose)).None? ==> applied
      ensures calm ==> (failed <==> (force || old(Get(files, Compose)).Some?) && gen(cfg, None).None?)
    {
      var readable: bool := *;
      applied, failed := false, !(readable || calm);
      var existing := ReadCompose(readable || calm);
      if failed {
        return;
      }
      if existing.None? && !force {
        applied := true;
        return;
      }
      var generated := gen(cfg, None);
      if generated.None? {
        failed := true;
        return;
      }
      var ok: bool;
      if existing.Some? && existing.value == generated.value {
        ok := WriteNATSConfig(cfg.bus, calm);
        applied, failed := ok, !ok;
        return;
      }
      if existing.Some? {
        var only := IsUpdateBoilerplateOnly(existing.value, generated.value);
        if !only && !approved {
          var promptFails: bool := *;
          failed := promptFails && !calm;
          return;
        }
      }
      ok := WriteComposeAndNATS(generated.value, cfg.bus, calm);
      applied, failed := ok, !ok;
    }

    /** writeOrPatchCompose. */
    method WriteOrPatchCompose(gen: Generator, repo: string, cfg: Config, pins: map<string, string>, preserve: bool,
                               calm: bool)
      returns (ok: bool)
      requires TemplateOk(gen) && PairOk(Shot(), natsConf) && Plain(repo, cfg.imageTag, pins)
      modifies this`files, this`trace
      ensures old(trace) <= trace && Safe(|old(trace)|)
      ensures preserve ==> Get(files, Nats) == old(Get(files, Nats))
      ensures !preserve && cfg.bus == "nats" && old(Get(files, Nats)) == Some(natsConf) ==>
                Get(files, Nats) == Some(natsConf)
      ensures ok ==> Get(files, Compose) == Expected(gen, repo, cfg, pins, preserve, old(Get(files, Compose)))
      ensures calm ==> (ok <==> Expected(gen, repo, cfg, pins, preserve, old(Get(files, Compose))).Some?)
    {
      if !preserve {
        var generated := gen(cfg, Some(pins));
        if generated.None? {
          return false;
        }
        ok := WriteComposeAndNATS(generated.value, cfg.bus, calm);
        return;
      }
      var readable: bool := *;
      var existing := ReadCompose(readable || calm);
      if existing.None? {
        return false;
      }
      var patched := PatchFile(MatcherFor(repo), ReplacerFor(repo, cfg.imageTag, pins), cfg.sandbox, existing.value);
      if !patched.Patched? {
        return false;
      }
      PatchKeepsReference(repo, cfg.imageTag, pins, cfg.sandbox, existing.value);
      ok := AtomicWriteRooted(Compose, patched.text, calm);
    }

    // -------------------------------------------------------------- update.go

    /** The rollback closure: write the backup back, or remove a compose file that was not there. */
    method Rollback(backup: Option<string>, works: bool)
      requires PairOk(Shot(), natsConf)
      requires backup.Some? && ReferencesNats(backup.value) ==> Get(files, Nats) == Some(natsConf)
      modifies this`files, this`trace
      ensures old(trace) <= trace && Safe(|old(trace)|)
      ensures works ==> Shot() == old(Shot()).(compose := backup)
    {
      if backup.Some? {
        WriteFile(Compose, backup.value, works);
        NothingReferences();
        assert backup.value[..0] == "";
        if Get(files, Compose).Some? && ReferencesNats(Get(files, Compose).value) {
          var k :| 0 <= k <= |backup.value| && Get(files, Compose).value == backup.value[..k];
          ReferenceOfPrefix(backup.value, k);
        }
      } else if Compose in files {
        Remove(Compose, works);
      }
    }

    /** pullAndPersist.  Either compose.yml carries the new references and the saved state the new tag
        and pins, or the saved state is as before and, when the rollback works, compose.yml is as before
        exactly when it was readable or absent: one that was there and could not be read is gone.  The
        pair is good at every crash point. */
    method PullAndPersist(gen: Generator, repo: string, cfg: Config, tag: string, skipVerify: bool, preserve: bool,
                          readable: bool, verifies: bool, pulls: bool, rollbackWorks: bool, calm: bool)
      returns (ok: bool, pins: map<string, string>)
      requires TemplateOk(gen) && Plain(repo, tag, map[])
      requires PairOk(Shot(), natsConf) && (preserve || Aligned(Shot(), cfg.bus))
      modifies this
      ensures old(trace) <= trace && Safe(|old(trace)|)
      ensures ok ==> config == Some(cfg.(imageTag := tag, pins := pins))
      ensures ok ==>
                Get(files, Compose) == Expected(gen, repo, cfg.(imageTag := tag), pins, preserve,
                                                old(Get(files, Compose)))
      ensures !ok ==> config == old(config)
      ensures !ok && rollbackWorks ==> Get(files, Compose) == if readable then old(Get(files, Compose)) else None
      ensures !ok && rollbackWorks ==>
                (Get(files, Compose) == old(Get(files, Compose)) <==> readable || old(Get(files, Compose)).None?)
      ensures (!skipVerify && !verifies) || !pulls ==> !ok
      ensures calm && (skipVerify || verifies) && pulls
              && Expected(gen, repo, cfg.(imageTag := tag), pins, preserve, old(Get(files, Compose))).Some? ==>
                ok
    {
      var backup := ReadCompose(readable);
      ok, pins := VerifyImages(skipVerify, verifies, repo, tag);
      if ok {
        ok := WriteOrPatchCompose(gen, repo, cfg.(imageTag := tag), pins, preserve, calm);
      }
      ok := ok && pulls;
      if ok {
        ok := Save(cfg.(imageTag := tag, pins := pins), calm);
      }
      if !ok {
        Rollback(backup, rollbackWorks);
      }
    }

    /** verify.VerifyImages and digestPinMap: digests for the images, or a failure. */
    method VerifyImages(skip: bool, verifies: bool, repo: string, tag: string)
      returns (ok: bool, pins: map<string, string>)
      requires Plain(repo, tag, map[])
      ensures Plain(repo, tag, pins)
      ensures ok <==> skip || verifies
      ensures skip ==> pins == map[]
    {
      ok, pins := skip || verifies, map[];
      if !skip {
        var digests: map<string, string> := *;
        if forall n :: n in digests ==> IsToken(digests[n]) {
          pins := digests;
        }
      }
    }

    /** updateComposeAndImages.  A successful update that goes on to the images, in recovery or to another tag than
        the loaded one, has verified and pulled them, saved that tag and left the file that goes with it, patched
        exactly when the refresh was declined; at the same tag without recovery, or when the user stops it,
        nothing is saved and compose.yml is as before or regenerated from the loaded state.  When no file
        operation fails it fails only for a template that does not render, images that do not verify or
        pull, or a file that cannot be patched. */
    method UpdateComposeAndImages(gen: Generator, repo: string, tag: string, skipVerify: bool, ch: Answers, calm: bool)
      returns (ok: bool, cfg: Config)
      requires TemplateOk(gen) && Plain(repo, tag, map[]) && PairOk(Shot(), natsConf)
      modifies this
      ensures old(trace) <= trace && Safe(|old(trace)|)
      ensures old(config).Some? ==> cfg == old(config).value
      ensures ok ==> Renders(gen, cfg, old(Get(files, Compose)), ch)
      ensures ok && Reached(gen, cfg, tag, old(Get(files, Compose)), ch) ==>
                && (skipVerify || ch.verifies) && ch.pulls
                && config.Some? && config == Some(cfg.(imageTag := tag, pins := config.value.pins))
                && Get(files, Compose) ==
                   Expected(gen, repo, cfg.(imageTag := tag), config.value.pins,
                            !Applies(gen, cfg, old(Get(files, Compose)), ch.approved), old(Get(files, Compose)))
      ensures calm && Renders(gen, cfg, old(Get(files, Compose)), ch)
              && !Reached(gen, cfg, tag, old(Get(files, Compose)), ch) ==>
                ok
      ensures calm && Renders(gen, cfg, old(Get(files, Compose)), ch) && (skipVerify || ch.verifies) && ch.pulls
              && Writable(gen, repo, cfg.(imageTag := tag), !Applies(gen, cfg, old(Get(files, Compose)), ch.approved),
                          old(Get(files, Compose))) ==>
                ok
      ensures !ch.proceed || !ch.confirmed || (cfg.imageTag == tag && !ch.recovered) ==>
                config == old(config)
                && (Get(files, Compose) == old(Get(files, Compose)) || Get(files, Compose) == gen(cfg, None))
      ensures config == old(config)
              || (config.Some? && config == Some(cfg.(imageTag := tag, pins := config.value.pins)))
    {
      cfg := Load();
      if !ch.proceed {
        return true, cfg;
      }
      var applied, failed := RefreshCompose(gen, cfg, ch.recovered, ch.approved, calm);
      ok := !failed;
      if failed || (!applied && !ch.accepted) {
        return;
      }
      if !ch.confirmed || (cfg.imageTag == tag && !ch.recovered) {
        return;
      }
      var pins;
      ghost var now := Get(files, Compose);
      ok, pins := PullAndPersist(gen, repo, cfg, tag, skipVerify, !applied, ch.readable, ch.verifies, ch.pulls,
                                 ch.rollbackWorks, calm);
      ExpectedOf(gen, repo, cfg.(imageTag := tag), pins, !applied, old(Get(files, Compose)), now);
    }
  }

  /** What the user and the outside answer in an update: whether the health check lets it go on and asks for
      recovery, whether changes are approved, or else images are still wanted, and confirmed; and how backup,
      verification, pull and rollback go. */
  datatype Answers = Answers(proceed: bool, recovered: bool, approved: bool, accepted: bool, confirmed: bool,
                             readable: bool, verifies: bool, pulls: bool, rollbackWorks: bool)

  /** The refresh is applied: there is no file, the user approves, or only boilerplate changes. */
  predicate Applies(gen: Generator, cfg: Config, was: Option<string>, approved: bool) {
    was.None? || approved || (gen(cfg, None).Some? && Shapes(was.value) == Shapes(gen(cfg, None).value))
  }

  /** Whatever the pins, there is a file to write. */
  ghost predicate Writable(gen: Generator, repo: string, cfg: Config, preserve: bool, was: Option<string>) {
    forall p: map<string, string> :: Expected(gen, repo, cfg, p, preserve, was).Some?
  }

  /** A regenerated file does not depend on the one before it. */
  lemma ExpectedOf(gen: Generator, repo: string, cfg: Config, p: map<string, string>, preserve: bool,
                   was: Option<string>, now: Option<string>)
    requires preserve ==> now == was
    ensures Expected(gen, repo, cfg, p, preserve, now) == Expected(gen, repo, cfg, p, preserve, was)
    ensures Writable(gen, repo, cfg, preserve, was) ==> Expected(gen, repo, cfg, p, preserve, now).Some?
  {
  }

  /** The template renders, where the refresh needs it. */
  predicate Renders(gen: Generator, cfg: Config, was: Option<string>, ch: Answers) {
    ch.proceed && (ch.recovered || was.Some?) ==> gen(cfg, None).Some?
  }

  /** The update goes on to the images. */
  predicate Reached(gen: Generator, cfg: Config, tag: string, was: Option<string>, ch: Answers) {
    && ch.proceed && (Applies(gen, cfg, was, ch.approved) || ch.accepted) && ch.confirmed
    && (ch.recovered || cfg.imageTag != tag)
  }

  /** Some staging name is not taken. */
  lemma {:induction false} SomeNameIsFree(taken: set<Name>, dst: Name)
    ensures exists n: nat :: Temp(dst, n) !in taken
  {
    FreeFrom(taken, dst, 0);
  }

  lemma {:induction false} FreeFrom(taken: set<Name>, dst: Name, from: nat)
    ensures exists n: nat :: from <= n && Temp(dst, n) !in taken
    decreases |taken|
  {
    if Temp(dst, from) in taken {
      var rest := taken - {Temp(dst, from)};
      FreeFrom(rest, dst, from + 1);
      var n: nat :| from + 1 <= n && Temp(dst, n) !in rest;
      assert Temp(dst, n) !in taken;
    }
  }

  /** The compose file a completed image update leaves. */
  function Expected(gen: Generator, repo: string, cfg: Config, pins: map<string, string>, preserve: bool,
                    was: Option<string>): Option<string> {
    if !preserve then gen(cfg, Some(pins))
    else if was.None? then None
    else
      match Patch(repo, cfg.imageTag, pins, cfg.sandbox, was.value)
      case Patched(text) => Some(text)
      case _ => None
  }

  /** A run on which an existing compose.yml is lost: it cannot be read for the backup, the images do not
      verify, and the rollback works.  Nothing is saved, and the file is gone. */
  method UnreadableComposeIsLost(gen: Generator, repo: string, cfg: Config, tag: string) returns (disk: Disk)
    requires TemplateOk(gen) && Plain(repo, tag, map[])
    ensures fresh(disk) && Get(disk.files, Compose) == None && disk.config == Some(cfg)
  {
    var text := "services:";
    disk := new Disk(map[Compose := text], Some(cfg), "");
    NoMount(text);
    var ok, _ := disk.PullAndPersist(gen, repo, cfg, tag, false, true, false, false, true, true, true);
  }

  lemma NoMount(text: string)
    requires NoNewline(text) && text != "" && text[0] != '-' && !IsBlank(text[0])
    ensures !ReferencesNats(text)
  {
    LinesSingle(text);
    SpanIs(IsBlank, text, 0);
    assert text[0..] == text;
  }

  lemma NothingReferences()
    ensures !ReferencesNats("")
  {
    assert Lines("") == [""];
  }

  // ---------------------------------------------------------------- whole sessions

  /** The commands that write the pair; each may bring a state with another bus. */
  datatype Command =
    | Regenerate(cfg: Config)                              // config set and unset
    | Initialise(cfg: Config)                              // init and re-init
    | Start(pins: map<string, string>)                     // with the digests just verified
    | Update(tag: string, skipVerify: bool, answers: Answers)

  /** Over every sequence of commands, with any failures and any changes of bus between them, the
      pair is good at every crash point. */
  method Session(disk: Disk, gen: Generator, repo: string, commands: seq<Command>)
    requires TemplateOk(gen) && PairOk(disk.Shot(), disk.natsConf)
    requires forall i :: 0 <= i < |commands| && commands[i].Update? ==> Plain(repo, commands[i].tag, map[])
    modifies disk
    ensures old(disk.trace) <= disk.trace && disk.Safe(|old(disk.trace)|)
  {
    for i := 0 to |commands|
      invariant old(disk.trace) <= disk.trace && disk.Safe(|old(disk.trace)|)
    {
      match commands[i]
      case Regenerate(cfg) =>
        if Compose in disk.files {
          var _ := disk.WriteAndSave(gen(cfg, None), cfg, cfg, false);
        } else {
          var _ := disk.Save(cfg, false);
        }
      case Initialise(cfg) =>
        var _ := disk.WriteAndSave(gen(cfg, None), cfg, cfg, false);
      case Start(pins) =>
        if Compose in disk.files {
          var cfg := disk.Load();
          var _ := disk.WriteAndSave(gen(cfg, Some(pins)), cfg, cfg.(pins := pins), false);
        }
      case Update(tag, skipVerify, answers) =>
        var _, _ := disk.UpdateComposeAndImages(gen, repo, tag, skipVerify, answers, false);
    }
  }
}
