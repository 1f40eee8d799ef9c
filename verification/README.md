# SynthOrg CLI: a verified model

SynthOrg's command line installs and updates a Docker deployment. It keeps a data directory with
`compose.yml`, its side file `nats.conf` and `config.json`, and it rewrites them while system calls fail,
processes die and users change their minds. This project models the parts of that CLI (and of one gate script)
where something can go wrong across several calls, and proves what every run keeps. `dafny verify dfyconfig.toml`
checks all of it.

| file | models |
|---|---|
| `Text.dfy` | lines, prefixes, substrings and trimming as Go's `strings` package has them |
| `AtomicWriter.dfy` | any number of interleaved temp-and-rename writers, with failures, crashes and power losses |
| `ComposeDisk.dfy` | the compose pair and the saved state on disk, with a trace of every crash point; the update flow and its rollback |
| `ImageLines.dfy`, `Boilerplate.dfy`, `LineDiff.dfy` | the image-reference patcher, the auto-apply check, the bag diff |
| `PatchRefines.dfy` | patching on text refines patching on references |
| `YamlStr.dfy` | the YAML/Compose escaper against its two readers |
| `Completion.dfy` | the shell-profile marker block, install and uninstall |
| `TreeRemoval.dfy` | "remove everything except one file" |
| `Config.dfy`, `ConfigGet.dfy`, `ComposeParams.dfy` | the state, its validation, `config set`/`unset`/`get`; identity resolution and compose parameters |
| `PinTrust.dfy`, `InitFlow.dfy`, `Install.dfy` | what a digest pin was verified for; re-init; one data directory under any run of commands |
| `Wizard.dfy` | the setup wizard's key handling |
| `PullRetry.dfy` | backoff and retry of image pulls, in 64-bit integers |
| `WorkflowGate.dfy`, `WorkflowBaseline.dfy` | the workflow scan and its shrink-only baseline |

Foreign calls (Docker, cosign, the registry, the random generator, prompts, the environment) are parameters or
nondeterministic choices; a property therefore holds whatever they answer. What users, verifiers and Docker answer
is a parameter wherever the result depends on it. File operations fail at will unless the parameter `calm` excludes
it, so a contract says what a command may do under every failure and, with `calm`, exactly when it succeeds. Where the code mutates an object or a
file, the model is a class or a method with a loop; where it computes a value, a function. Every concurrent or
multi-step protocol is stated over whole runs.

## What turned out to be different

Some promises hold only under a condition. For each the model states the exact condition and a concrete failing input.

- Quoting does not round-trip control characters other than tab, line feed and carriage return: YAML refuses them
  inside a quoted scalar, and NUL is dropped (`YamlStr.RoundTrip`, `YamlStr.RoundTripFails`).
- Patching twice differs from patching once exactly when a reference without tag or digest has a `#` glued to it
  (`ImageLines.PatchTwice`, `ImageLines.StickyFileChangesTwice`).
- With the sandbox on, patching fails for every file without a sandbox image line, and the template writes none
  (`ImageLines.SandboxNeedsItsLine`, `PatchRefines.SandboxBlocksPatch`; a file in `ImageLines.StickyFileChangesTwice`).
- `extractImageRepo` takes a purely numeric tag for the port of a repository that has none (`Boilerplate.TagIsSeen`,
  `Boilerplate.NumericTagFolds`).
- A shell profile comes back byte for byte exactly when none of its lines is the marker up to blanks; the zsh fpath
  line does not matter (`Completion.RoundTrip`, `Completion.RoundTripFails`).
- Removing all but one file reports an error for an ancestor whose next component starts with two dots, because the
  test is on the text of the relative path (`TreeRemoval.ReportedWithoutFaults`, `TreeRemoval.TwoDotsAreReported`).
- Standalone pulls use a cached digest under a custom registry, unlike compose generation
  (`PinTrust.StandalonePull`, `PinTrust.StandalonePullEscapes`).
- The rollback of an update is a plain write, so one that fails can leave a digest cut short, which nobody verified
  (`PinTrust.CutStaysTrusted`, `PinTrust.CutDigestIsNotVerified`); it is the only way to one (`Install.EveryRun`).
- If `compose.yml` exists but cannot be read for the backup, the rollback of an update deletes it: it leaves the file as
  before exactly when the file was readable or absent (`ComposeDisk.Disk.PullAndPersist`,
  `ComposeDisk.UnreadableComposeIsLost`).
- A port edit or reset checks backend against web and nothing else; the other collisions are caught by regenerating
  `compose.yml`, so they get through when that file is missing (`Install.PortEditAlone`, `Install.PortEditCollides`,
  `Install.PortResetAlone`, `Install.PortResetCollides`).
- `init` writes a state without validating it; fine-tuning on an unsupported machine, or an improper old master key with
  encryption on, gives a state that no later command can load (`Install.InitSavedLoads`, `InitFlow.TunedDoesNotLoad`).
- The patcher recognises no line that ends in a carriage return, as the lines of a CRLF file do, although the
  auto-apply check reads such files (`ImageLines.NoCarriageReturn`).
- `config set` takes a port from 1 to 65535, as its help says, except the other one of backend and web
  (`ConfigGet.SetTakesNumbers`).
- A profile that has the marker without the line after it is never repaired for bash and PowerShell
  (`Completion.InstalledWorks`).
- A retry returns nil exactly when its last pull worked if any attempt is allowed; with zero attempts, say, it returns
  nil without having pulled (`PullRetry.DockerPullWithRetry`).

## Model

| member | source | states |
|---|---|---|
| `AtomicWriter.TargetIsAlwaysWhole` | cli/internal/compose/writer.go:91-135 | Under every interleaving of any number of writers, with any call failing, processes dying and power losses, the target reads as its initial content or as the complete data of the last writer whose rename the directory shows |
| `AtomicWriter.ReturnMatchesCommit` | cli/internal/compose/writer.go:91-135 | A writer returns nil exactly when its rename happened, and no rename happens twice |
| `AtomicWriter.TempIsNeverTouchedByPeers` | cli/internal/compose/writer.go:91-123 | From its open to its rename or removal, a writer's temp name leads to its own file; a peer that drew the same name and lost the O_EXCL race deletes nothing |
| `AtomicWriter.ReturnLeavesNoTemp` | cli/internal/compose/writer.go:99-135 | In every run without power loss: a writer that returned, whatever it returned, and for which no removal failed among the events, left no name but the target for the file it created |
| `AtomicWriter.EveryErrorIsCleanedUp` | cli/internal/compose/writer.go:104-123 | From every reachable state, whichever call of a writer fails next, the removal is what it does next; when that works no name leads to its file and the target reads as before |
| `AtomicWriter.UndisturbedWriteCommits` | cli/internal/compose/writer.go:91-135 | From every reachable state, a writer that draws a free name and whose calls work returns nil, its target reads as its data and no power loss can bring an older directory back |
| `AtomicWriter.SyncedCommitsSurvive` | cli/internal/compose/writer.go:121-135 | After the directory sync no later power loss undoes a rename made before it |
| `AtomicWriter.StepInv` | cli/internal/compose/writer.go:91-135 | Every enabled step of every writer keeps the invariant behind the results above, for the present directory and every one a power loss can bring back |
| `AtomicWriter.DeploymentIsWellFormed` | cli/internal/compose/writer.go:143-149 | Temp names drawn for compose.yml and nats.conf never equal a target |
| `ComposeDisk.Disk.AtomicWriteRooted` | cli/internal/compose/writer.go:91-135 | All or nothing, with one visible step; when no call fails, all |
| `ComposeDisk.Disk.WriteNATSConfig` | cli/internal/compose/writer.go:63-83 | Writes the whole side file for the nats bus, removes it otherwise, or changes nothing, and that only when a call fails |
| `ComposeDisk.Disk.WriteComposeAndNATS` | cli/internal/compose/writer.go:32-57 | At every crash point a compose file that mounts nats.conf has a complete one beside it, whatever the buses of the old and new file |
| `ComposeDisk.Disk.WriteAndSave` | cli/cmd/init.go:798-825 | The pair, then the state: success leaves the generated file, the side file exactly for the nats bus and the new state; failure leaves the old state; without failing calls it succeeds if and only if the template renders |
| `ComposeDisk.Disk.RefreshCompose` | cli/cmd/update_compose.go:25-94 | Keeps the pair good at every crash point; an existing file is replaced if and only if the user approves or its lines have the shapes of the generated one; applied leaves the generated file and the side file of its bus, declined changes nothing; without failing calls it fails if and only if the template does not render |
| `ComposeDisk.Disk.WriteOrPatchCompose` | cli/cmd/update_compose.go:286-365 | Success leaves exactly the generated or the patched file, and without failing calls it succeeds if and only if there is one; the pair stays good |
| `ComposeDisk.Disk.Rollback` | cli/cmd/update.go:552-566 | A working rollback restores compose.yml or its absence; even one cut short cannot break the pair |
| `ComposeDisk.Disk.PullAndPersist` | cli/cmd/update.go:543-596 | All or nothing: new references with the new tag and pins saved, or the saved state as before and, with a working rollback, compose.yml as before if and only if it was readable or absent; the pair is good at every crash point |
| `ComposeDisk.UnreadableComposeIsLost` | cli/cmd/update.go:547-566 | A run on which an existing compose.yml that cannot be read for the backup is deleted |
| `ComposeDisk.Disk.UpdateComposeAndImages` | cli/cmd/update.go:121-204 | The whole update flow, rollback included, keeps the pair good at every crash point. A successful update that is let through, in recovery or to another tag than the loaded one, has verified (unless skipped) and pulled, saved that tag, and left the generated file, or the patched one exactly when the refresh was declined; one that is stopped, or at the same tag without recovery, saves nothing; without failing calls it fails only for what cannot be rendered, patched, verified or pulled |
| `ComposeDisk.Session` | cli/internal/compose/writer.go:32-83 | The pair is good at every crash point of every sequence of init, config, start and update commands with arbitrary changes of bus |
| `ImageLines.SuffixIsLongest` | cli/cmd/update_compose.go:308-314 | The recogniser splits a line where greedy matching does: no longer suffix fits |
| `ImageLines.ParseParts` | cli/cmd/update_compose.go:308-314 | A recognised line is head, repository, service, suffix and trailer put together |
| `ImageLines.NoCarriageReturn` | cli/cmd/update_compose.go:308-314 | A recognised line never ends in a carriage return |
| `Boilerplate.ReferenceIsMatched` | cli/cmd/update_compose.go:308-314 | Every written reference to backend, web or sandbox, with any suffix and ending, is recognised as exactly its parts |
| `Boilerplate.LongerNameIsNotMatched` | cli/cmd/update_compose.go:300-314 | An image whose name goes on after the service name is not recognised |
| `ImageLines.PatchLineTwice` | cli/cmd/update_compose.go:330-345 | A second pass over a line changes nothing exactly when the line is not sticky |
| `ImageLines.StickyShrinks` | cli/cmd/update_compose.go:330-345 | On a sticky line the second pass swallows part of the trailer |
| `ImageLines.ReplaceAll` | cli/cmd/update_compose.go:330-345 | The pass replaces every matching line and collects exactly the services it found |
| `ImageLines.PatchFile` | cli/cmd/update_compose.go:323-365 | The pass and the check of the required services, errors included |
| `ImageLines.PatchSucceeds` | cli/cmd/update_compose.go:347-361 | Patching succeeds if and only if every required service has a reference line |
| `ImageLines.PatchChangesOnlyReferences` | cli/cmd/update_compose.go:323-365 | Other lines are unchanged; reference lines keep head and trailer and carry the pin or the tag |
| `ImageLines.PatchTwice` | cli/cmd/update_compose.go:323-365 | Patching a file twice equals patching it once if and only if it had no sticky line |
| `ImageLines.StickyExample` | cli/cmd/update_compose.go:308-314 | For every repository prefix there is a sticky line |
| `ImageLines.StickyFileChangesTwice` | cli/cmd/update_compose.go:323-365 | A file that patches and, patched again, changes; with the sandbox on it does not patch |
| `ImageLines.SandboxNeedsItsLine` | cli/cmd/update_compose.go:347-361 | With the sandbox on, no file without a sandbox reference line can be patched |
| `ImageLines.PatchKeepsReference` | cli/cmd/update_compose.go:323-365 | Patching neither adds nor drops the mount of nats.conf |
| `PatchRefines.PatchOnTextIsPatchOnRefs` | cli/cmd/update_compose.go:308-365 | Patching the text of a file succeeds if and only if its references can be patched, and the patched text shows exactly the patched references |
| `PatchRefines.SandboxBlocksPatch` | cli/cmd/update_compose.go:347-361 | With the sandbox on, no file whose image lines are backend and web can be patched |
| `ImageLines.ReferenceOfPrefix` | cli/cmd/update.go:552-566 | A truncated file mounts nats.conf only if the whole file does |
| `Boilerplate.ExtractParts` | cli/cmd/update_compose.go:145-168 | The extracted repository and flags are those of a head, repository, suffix, trailer reading of the line |
| `Boilerplate.TagIsSeen` | cli/cmd/update_compose.go:149-168 | For every host, optional port, path, optional tag, optional digest and end of line: the digest is seen iff written, the tag iff written and not purely numeric or after a port; otherwise a numeric tag reads as the port of the repository |
| `Boilerplate.NumericTagFolds` | cli/cmd/update_compose.go:149-168 | The tag 12 is lost on the repository w |
| `Boilerplate.NumericTagAfterPort` | cli/cmd/update_compose.go:149-168 | The tag 12 is seen on the repository h:50/w |
| `Boilerplate.IsUpdateBoilerplateOnly` | cli/cmd/update_compose.go:106-143 | Accepts exactly the pairs of files with the same shape line by line, so it is an equivalence relation |
| `Boilerplate.OneLineDiffers` | cli/cmd/update_compose.go:106-143 | Two files that differ in one line are accepted if and only if the change of that line is |
| `Boilerplate.HeaderChange` | cli/cmd/update_compose.go:117-143 | A change of the version comment is accepted on the first line and nowhere else |
| `Boilerplate.ReferenceChange` | cli/cmd/update_compose.go:117-168 | A change from any written reference to any other is accepted if and only if repository and presence of tag and digest, as read, are the same; tags, digests, indentation and comments are free |
| `Boilerplate.OtherChange` | cli/cmd/update_compose.go:117-143 | Any other line may not change at all |
| `Boilerplate.ShapesDecideImages` | cli/cmd/update_compose.go:106-168 | An accepted pair has line by line the same (repository, has tag, has digest) |
| `Boilerplate.AutoAppliedChain` | cli/cmd/update_compose.go:25-73 | No chain of auto-applied updates changes that projection |
| `LineDiff.SiftedBag` | cli/cmd/update_compose.go:249-266 | One pass puts out exactly the bag of lines the file has more of than the other |
| `LineDiff.SiftedInOrder` | cli/cmd/update_compose.go:249-266 | What a pass puts out is a subsequence of its file |
| `LineDiff.LineDiff` | cli/cmd/update_compose.go:236-270 | Removed is old minus new, added is new minus old, old minus removed plus added is new, and the diff is empty exactly for permutations |
| `YamlStr.PassesAreOneEscape` | cli/internal/compose/generate.go:511-526 | The seven replacement passes equal one escape per character |
| `YamlStr.YamlStrIsEscape` | cli/internal/compose/generate.go:511-526 | Both branches give that escape between quotes |
| `YamlStr.ReadBackOfYamlStr` | cli/internal/compose/generate.go:511-526 | For every string, YAML decoding and then Compose interpolation of the quoted value give the string without NULs, or YAML refuses it because of a control character |
| `YamlStr.RoundTrip` | cli/internal/compose/generate.go:511-526 | The round trip holds if and only if every control character is a tab, line feed or carriage return |
| `YamlStr.RoundTripFails` | cli/internal/compose/generate.go:511-526 | A value on which it fails |
| `Completion.Profile.Install` | cli/internal/completion/install.go:100-211 | Appends the shell's snippet unless its probe text is present; a failure adds at most part of it; without failing calls it does not fail; what "already installed" means per shell |
| `Completion.Profile.RemoveMarkerBlock` | cli/internal/completion/install.go:345-392 | Rewrites the profile without the marker block, or leaves it; a failed rewrite leaves part of the new content; without failing calls it does not fail |
| `Completion.RemoveBlock` | cli/internal/completion/install.go:358-388 | The loop deletes one contiguous run of lines from the first marker and keeps all others in order |
| `Completion.BlockLength` | cli/internal/completion/install.go:334-388 | The run is empty without a marker line and has at most seven lines |
| `Completion.InstallAppends` | cli/internal/completion/install.go:100-211 | After an install the probe text is there, and exactly the snippet's lines were added at the end if it was not |
| `Completion.InstallTwice` | cli/internal/completion/install.go:100-211 | A second install is a no-op |
| `Completion.InstalledWorks` | cli/internal/completion/install.go:100-211 | After an install the profile has the line that makes completion work, unless bash or PowerShell found the marker without it: exactly then not |
| `Completion.RoundTrip` | cli/internal/completion/install.go:334-392 | Uninstall after install restores the text byte for byte if and only if no line trims to the marker, for all three shells |
| `Completion.RoundTripFails` | cli/internal/completion/install.go:334-392 | A profile that does not come back, in every shell |
| `TreeRemoval.InsideMeansAncestor` | cli/cmd/uninstall.go:433-452 | The textual test means "is an ancestor whose next component does not start with two dots" |
| `TreeRemoval.WalkOrder` | cli/cmd/uninstall.go:457-478 | A walk lists every path once and after its parent |
| `TreeRemoval.Collect` | cli/cmd/uninstall.go:457-478 | Collects everything but the root and the excepted path, in walk order |
| `TreeRemoval.RemoveEntries` | cli/cmd/uninstall.go:480-504 | The reverse loop leaves exactly the paths that are faulty or have something left below them, and reports the unexcused ones |
| `TreeRemoval.RemoveAllExcept` | cli/cmd/uninstall.go:457-504 | For every tree and every set of failing removals: what is left and what is reported, exactly |
| `TreeRemoval.OnlyTheWayDownIsLeft` | cli/cmd/uninstall.go:457-504 | Without faults exactly the root, the excepted file and its ancestors are left |
| `TreeRemoval.ReportedWithoutFaults` | cli/cmd/uninstall.go:480-504 | Without faults an error is reported if and only if an ancestor's next component starts with two dots |
| `TreeRemoval.TwoDotsAreReported` | cli/cmd/uninstall.go:480-504 | A tree on which nothing fails and an error is reported |
| `TreeRemoval.SilentRunIsComplete` | cli/cmd/uninstall.go:480-504 | With faults, a run that reports nothing left nothing else |
| `Config.LoadedValidates` | cli/internal/config/state.go:233-271 | Whatever loading returns validates, the defaults for a missing file included |
| `Config.OmittedPortsAreDefaults` | cli/internal/config/state.go:188-271 | A state comes back from a file that leaves out the NATS and Postgres ports if and only if they were 3003 and 3002 |
| `Config.ResetValidates` | cli/cmd/config.go:655-711 | Resetting any key of a valid state leaves it valid |
| `Config.ResetTuningValid` | cli/cmd/config_tunables.go:75-121 | The same for the tunables |
| `Config.ApplyIsConfined` | cli/cmd/config.go:434-583 | Setting a key changes tag or identity only under keys that drop the pins, ports and features other than the channel only under keys that regenerate compose.yml, and no key touches secrets or backends |
| `Config.ResetIsConfined` | cli/cmd/config.go:551-711 | The same for resetting |
| `ConfigGet.LastEditWins` | cli/cmd/config.go:787-846 | After every run of set and unset edits, `config get` reads a key as the last edit that touched it says: the shown value of a set, the default of an unset (unsetting fine-tuning touches its variant too) |
| `ConfigGet.UntouchedKeyStays` | cli/cmd/config.go:434-499 | A key that no edit touched reads as before |
| `ConfigGet.SetTakesDocumented` | cli/cmd/config.go:103-130 | A key for which the help of config set names values takes exactly these |
| `ConfigGet.SetTakesNumbers` | cli/cmd/config.go:510-524 | A port is taken if and only if it is 1 to 65535 and not the other one; a retry count from 1 to 100 |
| `ConfigGet.SetValidates` | cli/cmd/config.go:345-360 | Of the edits that the setters accept on a valid state, validation refuses exactly fine-tuning without sandbox or amd64, sandbox off under fine-tuning, and an image verification timeout below a second |
| `ConfigGet.FreshReads` | cli/internal/config/state.go:233-250 | Without a file every key reads as its default, except that the sandbox is off |
| `ComposeParams.EnvironmentOverState` | cli/internal/config/tunables.go:104-210 | Each of the five identity fields is the trimmed environment value if that is not blank, else the trimmed saved value if that is not blank, else the default |
| `ComposeParams.TunablesResolve` | cli/internal/config/tunables.go:104-210 | The same for the NATS URL and the stream prefix; the registry counts as custom if and only if the identity is not the default |
| `ComposeParams.LayersAgree` | cli/internal/compose/generate.go:242-292 | The second layer of defaulting never changes the identity the first resolved |
| `ComposeParams.DigestsNeedDefaultIdentity` | cli/internal/compose/generate.go:96-179 | Cached and compiled-in digests reach the template if and only if all five effective identity fields are the defaults |
| `ComposeParams.GenerateChecksPorts` | cli/internal/compose/generate.go:341-387 | A generated file means the effective ports of the active services are pairwise different |
| `ComposeParams.GeneratesExactly` | cli/internal/compose/generate.go:200-440 | For every valid state and environment, generation succeeds if and only if the tunables resolve, there is a tag, the effective ports are pairwise different, the sandbox has a safe socket path, the secrets come in one of three shapes and the compiled-in digests are digests |
| `ComposeParams.GeneratedRefs` | cli/internal/compose/generate.go:96-240 | A generated file refers to exactly the services the state needs, backend and web in the effective repository and the others in the one the process started with, by the state's tag and the given pins |
| `ComposeParams.GeneratedThirdParty` | cli/internal/compose/generate.go:96-292 | It refers to Postgres and NATS if and only if the state uses them, in the effective registry and tag, with the compiled-in digest on the default identity and none otherwise |
| `ComposeParams.OtherKeysDoNotMatter` | cli/cmd/config.go:556-612 | An edit that does not regenerate compose.yml does not change what would be generated |
| `PinTrust.PinnedNeedsDefaultIdentity` | cli/internal/compose/generate.go:96-292 | No digest is rendered unless all five effective identity fields are the defaults |
| `PinTrust.PinnedOnDefaultIdentity` | cli/internal/compose/generate.go:456-507 | On the default identity every service is referred to in its own repository by exactly its cached pin, if it has one |
| `PinTrust.GeneratedTrusted` | cli/cmd/start.go:674-687 | A file generated with verified pins carries only digests verified for exactly their repository and tag, or compiled-in ones for the default image |
| `PinTrust.RegeneratedTrusted` | cli/cmd/config.go:585-612 | The same for a file regenerated from the state's own pins |
| `PinTrust.PatchTrusted` | cli/cmd/update_compose.go:323-365 | The same for patching the references of an existing file, one cut short included |
| `PinTrust.CutRefText` | cli/cmd/update.go:552-566 | Cutting a reference after k characters is cutting its text after k characters |
| `PinTrust.CutTrusted` | cli/cmd/update.go:552-566 | A write cut short at any character leaves a file in which every reference is trusted, except that the one it was cut in may hold a proper prefix of a trusted digest |
| `PinTrust.CutStaysTrusted` | cli/cmd/update.go:552-566 | A trusted reference that loses its end stays trusted if and only if it was by tag or nothing of the digest is left |
| `PinTrust.CutDigestIsNotVerified` | cli/cmd/update.go:552-566 | Every cut inside the digest of a verified reference leaves a digest nobody verified |
| `PinTrust.StandalonePull` | cli/cmd/start.go:291-308 | A standalone pull carries a digest to a repository it was not verified for if and only if the pin is usable and another repository is in effect |
| `PinTrust.StandalonePullEscapes` | cli/cmd/start.go:291-308 | A pull that does |
| `PinTrust.DigestPinMap` | cli/cmd/start.go:692-701 | Fails exactly if some digest is empty; otherwise one pin per result, each from a result |
| `PinTrust.AddDHIPins` | cli/cmd/start.go:189-206 | Caching third-party digests never changes a SynthOrg pin and stores the compiled-in digest of every image that has one |
| `InitFlow.ReinitKeeps` | cli/cmd/init.go:109-146 | Both re-init paths keep non-empty secrets, and the password while the backend stays postgres |
| `InitFlow.ReinitChangesOnlyStorage` | cli/cmd/init.go:255-360 | They change nothing else of the newly built state; a secret the old state did not have is the new one |
| `InitFlow.ReinitHonoursFlags` | cli/cmd/init.go:305-360 | An explicit backend or Postgres port wins, otherwise the old deployment decides; the re-init fails if and only if the resulting Postgres port is the backend or web port |
| `InitFlow.InteractiveChoiceWins` | cli/cmd/init.go:109-146 | The backend chosen in the wizard, and a Postgres port typed there, are never reverted to the old ones |
| `InitFlow.BuiltShape` | cli/cmd/init.go:728-794 | A built state has no pins, overrides or tuning; its backends, bus, channel, switches and ports are the ones answered, with the documented defaults for blank ones; the Postgres port is the typed one or 3002; it has the generated secrets, and the password exactly for Postgres |
| `InitFlow.BuildsExactly` | cli/cmd/init.go:680-794 | A state is built if and only if the directory is absolute, both ports are numbers in range and not the Postgres port, and a sandbox has a usable socket |
| `InitFlow.BuiltTag` | cli/cmd/init.go:829-843 | Without an explicit tag it is the running version, or latest for none or dev |
| `InitFlow.InitStateLoads` | cli/cmd/init.go:798-825 | A state that init writes loads again if and only if fine-tuning is on a supported machine and a master key in use is proper |
| `InitFlow.TunedDoesNotLoad` | cli/cmd/init.go:728-825 | A run of init that writes a state no command can load |
| `Install.InitSavedLoads` | cli/cmd/init.go:91-205 | What a successful init or re-init saved loads again if and only if fine-tuning is on a supported machine and a master key in use is proper |
| `Install.KeysNeverChange` | cli/cmd/init.go:255-303 | Over every history a non-empty settings key, master key or cursor secret is the same in every later state |
| `Install.PasswordNeverChanges` | cli/cmd/init.go:319-360 | The Postgres password is the same as long as the saved backend stays postgres |
| `Install.PortEditAlone` | cli/cmd/config.go:510-524 | A port edit alone is safe if and only if no other active service occupies the port |
| `Install.PortEditCollides` | cli/cmd/config.go:510-524 | An edit of a loadable state that is not, although the result validates |
| `Install.PortResetAlone` | cli/cmd/config.go:614-640 | A port reset alone is safe if and only if no other active service occupies the default |
| `Install.PortResetCollides` | cli/cmd/config.go:614-640 | A reset that is not |
| `Install.Installation.RunConfigSet` | cli/cmd/config.go:335-379 | What is saved is the edited state without invalidated pins, it validates, and a compose.yml that was what the old state generates is what the new one generates; without failing calls the edit is accepted if and only if the setter takes the value, the result validates and, where a file is regenerated, generates; run invariants kept |
| `Install.Installation.RunConfigUnset` | cli/cmd/config.go:614-652 | The same, although unset never validates: accepted if and only if the key is known, backend and web ports stay apart and a regenerated file generates |
| `Install.Installation.RunEdits` | cli/cmd/config.go:335-379 | After any run of config set and unset, with failures, every key reads as the last accepted edit that touched it says, and as before without one |
| `Install.Installation.Regenerate` | cli/cmd/config.go:585-612 | Regenerates only an existing file; success means the ports do not collide |
| `Install.Installation.RunInit` | cli/cmd/init.go:91-205 | Init and confirmed re-init save the built state with what must be preserved, after writing what it generates; without failing calls if and only if it can be built, generates and was consented to; exactly when it loads again; run invariants kept |
| `Install.Installation.WriteInitFiles` | cli/cmd/init.go:798-825 | compose.yml first, then the state; a failure leaves the saved state |
| `Install.Installation.Prepare` | cli/cmd/root.go:175-222 | Verification is skipped exactly when asked or when the effective identity is not the default |
| `Install.Installation.VerifyAndPin` | cli/cmd/start.go:502-551 | compose.yml carries exactly the pins just verified, and only those are cached |
| `Install.CacheIsComplete` | cli/cmd/start.go:554-565 | The cache counts as complete if and only if it has every service of the state, so an empty one never does |
| `Install.Installation.CacheDHIPins` | cli/cmd/start.go:182-208 | Third-party images are verified exactly when a digest is missing or stale, and then their compiled-in digests are cached |
| `Install.Installation.RunStart` | cli/cmd/start.go:162-220 | On the default identity and without a skip, success means that every service of the loaded state is verified for its tag in its repository, and without failing calls that the third-party digests are cached; under a custom identity, when skipping, or with a complete cache, nothing is verified, cached or rewritten; run invariants kept |
| `Install.Installation.VerifyAndPinForUpdate` | cli/cmd/update.go:601-650 | The pins are those verified for the new tag, none when skipped, and compose.yml is generated or patched with them |
| `Install.Installation.Rollback` | cli/cmd/update.go:552-566 | A working rollback restores compose.yml or its absence; one cut short leaves a cut of the old file |
| `Install.Installation.PullAndPersist` | cli/cmd/update.go:543-596 | Success saves the new tag with the pins that compose.yml carries; failure leaves the state and, with a working rollback, the file if and only if it was readable or absent |
| `Install.Installation.RunUpdate` | cli/cmd/update.go:121-204 | A successful update that nothing stops before the images has saved the loaded state with the tag of the version (without its leading v, or latest), with pins for exactly its services, all verified for that tag, or none under a skip or a custom identity, and compose.yml is generated for them, or patched exactly when its changes were declined; one that is stopped saves and verifies nothing, and without failing calls fails only if the file cannot be regenerated; run invariants kept |
| `Install.TargetTag` | cli/cmd/update.go:400-409 | The version without its leading v if that is a valid tag other than dev, and latest otherwise |
| `Install.Installation.UpdateImages` | cli/cmd/update.go:416-469 | At the target tag without recovery, without Docker or consent, nothing changes; otherwise success saves the target tag with its pins and leaves the file that goes with them |
| `Install.Installation.Session` | cli/cmd/config.go:335-379 | Every run of commands keeps the invariants; only losing compose.yml ends the port guarantee, and only a failed rollback leaves a cut reference |
| `Install.EveryRun` | cli/cmd/start.go:502-551 | From an empty directory, over every run under any environments and failures: secrets kept; cached pins verified for the saved tag on the default identity; every digest in compose.yml verified for its own repository and tag or compiled in, except that the reference a failed rollback was cut in may hold a proper prefix of such a digest, and there is none while every rollback works; effective ports pairwise different while compose.yml is not lost |
| `Wizard.FieldsAreShown` | cli/cmd/init_tui.go:145-170 | The focusable fields are exactly the ones on screen |
| `Wizard.SyncFocus` | cli/cmd/init_tui.go:199-217 | After the loop an input is focused exactly when it has the focus |
| `Wizard.UpdateInv` | cli/cmd/init_tui.go:253-393 | Every key keeps the invariant and never goes back a phase |
| `Wizard.RunInv` | cli/cmd/init_tui.go:223-393 | So does every key sequence |
| `Wizard.EveryRun` | cli/cmd/init_tui.go:253-393 | For every key sequence from the start: focus within the fields, fine-tuning implies sandbox, submitted only in the summary and never with cancelled, a text input focused if and only if it is the focus; starting at once is asked for exactly by submitting on yes, and telemetry is off before the summary |
| `Wizard.TelemetryIsTheAnswer` | cli/cmd/init_tui.go:353-376 | For every key sequence that reaches the summary, telemetry is on if and only if the key that left the telemetry page was y, Y, or enter on yes |
| `Wizard.KeyAndOptions` | cli/cmd/init_tui.go:276-376 | From every running state a toggle key flips exactly the field it is on, with the coupling of sandbox and fine-tuning; no other key but an answer changes a setting |
| `Wizard.KeysThatEnd` | cli/cmd/init_tui.go:253-393 | Which keys cancel, deny and submit, from every running state |
| `Wizard.PagesTurn` | cli/cmd/init_tui.go:253-376 | Which key turns which page, one at a time, and where the focus is then |
| `Wizard.AdvancedOpens` | cli/cmd/init_tui.go:276-351 | The advanced fields open and close by enter or space on their heading and by no other key |
| `Wizard.IdleKeys` | cli/cmd/init_tui.go:253-393 | Which keys do nothing |
| `Wizard.BackUndoesOn` | cli/cmd/init_tui.go:172-197 | Going back undoes going on if and only if the focus is not on the last field; the arrow keys agree with tab and shift-tab |
| `Wizard.ExistingIsConfirmed` | cli/cmd/init.go:535-562 | With an existing config, no key sequence submits without an enter on overwrite |
| `Wizard.SubmitIsInReach` | cli/cmd/init_tui.go:181-393 | From every running state at most seventeen keys submit, with all settings as they were |
| `Wizard.DefaultsSubmit` | cli/cmd/init_tui.go:98-141 | Tabbing to the end and accepting every proposal overwrites, starts at once and keeps the settings of the flags, telemetry off |
| `PullRetry.ComputePullBackoff` | cli/cmd/start.go:412-434 | The doubling loop computes min(base * 2^max(attempt-1, 0), 5 minutes) and never leaves 64 bits |
| `PullRetry.BackoffMonotone` | cli/cmd/start.go:412-434 | Delays never shrink and never exceed the cap |
| `PullRetry.DockerPullWithRetry` | cli/cmd/start.go:382-410 | The pulls are those up to the first that works or is stopped, and all allowed ones if there is none; nil exactly when the last one worked; the scheduled delays are those between the pulls, at most (attempts-1) times the cap |
| `WorkflowGate.ScanJob` | scripts/check_workflow_shell_git_commits.py:146-196 | The flag-driven loop flags exactly the pushes with a commit at or before them that was not pushed in between |
| `WorkflowGate.JobIsReported` | scripts/check_workflow_shell_git_commits.py:146-196 | A job is reported if and only if some commit precedes or accompanies some push |
| `WorkflowGate.ScanFile` | scripts/check_workflow_shell_git_commits.py:119-196 | The sites of a file are exactly the flagged steps of its jobs |
| `WorkflowBaseline.LoadOfSave` | scripts/check_workflow_shell_git_commits.py:204-270 | Save then load is the identity on site sets |
| `WorkflowBaseline.ScanAndCompare` | scripts/check_workflow_shell_git_commits.py:324-340 | Reports exactly the sites not in the baseline, or the parse failure |
| `WorkflowBaseline.Gate.ScanAll` | scripts/check_workflow_shell_git_commits.py:353-359 | Exit code 0 exactly for a clean tree |
| `WorkflowBaseline.Gate.RefreshBaseline` | scripts/check_workflow_shell_git_commits.py:290-321 | Without force, succeeds if and only if the full scan of the same tree is clean, and then records exactly its sites |
| `WorkflowBaseline.BaselineOnlyShrinks` | scripts/check_workflow_shell_git_commits.py:290-321 | Over any run of edits and unforced refreshes the baseline is a decreasing chain |
| `WorkflowBaseline.PassingSitesAreOriginal` | scripts/check_workflow_shell_git_commits.py:290-359 | Every site that ever passes the gate was in the initial baseline |

## Left out

- Docker, Compose, cosign and SLSA verification, HTTP, GitHub and health polling: foreign calls, modelled as success or failure with an arbitrary result.
- The order of the references in a compose file: a cut file keeps any of them whole besides the one it was cut in.
- The text of the compose template: `ComposeDisk` assumes only that a generated file mounts nats.conf only when the bus is nats; `Install` works on the image references of a file.
- Go's regular expressions in general: direct recognisers of one line each; `\s+` reaching over a line end is not modelled.
- Validators and parsers of single values (registry host, repository prefix, stream prefix, URL, Fernet key, digest format, duration, size): parameters of the model, so nothing is said about them; resolution of timeouts, counts and sizes is modelled as success or failure only.
- State setters and resets through pointers, and the in-place defaulting of compose parameters, are functions on values: aliasing is not captured. The wizard's reducers take and return the model by value in the source as well.
- State fields that no modelled operation reads (the data directory path) and a configuration whose data directory points elsewhere.
- What the third-party verifier answers on start: any list of results; the cached digests are pinned down for results that name every image of the state and none like an entry beside another's.
- How the wizard's result becomes the answers of init: `Wizard` ends with its settings, `InitFlow` starts from answers.
- Typed text in the wizard, its rendering, prompts, hints and Cobra wiring.
- Redaction and formatting of the diff, and the terminal output of every command.
- Case folding of paths on Windows and errors of the directory walk in tree removal.
- The fish completion file, the content of the zsh completion file and its removal, and the difference between an absent and an empty profile.
- Sorting of scan hits, the commit hash in the baseline file, and the string conversion of odd JSON entries.
- Editing config.json by hand, wiping the data directory, and concurrent CLI processes with different buses: outside the runs modelled. A failed save of config.json is taken to leave the old file.
- PullRetry.ComputePullBackoff: excludes the one attempt number whose predecessor leaves 64 bits (the smallest integer); the retry loop never passes it.
- Install.Installation.RunStart: stops before containers are started, since nothing after that changes the files.
- AtomicWriter and Install speak of crashes and failed calls, not of a disk that returns wrong data.
