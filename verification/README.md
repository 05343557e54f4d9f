# Verified model of the config version lifecycle

A Dafny model of the VPN control panel: an API, an at-least-once task broker and any number of workers
act on one database of configs, version rows and pinned share links; builders turn a template and the
previous version into the next one; a port allocator, an SNI multiplexer, share links, a connectivity
probe, a rate limiter and a readiness wait work around them. `dafny verify dfyconfig.toml` checks every
theorem.

The modules follow the program:

* `Store`, `Lifecycle`: the rows and the whole system as a step system. A request or a task run is several
  steps, every read may be stale, every published task may be delivered at any time, again and to several
  workers, and anything may stop between two steps. `LifecycleSafety`, `LifecycleTheorems`,
  `LifecycleLinks` and `LifecycleFailures` hold what is true of every run; `LifecycleRuns` builds runs, and
  `LifecycleWitness` shows two surprising ones.
* `Repository`, `ConfigTask`, `UseCases`: the same code as classes and methods over a database session.
  `TaskRuns` and `RequestRuns` show that it makes steps of the step system.
* `Json`, `FieldCrypto`, `Settings`, `PortPicker`, `ConfigBuilder`, `BuilderSteps`, `ConfigBuild`: documents
  as trees, encrypted leaves, and building one version from the one before it. `BuilderViews`,
  `VersionChain`, `Regenerate`, `RegenerateChain`, `RegenerateKept`, `RegenerateForever` and
  `GrpcCertificate` follow values through any number of regenerations; `ServedName` follows the certificate
  to the name clients expect, `Lineage` ties all this to runs of the system, `PortsDisjoint` follows the
  ports and `PortsOverlap` shows two overlapping builds. `SampleBuilds` holds small panels on which builds
  succeed, `BuildWitness` what goes wrong on them.
* `NginxMap`, `NginxMeaning`, `MuxRoutes`, `MuxSync`: live configs become routes, routes become text, and
  the text is read back as the function nginx computes.
* `UriCodec`, `UriReader`, `ShareUri`, `XrayLinks`, `Probe`, `RealityStored`, `ProbeAgrees`,
  `ProbeWitness`, `ProbeCache`: share links with an independent reader, and the probe that must describe the
  same endpoint.
* `ShareExpiry`, `ResolveShare`, `ShareRouter`, `LinkStability`, `RateLimit`, `RegenerateAll`,
  `ServiceReady`: the request paths around them.

Facts about the code worth knowing:

* The current version is not monotone: the idempotent branch of a task re-marks whatever version the task
  names, so a late redelivery makes an old version current (`LifecycleWitness.LateDeliveryRegresses`). It
  goes down in exactly these steps (`LifecycleTheorems.RegressesIffStale`).
* `processing` is never committed: it shares a transaction with the status that follows.
* Two workers that build one version at once leave the config failed although the version is stored
  (`LifecycleWitness.DuplicateDeliveryFails`). A failure lands on a stored version in exactly these cases:
  the version was there when the run looked, or was committed since by another worker or by a commit of its
  own that it took for failed (`LifecycleFailures.FailsOnStoredIff`).
* The comment in nginx_shared_443.py, line 225, says that the config just written is appended last so that
  it wins. With per-config live directories its copy is already on disk, and then appending it changes
  nothing (`MuxRoutes.InjectedOwnsIff`, `MuxSync.LiveCopyLoses`).
* Only the first inbound with certificates gets the written certificate paths, which need not be the tagged
  one (`ServedName.WrittenPathsReachIff`, `ServedName.SecondKeepsOldPaths`).
* A host or route named `default` prints a map with a key twice, which nginx refuses
  (`NginxMeaning.KeysDistinctIff`, `NginxMeaning.DefaultHostIsRefused`). So does an empty panel host list
  without routes (`NginxMeaning.EmptyMapIsRefused`), but only when the text is rendered on its own:
  `sync_reality_shared_443` returns before it renders when that list is empty (nginx_shared_443.py, lines
  264-267).
* A blank server name, which an edited document may hold (or an unchecked list entry, with an external key
  pair), makes the share link and the probe disagree on the SNI (`ProbeAgrees.GrpcAgrees`, `ProbeWitness.BlankNameDisagrees`).
* A certificate is looked up by the name as configured but issued for the stripped name. A gRPC host with
  surrounding white space gets a new certificate on every build, flag or no flag, and none of them covers
  the name (`GrpcCertificate.GrpcCertificateNeverKept`, `BuildWitness.PaddedHostLosesCertificate`). Without
  a pinned or configured gRPC host the certificate is issued for the advertised host while the document
  keeps the template's name (`ServedName.BuiltIsCovered`, `BuildWitness.NoHostNotCovered`).
* A client id is read back from the first inbound that has one, other fields from the last, tagged or not:
  a template with another such inbound takes over (`RegenerateChain.FieldKeptIff`,
  `BuildWitness.GuestTakesOver`).
* An empty entry in a list of gRPC hosts or service names counts as no name, so a version that drew it draws
  again (`RegenerateForever.SniKeptIff`, `RegenerateForever.ServiceKeptIff`,
  `RegenerateForever.EmptyNamesAreRedrawn`).
* Ports stay apart when builds follow one another with room to pick (`PortsDisjoint.PortsStayDisjoint`), but
  two overlapping builds read the used ports before either commits and can take one port
  (`PortsOverlap.OverlappingBuildsCollide`).
* The request limiter forgets a share request that ends in an unexpected error, such as a document that
  cannot be read: it is rolled back together with its count (`ShareRouter.CountIsKept`,
  `ShareRouter.UnreadableIsNeverLimited`).
* The probe cache has no lock and probes take seconds: overlapping status requests each run a real probe, and
  a slow one can overwrite a newer answer (`ProbeCache.OverlappingProbes`, `ProbeCache.SlowProbeOverwrites`).

What the environment decides is a parameter: random draws, bind checks, certificates
(`Settings.CertRules`), the encryptor (`FieldCrypto.Encryptor`, of which only decrypt-after-encrypt and
non-empty ciphertexts are used), the files on disk, clocks and probe answers.

## Model

| member | source | states |
|---|---|---|
| LifecycleSafety.NextKeeps | panel/worker/services/config_task.py:28-59 | every step of the system, in any interleaving of API requests, deliveries, crashes and late commits, keeps the invariant: contiguous version numbers, current version in range, published targets at most one past the count, one open insert per config |
| LifecycleTheorems.RunInvariant | panel/worker/services/config_task.py:28-59 | the invariant holds in every state of every run from the empty database |
| LifecycleTheorems.Safety | panel/infrastructure/persistence/repositories/vpn_config.py:182-239 | in every reachable state the versions of a config are exactly 1..n, its current version is null or in 1..n and non-null when it is active or has a version, no status is `processing`, and every published target is at most n+1 |
| LifecycleTheorems.Refinement | panel/worker/services/config_task.py:28-59 | each step of interleaved task runs either changes no committed row or has exactly one of three indivisible effects of its own published task: add version n+1 and make it current, re-mark an existing version, or record a failure; every other step leaves versions and current versions alone |
| LifecycleTheorems.Frame | panel/infrastructure/persistence/repositories/vpn_config.py:241-266 | one step keeps a version row, and the config columns a reader uses, unless it is the edit of that very version (which changes only document and port) or a policy change |
| LifecycleTheorems.SnapshotStable | panel/infrastructure/persistence/repositories/vpn_config.py:344-372 | what a reader of (config, version) gets is the same before and after any run without an edit of that version, soft deletes included |
| LifecycleTheorems.ProgressStep | panel/worker/services/config_task.py:31-51 | the current version moves only when a task of the config commits, and then to that task's target |
| LifecycleTheorems.RegressesIffStale | panel/worker/services/config_task.py:31-39 | in every reachable state of the step system, whose commits always write the current version, it goes down in a step exactly when that step commits a task older than the current version (an update that omits the column because it did not change since it was loaded is not modelled) |
| LifecycleTheorems.CurrentIsCount | panel/worker/services/config_task.py:31-51 | in runs where no task older than the current version commits, the current version equals the number of versions |
| LifecycleTheorems.CurrentMonotone | panel/infrastructure/persistence/repositories/vpn_config.py:182-189 | in such runs the current version never decreases |
| LifecycleTheorems.ReplaysKeepVersions | panel/worker/services/config_task.py:31-39 | however often the newest task is delivered again, versions and current version stay as they are |
| LifecycleLinks.VersionsFormAChain | panel/worker/services/config_build.py:42-66 | in every run that does not edit a config, each stored version was built from the stored version just before it under a policy that the config has had; if all of these satisfy a condition, so does the one it was built under |
| LifecycleLinks.TokenRun | panel/infrastructure/persistence/repositories/share_token.py:95-113 | along a run a token only ever gains accesses and, at most once, a revocation instant |
| LifecycleLinks.ListedLinksResolve | panel/infrastructure/persistence/repositories/share_token.py:115-123 | in every reachable state a link is listed as active at an instant exactly when resolving accepts its validity then, and every pinned link finds its version row |
| LifecycleLinks.DroppedLinksStayDropped | panel/infrastructure/persistence/repositories/share_token.py:95-123 | a link that is not listed is never listed at a later moment of the run |
| LifecycleWitness.LateDeliveryRegresses | panel/worker/services/config_task.py:31-39 | a concrete run in which a late redelivery of version 1's task makes version 1 current again although version 2 exists |
| LifecycleWitness.DuplicateDeliveryFails | panel/worker/services/config_task.py:53-59 | a concrete run in which two workers build version 1 at once and the loser marks the config failed although version 1 is stored |
| LifecycleFailures.FailsOnStoredIff | panel/worker/services/config_task.py:28-59 | a task run of any system run that records a failure leaves its config failed although its version is stored exactly when the version was there when the run looked for it, or was committed in between by another worker or by a commit of its own whose outcome it never learned |
| LifecycleFailures.StoredIff | panel/infrastructure/persistence/repositories/vpn_config.py:217-239 | between any two moments of a run a version becomes stored exactly when some worker commits its insert in between |
| ConfigTask.PreferredNames | panel/worker/services/config_build.py:68-77 | the loop over the previous inbounds returns SNI and service name of the first tagged one, or nothing |
| ConfigTask.BuildAndPersistVersion | panel/worker/services/config_build.py:20-136 | the session afterwards holds exactly one new version row, built from the predecessor, the used ports and the policy, or is unchanged when anything raises |
| ConfigTask.RunInSession | panel/worker/services/config_task.py:31-50 | the guarded part of a task succeeds exactly when its transaction can commit, and then leaves that state in the session |
| ConfigTask.RunConfigTask | panel/worker/services/config_task.py:28-59 | the committed rows after a task are those of its one transaction or, when it was rolled back, the old rows with only the failure recorded |
| TaskRuns.TaskRunIsSteps | panel/worker/services/config_task.py:28-59 | whatever a build draws and however it ends, the rows that the worker's code commits are those that some steps of the step system lead to |
| TaskRuns.TaskRunEffect | panel/worker/services/config_task.py:28-59 | run on its own, a task has one of the three atomic effects, and its config is not left processing |
| TaskRuns.RunTwice | panel/worker/services/config_task.py:31-39 | running a task that succeeded a second time changes nothing at all |
| RequestRuns.RegenerateIsSteps | panel/application/regenerate_config.py:42-81 | an uninterrupted regenerate request is the five steps guard, context, commit, publish, record of the step system |
| RequestRuns.CreateIsSteps | panel/application/create_config.py:61-97 | an uninterrupted create request is the three steps commit, publish, record of the step system |
| Repository.VpnConfigRepository.SoftDelete | panel/infrastructure/persistence/repositories/vpn_config.py:125-138 | an active config becomes inactive and nothing else changes; otherwise nothing is found |
| Repository.VpnConfigRepository.CreatePending | panel/infrastructure/persistence/repositories/vpn_config.py:140-165 | adds one pending config row without a version |
| Repository.VpnConfigRepository.MarkProcessing | panel/infrastructure/persistence/repositories/vpn_config.py:174-180 | status processing and error cleared, deleted configs included; raises for a missing config |
| Repository.VpnConfigRepository.MarkActive | panel/infrastructure/persistence/repositories/vpn_config.py:182-189 | status active, the named version current, error cleared |
| Repository.VpnConfigRepository.MarkFailed | panel/infrastructure/persistence/repositories/vpn_config.py:191-197 | status failed with at most 2000 characters of the message; versions untouched |
| Repository.VpnConfigRepository.InsertVersion | panel/infrastructure/persistence/repositories/vpn_config.py:217-239 | adds the row under its unique key or raises and changes nothing |
| Repository.VpnConfigRepository.UpdateVersionConfigData | panel/infrastructure/persistence/repositories/vpn_config.py:241-266 | rewrites only document and port of an existing version of an active config |
| Repository.VpnConfigRepository.PrepareRegenerate | panel/infrastructure/persistence/repositories/vpn_config.py:291-303 | a config with a version that is not busy becomes pending with its error cleared; otherwise raises |
| Repository.VpnConfigRepository.GetRegenerateContext | panel/infrastructure/persistence/repositories/vpn_config.py:305-319 | profile, name and the version after the current one |
| Repository.VpnConfigRepository.GetVersionSnapshot | panel/infrastructure/persistence/repositories/vpn_config.py:344-372 | the version row with the config columns, found for deleted configs too |
| Repository.VpnConfigRepository.ListUsedPorts | panel/infrastructure/persistence/repositories/vpn_config.py:210-215 | the ports of all versions of all other configs |
| Repository.ShareTokenRepository.Create | panel/infrastructure/persistence/repositories/share_token.py:64-86 | adds a token under its unique hash |
| Repository.ShareTokenRepository.RevokeByTokenHash | panel/infrastructure/persistence/repositories/share_token.py:95-103 | sets the revocation instant once; a second call changes nothing |
| Repository.ShareTokenRepository.RecordAccess | panel/infrastructure/persistence/repositories/share_token.py:152-160 | one more access and the access instant, nothing else |
| UseCases.Broker.PublishTask | panel/application/create_config.py:69-80 | a task may be published only when its config is committed as pending and its target follows the current version |
| UseCases.ConfigApi.CreateConfig | panel/application/create_config.py:40-97 | unknown profiles are refused; otherwise the pending row with its policy is committed before the task for version 1 is published, and the task id is recorded |
| UseCases.ConfigApi.RegenerateConfig | panel/application/regenerate_config.py:42-81 | succeeds exactly for a live config with a version that is not busy; then the pending status is committed before the task for current + 1 is published |
| UseCases.ConfigApi.UpdateConfigData | panel/application/update_config_data.py:118-202 | only the current version of a config that is not busy is rewritten; it then decrypts to exactly the given document, its port is the one that document listens on or the old one, keys and certificate stay |
| UseCases.ConfigApi.CreateShareLink | panel/application/create_share_link.py:43-100 | succeeds exactly for a well-formed expiry, a fresh hash and a live active config with a version; the link pins that version and is valid at once |
| FieldCrypto.GetByPath | panel/infrastructure/crypto/config_data.py:9-16 | the walk with a moving cursor returns the leaf that the path's hops select, or nothing |
| FieldCrypto.EncryptConfigDataFields | panel/infrastructure/crypto/config_data.py:50-63 | the loop of in-place writes on the copy computes the encrypted tree path by path |
| FieldCrypto.DecryptConfigDataFields | panel/infrastructure/crypto/config_data.py:34-47 | the same for decryption, which raises when a reached leaf does not decrypt |
| FieldCrypto.RoundTrip | panel/infrastructure/crypto/config_data.py:34-63 | for every tree and every list of dotted paths, missing, prefix-related, repeated or meeting in one leaf through negative indices, decrypting what was encrypted with the same list gives back the original tree |
| FieldCrypto.EncryptionTouchesOnlyHits | panel/infrastructure/crypto/config_data.py:19-31 | encryption keeps the shape of the tree and every leaf that no listed path reaches |
| PortPicker.PickPortMeaning | panel/infrastructure/vpn/port_picker.py:23-49 | a pick is a candidate; a preferred candidate wins outright; any other pick is bindable and blocked exactly when every candidate is blocked |
| PortPicker.PickPortReaches | panel/infrastructure/vpn/port_picker.py:23-49 | the draw can reach every port that the rules allow |
| PortPicker.PickPortRaises | panel/infrastructure/vpn/port_picker.py:23-49 | no port is found exactly when no allowed port can be bound |
| PortsDisjoint.PickApart | panel/worker/services/config_build.py:79-107 | a build with room to pick keeps its predecessor's port or takes one that no other config ever used, and a rotating one leaves the old port |
| PortsDisjoint.InsertKeepsDisjointIff | panel/infrastructure/persistence/repositories/vpn_config.py:210-239 | inserting a version keeps the ports of different configs apart exactly when no other config ever used its port; a config's own ports are such |
| PortsDisjoint.PortsStayDisjoint | panel/worker/services/config_build.py:79-107 | over any run of serial builds with room to pick, the ports ever used by two different configs stay disjoint |
| PortsDisjoint.FallbackCollides | panel/infrastructure/vpn/port_picker.py:35-49 | a run of two configs on a pool of one port: nothing is forced, but the second build has nothing else to pick and the run ends with two configs on one port |
| PortsDisjoint.ForcedPortCollides | panel/infrastructure/vpn/config_builder.py:471-500 | a run of two Hysteria2 configs with an advertised port: another candidate is free, but both builds take the advertised one and the run ends with two configs on one port |
| PortsOverlap.OverlappingBuildsCollide | panel/worker/services/config_build.py:79-107 | a run of two workers on a pool of two ports: each build reads the used ports before the other commits, has room to pick and takes the first port, and the run ends with two configs on one port; read after the first commit, the second build would have had room to move apart |
| PortsDisjoint.FallbackPicks | panel/infrastructure/vpn/port_picker.py:35-49 | with one candidate that is already used, the fallback to the whole pool picks it again |
| PortsDisjoint.ForcedPortPicks | panel/infrastructure/vpn/config_builder.py:471-500 | a Hysteria2 build without a port to keep takes its advertised port, whatever is in use |
| BuilderSteps.SetClientIds | panel/infrastructure/vpn/template_loader.py:29-32 | the loop writes the id into every client of the inbound |
| BuilderSteps.RewriteCertificates | panel/infrastructure/vpn/config_builder.py:636-659 | the loop rewrites the certificate paths of the first inbound that has certificates and of no other |
| BuilderSteps.BuildXrayReality | panel/infrastructure/vpn/config_builder.py:282-343 | the key-by-key build of a Reality document equals the function the other theorems reason about |
| BuilderSteps.WriteGrpcSections | panel/infrastructure/vpn/config_builder.py:368-402 | the keys of the TLS and gRPC sections, written one at a time in the source's order, give the stream the theorems reason about |
| BuilderSteps.WriteXhttpSections | panel/infrastructure/vpn/config_builder.py:438-460 | likewise for the xHTTP and TLS sections |
| BuilderSteps.BuildXrayGrpc | panel/infrastructure/vpn/config_builder.py:345-412 | the key-by-key build of a gRPC document equals the function the other theorems reason about |
| BuilderSteps.BuildXrayXhttp | panel/infrastructure/vpn/config_builder.py:414-469 | likewise for xHTTP |
| BuilderSteps.BuildHysteria2 | panel/infrastructure/vpn/config_builder.py:471-527 | likewise for Hysteria2 |
| ConfigBuilder.GleanInbounds | panel/infrastructure/vpn/config_builder.py:668-744 | the loop with its seven variables takes the first client id and the last of every other field |
| VersionChain.ExtractionFollows | panel/infrastructure/vpn/config_builder.py:668-744 | if the tagged inbound now holds what was extracted before, the next extraction finds the same value |
| VersionChain.RecoveredIff | panel/infrastructure/vpn/config_builder.py:668-744 | whatever inbound with the field stands in one place of a document, the extraction reads what it says, exactly when no inbound before it (client id) or after it (other fields) has the field |
| VersionChain.NoRivalIff | panel/infrastructure/vpn/config_builder.py:668-744 | nothing stands in for what an inbound of a document says exactly when no inbound on the deciding side has the field |
| Regenerate.BuiltListens | panel/infrastructure/vpn/config_builder.py:58-62 | a freshly built document listens on the port that was picked, for every profile |
| Regenerate.StoredMatchesFiles | panel/worker/services/config_build.py:96-136 | after a successful build the stored row decrypts to exactly the document in the archive and the live file, rewritten certificate paths included, and its port is that document's listening port, a candidate of the profile |
| RegenerateKept.PortKept | panel/worker/services/config_build.py:80-85 | with the port flag off a port that is still a candidate is kept even if it is taken |
| RegenerateKept.PortRotates | panel/worker/services/config_build.py:80-85 | with the port flag on the port changes whenever some candidate is neither blocked nor the old port, unless Hysteria2 is forced onto its advertised port |
| RegenerateKept.RealityKeysKept | panel/infrastructure/vpn/config_builder.py:282-343 | one regeneration with the key flag off keeps the Reality key pair |
| RegenerateKept.BuiltPair | panel/infrastructure/vpn/config_builder.py:548-633 | without an external pair every build, reusing or minting, ends with a pair that covers exactly the stripped form of the name it was asked for: the advertised host or the chosen gRPC host |
| RegenerateKept.PairReusedIff | panel/infrastructure/vpn/config_builder.py:548-588 | with the TLS flag off and no external pair a build reuses the stored certificate exactly when the name it certifies (the advertised host, or for gRPC the stored SNI if it is a non-empty listed host) is the one that certificate covers; otherwise it mints one for that name, stripped |
| RegenerateChain.CarriedOnce | panel/infrastructure/vpn/config_builder.py:668-744 | one regeneration: a kept field appears in the new tagged inbound as it was extracted, and the next extraction finds it again |
| RegenerateChain.TakenFromRow | panel/infrastructure/vpn/config_builder.py:668-744 | from a built version a regeneration takes what the template has beside the tagged inbound on the deciding side, else what the tagged inbound says |
| RegenerateChain.NoTemplateRivalIff | panel/infrastructure/vpn/config_builder.py:668-744 | for a template that a version was built from, nothing stands in for the tagged inbound exactly when no template inbound before it (client id) or after it (others) has the field |
| RegenerateChain.FieldKeptIff | panel/infrastructure/vpn/config_builder.py:282-527 | over any number of regenerations with the flag off, a field of the document (client id, short ids, destination, server names, path) keeps its value of version 1 exactly when the template has no such field before (client id) or after (others) the tagged inbound, or the very same; otherwise every later version shows the template's |
| RegenerateChain.ClientIdKeptIff | panel/infrastructure/vpn/config_builder.py:282-469 | with a drawn client id that the template does not have, version 1's client id is every version's exactly when no template inbound before the tagged one has one |
| BuildWitness.GuestTakesOver | panel/infrastructure/vpn/config_builder.py:345-412 | a template with a guest inbound before the tagged one: the client id flag is off, yet version 2 gives clients the guest's id |
| ChainLaw.LawfulChain | panel/worker/services/config_build.py:42-106 | the induction over whole chains, for any builder and reader that obey the one-step law |
| ChainLaw.SteadyChain | panel/worker/services/config_build.py:42-106 | a value that each build hands on unchanged is the same in every version of a chain |
| RegenerateForever.PortForever | panel/worker/services/config_build.py:79-107 | with the port flag off every version listens where version 1 did |
| RegenerateForever.RealityKeysForever | panel/infrastructure/vpn/config_builder.py:282-343 | with the key flag off every version has the Reality keys of version 1 |
| RegenerateForever.CertificateForever | panel/infrastructure/vpn/config_builder.py:548-633 | with the TLS flag off and no external pair every xHTTP or Hysteria2 version serves the certificate of version 1 |
| RegenerateForever.AuthForever | panel/infrastructure/vpn/config_builder.py:471-527 | with the auth flag off the Hysteria2 password never changes |
| RegenerateForever.ObfsForever | panel/infrastructure/vpn/config_builder.py:471-527 | with the obfuscation flag off its password never changes |
| RegenerateForever.ServiceForever | panel/infrastructure/vpn/config_builder.py:345-412 | with the service flag off the gRPC service name never changes, unless version 1 drew an empty one from a list |
| RegenerateForever.ServiceKeptIff | panel/infrastructure/vpn/config_builder.py:345-412 | a listed service name survives the next build on every draw exactly when it is not empty or the list has nothing else |
| RegenerateForever.SniForever | panel/infrastructure/vpn/config_builder.py:345-412 | the gRPC SNI never changes, whatever the flags, unless version 1 drew an empty one from a list |
| RegenerateForever.SniKeptIff | panel/infrastructure/vpn/config_builder.py:369-381 | a listed host survives the next build on every draw exactly when it is not empty or the list has nothing else |
| RegenerateForever.EmptyNamesAreRedrawn | panel/infrastructure/vpn/config_builder.py:345-412 | with the lists ['', 'a'] an empty host or service name does not survive every draw: the second entry comes on draw 1 |
| GrpcCertificate.GrpcCertStep | panel/infrastructure/vpn/config_builder.py:369-398 | one gRPC regeneration with the TLS flag off and no external pair keeps the name, and keeps the pair if the name is stripped as it stands; otherwise it mints a pair for the stripped name |
| GrpcCertificate.GrpcCertificateForever | panel/infrastructure/vpn/config_builder.py:345-412 | with the TLS flag off and no external pair every gRPC version serves the certificate of version 1 if the name version 1 chose has no white space around it; a pinned host never has |
| GrpcCertificate.GrpcCertificateNeverKept | panel/infrastructure/vpn/config_builder.py:548-633 | if it has, every later build mints a new pair and no version's certificate covers the name in its document |
| BuildWitness.PaddedHostLosesCertificate | panel/infrastructure/vpn/config_builder.py:618-633 | the configured host ' a.com': the TLS flag is off and no external pair is configured, yet version 2 has another certificate than version 1, and neither covers its document's name |
| ServedName.BuiltIsCovered | panel/infrastructure/vpn/config_builder.py:548-633 | a version of a TLS profile stores a certificate that fits its key and covers the name in its document, reused or minted: always for xHTTP and Hysteria2; for gRPC exactly when a host is pinned, or the chosen host is stripped as it stands, or, without configured hosts, the template names the advertised host |
| BuildWitness.NoHostNotCovered | panel/infrastructure/vpn/config_builder.py:369-381 | a panel without gRPC hosts, a whole build: the document keeps the template's name, the certificate is minted for the advertised host and does not cover it |
| ServedName.LinkSendsName | panel/infrastructure/vpn/client_uri.py:143-223 | the SNI that a share link sends is the name in the document |
| ServedName.WrittenPathsReachIff | panel/infrastructure/vpn/config_builder.py:636-659 | the written certificate files reach an inbound that has certificates exactly when no inbound before it has any |
| ServedName.SecondKeepsOldPaths | panel/infrastructure/vpn/config_builder.py:636-659 | of two inbounds with certificates the second, tagged one keeps its old paths |
| Lineage.RunCertificatesCover | panel/infrastructure/vpn/config_builder.py:548-633 | in every run of the system, whatever policies the config has had, the certificate of a stored version of an unedited config fits its key and covers the name its clients expect exactly under that condition |
| Lineage.RunIsLined | panel/worker/services/config_build.py:42-66 | in every run of the system the stored versions of an unedited config are a chain of builds, each under a policy that the config has had |
| Lineage.RunKeepsFirst | panel/worker/services/config_build.py:42-136 | in every run, with duplicated, late, failed and overlapping tasks, and whatever else its policies change, every stored version of an unedited config has of version 1 what belongs to a flag that was off in every policy the config has had: port, Reality keys, certificate, Hysteria2 passwords, gRPC names; a gRPC certificate if version 1's name is clean, a listed gRPC name if it is not empty |
| Lineage.RunKeepsField | panel/infrastructure/vpn/config_builder.py:668-744 | in every such run a document field whose flag was off in every policy the config has had is in a later readable version as it is in version 1 exactly when the template has no such field before (client id) or after (others) the tagged inbound, or the very same |
| Lineage.RunRowsListen | panel/worker/services/config_build.py:96-136 | in every run without edits, whatever the policies, every stored row decrypts to a document that listens on the row's port, a candidate of the profile |
| NginxMap.CollectPanelHosts | panel/infrastructure/vpn/nginx_shared_443.py:32-38 | the loop lists each configured host once, stripped, in order |
| NginxMap.PanelHostsAreDistinct | panel/infrastructure/vpn/nginx_shared_443.py:32-38 | the panel's host list has no host twice and holds exactly the configured hosts, stripped |
| NginxMap.PanelLines | panel/infrastructure/vpn/nginx_shared_443.py:77-81 | the loop over the panel hosts prints one line for each non-empty one |
| NginxMap.CollectRoutes | panel/infrastructure/vpn/nginx_shared_443.py:82-96 | the loop over the routes fills the dictionary with the usable ones, later ones overwriting |
| NginxMap.RenderStreamConf | panel/infrastructure/vpn/nginx_shared_443.py:66-117 | the generated text, header, map and server block included |
| NginxMeaning.RenderReadsBack | panel/infrastructure/vpn/nginx_shared_443.py:66-117 | the printed map reads back as exactly the entries that were meant if and only if every host and backend in it is one clean nginx word |
| NginxMeaning.KeysDistinctIff | panel/infrastructure/vpn/nginx_shared_443.py:66-117 | the printed map has no key twice if and only if no panel host is listed twice, nothing is named `default`, and there is something to list |
| NginxMeaning.DefaultHostIsRefused | panel/infrastructure/vpn/nginx_shared_443.py:66-117 | a single panel host named `default` is printed twice |
| NginxMeaning.EmptyMapIsRefused | panel/infrastructure/vpn/nginx_shared_443.py:66-117 | rendered on its own without panel hosts and routes, the last line is printed twice |
| NginxMeaning.MapMeaning | panel/infrastructure/vpn/nginx_shared_443.py:66-117 | a map that nginx accepts sends a name to the panel if the panel claims it, else to the last route listed for it, else to the panel |
| NginxMeaning.GeneratedMapMeaning | panel/infrastructure/vpn/nginx_shared_443.py:32-117 | for the panel's own host list the text reads back to a map with distinct keys whose lookup is that rule for every name |
| MuxRoutes.CollectRealityHosts | panel/infrastructure/vpn/nginx_shared_443.py:41-63 | the loops over the configured and the document's names |
| MuxRoutes.RealityHostsSorted | panel/infrastructure/vpn/nginx_shared_443.py:41-63 | the Reality names come out in ascending order, each once, and are exactly the non-empty ones |
| MuxRoutes.RoutesFromConfigs | panel/infrastructure/vpn/nginx_shared_443.py:223-255 | the loop with its two dictionaries, exceptions included |
| MuxRoutes.CollectIsFirstClaims | panel/infrastructure/vpn/nginx_shared_443.py:228-255 | the loop keeps the first usable claim on each backend, and a later one of these overwrites an earlier one on the same host |
| MuxRoutes.RoutesAreInjective | panel/infrastructure/vpn/nginx_shared_443.py:228-255 | whatever is on disk, different hosts go to different backends and no host is listed twice |
| MuxRoutes.DistinctBackendsLastWins | panel/infrastructure/vpn/nginx_shared_443.py:228-255 | when no two usable documents share a backend every host belongs to the last document that claims it |
| MuxRoutes.InjectedOwnsIff | panel/infrastructure/vpn/nginx_shared_443.py:223-255 | the injected document takes its host when no usable live document listens on its backend; when one does, injecting it changes nothing at all |
| MuxSync.LoadLiveConfigs | panel/infrastructure/vpn/nginx_shared_443.py:143-165 | the loop keeps the readable documents that have the profile's inbound, in order |
| MuxSync.DetectMuxProfileKey | panel/infrastructure/vpn/nginx_shared_443.py:186-198 | the loop returns the first mux profile whose tag the document has |
| MuxSync.SyncShared443 | panel/infrastructure/vpn/nginx_shared_443.py:258-290 | nothing is written without a shared port or panel hosts; otherwise the text of the three profiles' routes, in order |
| MuxSync.SyncMeaning | panel/infrastructure/vpn/nginx_shared_443.py:201-290 | from the documents on disk to what nginx does: the generated text reads back with distinct keys and every name goes to the panel, else to the gRPC, else the xHTTP, else the Reality backend that serves it, else to the panel |
| MuxSync.WrittenConfigIsServed | panel/infrastructure/vpn/nginx_shared_443.py:223-290 | the xHTTP or gRPC config just written is reached by its own name unless the panel or a later profile claims it or a live document listens on its backend |
| MuxSync.LiveCopyLoses | panel/infrastructure/vpn/nginx_shared_443.py:224-238 | two live configs share a name: writing the first again does not give it the name back, because its live copy holds the backend; without the live copy it would win |
| MuxSync.LiveCopyLosesExample | panel/infrastructure/vpn/nginx_shared_443.py:224-238 | the same loss on two concrete documents |
| UriCodec.QuoteReadsBack | panel/infrastructure/vpn/client_uri.py:211-241 | percent-encoding any text and decoding it gives the text back (sections 2.1 to 2.3 of RFC 3986) |
| UriCodec.QuoteIsSafe | panel/infrastructure/vpn/client_uri.py:211-241 | an encoded text holds none of the characters that delimit the parts of a URI |
| UriReader.ReadsBackIff | panel/infrastructure/vpn/client_uri.py:126-241 | a link whose other parts are printable reads back as what was meant exactly when its host is one that an authority can hold (section 3 of RFC 3986) |
| ShareUri.HysteriaParameters | panel/infrastructure/vpn/client_uri.py:223-240 | the growing list of parameters of a Hysteria2 link, for every combination of obfuscation, pin and security |
| ShareUri.XrayParameters | panel/infrastructure/vpn/client_uri.py:103-208 | the growing list of parameters of a Reality, xHTTP or gRPC link |
| ShareUri.HysteriaLinkReadsBack | panel/infrastructure/vpn/client_uri.py:211-241 | the Hysteria2 link is unambiguous: for any password, SNI and obfuscation password, splitting and decoding gives back exactly what was printed if and only if the host is one that an authority can hold |
| XrayLinks.XrayLinkReadsBack | panel/infrastructure/vpn/client_uri.py:54-208 | a `vless` link reads back as the credential, address, port and parameters it was made from, if and only if the host is one that an authority can hold |
| Probe.ConnectHosts | panel/infrastructure/vpn/vpn_connectivity.py:64-88 | the list of hosts the probe dials, in order, each once |
| Probe.FirstHostIsShareHost | panel/infrastructure/vpn/vpn_connectivity.py:113-122 | the probe's preferred host is dialled first and is the very host that share links advertise |
| Probe.MuxDialsOnlyShareHost | panel/infrastructure/vpn/vpn_connectivity.py:113-135 | a profile with a share port only ever dials its own share host |
| RealityStored.SameReality | panel/infrastructure/vpn/vpn_connectivity.py:223-238 | decrypting rewrites only the first inbound's private key, so the probe's undecrypted reading finds the same client, short id and destination |
| ProbeAgrees.RealityNameSteadyIff | panel/infrastructure/vpn/client_uri.py:42-47 | every draw gives the same Reality name exactly when the destination has a host or no two candidate names differ |
| ProbeAgrees.HysteriaAgrees | panel/infrastructure/vpn/vpn_connectivity.py:329-362 | address, port, password, SNI, pin and obfuscation decoded from the secure link equal those of the probe's client |
| ProbeAgrees.RealityAgrees | panel/infrastructure/vpn/vpn_connectivity.py:223-271 | likewise address, port, client id, public key, short id, flow and SNI for Reality, when nothing is left to chance |
| ProbeAgrees.GrpcAgrees | panel/infrastructure/vpn/vpn_connectivity.py:272-288 | likewise for gRPC, the SNI up to surrounding white space, which agrees exactly when the stored server name is not blank |
| ProbeWitness.BlankNameDisagrees | panel/infrastructure/vpn/vpn_connectivity.py:272-288 | a stored gRPC version whose server name is one space: link and probe client agree in everything but the SNI, which differs even up to white space |
| ProbeAgrees.XhttpAgrees | panel/infrastructure/vpn/vpn_connectivity.py:289-307 | likewise for xHTTP, path, mode and host included |
| ProbeCache.Cache.Lookup | panel/infrastructure/vpn/vpn_connectivity.py:517-528 | the cached answer is found exactly while it is younger than its lifetime |
| ProbeCache.Cache.ProbeConfigConnectivity | panel/infrastructure/vpn/vpn_connectivity.py:510-544 | a call that nothing overlaps: a fresh cached answer is served, otherwise the new answer is returned and stored |
| ProbeCache.ProbesAreApart | panel/infrastructure/vpn/vpn_connectivity.py:517-543 | as long as no two probes of one version are ever in flight at once, two real probes of it are never closer than the failure lifetime |
| ProbeCache.ProbesTakeTime | panel/infrastructure/vpn/vpn_connectivity.py:517-543 | n real probes of one version that never overlap take at least n - 1 failure lifetimes |
| ProbeCache.OverlappingProbes | panel/infrastructure/vpn/vpn_connectivity.py:517-543 | two requests at one instant both find nothing and both probe |
| ProbeCache.SlowProbeOverwrites | panel/infrastructure/vpn/vpn_connectivity.py:530-543 | a slow probe that finishes last stores its older instant, so two probes that do not overlap each other can start at the same instant |
| ProbeCache.AloneIsMethod | panel/infrastructure/vpn/vpn_connectivity.py:510-544 | the steps of a call that nothing comes between have the effect of the whole method |
| ProbeCache.ServedIsFresh | panel/infrastructure/vpn/vpn_connectivity.py:517-543 | however calls in different threads overlap, what is served is the answer of a real probe of that version that started less than its lifetime earlier |
| ProbeCache.ProbesIff | panel/infrastructure/vpn/vpn_connectivity.py:517-543 | however calls overlap, a call runs a real probe exactly when no probe of its version has finished yet or the last one to finish is too old; probes still running do not count |
| ShareExpiry.ExpirationWellFormed | panel/application/share_expiration.py:17-44 | exactly the three request forms are accepted, and what comes out is permanent without an instant or expires strictly later than now |
| ShareExpiry.ListedIffAccepted | panel/infrastructure/persistence/repositories/share_token.py:115-123 | the filter of the list and the check of resolving agree at every instant exactly when a live row that is not permanent has an expiry |
| ResolveShare.SortIsStable | panel/application/resolve_share.py:36-40 | links come by profile and name, none is lost or doubled, and equal keys keep their order |
| ResolveShare.ResolveShareUseCase.CollectUris | panel/application/resolve_share.py:84-86 | the loop concatenates the links of all snapshots, or raises with the first that raises |
| ResolveShare.ResolveShareUseCase.Execute | panel/application/resolve_share.py:61-96 | the limiter counts every request in the session; the outcome is the token's links, not found, limit exceeded or an error; only a request that gets its links is recorded on the token |
| ShareRouter.Router.ResolveShare | panel/api/routers/share.py:118-143 | one request with its own session: committed, with its count and the recorded access, on links, not found and limit exceeded; on any other error nothing of it remains, not even the count |
| ShareRouter.CountIsKept | panel/api/routers/share.py:131-143 | over any requests, whatever happens to the rows in between, the committed count of a window is the number of its requests that did not end in an unexpected error |
| ShareRouter.LimitedIff | panel/infrastructure/persistence/repositories/rate_limit.py:21-51 | a request is refused exactly when at least the limit of such requests came before it in its window |
| ShareRouter.WindowServes | panel/api/routers/share.py:131-143 | of the requests of a window that do not end in an unexpected error exactly min(requests, limit) are let through |
| ShareRouter.UnreadableIsNeverLimited | panel/api/routers/share.py:131-143 | a link whose document cannot be read is never limited, however often it is asked for |
| LinkStability.SettledUris | panel/infrastructure/vpn/client_uri.py:42-47 | a snapshot in which nothing is left to chance has the same link on every draw |
| LinkStability.PinnedLinkStable | panel/application/resolve_share.py:61-118 | a pinned link gives the same addresses at any later moment at which it is valid, through any run of regenerations, failures, redeliveries and deletions without an edit of its version; once invalid it is not found |
| RateLimit.RateLimiter.CheckAndIncrement | panel/infrastructure/persistence/repositories/rate_limit.py:21-51 | the upsert counts the call in the window its instant falls in and admits it exactly when the count is within the limit |
| RateLimit.RateLimiter.CurrentCount | panel/infrastructure/persistence/repositories/rate_limit.py:53-73 | the count of the window the instant falls in |
| RateLimit.WindowAdmits | panel/infrastructure/persistence/repositories/rate_limit.py:29-51 | for any sequence of calls a window of a key admits exactly min(calls, limit) |
| RateLimit.IntervalAdmitsAtMostTwice | panel/infrastructure/persistence/repositories/rate_limit.py:29-51 | no interval as long as the window, aligned or not, sees more than twice the limit admitted |
| RateLimit.TwiceIsReached | panel/infrastructure/persistence/repositories/rate_limit.py:29-51 | two microseconds around a window's start can see exactly twice the limit admitted |
| RegenerateAll.Execute | panel/application/regenerate_all_configs.py:47-83 | the paging loop, whose pages query the rows as they are then, ends after visiting every active config exactly once, newest first; each visit finds what the workers made of the rows the visit before it left, and the two lists and the final rows are those of the visits |
| RegenerateAll.VisitPage | panel/application/regenerate_all_configs.py:60-68 | one page visits each of its configs once, in order, each on the rows that the workers leave for it |
| RegenerateAll.EachConfigOnce | panel/application/regenerate_all_configs.py:55-72 | queued and skipped partition the active configs; one is queued, for the version after its current one, exactly when it had a version and was not busy in the rows its own visit found |
| RegenerateAll.TraceIsUnique | panel/application/regenerate_all_configs.py:55-72 | two lists of rows that both follow the relation of the visits agree at every visit, so the rows that visits find are determined by start, order and workers |
| RegenerateAll.VisitWrites | panel/application/regenerate_config.py:42-81 | a visit that queues a config leaves it pending with its task recorded, and changes nothing else |
| ServiceReady.Host.Round | panel/infrastructure/vpn/service_ready.py:131-140 | one round asks in the source's order, on the real answers, and ends with a second of rest unless it decides |
| ServiceReady.Host.WaitDirectOnce | panel/infrastructure/vpn/service_ready.py:129-141 | one attempt ends within timeout, settle time, a second and five probes; it succeeds or reports a failure only on the matching answers of the probes it made, and breaks exactly when its last probe broke |
| ServiceReady.Host.Attempt | panel/infrastructure/vpn/service_ready.py:177-197 | one turn of the outer loop takes positive, bounded time; a readiness error is only passed on after systemd answered that the start failed, or past the deadline |
| ServiceReady.Host.WaitForServiceReady | panel/infrastructure/vpn/service_ready.py:168-205 | the wait always ends within maximum wait, one attempt and eight probes; the events since its start came in the source's order and carry the probes' real answers and costs; it returns normally only after answers running, settled, not failed, still running, marker seen, raises only after an answered failure or the maximum wait, and passes on an exception exactly when its last probe raised it |

## Left out

- In-place aliasing: documents are immutable trees; the builders reassign them and write the changed inbound back, so two references to one nested mapping are not modelled (the source never relies on them after its deep copies).
- Wrongly typed template or document leaves raise in the model as soon as they are used as text, list or mapping; Python would carry some of them on (`str(list)`, iterating a mapping's keys).
- MuxSync.LoadLiveConfigs: live files whose inbounds are not mappings are skipped; the source would raise there.
- LifecycleTheorems.RegressesIffStale: a commit always writes the current version; SQLAlchemy omits the column when it did not change since the row was loaded, so a re-mark that overlaps another commit may leave the newer version current.
- Every exception is one failure value; messages only appear where they are stored.
- JSON numbers are integers; floating point leaves, `int()` on non-ASCII digits, and letter case beyond ASCII in fingerprints and names are not modelled.
- ConfigTask.RunConfigTask: runs alone on its database; overlapping transactions are the business of `Lifecycle`.
- ShareRouter.Router.ResolveShare: one request at a time; overlapping requests for one key, which the database's upsert serialises, are not modelled.
- RegenerateAll.Execute: one visit is one indivisible request; the stale reads inside it are modelled in `Lifecycle`. Configs are neither created nor deleted meanwhile, and creation times are distinct.
- UseCases.ConfigApi.CreateConfig: the pattern that a host name must match is not modelled, only its stripping.
- UseCases.ConfigApi.UpdateConfigData: the commit that the request's session makes after the use case is part of the method; JSON and YAML parsing and the files it writes are a parameter.
- UseCases.ConfigApi.CreateShareLink: the commit that the router makes is part of the method.
- ResolveShare.ResolveShareUseCase.Execute: it counts in its own session; which counts persist is the router's business (`ShareRouter`): a request that ends in an unexpected error (`Broken`) is rolled back with its count.
- ServedName.BuiltIsCovered: profiles with an external key pair are excluded, since the panel never checks which names that pair covers.
- SQLAlchemy details: other columns that an update omits because they did not change, row locks, timestamps, `updated_by`, audit rows.
- The privileged `wait-ready` wrapper path of the readiness wait.
- Certificates are abstract: which names one covers and whether a key fits are predicates; the profile's external pair is a parameter.
- nginx quoting, comments, variables, regular-expression and wildcard keys, and case-insensitive matching of names.
- The probe processes themselves (curl, xray, hysteria), DNS, the temporary CA file and the loop over further hosts after a failed first one.
- The worker's pull loop, heartbeat, ack and nack, and the broker's queue: a delivery is any published task at any time.
- Which regenerate policy a partial API payload merges into: a config stores one policy, given or the profile's default.
- The database order of the configs behind an all-configs link is a parameter.
- HTTP routers, authentication, the web interface, audit log, metrics and systemd units.
