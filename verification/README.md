# Pokkum: a verified model of its hardest parts

Pokkum builds SvelteKit projects into container images without Docker, and publishes, signs, deploys, upgrades and
rolls them back. This project models the parts where ordering, failure and concurrency decide whether those promises
hold, and proves the promises for every input, every run and every interleaving.

| files | what they model |
|---|---|
| `Text.dfy` | optional values and the string operations the rest uses |
| `Request.dfy` | the build request: `Normalize` in place, `Validate`, and what later stages rely on |
| `Pipeline.dfy`, `CveGate.dfy` | the driven ports, the wiring check, the errgroup, and the base-image CVE gate |
| `FanOut.dfy` | the per-platform fan-out: slot channel, cancellation, results by position, the image map |
| `Signing.dfy` | the two-phase signing stage over four-wide groups |
| `Build.dfy` | `Build` itself as a transition system that embeds the gates, the errgroup, the fan-out and the signing stage |
| `BuildProofs.dfy`, `BuildOutcome.dfy` | the invariants every step of every goroutine keeps |
| `BuildTheorems.dfy`, `BuildCoverage.dfy`, `BuildRuns.dfy`, `BuildStops.dfy`, `BuildProgress.dfy`, `BuildSuccess.dfy` | what follows for every run: safety, results, wiring, no step skipped, what exactly fails a build, where it stops short, no deadlock, no endless run, and that success can be had |
| `StageTimer.dfy` | the stage timer |
| `DevLoop.dfy` | the dev watch loop and its container generations |
| `Replace.dfy`, `ReplaceProofs.dfy`, `Upgrade.dfy` | replacing the binary on a disk where anything may fail, and the signed self-update around it |
| `Layers.dfy`, `LayerPaths.dfy` | the layer-origin scan against the overlay meaning of an image |
| `RollbackHistory.dfy`, `Manifest.dfy`, `ManifestProofs.dfy`, `ManifestPatterns.dfy`, `RollbackProofs.dfy` | the rollback history, and the manifest it is kept in, character by character |
| `Deploy.dfy` | deploy validation against deploy resolution |
| `History.dfy` | the choice of an index's child manifest |

`dafny verify dfyconfig.toml` checks everything.

Ports, clocks, the network and libraries are not modelled. A port answers anything its signature allows; the one
contract assumed of a port, the remote cacher's, is a visible hypothesis of the one theorem that needs it. Path, URL,
duration, platform-rendering, decoding and cryptographic libraries are function-valued parameters.

A concurrent machine is a function `Step` from a state and an action to the next state, or to nothing when the action
cannot happen then; a run is any sequence of possible actions; `Reachable` states are what the theorems quantify over.
In `Build` the trace records what happened, so that "before" can be stated. Code that changes things in place is a class
whose methods are proved against functions, and the promises are proved of those functions.

## Where the code and its comments part

The model follows the code. In each case the exact condition is proved.

- `Normalize` says it is idempotent (internal/core/model.go:968). It is, unless the timestamp lies strictly inside the
  first second of year 1: the first pass truncates it to the zero time and the second replaces it (`NormalizeIdempotentIff`).
- `replaceBinary` says the target always ends up with the new binary or the old one (cmd/pokkum/upgrade.go:521-524). With
  the rename into place and the rename back both refused it ends up with neither, and the old one is at the backup path
  (`TargetCanEndWithNeither`). It does end up with one of them if and only if the replacement succeeds, or the old binary
  was never moved aside, or it was moved back, or a copy that failed late and could not be removed happens to be complete
  (`TargetCompleteIff`). After a crash in the middle of a cross-device copy, trying again moves the partial file over the
  good backup (`RetrySafeIff`).
- The watch loop calls a received result the container's own exit, not one it stopped (cmd/pokkum/dev.go:704-706). It is,
  unless the last rebuild's stop wait timed out and that rebuild failed (`ExitIsGenuineUnless`).
- The layer scan says it resolves a path as an overlay does (cmd/pokkum/explain.go:491-498). It looks for markers about the
  path itself and for opaque resets, not for a whiteout of a directory above it, and it takes a marker's own name for a
  file. It is wrong if and only if the topmost layer with anything to say adds the path, and the path is a marker name or
  a layer above hides a directory it lies in (`ScanIsRight`; `RemovedDirectoryStillFound` and `MarkerIsFound` are the two cases).
- The post-build secret scan says that for a layered image its one tree is exactly what ships
  (internal/core/pipeline.go:1317-1320). Staged production dependencies ship too (internal/core/pipeline.go:2232-2235) and
  are not scanned where they lie outside the output directory. Of every strategy, all that ships is scanned if and only if
  there are no such dependencies (`ScanCoversShipmentIff`, `ShippedWasScanned`; `StagedDependenciesUnscanned` is the case).
- Deploy validation says it mirrors resolution (internal/core/deploy.go:231-233). What it passes does resolve
  (`CleanConfigResolves`); it also complains of two things resolution tolerates (`ResolvedComplaints`, `BothTolerated`).

## Model

| member | source | states |
|---|---|---|
| `Request.BuildRequest.Normalize` | internal/core/model.go:975-1053 | defaulting in place leaves exactly the request the specification gives, field by field, in the source's order of dependence |
| `Request.NormalizeIdempotentIff` | internal/core/model.go:967-1053 | normalising twice is normalising once if and only if the timestamp is not strictly inside the first second of year 1 |
| `Request.NormalizeNotIdempotentInFirstSecond` | internal/core/model.go:1002-1006 | the case in which the second pass still changes the request |
| `Request.NormalizeKeepsWhatIsSet` | internal/core/model.go:975-1053 | everything the caller set is kept, each field by itself, but for the directory made absolute, the timestamp cut to the second, and the switches hermetic builds and cache verification turn on |
| `Request.NormalizeFillsBlanks` | internal/core/model.go:975-1053 | every field left blank gets its documented default, and nothing with a default stays blank; hermetic means offline, and an active cache-verify mode means signatures are verified |
| `Request.LocalRepoFromDirectory` | internal/core/model.go:1040-1044 | a build without a repository is named after its directory, unless it is to be pushed, and then it is rejected for it |
| `Request.VerdictStable` | internal/core/model.go:1063-1232 | Validate's verdict is the same after one normalisation and after any number of them |
| `Request.BuildRequest.Validate` | internal/core/model.go:1063-1232 | accepts exactly the requests that meet every one of its 34 kinds of requirement; otherwise the error is that of the first one broken, with everything asked before it met |
| `Request.VerdictIsFirstBroken` | internal/core/model.go:1055-1232 | the same of the verdict as a function, from the seven stretches of checks, the two loops included |
| `Request.ValidatePlatforms` | internal/core/model.go:1090-1099 | the loop over platforms with its seen-set returns the specified error |
| `Request.PlatformsAccepted` | internal/core/model.go:1090-1099 | the platform check accepts exactly the duplicate-free lists of supported platforms |
| `Request.TagsAccepted` | internal/core/model.go:593-605 | the tag check accepts exactly the duplicate-free lists of valid tags |
| `Request.TaggedRepo` | internal/core/model.go:1083-1085 | a repository with a tag or digest added is refused, a port before its path is not |
| `Request.AcceptedIsBuildable` | internal/core/model.go:1063-1232 | a normalised request that validates has one or two distinct supported platforms, a positive concurrency, known modes, and a signing key whenever signing is required |
| `Request.NodeDefaultsToANodeBase` | internal/core/model.go:1009-1027 | a Node request left to the defaults gets a base that carries Node; an explicit preset or reference is never replaced |
| `CveGate.GatePassesIff` | internal/core/pipeline.go:576-722 | an armed gate passes if and only if nothing known is at or above the threshold and the evidence is complete or may be incomplete; only a live scan is recorded and only a passing one exempts |
| `CveGate.ArmedGateMeansItsLevel` | internal/core/pipeline.go:580-640 | armed by flag or environment, with an honest scanner or a recorded audit, the gate passes if and only if the worst finding is below the level asked for |
| `Ports.WiredIff` | internal/core/pipeline.go:193-268 | the wiring check passes exactly when every port the build needs is there, and otherwise names one that is missing |
| `ErrGroup.FirstErrorWins` | internal/core/pipeline.go:1193-1199 | in whatever order an errgroup's tasks end, the error kept is that of the first to fail, and there is none exactly when none failed |
| `FanOut.SlotsRespected` | internal/core/pipeline.go:2073-2093 | under every schedule no more platforms are built at once than the concurrency asked for, and a queued one is held back if and only if that many are |
| `FanOut.ResultsInPlatformOrder` | internal/core/pipeline.go:2079-2337 | Wait returns nil exactly when every task succeeded, and then position i holds platform i's own artifact and the image packaged from it by its own goroutine, on that platform's base, with its runner, for every strategy |
| `FanOut.CallsMatchWork` | internal/core/pipeline.go:2088-2337 | each step calls exactly the port its result comes from |
| `FanOut.RunLength` | internal/core/pipeline.go:2079-2337 | every run of the fan-out ends, within four steps a platform and two more |
| `FanOut.NeverStuck` | internal/core/pipeline.go:2083-2093 | until everything is over some goroutine can move, whatever has failed or been cancelled |
| `FanOut.AssembleImages` | internal/core/pipeline.go:1418-1423 | the loop that splits the results builds the image map and keeps the artifacts in order |
| `FanOut.OneImagePerPlatform` | internal/core/pipeline.go:1418-1423 | with no platform repeated, the map has exactly one image per requested platform, each its own |
| `FanOut.ImageCount` | internal/core/pipeline.go:1418-1423 | none of the images is lost |
| `FanOut.RepeatedPlatformLosesAnImage` | internal/core/model.go:1095-1097 | what the duplicate check prevents |
| `Signing.StatementNamesDigest` | internal/core/pipeline.go:1988-1995 | true exactly when some subject's digest map holds the digest |
| `Signing.NothingOutOfOrder` | internal/core/pipeline.go:1839-1983 | under every schedule of the four-wide groups nothing is attached that was not signed before for that subject, the SBOM's envelope goes along exactly when there is one, and nothing is fetched or checked before every subject has both attachments |
| `Signing.StartedUnlessFour` | internal/core/pipeline.go:1839-1983 | the next subject is started unless four are in flight |
| `Signing.StatementNamesItsOwn` | internal/core/pipeline.go:1988-1995 | a statement made for one digest names it and no other of its algorithm |
| `Signing.CallsMatchWork` | internal/core/pipeline.go:1839-1983 | each step calls exactly the port its event comes from |
| `Signing.SignedMeansVerified` | internal/core/pipeline.go:1839-1983 | Signed only when every subject's fetched signature verified and its fetched attestation names exactly its digest; references i are subject i's, whatever the completion order |
| `Signing.RunLength` | internal/core/pipeline.go:1839-1983 | both groups drain within fourteen steps a subject and the two waits, whatever fails |
| `Signing.NeverStuck` | internal/core/pipeline.go:1839-1983 | the limit of four never deadlocks the dispatch loop or the waits |
| `BuildTheorems.EveryCallIsSound` | internal/core/pipeline.go:337-350 | normalising and validating establishes what the theorems below assume of an accepted request |
| `BuildTheorems.ReachableInv` | internal/core/pipeline.go:337-1597 | over every interleaving the invariant holds that ties positions, goroutines, trace, called ports and result together |
| `BuildTheorems.SuccessNeedsBothGates` | internal/core/pipeline.go:884-1149 | a cached success is printed or returned only after both gates finished without error; so is every other success but a plan |
| `BuildTheorems.LockWrittenAlone` | internal/core/pipeline.go:935-964 | pokkum.lock is written only when neither gate is running and before the tree is hashed |
| `BuildTheorems.FailedGateIsFinal` | internal/core/pipeline.go:884-1094 | after a failed gate there is no lock write, publication, printed line or success, in any continuation |
| `BuildTheorems.ArmedGateFails` | internal/core/pipeline.go:576-722 | a known severity at or above the threshold of an armed gate is such a failure |
| `BuildTheorems.NothingLeftRunning` | internal/core/pipeline.go:900-931 | however Build returns, no gate, errgroup, fan-out or signing goroutine is left |
| `BuildTheorems.TasksExactly` | internal/core/pipeline.go:1200-1297 | the group of stage 5 runs Prepare, the inspection, the base verification unless disabled, and one Bun resolve a platform of a layered Bun build, each once |
| `BuildTheorems.PublishComesLast` | internal/core/pipeline.go:1200-1515 | a publication follows both gates, Prepare, the inspection, the base verification unless disabled, every Bun resolve of a layered Bun build, every post-build scan and every platform build; what is published is the one platform's own packaged image, or an assembled index that maps each platform to its own and holds no other |
| `BuildTheorems.ShippedWasScanned` | internal/core/pipeline.go:1354-1372 | before an image is published, every tree it was packaged from, or compiled from, lies in a tree the post-build scan cleared, but for staged dependencies outside the output |
| `BuildTheorems.ScanCoversShipmentIff` | internal/core/pipeline.go:2757-2815 | the scanned trees hold everything that ships if and only if a layered image has no staged dependencies outside the output |
| `BuildTheorems.StagedDependenciesUnscanned` | internal/core/pipeline.go:2232-2235 | a layered build whose dependencies ship unscanned |
| `BuildTheorems.ConcurrencyRespected` | internal/core/pipeline.go:2073-2077 | no reachable state of a build has more platforms in progress than the request allows |
| `BuildTheorems.HashedWithAppliedExemptions` | internal/core/pipeline.go:911-934 | the cache key is taken after the CVE gate passed and with the exemptions it applied |
| `BuildTheorems.ResultMatchesRun` | internal/core/pipeline.go:337-1597 | the result describes an image exactly when one was published, and one line is printed exactly on a success that has one |
| `BuildTheorems.RequireMeansSigned` | internal/core/pipeline.go:980-1144 | with Signing.Require, success by publishing is signed, and by a cache hit is signed exactly when the hit was verified, so always with a cacher that keeps its contract |
| `BuildTheorems.SignedMeansEverySubjectVerified` | internal/core/pipeline.go:1557-1633 | a published result that says Signed had exactly the published digest, followed for an index by the digest of each platform's own published image in platform order, signed, with the SBOM exactly when one is asked for and has content, attached, read back, verified and attested, two-phase, with matching references |
| `BuildTheorems.OnlyWiredPortsAreCalled` | internal/core/pipeline.go:193-268 | once the wiring check accepts, no reachable step of any stage calls an absent port |
| `BuildTheorems.AskedOnlyIfWanted` | internal/core/pipeline.go:337-1597 | no port is called that the request has no use for: the scanner never offline, the cache only for a push that allows it and for a signed build only under active verification, each destination only in its own mode, the signers only to sign |
| `BuildCoverage.NothingSkipped` | internal/core/pipeline.go:337-1597 | no step is skipped: a success has called every port of the steps before the cache decision and written a recorded scan to the lockfile, a built one has called every port building needs, a published one its destination and attached its SBOM where asked, and a plan has scanned and inspected |
| `BuildRuns.ScanResultsHandedOver` | internal/core/pipeline.go:678-964 | of every run in which the CVE gate ends with a given scan: the gate passes unless the evidence is refused, every tree hash uses the exemptions of a live passing scan or else the request's own, and pokkum.lock records a live scan and no other, always when the build succeeds |
| `BuildRuns.FaultsEndTheRun` | internal/core/pipeline.go:337-1597 | a fault met by the main goroutine, a gate, an errgroup task, the fan-out or the signing stage ends every continuation without success, print or further publication |
| `BuildRuns.FailsIffFaulty` | internal/core/pipeline.go:337-1597 | a build that nobody cancels fails if and only if its run meets a fault, over every interleaving |
| `BuildRuns.ForgivenErrorsChangeNothing` | internal/core/pipeline.go:395-1160 | the six kinds of error it forgives lead to the state an answer would have, or past the cache lookup |
| `BuildStops.HitIsNotRebuilt` | internal/core/pipeline.go:1076-1149 | once the cache has answered with a hit nothing is prepared, built or published, and the only success is the cached image; no cached success without a hit |
| `BuildStops.CancelledGoesNoFurther` | internal/core/pipeline.go:351-1560 | a cancelled build does not pass the next point at which it looks: in any continuation it starts no further stage, publishes nothing and attaches no SBOM that it had not before |
| `BuildTheorems.DryRunTouchesNothing` | internal/core/pipeline.go:733-792 | a dry run starts no goroutine, records nothing, calls read-only ports only, and succeeds only with the plan |
| `BuildStops.PlanHasAppliedExemptions` | internal/core/pipeline.go:742-749 | the plan is drawn up with the exemptions the dry run's own live scan applied, or else with the request's |
| `BuildProgress.NeverStuck` | internal/core/pipeline.go:337-1597 | until Build has returned, some goroutine other than the canceller can move |
| `BuildProgress.EveryBuildEnds` | internal/core/pipeline.go:337-1597 | no run is longer than nineteen steps a platform and fifty-six more |
| `BuildSuccess.EveryAcceptedBuildCanSucceed` | internal/core/pipeline.go:337-1597 | whatever the mode, strategy, gates and signing, an accepted build has a run without fault or cancellation to a successful return |
| `StageTimers.FinishReportsEveryStage` | internal/core/pipeline.go:2546-2581 | after any non-empty begins, finish reports the first stage and then the begun ones in order; finishing again adds nothing |
| `StageTimers.DurationsAddUp` | internal/core/pipeline.go:2546-2581 | the durations sum to exactly finish time minus start time |
| `StageTimers.StagesFillTheBuild` | internal/core/pipeline.go:2546-2581 | on a clock that never goes back each reported duration lies between nothing and the length of the build, which together they fill |
| `StageTimers.EveryMomentAccounted` | internal/core/pipeline.go:2553-2566 | for any begins, empty names included, recorded and idle time sum to elapsed time |
| `DevLoop.OnlyTheNewestIsHeard` | cmd/pokkum/dev.go:677-750 | any result the loop can receive comes from the newest generation's own goroutine |
| `DevLoop.ExitIsGenuineUnless` | cmd/pokkum/dev.go:695-713 | a returned container exit is from a generation the loop had stopped exactly when the last stop wait timed out and that rebuild failed |
| `DevLoop.LateStopReportedAsCrash` | cmd/pokkum/dev.go:714-733 | a run in which that happens |
| `DevLoop.ShutdownIsNotACrash` | cmd/pokkum/dev.go:679-706 | with the outer context done, the loop returns the shutdown and never a container's result |
| `DevLoop.SendsNeverBlock` | cmd/pokkum/dev.go:661-664 | each channel is sent to at most once and no send blocks, however late |
| `DevLoop.OneLiveGeneration` | cmd/pokkum/dev.go:714-747 | at most one generation's context is live, and it is the newest |
| `DevLoop.EveryChangeIsBuilt` | cmd/pokkum/dev.go:714-748 | of every run: each modification newer than all before, and no other, is built for once, each build that works launches one generation, and the last rebuild's stop wait and outcome are remembered |
| `DevLoop.RebuildLaunches` | cmd/pokkum/dev.go:730-748 | a build that works puts a new live running generation in charge and changes no other; one that fails changes none |
| `DevLoop.ShutdownReturns` | cmd/pokkum/dev.go:679-693 | once the outer context is done the loop can return the shutdown in at most four of its own steps |
| `DevLoop.ExitIsTheNewestRuns` | cmd/pokkum/dev.go:661-713 | a returned exit is the very one Run returned for the newest generation |
| `DevLoop.LaunchedAfterCancel` | cmd/pokkum/dev.go:720-747 | a generation is launched only after all before it are cancelled |
| `DevLoop.AllCancelledOnReturn` | cmd/pokkum/dev.go:655-657 | on return every generation's context is cancelled |
| `DevLoop.OneRebuildPerChange` | cmd/pokkum/dev.go:714-718 | the modification times rebuilt for strictly increase |
| `Replacement.Disk.CopyFileContents` | cmd/pokkum/upgrade.go:609-652 | takes the disk through exactly the specified states, byte by byte, to the specified end |
| `Replacement.Disk.ReplaceBinary` | cmd/pokkum/upgrade.go:535-573 | takes the disk through exactly the specified states for every pattern of failures |
| `ReplacementProofs.EveryInstantSafe` | cmd/pokkum/upgrade.go:535-652 | at every instant, crashes included, the new binary is complete at the target or the old one intact at target or backup, and no other path is touched |
| `ReplacementProofs.ReplaceOutcome` | cmd/pokkum/upgrade.go:535-573 | where each binary is at the end: success leaves the new bytes and mode at the target, failure the old binary at the target, or at the backup exactly when it had been moved and the rename back failed |
| `ReplacementProofs.TargetCompleteIff` | cmd/pokkum/upgrade.go:517-652 | success if and only if the move aside and the install work; the target ends with the old or the complete new binary if and only if that, or it was never moved, or moved back, or the copy left behind is complete |
| `ReplacementProofs.TargetCanEndWithNeither` | cmd/pokkum/upgrade.go:545-564 | the failures after which nothing is at the target and the old binary is at the backup |
| `ReplacementProofs.FreshInstallOutcome` | cmd/pokkum/upgrade.go:545-573 | a first install ends with the new binary or with nothing, unless removing a partial copy failed |
| `ReplacementProofs.RetrySafeIff` | cmd/pokkum/upgrade.go:535-573 | another attempt keeps a complete binary at every instant, whatever fails, if and only if the target is complete, or absent with a complete backup |
| `ReplacementProofs.CrashMidCopyIsNotRetrySafe` | cmd/pokkum/upgrade.go:609-652 | a crash in mid-copy leaves a disk where the old binary survives but another attempt may lose it |
| `Upgrade.ParseChecksumForFilename` | cmd/pokkum/upgrade.go:462-475 | returns the checksum on the first line that gives one |
| `Upgrade.ChecksumIsTheFirst` | cmd/pokkum/upgrade.go:462-475 | nothing is found exactly when no line gives one; what is found is on the first that does |
| `Upgrade.ListedDigestReadsBack` | cmd/pokkum/upgrade.go:462-475 | a checksums file in the usual format gives back exactly the digest listed for a name |
| `Upgrade.ExtractBinary` | cmd/pokkum/upgrade.go:484-514 | finds the first regular pokkum entry, whole and within the cap, or nothing |
| `Upgrade.Install` | cmd/pokkum/upgrade.go:392-436 | succeeds exactly when every step does, then with the new bytes and the previous binary's permission bits, 0755 if none; every instant is harmless |
| `Upgrade.RunUpgrade` | cmd/pokkum/upgrade.go:184-460 | Applied if and only if the signed checksums, the checksum, the archive entry and the install all hold, and then that entry is what is installed; check, offline and up-to-date runs change nothing |
| `Upgrade.WantedIsAsked` | cmd/pokkum/upgrade.go:226-243 | the version asked for, or else the latest tag, with or without its leading v, is the one fetched |
| `Layers.LocateFileInLayers` | cmd/pokkum/explain.go:499-538 | the reverse early-exit loop with its three flags gives the first settling layer's verdict, or the read error met before it |
| `Layers.ScanIsRight` | cmd/pokkum/explain.go:499-545 | the scan fails if and only if it comes to an unreadable layer first; any other answer agrees with folding all layers forward, whatever unread layers hold, if and only if layers and path are not misleading, a condition on them alone |
| `Layers.AnswersMean` | cmd/pokkum/explain.go:510-535 | found, deleted and ambiguous say of the layer they name exactly that it adds the path, that it only whites it out, or that it only resets a directory above it |
| `Layers.RemovedDirectoryStillFound` | cmd/pokkum/explain.go:515-524 | a two-layer image on which the scan finds a deleted file |
| `Layers.MarkerIsFound` | cmd/pokkum/explain.go:515-518 | a one-layer image on which it finds a whiteout marker as a file |
| `LayerPaths.VerdictByParts` | cmd/pokkum/explain.go:499-545 | what the scan reads off a layer, by path components and entry names alone |
| `LayerPaths.HidesByParts` | cmd/pokkum/explain.go:491-545 | what a layer's entry takes away of the layers below, by path components and entry names alone |
| `RollbackHistory.UpdateHistory` | cmd/pokkum/rollback.go:178-193 | the loop computes the displaced image, then the rest without target and displaced, capped at twenty |
| `RollbackHistory.BackConserves` | cmd/pokkum/rollback.go:133-193 | a generation rollback keeps the history distinct with the displaced image at its head, and loses no image if and only if it held at most twenty |
| `RollbackHistory.RollbacksConserve` | cmd/pokkum/rollback.go:133-193 | over any sequence of generation rollbacks the set of images is conserved |
| `RollbackHistory.TwiceRestoresIff` | cmd/pokkum/rollback.go:133-193 | two generation-1 rollbacks restore image and history if and only if nothing was dropped at the cap |
| `Manifest.ManifestFile.Rollback` | cmd/pokkum/rollback.go:68-226 | goes to the reference given, else to the entry that many generations back in the file's own history, and rewrites the lines as specified; without target or image it leaves them alone |
| `Manifest.ReplaceMatches` | cmd/pokkum/rollback.go:158-172 | every match rewritten, all counted, the first value remembered |
| `ManifestProofs.InjectedWhere` | cmd/pokkum/rollback.go:238-264 | a missing annotation goes right below the first annotations line, or into a new block below the first metadata line, indented under it, and no other line moves |
| `ManifestProofs.EscapedReadsBack` | cmd/pokkum/rollback.go:205-224 | quoting a value loses nothing |
| `RollbackProofs.CommandGoesBack` | cmd/pokkum/rollback.go:127-226 | the command that goes some generations back is that step of the history machine on the file it rewrites |
| `RollbackProofs.RollbackReadsBack` | cmd/pokkum/rollback.go:80-226 | re-parsing what a rollback wrote gives the target as image, and the updated history if and only if the file had somewhere to keep it |
| `RollbackProofs.OtherLinesUnchanged` | cmd/pokkum/rollback.go:158-264 | all lines but the image's and the two annotations' stay, in order, but for one annotations header that may be added |
| `RollbackProofs.FileFollowsHistory` | cmd/pokkum/rollback.go:68-264 | any sequence of rollback commands on a file is that sequence on the history machine |
| `ManifestPatterns.SpannedIff` | cmd/pokkum/rollback.go:80-91 | a line is read, and rewritten, exactly when the key's regular expression has some match in it |
| `ManifestPatterns.SpannedIsTheMatch` | cmd/pokkum/rollback.go:80-212 | what is captured, kept before and kept after is that of the match a greedy matcher prefers over every other |
| `Deploy.ValidateDeployConfig` | internal/core/deploy.go:173-248 | reports every complaint that is due and no other |
| `Deploy.NamesUnderstood` | internal/core/deploy.go:86-185 | without a target any other field set is complained of; a target and a method are each one of two names, whatever the case and the space around them |
| `Deploy.ResolveDeployRequest` | internal/core/deploy.go:305-436 | succeeds if and only if a target is set, every complaint of the validator is one of two tolerated ones, and the environment is ready; the request's fields are then as specified |
| `Deploy.LookupDeploySecret` | internal/core/deploy.go:446-456 | a variable named but empty is an error and not an absent secret |
| `Deploy.AgreesFieldByField` | internal/core/deploy.go:204-245 | the validator's rules on the fields are those resolution enforces, up to the two |
| `Deploy.CleanConfigResolves` | internal/core/deploy.go:173-436 | a configuration the validator says nothing about resolves exactly where the environment is ready for it |
| `Deploy.ResolvedComplaints` | internal/core/deploy.go:305-436 | a configuration whose resolution succeeds draws at most a bad file endpoint the environment overrides, or half a registry pair with update_image off |
| `Deploy.BothTolerated` | internal/core/deploy.go:329-408 | both complaints are drawn by configurations whose resolution succeeds: an unusable file endpoint under a usable one from the environment, and a user name without a password where no image is updated |
| `History.SelectHistoryChildManifest` | cmd/pokkum/history.go:319-353 | fails exactly when no candidate exists, never picks an attestation, and picks the first linux/amd64 child or a least one |
| `History.SortByKey` | cmd/pokkum/history.go:345-351 | a sorted rearrangement of the candidates |
| `History.OrderIs` | cmd/pokkum/history.go:345-351 | the order is by platform and then by digest, each by the first character that differs |
| `History.OrderIndependentIff` | cmd/pokkum/history.go:319-353 | the platform and digest picked are the same in every order of the children if and only if all linux/amd64 children agree |

## Left out

- The Cobra commands, flag tables, console and JSON output, and log lines: presentation only.
- Registry, kubectl, docker, bun, git and HTTP calls: ports that may answer anything.
- Computing digests: a destination reports one for what it published, and an uninterpreted function gives an image's own.
- Cryptography, gzip and tar decoding, URL, duration and image-reference parsing: uninterpreted functions.
- What `Check` of the remote cacher does to tags before it answers; the gate theorems are about what `Build` returns and prints.
- The logger, which `applyRouteExclusions` uses directly (internal/core/pipeline.go:3067): the wiring theorem is about the driven ports.
- The fields of the request that no modelled rule reads, and the tag and annotation a cache miss adds (internal/core/pipeline.go:1152-1158).
- An overlay directory the resolver returns empty: the model scans it all the same, with any answer.
- Cancellation inside the signing groups beyond what failing calls show; gctx is modelled where a goroutine waits on it.
- `layerPurposes`, `diffLayerSets` and `diffOneLayer`, `readIndexAnnotations`, `Deploy`, `ShouldAutoDeploy`, `ParsePlatform` and the enumeration parsers: they would only add easy members.
- White space other than blanks, tabs and line ends, and characters outside ASCII.
- Tar names that are not clean relative paths, such as directories with a trailing slash.
- Manifests with blank lines, carriage returns, or a key whose value is on the next line, where a pattern can match across lines; control and non-ASCII characters, which %q also escapes.
- The write probe of `checkUpgradeTarget`, whose own file is gone again before anything else happens, and the durability of writes that fsync governs.
- `Manifest.ManifestFile.Rollback`: does not model the write of the file failing, which leaves what the system wrote.
- `Upgrade.RunUpgrade`: does not model the report printed afterwards, whose encoding may fail once the binary is installed.
