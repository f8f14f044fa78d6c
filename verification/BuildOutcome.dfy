// What else Build keeps at every step: only wired ports are called, the tree is
// hashed with the exemptions the CVE gate applied, and the result says what the
// run did.
// Source: internal/core/pipeline.go.

module BuildOutcome {
  import opened Text
  import opened Request
  import opened Ports
  import opened CveGate
  import opened Build
  import opened BuildProofs
  import ErrGroup
  import FanOut
  import Signing

  // ---- Wiring --------------------------------------------------------------------------

  // The ports a dry run may call: none of them writes an image anywhere.
  const READ_ONLY: set<Port> :=
    {EnvBakeDetector, StaticViability, Compiler, Supervisor, StaticServer, BaseImages, Scanner, SecretGuard, NativeInspector}

  // What each port is there for: the request, or the options, that it is called for.
  predicate May(c: Config, p: Port)
  {
    match p
    case Supervisor => !c.req.compile.strategy.Static?
    case StaticServer => c.req.compile.strategy.Static?
    case StaticViability => c.req.compile.strategy.Static?
    case Scanner => !c.req.baseImage.offline && !c.req.hermetic
    case AssetOverlay => c.req.compile.overlayGenerations > 0 && !c.opts.dryRun
    case RemoteCache =>
      && c.req.output.mode.Push? && !c.req.compile.noCache && !c.opts.dryRun
      && (c.req.policy.sign ==> !c.req.cacheVerify.mode.VerifyNone? && c.req.cacheVerify.verifySignature)
    case BunRuntime => c.req.compile.strategy.Layered? && c.req.appRuntime.Bun? && !c.opts.dryRun
    case RouteFilter => |c.req.policy.excludeRoutes| > 0 && !c.opts.dryRun
    case Packager => !c.opts.dryRun
    case Sbom => (c.req.sbom.format.Spdx? || c.req.sbom.format.CycloneDx?) && !c.opts.dryRun
    case SlsaGenerator => Signs(c)
    case CosignSigner => Signs(c)
    case DsseSigner => Signs(c)
    case Registry => c.req.output.mode.Push? && Publishes(c)
    case Daemon => c.req.output.mode.Local? && Publishes(c)
    case Tarballs => c.req.output.mode.Tarball? && Publishes(c)
    case OciLayouts => c.req.output.mode.OciLayout? && Publishes(c)
    case _ => true
  }

  predicate Publishes(c: Config)
  {
    !c.opts.dryRun && !c.opts.printManifest
  }

  predicate Signs(c: Config)
  {
    c.req.policy.sign && c.req.output.mode.Push? && c.req.policy.signing.hasKey && Publishes(c)
  }

  function Allowed(c: Config): set<Port>
  {
    set p | p in c.deps && May(c, p)
  }

  // Only wired ports have been called, and the main goroutine is where the
  // request and the options allow it to be.
  predicate InBounds(c: Config, s: State)
  {
    && s.called <= Allowed(c)
    && (Accepted(c) || (s.pc.Setup? && s.pc.setup.Begin?) || (Ended(s.pc) && s.pc.result == Result(false, NoImage, None)))
    && (s.pc.Dry? ==> c.opts.dryRun)
    && (s.pc.Release? && s.pc.release.Publish? ==> !c.opts.printManifest)
    && (s.pc.Release? && s.pc.release.Manifest? ==> c.opts.printManifest)
    && (s.pc.After? || (Ended(s.pc) && s.pc.result.kind.Image?) ==> !c.opts.printManifest)
    && (|s.work.overlay| > 0 ==> c.req.compile.overlayGenerations > 0)
    && (s.pc.Gates? && s.pc.gates.CheckCache? ==> AllowCache(c))
    && (s.pc.After? && s.pc.after.AwaitSigning? ==> c.req.policy.sign && c.req.output.mode.Push? && c.req.policy.signing.hasKey)
    && (c.opts.dryRun ==> DryOnly(s))
  }

  // A dry run starts no goroutine, records nothing and calls only read-only ports.
  predicate DryOnly(s: State)
  {
    && s.gates.cve.Idle? && s.gates.secret.Idle? && s.trace == [] && s.called <= READ_ONLY
    && (s.pc.Setup? || s.pc.Dry? || Ended(s.pc))
    && (s.pc.Setup? ==> !s.pc.setup.Overlay? && !s.pc.setup.Dispatch?)
  }

  // Everything ValidateDeps promises about an accepted build.
  lemma AcceptedPorts(c: Config)
    requires Accepted(c) && (c.valid ==> Buildable(c.req))
    ensures {Compiler, BaseImages, Supervisor, NativeInspector} <= c.deps
    ensures c.req.compile.strategy.Static? ==> StaticServer in c.deps
    ensures c.req.compile.overlayGenerations > 0 ==> AssetOverlay in c.deps
    ensures !c.opts.dryRun ==> Packager in c.deps && (SbomEnabled(c.req.sbom.format) ==> Sbom in c.deps)
    ensures !c.opts.dryRun && c.req.policy.sign ==> {SlsaGenerator, CosignSigner, DsseSigner} <= c.deps
    ensures !c.opts.dryRun && !c.opts.printManifest ==> DestinationPort(c.req.output.mode) in c.deps
  {
  }

  // Which ports that makes, where each is called.
  lemma AllowedPorts(c: Config)
    requires Accepted(c) && (c.valid ==> Buildable(c.req))
    ensures {Compiler, BaseImages, NativeInspector} <= Allowed(c)
    ensures (if c.req.compile.strategy.Static? then StaticServer else Supervisor) in Allowed(c)
    ensures EnvBakeDetector in c.deps ==> EnvBakeDetector in Allowed(c)
    ensures SecretGuard in c.deps ==> SecretGuard in Allowed(c)
    ensures c.req.compile.strategy.Static? && StaticViability in c.deps ==> StaticViability in Allowed(c)
    ensures Scanner in c.deps && !NoNetwork(c.req) ==> Scanner in Allowed(c)
    ensures !c.opts.dryRun ==> LaterPorts(c)
  {
    hide Accepted, Buildable, LaterPorts;
    AcceptedPorts(c);
    if !c.opts.dryRun {
      BuildPorts(c);
    }
  }

  lemma BuildPorts(c: Config)
    requires Accepted(c) && (c.valid ==> Buildable(c.req)) && !c.opts.dryRun
    ensures LaterPorts(c)
  {
    hide ValidateDeps;
    AcceptedPorts(c);
  }

  predicate LaterPorts(c: Config)
  {
    && (c.req.compile.overlayGenerations > 0 ==> AssetOverlay in Allowed(c))
    && (AllowCache(c) ==> RemoteCache in Allowed(c))
    && (|c.req.policy.excludeRoutes| > 0 && RouteFilter in c.deps ==> RouteFilter in Allowed(c))
    && Packager in Allowed(c) && (SbomEnabled(c.req.sbom.format) ==> Sbom in Allowed(c))
    && (ResolveBun(c) ==> BunRuntime in Allowed(c))
    && (!c.opts.printManifest ==> DestinationPort(c.req.output.mode) in Allowed(c))
    && (!c.opts.printManifest && c.req.policy.sign && c.req.output.mode.Push? && c.req.policy.signing.hasKey ==>
          {SlsaGenerator, CosignSigner, DsseSigner} <= Allowed(c))
  }

  // ---- The cache key ------------------------------------------------------------------------

  // req.Runtime.VEXExemptions once the CVE gate has been joined.
  function Effective(c: Config, g: GateState): set<string>
  {
    if g.applied != {} then g.applied else c.req.runtime.vexExemptions
  }

  predicate BeforeLookup(pc: Pc)
  {
    pc.Setup? || (pc.Gates? && !pc.gates.JoinSecret? && !pc.gates.PrintHit?)
  }

  // The one hit there can be, and the exemptions every tree hash was taken with.
  ghost predicate CacheAt(c: Config, s: State)
  {
    && (s.pc.Setup? || (s.pc.Dry? && s.pc.dry.ScanCves?) || (s.pc.Gates? && s.pc.gates.JoinCve?) ==>
          s.cache.vex == c.req.runtime.vexExemptions)
    && (s.pc.Gates? && !s.pc.gates.JoinCve? ==> s.cache.vex == Effective(c, s.gates))
    && (forall e | e in s.trace && e.TreeHashed? :: e.vex == Effective(c, s.gates))
    && (forall v :: CacheAnswered(v) in s.trace <==> s.cache.hit == Some(v))
    && (s.cache.hit.Some? ==> AllowCache(c) && !BeforeLookup(s.pc))
  }

  // ---- Signing and the result ---------------------------------------------------------------

  // What BuildResult.Signing says of a published image.
  function Asked(c: Config): Option<bool>
  {
    if !c.req.policy.sign then None
    else Some(c.req.output.mode.Push? && c.req.policy.signing.hasKey)
  }

  // What has been published is the platforms' images under the digest the
  // destination reported, and that digest and theirs are what is signed.
  ghost predicate PublishedAt(c: Config, s: State)
  {
    s.pc.After? || (Ended(s.pc) && s.pc.result.kind.Image?) ==>
      && s.sig.published.Some?
      && (forall e | e in s.trace && e.Published? :: e == Published(s.sig.published.value, PayloadOf(c, s.fan)))
      && ((s.pc.After? && s.pc.after.AwaitSigning?) || s.sig.signed == Some(true) ==>
            SubjectsRight(c, s.fan, s.sig) && SbomRight(c, s.trace, s.sig.cfg))
  }

  // The SBOM is signed as well, exactly when one is asked for and has content.
  predicate SbomRight(c: Config, trace: seq<Event>, cfg: Signing.Config)
  {
    exists e | e in trace :: e.SigningStarted? && (cfg.sbom <==> SbomEnabled(c.req.sbom.format) && !e.emptySbom)
  }

  predicate SubjectsRight(c: Config, fan: FanOut.State, sig: SignState)
    requires sig.published.Some?
  {
    (Multi(c) ==> ImagesReadable(c, fan)) && sig.cfg.subjects == SubjectsOf(c, fan, sig.published.value)
  }

  // Every subject of the finished signing stage was read back and verified.
  ghost predicate AllVerified(sig: SignState)
  {
    Signing.Inv(sig.cfg, sig.st) && sig.st.phase.Signed?
  }

  ghost predicate SignAt(c: Config, s: State)
  {
    && (!(s.pc.After? && s.pc.after.AwaitSigning?) ==> Settled(s.sig.st))
    && (s.pc.After? && s.pc.after.AwaitSigning? ==> Signing.Inv(s.sig.cfg, s.sig.st))
    && (s.sig.signed == Some(true) ==> AllVerified(s.sig))
    && (!Ended(s.pc) && !(s.pc.After? && s.pc.after.PrintRef?) ==> s.sig.signed.None?)
    && (s.pc.After? && s.pc.after.PrintRef? ==> s.sig.signed == Asked(c))
  }

  // No signing goroutine is in flight.
  predicate Settled(st: Signing.State)
  {
    forall i | 0 <= i < |st.pcs| :: !Signing.Active(st.pcs[i])
  }

  // What was printed and published, and what the result says about it.
  predicate Told(c: Config, s: State)
  {
    && (HasPublished(s.trace) <==> s.pc.After? || (Ended(s.pc) && s.pc.result.kind.Image?))
    && (CachePrinted in s.trace <==> Ended(s.pc) && s.pc.result.ok && s.pc.result.kind.FromCache?)
    && (RefPrinted in s.trace <==> Ended(s.pc) && s.pc.result.ok && s.pc.result.kind.Image?)
    && (Ended(s.pc) ==> Answer(c, s, s.pc.result))
  }

  predicate Answer(c: Config, s: State, r: Result)
  {
    match r.kind
    case NoImage => !r.ok && r.signed.None?
    case Plan => c.opts.dryRun && r.signed.None?
    case FromCache => s.cache.hit.Some? && r.signed == if c.req.policy.sign then s.cache.hit else None
    case ManifestOnly => c.opts.printManifest && r.signed.None?
    case Image => r.signed == s.sig.signed && (r.ok ==> r.signed == Asked(c))
  }

  ghost predicate Faithful(c: Config, s: State)
  {
    CacheAt(c, s) && SignAt(c, s) && PublishedAt(c, s) && Told(c, s)
  }

  // ---- Wiring is kept ----------------------------------------------------------------------

  lemma BeginWired(c: Config, s: State, r: Reply)
    requires InBounds(c, s) && s.pc.Setup? && s.pc.setup.Begin?
    ensures InBounds(c, SetupStep(c, s, r))
  {
    hide Accepted;
  }

  lemma EarlyWired(c: Config, s: State, r: Reply)
    requires InBounds(c, s) && (c.valid ==> Buildable(c.req)) && s.pc.Setup? && !s.pc.setup.Begin?
    requires s.pc.setup.DetectEnv? || s.pc.setup.Viability?
    ensures InBounds(c, SetupStep(c, s, r))
  {
    hide Accepted, Buildable, Allowed;
    AllowedPorts(c);
  }

  lemma SetupWired(c: Config, s: State, r: Reply)
    requires InBounds(c, s) && (c.valid ==> Buildable(c.req)) && s.pc.Setup? && !s.pc.setup.Begin?
    requires s.pc.setup.Preflight? || s.pc.setup.RunnerVersion? || s.pc.setup.Dispatch?
    ensures InBounds(c, SetupStep(c, s, r))
  {
    hide Accepted, Buildable, Allowed;
    AllowedPorts(c);
  }

  lemma ResolveWired(c: Config, s: State, r: Reply)
    requires InBounds(c, s) && (c.valid ==> Buildable(c.req)) && s.pc.Setup? && (s.pc.setup.ResolveBase? || s.pc.setup.Overlay?)
    ensures InBounds(c, SetupStep(c, s, r))
  {
    hide Accepted, Buildable, Allowed;
    AllowedPorts(c);
  }

  lemma DryScansWired(c: Config, s: State, r: Reply)
    requires InBounds(c, s) && (c.valid ==> Buildable(c.req)) && s.pc.Dry? && DryStep(c, s, r).Some?
    requires s.pc.dry.ScanSecrets? || s.pc.dry.VerifyBase?
    ensures InBounds(c, DryStep(c, s, r).value)
  {
    hide Accepted, Buildable, Allowed;
    AllowedPorts(c);
  }

  lemma DryWired(c: Config, s: State, r: Reply)
    requires InBounds(c, s) && (c.valid ==> Buildable(c.req)) && s.pc.Dry? && DryStep(c, s, r).Some?
    requires !s.pc.dry.ScanSecrets? && !s.pc.dry.VerifyBase?
    ensures InBounds(c, DryStep(c, s, r).value)
  {
    hide Accepted, Buildable, Allowed;
    AllowedPorts(c);
  }

  lemma JoinsWired(c: Config, s: State, r: Reply)
    requires InBounds(c, s) && (c.valid ==> Buildable(c.req)) && s.pc.Gates? && GatesStep(c, s, r).Some?
    requires s.pc.gates.JoinCve? || s.pc.gates.JoinForWrite? || s.pc.gates.WriteLock?
    ensures InBounds(c, GatesStep(c, s, r).value)
  {
    hide Accepted, Buildable, Allowed;
    AllowedPorts(c);
  }

  lemma LookupWired(c: Config, s: State, r: Reply)
    requires InBounds(c, s) && (c.valid ==> Buildable(c.req)) && s.pc.Gates? && GatesStep(c, s, r).Some?
    requires !s.pc.gates.JoinCve? && !s.pc.gates.JoinForWrite? && !s.pc.gates.WriteLock?
    ensures InBounds(c, GatesStep(c, s, r).value)
  {
    hide Accepted, Buildable, Allowed;
    AllowedPorts(c);
  }

  lemma WorkWired(c: Config, s: State, r: Reply)
    requires InBounds(c, s) && (c.valid ==> Buildable(c.req)) && s.pc.Work? && WorkStep(c, s, r).Some?
    ensures InBounds(c, WorkStep(c, s, r).value)
  {
    hide Accepted, Buildable, ErrGroup.Drained, BuildTasks, Allowed;
    AllowedPorts(c);
  }

  lemma PostScanWired(c: Config, s: State, r: Reply)
    requires InBounds(c, s) && (c.valid ==> Buildable(c.req)) && s.pc.Check? && s.pc.check.PostScan?
    ensures InBounds(c, PostScanStep(c, s, r))
  {
    hide Accepted, Buildable, ScanDirs, Allowed;
    AllowedPorts(c);
  }

  lemma OverlayScanWired(c: Config, s: State, r: Reply)
    requires InBounds(c, s) && (c.valid ==> Buildable(c.req)) && s.pc.Check? && s.pc.check.OverlayScan?
    ensures InBounds(c, OverlayScanStep(c, s, r))
  {
    hide Accepted, Buildable, Allowed;
    AllowedPorts(c);
  }

  lemma RoutesWired(c: Config, s: State, r: Reply)
    requires InBounds(c, s) && (c.valid ==> Buildable(c.req)) && s.pc.Check? && s.pc.check.Routes?
    ensures InBounds(c, RoutesStep(c, s, r))
  {
    hide Accepted, Buildable, FanOut.Init, Allowed;
    AllowedPorts(c);
  }

  lemma FanningWired(c: Config, s: State, r: Reply)
    requires InBounds(c, s) && (c.valid ==> Buildable(c.req)) && s.pc.Check? && s.pc.check.Fanning? && CheckStep(c, s, r).Some?
    ensures InBounds(c, CheckStep(c, s, r).value)
  {
    hide Accepted, Buildable, FanOut.Drained, Allowed;
    AllowedPorts(c);
  }

  lemma IndexWired(c: Config, s: State, r: Reply)
    requires InBounds(c, s) && (c.valid ==> Buildable(c.req)) && s.pc.Release? && s.pc.release.Index?
    ensures InBounds(c, ReleaseStep(c, s, r))
  {
    hide Accepted, Buildable, Allowed, FanOut.ImageMap, Built;
    AllowedPorts(c);
  }

  lemma ReleaseWired(c: Config, s: State, r: Reply)
    requires InBounds(c, s) && (c.valid ==> Buildable(c.req)) && s.pc.Release? && !s.pc.release.Index?
    ensures InBounds(c, ReleaseStep(c, s, r))
  {
    hide Accepted, Buildable, Allowed, FanOut.ImageMap, Built;
    AllowedPorts(c);
  }

  lemma AfterWired(c: Config, s: State, r: Reply)
    requires InBounds(c, s) && (c.valid ==> Buildable(c.req)) && s.pc.After? && AfterStep(c, s, r).Some?
    ensures InBounds(c, AfterStep(c, s, r).value)
  {
    hide Accepted, Buildable, SubjectsReadable, Allowed;
    AllowedPorts(c);
  }

  // ---- The record is kept ---------------------------------------------------------------------

  // Events that say nothing about the cache or the result.
  predicate Plain(e: Event)
  {
    !e.TreeHashed? && !e.CacheAnswered? && !e.CachePrinted? && !e.Published? && !e.RefPrinted?
  }

  // A step within the stages that touches neither cache nor signing record and
  // at most fails.
  ghost predicate Ordinary(s: State, t: State)
  {
    && t.gates.applied == s.gates.applied && t.cache == s.cache && t.sig == s.sig
    && !Ended(s.pc) && !s.pc.After? && !t.pc.After?
    && (Ended(t.pc) ==> t.pc.result == Result(false, NoImage, None))
    && (t.pc.Setup? ==> s.pc.Setup?)
    && (BeforeLookup(t.pc) ==> BeforeLookup(s.pc))
    && (t.pc.Gates? && t.pc.gates.JoinCve? ==> s.pc.Setup?) && (t.pc.Dry? && t.pc.dry.ScanCves? ==> s.pc.Setup?)
    && (t.pc.Gates? && !t.pc.gates.JoinCve? ==> s.pc.Gates? && !s.pc.gates.JoinCve? && !t.pc.gates.CheckCache?)
    && s.trace <= t.trace
    && (forall e | e in t.trace[|s.trace|..] :: Plain(e))
  }

  lemma OrdinaryFaithful(c: Config, s: State, t: State)
    requires Faithful(c, s) && Ordinary(s, t)
    ensures Faithful(c, t)
  {
    hide AllVerified, SubjectsRight, PayloadOf, AllowCache, Settled;
    assert t.trace == s.trace + t.trace[|s.trace|..];
  }

  lemma EarlyFaithful(c: Config, s: State, r: Reply)
    requires Faithful(c, s) && s.pc.Setup? && (s.pc.setup.Begin? || s.pc.setup.DetectEnv? || s.pc.setup.Viability?)
    ensures Faithful(c, SetupStep(c, s, r))
  {
    hide Faithful, Accepted;
    OrdinaryFaithful(c, s, SetupStep(c, s, r));
  }

  lemma SetupFaithful(c: Config, s: State, r: Reply)
    requires Faithful(c, s) && s.pc.Setup? && (s.pc.setup.Preflight? || s.pc.setup.RunnerVersion? || s.pc.setup.Dispatch?)
    ensures Faithful(c, SetupStep(c, s, r))
  {
    hide Faithful, Accepted;
    OrdinaryFaithful(c, s, SetupStep(c, s, r));
  }

  lemma ResolveFaithful(c: Config, s: State, r: Reply)
    requires Faithful(c, s) && s.pc.Setup? && (s.pc.setup.ResolveBase? || s.pc.setup.Overlay?)
    ensures Faithful(c, SetupStep(c, s, r))
  {
    hide Faithful;
    OrdinaryFaithful(c, s, SetupStep(c, s, r));
  }

  lemma WorkFaithful(c: Config, s: State, r: Reply)
    requires Faithful(c, s) && s.pc.Work? && WorkStep(c, s, r).Some?
    ensures Faithful(c, WorkStep(c, s, r).value)
  {
    hide Faithful, ErrGroup.Drained, BuildTasks;
    OrdinaryFaithful(c, s, WorkStep(c, s, r).value);
  }

  lemma PostScanFaithful(c: Config, s: State, r: Reply)
    requires Faithful(c, s) && s.pc.Check? && s.pc.check.PostScan?
    ensures Faithful(c, PostScanStep(c, s, r))
  {
    hide Faithful, ScanDirs;
    OrdinaryFaithful(c, s, PostScanStep(c, s, r));
  }

  lemma OverlayScanFaithful(c: Config, s: State, r: Reply)
    requires Faithful(c, s) && s.pc.Check? && s.pc.check.OverlayScan?
    ensures Faithful(c, OverlayScanStep(c, s, r))
  {
    hide Faithful;
    OrdinaryFaithful(c, s, OverlayScanStep(c, s, r));
  }

  lemma RoutesFaithful(c: Config, s: State, r: Reply)
    requires Faithful(c, s) && s.pc.Check? && s.pc.check.Routes?
    ensures Faithful(c, RoutesStep(c, s, r))
  {
    hide Faithful, FanOut.Init;
    OrdinaryFaithful(c, s, RoutesStep(c, s, r));
  }

  lemma FanningFaithful(c: Config, s: State, r: Reply)
    requires Faithful(c, s) && s.pc.Check? && s.pc.check.Fanning? && CheckStep(c, s, r).Some?
    ensures Faithful(c, CheckStep(c, s, r).value)
  {
    hide Faithful, FanOut.Drained;
    OrdinaryFaithful(c, s, CheckStep(c, s, r).value);
  }

  lemma IndexFaithful(c: Config, s: State, r: Reply)
    requires Faithful(c, s) && s.pc.Release? && s.pc.release.Index?
    ensures Faithful(c, ReleaseStep(c, s, r))
  {
    hide Faithful, FanOut.ImageMap, Built;
    OrdinaryFaithful(c, s, ReleaseStep(c, s, r));
  }

  lemma DryFaithful(c: Config, s: State, r: Reply)
    requires Faithful(c, s) && s.pc.Dry? && !s.pc.dry.PrintPlan? && DryStep(c, s, r).Some?
    ensures Faithful(c, DryStep(c, s, r).value)
  {
    hide Faithful;
    OrdinaryFaithful(c, s, DryStep(c, s, r).value);
  }

  lemma PlanFaithful(c: Config, s: State, r: Reply)
    requires Faithful(c, s) && InBounds(c, s) && s.pc.Dry? && s.pc.dry.PrintPlan?
    ensures DryStep(c, s, r).Some? && Faithful(c, DryStep(c, s, r).value)
  {
    hide AllVerified, SubjectsRight, PayloadOf, Signing.Inv, Settled, AllowCache;
  }

  // The joins that only let the build go on or stop it.
  lemma JoinFaithful(c: Config, s: State, r: Reply)
    requires Faithful(c, s) && s.pc.Gates? && GatesStep(c, s, r).Some?
    requires s.pc.gates.JoinForWrite? || s.pc.gates.WriteLock? || s.pc.gates.JoinSecret?
    ensures Faithful(c, GatesStep(c, s, r).value)
  {
    hide Faithful;
    OrdinaryFaithful(c, s, GatesStep(c, s, r).value);
  }

  // Joining the CVE gate puts its exemptions in force before any hash.
  lemma JoinCveFaithful(c: Config, s: State, r: Reply)
    requires Faithful(c, s) && s.pc.Gates? && s.pc.gates.JoinCve? && GatesStep(c, s, r).Some?
    ensures Faithful(c, GatesStep(c, s, r).value)
  {
    hide AllVerified, SubjectsRight, PayloadOf, Signing.Inv, Settled, AllowCache;
  }

  lemma HashFaithful(c: Config, s: State, r: Reply)
    requires Faithful(c, s) && s.pc.Gates? && s.pc.gates.HashTree?
    ensures GatesStep(c, s, r).Some? && Faithful(c, GatesStep(c, s, r).value)
  {
    hide AllVerified, SubjectsRight, PayloadOf, Signing.Inv, Settled, AllowCache;
  }

  lemma MissFaithful(c: Config, s: State, r: Reply)
    requires Faithful(c, s) && s.pc.Gates? && s.pc.gates.CheckCache? && !(r.CacheReply? && r.hit)
    ensures GatesStep(c, s, r).Some? && Faithful(c, GatesStep(c, s, r).value)
  {
    hide Faithful;
    OrdinaryFaithful(c, s, GatesStep(c, s, r).value);
  }

  lemma LookupFaithful(c: Config, s: State, r: Reply)
    requires Faithful(c, s) && InBounds(c, s) && s.pc.Gates? && s.pc.gates.CheckCache? && r.CacheReply? && r.hit
    ensures GatesStep(c, s, r).Some? && Faithful(c, GatesStep(c, s, r).value)
  {
    hide AllVerified, SubjectsRight, PayloadOf, Signing.Inv, Settled, AllowCache;
  }

  lemma HitFaithful(c: Config, s: State, r: Reply)
    requires Faithful(c, s) && GatesAt(s) && s.pc.Gates? && s.pc.gates.PrintHit?
    ensures GatesStep(c, s, r).Some? && Faithful(c, GatesStep(c, s, r).value)
  {
    hide AllVerified, SubjectsRight, PayloadOf, Signing.Inv, Settled, AllowCache;
  }

  lemma PublishFaithful(c: Config, s: State, r: Reply)
    requires Faithful(c, s) && InBounds(c, s) && s.pc.Release? && !s.pc.release.Index?
    ensures Faithful(c, ReleaseStep(c, s, r))
  {
    hide AllVerified, SubjectsRight, PayloadOf, Signing.Inv, Settled, AllowCache;
    var t := ReleaseStep(c, s, r);
    if t.trace != s.trace {
      assert t.trace[|s.trace|] in t.trace;
    }
  }

  lemma SbomFaithful(c: Config, s: State, r: Reply)
    requires Faithful(c, s) && InBounds(c, s) && s.pc.After? && AfterStep(c, s, r).Some?
    requires s.pc.after.AttachSbom?
    ensures Faithful(c, AfterStep(c, s, r).value)
  {
    hide AllVerified, SubjectsRight, PayloadOf, Signing.Inv, Settled, AllowCache, SbomRight, InBounds;
  }

  lemma PrintFaithful(c: Config, s: State, r: Reply)
    requires Faithful(c, s) && InBounds(c, s) && s.pc.After? && AfterStep(c, s, r).Some?
    requires s.pc.after.PrintRef?
    ensures Faithful(c, AfterStep(c, s, r).value)
  {
    hide AllVerified, SubjectsRight, PayloadOf, Signing.Inv, Settled, AllowCache, InBounds;
  }

  lemma StartFaithful(c: Config, s: State, r: Reply)
    requires Faithful(c, s) && InBounds(c, s) && s.pc.After? && s.pc.after.StartSigning? && AfterStep(c, s, r).Some?
    requires AfterStep(c, s, r).value.pc == After(AwaitSigning)
    ensures Faithful(c, AfterStep(c, s, r).value)
  {
    hide Signing.Inv, Signing.Init, AllowCache, AllVerified, PayloadOf, ImagesReadable, SubjectsOf, Settled, InBounds;
    var t := AfterStep(c, s, r).value;
    Signing.InitInv(SigningConfig(c, s, r));
    assert t.trace[|s.trace|] in t.trace;
  }

  lemma UnsignedFaithful(c: Config, s: State, r: Reply)
    requires Faithful(c, s) && InBounds(c, s) && s.pc.After? && s.pc.after.StartSigning? && AfterStep(c, s, r).Some?
    requires AfterStep(c, s, r).value.pc != After(AwaitSigning)
    ensures Faithful(c, AfterStep(c, s, r).value)
  {
    hide Signing.Inv, AllowCache, AllVerified, PayloadOf, SubjectsReadable, SigningConfig, SubjectsOf, ImagesReadable,
         Settled, InBounds;
  }

  lemma AwaitFaithful(c: Config, s: State, r: Reply)
    requires Faithful(c, s) && InBounds(c, s) && s.pc.After? && s.pc.after.AwaitSigning? && AfterStep(c, s, r).Some?
    ensures Faithful(c, AfterStep(c, s, r).value)
  {
    hide Signing.Inv, AllowCache, PayloadOf, SubjectsOf, ImagesReadable, Settled;
    FinishedSettled(s.sig.cfg, s.sig.st);
  }

  lemma FinishedSettled(cfg: Signing.Config, st: Signing.State)
    requires Signing.Inv(cfg, st) && (st.phase.Signed? || st.phase.Unsigned?)
    ensures Settled(st)
  {
  }

  lemma LeavingFaithful(c: Config, s: State, r: Reply)
    requires Faithful(c, s) && Ended(s.pc) && MainStep(c, s, r).Some?
    ensures Faithful(c, MainStep(c, s, r).value)
  {
    hide AllVerified, SubjectsRight, PayloadOf, Signing.Inv, Settled, AllowCache;
  }

  // ---- The other goroutines' steps -----------------------------------------------------------

  lemma CveSane(c: Config, s: State, scan: ScanReply)
    requires OnTrack(c, s) && InBounds(c, s) && Faithful(c, s) && CveStep(c, s, scan).Some? && s.gates.cve.Running?
    ensures InBounds(c, CveStep(c, s, scan).value) && Faithful(c, CveStep(c, s, scan).value)
  {
    hide OutputScanned, TasksAt, FanAt, TasksDone, AllVerified, SubjectsRight, PayloadOf, Settled, Accepted,
         AllowCache, ScanBaseImage;
  }

  lemma DryCveSane(c: Config, s: State, scan: ScanReply)
    requires OnTrack(c, s) && InBounds(c, s) && Faithful(c, s) && CveStep(c, s, scan).Some? && !s.gates.cve.Running?
    ensures InBounds(c, CveStep(c, s, scan).value) && Faithful(c, CveStep(c, s, scan).value)
  {
    hide OutputScanned, TasksAt, FanAt, TasksDone, AllVerified, SubjectsRight, PayloadOf, Settled, Accepted,
         AllowCache, ScanBaseImage;
  }

  lemma SecretSane(c: Config, s: State, clean: bool)
    requires OnTrack(c, s) && InBounds(c, s) && Faithful(c, s) && SecretStep(c, s, clean).Some?
    ensures InBounds(c, SecretStep(c, s, clean).value) && Faithful(c, SecretStep(c, s, clean).value)
  {
    hide TasksAt, FanAt, Progress, TasksDone, AllVerified, SubjectsRight, PayloadOf, Settled, Accepted,
         AllowCache;
  }

  lemma TaskPortWired(c: Config, i: nat)
    requires Accepted(c) && !c.opts.dryRun && (c.valid ==> Buildable(c.req)) && i < |BuildTasks(c)|
    ensures TaskPort(BuildTasks(c)[i]) in Allowed(c)
  {
    AllowedPorts(c);
  }

  lemma TaskSane(c: Config, s: State, i: nat, ok: bool, prep: Prep)
    requires InBounds(c, s) && Faithful(c, s) && (c.valid ==> Buildable(c.req)) && TaskStep(c, s, i, ok, prep).Some?
    ensures InBounds(c, TaskStep(c, s, i, ok, prep).value) && Faithful(c, TaskStep(c, s, i, ok, prep).value)
  {
    hide AllVerified, SubjectsRight, PayloadOf, Settled, Accepted, AllowCache, BuildTasks, TaskPort, Faithful,
         Buildable;
    TaskPortWired(c, i);
    OrdinaryFaithful(c, s, TaskStep(c, s, i, ok, prep).value);
  }

  lemma FanCallsWired(c: Config, base: Base, prep: Prep, fan: FanOut.State, act: FanOut.Action)
    requires Accepted(c) && !c.opts.dryRun && (c.valid ==> Buildable(c.req))
    requires FanOut.Inv(FanConfig(c, base, prep), fan) && FanOut.Step(FanConfig(c, base, prep), fan, act).Some?
    ensures FanOut.Calls(FanConfig(c, base, prep), fan, act) <= Allowed(c)
  {
    hide Accepted;
    AllowedPorts(c);
  }

  lemma FanSane(c: Config, s: State, act: FanOut.Action)
    requires FanAt(c, s) && InBounds(c, s) && Faithful(c, s) && (c.valid ==> Buildable(c.req)) && FanStep(c, s, act).Some?
    ensures InBounds(c, FanStep(c, s, act).value) && Faithful(c, FanStep(c, s, act).value)
  {
    hide AllVerified, SubjectsRight, PayloadOf, Settled, Accepted, AllowCache, FanOut.Inv, FanOut.Step,
         FanOut.Calls, Faithful, Buildable;
    FanCallsWired(c, s.work.base, s.work.prep, s.fan, act);
    OrdinaryFaithful(c, s, FanStep(c, s, act).value);
  }

  lemma SignCallsWired(c: Config, st: Signing.State, act: Signing.Action)
    requires Accepted(c) && !c.opts.dryRun && !c.opts.printManifest && (c.valid ==> Buildable(c.req))
    requires c.req.policy.sign && c.req.output.mode.Push? && c.req.policy.signing.hasKey
    ensures Signing.Calls(st, act) <= Allowed(c)
  {
    hide Accepted;
    AllowedPorts(c);
  }

  lemma SignSane(c: Config, s: State, act: Signing.Action)
    requires InBounds(c, s) && Faithful(c, s) && (c.valid ==> Buildable(c.req)) && SignStep(s, act).Some?
    ensures InBounds(c, SignStep(s, act).value) && Faithful(c, SignStep(s, act).value)
  {
    hide Settled, Accepted, AllowCache, Signing.Inv, Signing.Step, Signing.Calls, Buildable;
    SignCallsWired(c, s.sig.st, act);
    Signing.StepKeepsInv(s.sig.cfg, s.sig.st, act);
  }
}
