// Build as a transition system: the main goroutine's stages, the two gate
// goroutines, the Stage 5 errgroup, the fan-out and the signing stage, over
// every interleaving and every outcome of the driven ports.
// Source: internal/core/pipeline.go, Build.

module Build {
  import opened Text
  import opened Request
  import opened Ports
  import opened CveGate
  import ErrGroup
  import FanOut
  import Signing

  datatype Gate = Idle | Running | Done(ok: bool)
  datatype GateName = Cve | Secret

  // One call of Build. req is the request after Normalize; valid says whether
  // Validate accepted it; dirOf is filepath.Dir; digestOf is what v1.Image.Digest
  // says of an image.
  datatype Config = Config(
    req: Request, valid: bool, deps: Deps, opts: Options, failEnv: FailEnv, dirOf: string -> string,
    digestOf: FanOut.Image -> Option<Signing.Hash>)

  datatype Kind = NoImage | Plan | FromCache | ManifestOnly | Image

  // What Build returns: success or error, what the result describes, and
  // BuildResult.Signing.Signed when Signing is set.
  datatype Result = Result(ok: bool, kind: Kind, signed: Option<bool>)

  // The main goroutine: what it does next, stage by stage.
  datatype SetupPc = Begin | DetectEnv | Viability | Preflight | RunnerVersion | ResolveBase | Overlay | Dispatch
  datatype DryPc = ScanCves | ScanSecrets | VerifyBase | Inspect | PrintPlan
  datatype GatesPc = JoinCve | JoinForWrite | WriteLock | HashTree | CheckCache | JoinSecret | PrintHit
  datatype WorkPc = OverlayDir | WorkDir | StartTasks | AwaitTasks
  datatype CheckPc = PostScan | OverlayScan | Routes | Fanning
  datatype ReleasePc = Index | Manifest | Publish
  datatype AfterPc = AttachSbom | StartSigning | AwaitSigning | PrintRef

  datatype Pc =
    | Setup(setup: SetupPc)       // stages 1 to 3, and the asset overlay
    | Dry(dry: DryPc)             // stage 4
    | Gates(gates: GatesPc)       // stages 4.45 and 4.5
    | Work(work: WorkPc)          // stage 5
    | Check(check: CheckPc)       // stages 5.5 and 6
    | Release(release: ReleasePc) // stages 7 to 9
    | After(after: AfterPc)       // stages 10 to 11
    | Unwinding(result: Result)   // returning: deferred calls run first
    | Returned(result: Result)

  datatype BuildTask = PrepareTask | VerifyTask | InspectTask | BunTask(i: nat)
  datatype Base = Base(images: map<Platform, FanOut.Image>, audit: Audit)

  // What is published: the one image, or the index over several.
  datatype Payload = OneImage(image: FanOut.Image) | IndexOf(images: map<Platform, FanOut.Image>)

  datatype Event =
    | GateDone(gate: GateName, passed: bool)
    | LockWritten
    | TreeHashed(vex: set<string>)
    | CacheAnswered(verified: bool)
    | CachePrinted
    | TaskDone(task: BuildTask)
    | PreparedAs(prep: Prep)
    | DirCleared(dir: string)
    | OverlayCleared
    | PlatformsBuilt(packaged: set<FanOut.Packaging>)
    | Indexed(images: map<Platform, FanOut.Image>)
    | Published(digest: Signing.Hash, payload: Payload)
    | SbomAttached
    | SigningStarted(emptySbom: bool)
    | RefPrinted

  // The two gate goroutines; applied and recorded are the variables the CVE
  // goroutine writes for the main one to read after the join.
  datatype GateState = GateState(cve: Gate, secret: Gate, applied: set<string>, recorded: bool)

  // vex is req.Runtime.VEXExemptions; hit is the confirmed hit's verified flag.
  datatype CacheState = CacheState(vex: set<string>, hashed: bool, hit: Option<bool>)
  datatype WorkState = WorkState(base: Base, overlay: seq<string>, group: ErrGroup.Group, prep: Prep, dirs: nat)

  // published is the digest the destination reported; signed is
  // BuildResult.Signing.Signed, when Signing is set.
  datatype SignState = SignState(cfg: Signing.Config, st: Signing.State, signed: Option<bool>, published: Option<Signing.Hash>)

  datatype State = State(
    pc: Pc, cancelled: bool, gates: GateState, cache: CacheState, work: WorkState,
    fan: FanOut.State, sig: SignState, called: set<Port>, trace: seq<Event>)

  // What the call the main goroutine is making answers.
  datatype Reply =
    | Ok | Err
    | Resolved(base: Base)
    | Generations(digests: seq<string>)
    | CacheReply(hit: bool, verified: bool)
    | PublishedAs(digest: Signing.Hash)
    | Document(empty: bool, json: bool)           // the SBOM document's content

  datatype Action =
    | Cancel                                      // the caller's context ends
    | CveEnds(scan: ScanReply)
    | SecretEnds(clean: bool)
    | TaskEnds(i: nat, ok: bool, prep: Prep)
    | FanActs(fanAct: FanOut.Action)
    | SignActs(signAct: Signing.Action)
    | Main(reply: Reply)

  // ---- What the request decides ------------------------------------------------

  predicate Accepted(c: Config)
  {
    c.valid && !(c.opts.dryRun && c.opts.printManifest) && ValidateDeps(c.deps, c.req, c.opts) == Wired
  }

  predicate AllowCache(c: Config)
  {
    && RemoteCache in c.deps && c.req.output.mode.Push? && !c.req.compile.noCache
    && !(c.req.policy.sign && (c.req.cacheVerify.mode == VerifyNone || !c.req.cacheVerify.verifySignature))
  }

  predicate ResolveBun(c: Config)
  {
    c.req.compile.strategy.Layered? && c.req.appRuntime.Bun? && BunRuntime in c.deps && |c.req.platforms| > 0
  }

  predicate Multi(c: Config)
  {
    |c.req.platforms| > 1
  }

  // The tasks of the Stage 5 errgroup, in dispatch order.
  function BuildTasks(c: Config): (r: seq<BuildTask>)
    ensures |r| >= 2 && r[0] == PrepareTask
  {
    [PrepareTask]
    + (if c.req.baseImage.noVerifyBase then [] else [VerifyTask])
    + [InspectTask]
    + (if ResolveBun(c) then seq(|c.req.platforms|, (i: nat) => BunTask(i)) else [])
  }

  function TaskPort(t: BuildTask): Port
  {
    match t
    case PrepareTask => Compiler
    case VerifyTask => BaseImages
    case InspectTask => NativeInspector
    case BunTask(_) => BunRuntime
  }

  // dirWithin, for the clean absolute paths Prepare reports: cand is dir or
  // something below it.
  predicate Within(dir: string, cand: string)
  {
    cand == dir || (|dir| < |cand| && cand[..|dir|] == dir && (cand[|dir|] == '/' || (dir != [] && dir[|dir| - 1] == '/')))
  }

  // The trees the post-build secret scan walks for each strategy.
  function ScanDirs(c: Config, p: Prep): seq<string>
  {
    if p.outputDir == "" then []
    else
      match c.req.compile.strategy
      case Static => [FanOut.Join(p.outputDir, "client"), FanOut.Join(p.outputDir, "prerendered")]
      case Exe =>
        if p.entrypoint != "" && !Within(p.outputDir, c.dirOf(p.entrypoint))
        then [p.outputDir, c.dirOf(p.entrypoint)] else [p.outputDir]
      case _ => [p.outputDir]
  }

  function FanConfig(c: Config, base: Base, prep: Prep): FanOut.Config
  {
    FanOut.Config(c.req.platforms, c.req.compile.strategy, c.req.appRuntime, c.req.concurrency,
                  base.images, c.deps, |c.req.platforms|, SbomEnabled(c.req.sbom.format), prep)
  }

  // The slice the fan-out goroutines wrote into; an entry never written holds
  // the zero value.
  function Built(fan: FanOut.State): (r: seq<FanOut.PlatformBuild>)
    ensures |r| == |fan.built|
    ensures forall i | 0 <= i < |r| :: fan.built[i].Some? ==> r[i] == fan.built[i].value
  {
    seq(|fan.built|, i requires 0 <= i < |fan.built| =>
      if fan.built[i].Some? then fan.built[i].value
      else FanOut.PlatformBuild(FanOut.Artifact(OtherPlatform(""), 0), 0))
  }

  // What goes to the destination: an index only when there is more than one platform.
  function PayloadOf(c: Config, fan: FanOut.State): Payload
  {
    if Multi(c) || |Built(fan)| == 0 then IndexOf(FanOut.ImageMap(Built(fan))) else OneImage(Built(fan)[0].image)
  }

  // The digests of the platforms' own images, in platform order.
  predicate ImagesReadable(c: Config, fan: FanOut.State)
  {
    forall i | 0 <= i < |Built(fan)| :: c.digestOf(Built(fan)[i].image).Some?
  }

  function ImageDigests(c: Config, fan: FanOut.State): (r: seq<Signing.Hash>)
    requires ImagesReadable(c, fan)
    ensures |r| == |fan.built|
  {
    seq(|Built(fan)|, i requires 0 <= i < |Built(fan)| => c.digestOf(Built(fan)[i].image).value)
  }

  function DestinationPort(m: OutputMode): Port
  {
    match m
    case Local => Daemon
    case Tarball => Tarballs
    case OciLayout => OciLayouts
    case _ => Registry
  }

  function Init(c: Config): State
  {
    State(Setup(Begin), false, GateState(Idle, Idle, {}, false),
          CacheState(c.req.runtime.vexExemptions, false, None),
          WorkState(Base(map[], NoAudit), [], ErrGroup.Start(0), Prep("", "", ""), 0),
          FanOut.State([], 0, FanOut.ScanOff, [], false, false, {}, {}),
          SignState(Signing.Config([], false), Signing.Init(Signing.Config([], false)), None, None), {}, [])
  }

  // ---- Steps --------------------------------------------------------------------

  function Go(s: State, pc: Pc): State
  {
    s.(pc := pc)
  }

  function Fail(s: State): State
  {
    Go(s, Unwinding(Result(false, NoImage, None)))
  }

  // An error once the image is out: the result still describes it.
  function FailPublished(s: State): State
  {
    Go(s, Unwinding(Result(false, Image, None)))
  }

  // A call of a required port: its error ends the build.
  function Required(s: State, p: Port, reply: Reply, next: Pc): State
  {
    s.(called := s.called + {p}, pc := if reply.Err? then Fail(s).pc else next)
  }

  // An optional port: called, and obeyed, only when it is wired.
  function Optional(c: Config, s: State, p: Port, reply: Reply, next: Pc): State
  {
    if p !in c.deps then Go(s, next) else Required(s, p, reply, next)
  }

  // A call whose error is ignored.
  function Ignoring(s: State, p: Port, next: Pc): State
  {
    s.(called := s.called + {p}, pc := next)
  }

  function SetupStep(c: Config, s: State, reply: Reply): State
    requires s.pc.Setup?
  {
    match s.pc.setup
    case Begin => if Accepted(c) && !s.cancelled then Go(s, Setup(DetectEnv)) else Fail(s)
    case DetectEnv => if EnvBakeDetector in c.deps then Ignoring(s, EnvBakeDetector, Setup(Viability)) else Go(s, Setup(Viability))
    case Viability =>
      if !c.req.compile.strategy.Static? || StaticViability !in c.deps then Go(s, Setup(Preflight))
      else if c.req.policy.allowServerCodeInStatic then Ignoring(s, StaticViability, Setup(Preflight))
      else Required(s, StaticViability, reply, Setup(Preflight))
    case Preflight => Required(s, Compiler, reply, Setup(RunnerVersion))
    case RunnerVersion =>
      Ignoring(s, if c.req.compile.strategy.Static? then StaticServer else Supervisor, Setup(ResolveBase))
    case ResolveBase =>
      if s.cancelled then Fail(s)
      else if reply.Resolved?
      then Ignoring(s, BaseImages, if c.opts.dryRun then Dry(ScanCves) else Setup(Overlay)).(work := s.work.(base := reply.base))
      else Ignoring(s, BaseImages, Fail(s).pc)
    case Overlay =>
      if c.req.compile.overlayGenerations <= 0 then Go(s, Setup(Dispatch))
      else if |c.req.compile.overlayFrom| == 0 && (!c.req.output.mode.Push? || |c.req.repo| == 0 || |c.req.tags| == 0)
      then Go(s, Setup(Dispatch))
      else if reply.Generations? then Ignoring(s, AssetOverlay, Setup(Dispatch)).(work := s.work.(overlay := reply.digests))
      else Ignoring(s, AssetOverlay, Fail(s).pc)
    case Dispatch => s.(gates := s.gates.(cve := Running, secret := Running), pc := Gates(JoinCve))
  }

  // --dry-run: both scans, the base signature and the inspection, in line.
  function DryStep(c: Config, s: State, reply: Reply): Option<State>
    requires s.pc.Dry?
  {
    match s.pc.dry
    case ScanCves => None   // see CveStep
    case ScanSecrets => Some(Optional(c, s, SecretGuard, reply, Dry(VerifyBase)))
    case VerifyBase =>
      Some(if c.req.baseImage.noVerifyBase then Go(s, Dry(Inspect)) else Required(s, BaseImages, reply, Dry(Inspect)))
    case Inspect => Some(Required(s, NativeInspector, reply, Dry(PrintPlan)))
    case PrintPlan => Some(Go(s, Unwinding(Result(!reply.Err?, Plan, None))))
  }

  // The joins around the lockfile write, the tree hash and the cache lookup.
  function GatesStep(c: Config, s: State, reply: Reply): Option<State>
    requires s.pc.Gates?
  {
    match s.pc.gates
    case JoinCve =>
      if !s.gates.cve.Done? then None
      else if !s.gates.cve.ok then Some(Fail(s))
      else Some(s.(cache := s.cache.(vex := if s.gates.applied != {} then s.gates.applied else s.cache.vex),
                   pc := Gates(if s.gates.recorded && BaseImages in c.deps then JoinForWrite else HashTree)))
    case JoinForWrite =>
      if !s.gates.secret.Done? then None
      else Some(if s.gates.secret.ok then Go(s, Gates(WriteLock)) else Fail(s))
    case WriteLock => Some(Ignoring(s, BaseImages, Gates(HashTree)).(trace := s.trace + [LockWritten]))
    case HashTree =>
      if !AllowCache(c) then Some(Go(s, Gates(JoinSecret)))
      else Some(Ignoring(s, RemoteCache, Gates(if reply.Ok? then CheckCache else JoinSecret)).(
                  cache := s.cache.(hashed := reply.Ok?), trace := s.trace + [TreeHashed(s.cache.vex)]))
    case CheckCache =>
      if reply.CacheReply? && reply.hit
      then Some(Ignoring(s, RemoteCache, Gates(JoinSecret)).(
                  cache := s.cache.(hit := Some(reply.verified)), trace := s.trace + [CacheAnswered(reply.verified)]))
      else Some(Ignoring(s, RemoteCache, Gates(JoinSecret)))
    case JoinSecret =>
      if !s.gates.secret.Done? then None
      else if !s.gates.secret.ok then Some(Fail(s))
      else Some(Go(s, if s.cache.hit.Some? then Gates(PrintHit) else Work(OverlayDir)))
    case PrintHit =>
      var signed := if c.req.policy.sign then s.cache.hit else None;
      if reply.Err? then Some(Go(s, Unwinding(Result(false, FromCache, signed))))
      else Some(Go(s, Unwinding(Result(true, FromCache, signed))).(trace := s.trace + [CachePrinted]))
  }

  // The overlay and scratch directories, and the errgroup around Prepare.
  function WorkStep(c: Config, s: State, reply: Reply): Option<State>
    requires s.pc.Work?
  {
    match s.pc.work
    case OverlayDir =>
      Some(if |s.work.overlay| == 0 then Go(s, Work(WorkDir)) else Required(s, AssetOverlay, reply, Work(WorkDir)))
    case WorkDir => Some(if reply.Err? then Fail(s) else Go(s, Work(StartTasks)))
    case StartTasks =>
      Some(if s.cancelled then Fail(s)
           else Go(s, Work(AwaitTasks)).(work := s.work.(group := ErrGroup.Start(|BuildTasks(c)|))))
    case AwaitTasks =>
      if !ErrGroup.Drained(s.work.group) then None
      else if s.work.group.firstErr.Some? || s.cancelled then Some(Fail(s))
      else Some(Go(s, Check(PostScan)).(work := s.work.(dirs := 0)))
  }

  // The post-build secret scans: one shipped tree at a time, then the overlay.
  function PostScanStep(c: Config, s: State, reply: Reply): State
    requires s.pc.Check?
  {
    if s.work.dirs >= |ScanDirs(c, s.work.prep)| then Go(s, Check(OverlayScan))
    else
      var t := Optional(c, s, SecretGuard, reply, s.pc);
      if t.pc.Check?
      then t.(work := s.work.(dirs := s.work.dirs + 1), trace := s.trace + [DirCleared(ScanDirs(c, s.work.prep)[s.work.dirs])])
      else t
  }

  function OverlayScanStep(c: Config, s: State, reply: Reply): State
    requires s.pc.Check?
  {
    var t := if |s.work.overlay| == 0 then s else Optional(c, s, SecretGuard, reply, s.pc);
    if t.pc.Check? then t.(pc := if s.cancelled then Fail(s).pc else Check(Routes), trace := s.trace + [OverlayCleared]) else t
  }

  function RoutesStep(c: Config, s: State, reply: Reply): State
    requires s.pc.Check?
  {
    var t := if |c.req.policy.excludeRoutes| == 0 then s else Optional(c, s, RouteFilter, reply, s.pc);
    if t.pc.Check? then t.(pc := Check(Fanning), fan := FanOut.Init(FanConfig(c, s.work.base, s.work.prep))) else t
  }

  // The post-build secret scans, the route filter, and the fan-out.
  function CheckStep(c: Config, s: State, reply: Reply): Option<State>
    requires s.pc.Check?
  {
    match s.pc.check
    case PostScan => Some(PostScanStep(c, s, reply))
    case OverlayScan => Some(OverlayScanStep(c, s, reply))
    case Routes => Some(RoutesStep(c, s, reply))
    case Fanning =>
      if !FanOut.Drained(s.fan) then None
      else if s.fan.failed then Some(Fail(s))
      else Some(s.(pc := if s.cancelled then Fail(s).pc else Release(Index), trace := s.trace + [PlatformsBuilt(s.fan.packaged)]))
  }

  // The index over several platforms, --print-manifest, and the publication.
  function ReleaseStep(c: Config, s: State, reply: Reply): State
    requires s.pc.Release?
  {
    match s.pc.release
    case Index =>
      var next := Release(if c.opts.printManifest then Manifest else Publish);
      if !Multi(c) then Go(s, next)
      else Required(s, Packager, reply, next).(trace := s.trace + [Indexed(FanOut.ImageMap(Built(s.fan)))])
    case Manifest => Go(s, Unwinding(Result(!reply.Err?, ManifestOnly, None)))
    case Publish =>
      if s.cancelled then Fail(s)
      else if !reply.PublishedAs? then Ignoring(s, DestinationPort(c.req.output.mode), Fail(s).pc)
      else Ignoring(s, DestinationPort(c.req.output.mode), After(AttachSbom)).(
             sig := s.sig.(published := Some(reply.digest)),
             trace := s.trace + [Published(reply.digest, PayloadOf(c, s.fan))])
  }

  // SBOM attachment, signing, and the one line of output.
  function AfterStep(c: Config, s: State, reply: Reply): Option<State>
    requires s.pc.After?
  {
    match s.pc.after
    case AttachSbom =>
      if !SbomEnabled(c.req.sbom.format) || !c.req.output.mode.Push? || c.req.sbom.noAttach then Some(Go(s, After(StartSigning)))
      else if s.cancelled then Some(FailPublished(s))
      else if reply.Err? then Some(Ignoring(s, Registry, FailPublished(s).pc))
      else Some(Ignoring(s, Registry, After(StartSigning)).(trace := s.trace + [SbomAttached]))
    case StartSigning =>
      if !c.req.policy.sign then Some(Go(s, After(PrintRef)))
      else if !c.req.output.mode.Push? then Some(Go(s, After(PrintRef)).(sig := s.sig.(signed := Some(false))))
      else if s.cancelled then Some(FailPublished(s))
      else if !c.req.policy.signing.hasKey then Some(Go(s, After(PrintRef)).(sig := s.sig.(signed := Some(false))))
      else if !SubjectsReadable(c, s, reply) then Some(FailPublished(s))
      else
        var cfg := SigningConfig(c, s, reply);
        Some(Go(s, After(AwaitSigning)).(
               sig := s.sig.(cfg := cfg, st := Signing.Init(cfg)),
               trace := s.trace + [SigningStarted(reply.Document? && reply.empty)]))
    case AwaitSigning =>
      if s.sig.st.phase.Signed? then Some(Go(s, After(PrintRef)).(sig := s.sig.(signed := Some(true))))
      else if s.sig.st.phase.Unsigned? then Some(FailPublished(s))
      else None
    case PrintRef =>
      if reply.Err? then Some(Go(s, Unwinding(Result(false, Image, s.sig.signed))))
      else Some(Go(s, Unwinding(Result(true, Image, s.sig.signed))).(trace := s.trace + [RefPrinted]))
  }

  // signingSubjects reads the digest of each platform's image when there are
  // several, and an SBOM with content must be JSON; either can fail before any
  // goroutine starts.
  predicate SubjectsReadable(c: Config, s: State, reply: Reply)
  {
    && s.sig.published.Some?
    && (Multi(c) ==> ImagesReadable(c, s.fan))
    && (SbomEnabled(c.req.sbom.format) ==> reply.Document? && (reply.empty || reply.json))
  }

  // The published digest, then each platform's own when there are several.
  function SubjectsOf(c: Config, fan: FanOut.State, published: Signing.Hash): seq<Signing.Hash>
    requires Multi(c) ==> ImagesReadable(c, fan)
  {
    Signing.Subjects(published, if Multi(c) then ImageDigests(c, fan) else [], Multi(c))
  }

  // A document without content gives no SBOM statement to sign.
  function SigningConfig(c: Config, s: State, reply: Reply): Signing.Config
    requires SubjectsReadable(c, s, reply)
  {
    Signing.Config(SubjectsOf(c, s.fan, s.sig.published.value), SbomEnabled(c.req.sbom.format) && !reply.empty)
  }

  function MainStep(c: Config, s: State, reply: Reply): Option<State>
  {
    match s.pc
    case Setup(_) => Some(SetupStep(c, s, reply))
    case Dry(_) => DryStep(c, s, reply)
    case Gates(_) => GatesStep(c, s, reply)
    case Work(_) => WorkStep(c, s, reply)
    case Check(_) => CheckStep(c, s, reply)
    case Release(_) => Some(ReleaseStep(c, s, reply))
    case After(_) => AfterStep(c, s, reply)
    case Unwinding(r) => if s.gates.secret.Running? then None else Some(Go(s, Returned(r)))
    case Returned(_) => None
  }

  // The CVE scan ends: in its goroutine, or in line during a dry run.
  function CveStep(c: Config, s: State, scan: ScanReply): Option<State>
  {
    var g := ScanBaseImage(Scanner in c.deps, c.req, c.failEnv, s.work.base.audit, scan);
    var called := if Scanner in c.deps && !NoNetwork(c.req) then s.called + {Scanner} else s.called;
    if s.gates.cve.Running? then
      Some(s.(called := called, trace := s.trace + [GateDone(Cve, g.ok)],
              gates := GateState(Done(g.ok), s.gates.secret, g.vex, g.recorded)))
    else if s.pc.Dry? && s.pc.dry.ScanCves? then
      Some(s.(called := called, pc := if g.ok then Dry(ScanSecrets) else Fail(s).pc,
              cache := s.cache.(vex := if g.vex != {} then g.vex else s.cache.vex)))
    else None
  }

  function SecretStep(c: Config, s: State, clean: bool): Option<State>
  {
    var ok := clean || SecretGuard !in c.deps;
    if !s.gates.secret.Running? then None
    else Some(s.(called := if SecretGuard in c.deps then s.called + {SecretGuard} else s.called,
                 trace := s.trace + [GateDone(Secret, ok)], gates := s.gates.(secret := Done(ok))))
  }

  // A task of the Stage 5 errgroup ends.
  function TaskStep(c: Config, s: State, i: nat, ok: bool, prep: Prep): Option<State>
  {
    if !s.pc.Work? || !s.pc.work.AwaitTasks? || i >= |BuildTasks(c)| || !ErrGroup.CanFinish(s.work.group, i) then None
    else
      var task := BuildTasks(c)[i];
      var events := if !ok then [] else if task.PrepareTask? then [PreparedAs(prep), TaskDone(task)] else [TaskDone(task)];
      Some(s.(called := s.called + {TaskPort(task)}, trace := s.trace + events,
              work := s.work.(group := ErrGroup.Finish(s.work.group, i, ok),
                              prep := if ok && task.PrepareTask? then prep else s.work.prep)))
  }

  predicate FanShaped(c: Config, s: State)
  {
    |s.fan.pcs| == |s.fan.built| == |c.req.platforms|
  }

  function FanStep(c: Config, s: State, act: FanOut.Action): Option<State>
  {
    if !s.pc.Check? || !s.pc.check.Fanning? || (act.CancelBuild? && !s.cancelled) || !FanShaped(c, s) then None
    else
      var t := FanOut.Step(FanConfig(c, s.work.base, s.work.prep), s.fan, act);
      if t.None? then None
      else Some(s.(fan := t.value, called := s.called + FanOut.Calls(FanConfig(c, s.work.base, s.work.prep), s.fan, act)))
  }

  function SignStep(s: State, act: Signing.Action): Option<State>
  {
    if !s.pc.After? || !s.pc.after.AwaitSigning? || !Signing.Shaped(s.sig.cfg, s.sig.st) then None
    else
      var t := Signing.Step(s.sig.cfg, s.sig.st, act);
      if t.None? then None
      else Some(s.(sig := s.sig.(st := t.value), called := s.called + Signing.Calls(s.sig.st, act)))
  }

  // One step of any goroutine, or None when the action cannot happen now.
  function Step(c: Config, s: State, a: Action): Option<State>
  {
    match a
    case Cancel => if s.cancelled then None else Some(s.(cancelled := true))
    case CveEnds(scan) => CveStep(c, s, scan)
    case SecretEnds(clean) => SecretStep(c, s, clean)
    case TaskEnds(i, ok, prep) => TaskStep(c, s, i, ok, prep)
    case FanActs(act) => FanStep(c, s, act)
    case SignActs(act) => SignStep(s, act)
    case Main(reply) => MainStep(c, s, reply)
  }

  function Exec(c: Config, s: State, acts: seq<Action>): Option<State>
    decreases |acts|
  {
    if acts == [] then Some(s)
    else
      var t := Step(c, s, acts[0]);
      if t.None? then None else Exec(c, t.value, acts[1..])
  }

  ghost predicate Reachable(c: Config, s: State)
  {
    exists acts :: Exec(c, Init(c), acts) == Some(s)
  }
}
