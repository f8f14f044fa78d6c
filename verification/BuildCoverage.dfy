// No step of Build is skipped: at every position of the main goroutine the ports
// of the steps behind it have been called, so a success has called every port
// the request needs.
// Source: internal/core/pipeline.go, Build.

module BuildCoverage {
  import opened Text
  import opened Request
  import opened Ports
  import opened CveGate
  import opened Build
  import opened BuildProofs
  import opened BuildOutcome
  import opened BuildTheorems
  import ErrGroup
  import FanOut
  import Signing

  // How far the main goroutine has come in the setup stages.
  function SetupStage(pc: Pc): nat
  {
    if !pc.Setup? then 7
    else
      match pc.setup
      case Begin => 0
      case DetectEnv => 1
      case Viability => 2
      case Preflight => 3
      case RunnerVersion => 4
      case ResolveBase => 5
      case _ => 6
  }

  // Still under way, or returning a success.
  predicate OnCourse(pc: Pc)
  {
    !Ended(pc) || pc.result.ok
  }

  // The steps of the setup stages.
  predicate SetupCalled(c: Config, pc: Pc, called: set<Port>)
  {
    && (SetupStage(pc) > 1 && EnvBakeDetector in c.deps ==> EnvBakeDetector in called)
    && (SetupStage(pc) > 2 && c.req.compile.strategy.Static? && StaticViability in c.deps ==> StaticViability in called)
    && (SetupStage(pc) > 3 ==> Compiler in called)
    && (SetupStage(pc) > 4 ==> (if c.req.compile.strategy.Static? then StaticServer else Supervisor) in called)
    && (SetupStage(pc) > 5 ==> BaseImages in called)
  }

  // The two gates, once they have ended.
  predicate GatesCalled(c: Config, g: GateState, called: set<Port>)
  {
    && (g.cve.Done? && Scanner in c.deps && !NoNetwork(c.req) ==> Scanner in called)
    && (g.secret.Done? && SecretGuard in c.deps ==> SecretGuard in called)
  }

  predicate PastLookup(pc: Pc)
  {
    Producing(pc) || (pc.Gates? && (pc.gates.CheckCache? || pc.gates.JoinSecret? || pc.gates.PrintHit?))
    || (Ended(pc) && pc.result.ok && !pc.result.kind.Plan?)
  }

  // Past Stage 5, with a result that was built and not fetched.
  predicate PastTasks(pc: Pc)
  {
    pc.Check? || pc.Release? || pc.After? || (Ended(pc) && pc.result.ok && (pc.result.kind.ManifestOnly? || pc.result.kind.Image?))
  }

  predicate PastFanOut(pc: Pc)
  {
    PastTasks(pc) && !pc.Check?
  }

  predicate TaskPortsCalled(c: Config, called: set<Port>)
  {
    forall i | 0 <= i < |BuildTasks(c)| :: TaskPort(BuildTasks(c)[i]) in called
  }

  // A task of the errgroup that has ended has made its call.
  predicate EndedTasksCalled(c: Config, g: ErrGroup.Group, called: set<Port>)
  {
    |g.tasks| == |BuildTasks(c)| && forall i | 0 <= i < |g.tasks| && !g.tasks[i].Running? :: TaskPort(BuildTasks(c)[i]) in called
  }

  // Once the build is under way in stage 5 and later.
  predicate WorkCalled(c: Config, s: State)
  {
    && (s.pc.Work? && s.pc.work.AwaitTasks? ==> EndedTasksCalled(c, s.work.group, s.called))
    && ((s.pc.Work? && !s.pc.work.OverlayDir?) || PastTasks(s.pc) ==> (|s.work.overlay| > 0 ==> AssetOverlay in s.called))
    && (PastTasks(s.pc) ==> TaskPortsCalled(c, s.called))
    && ((s.pc.Check? && s.pc.check.Fanning?) || PastFanOut(s.pc) ==>
          (|c.req.policy.excludeRoutes| > 0 && RouteFilter in c.deps ==> RouteFilter in s.called))
    && (s.pc.Check? && s.pc.check.Fanning? ==> FanCalled(s.fan, s.called))
    && (PastFanOut(s.pc) ==> Packager in s.called && (SbomEnabled(c.req.sbom.format) ==> Sbom in s.called))
    && (s.pc.After? || (Ended(s.pc) && s.pc.result.ok && s.pc.result.kind.Image?) ==>
          DestinationPort(c.req.output.mode) in s.called)
  }

  // A packaged image came from the packager, a document from the generator.
  predicate FanCalled(fan: FanOut.State, called: set<Port>)
  {
    && (fan.packaged != {} ==> Packager in called)
    && (fan.scan.ScanOk? ==> Sbom in called)
  }

  predicate Covered(c: Config, s: State)
  {
    OnCourse(s.pc) ==>
      && SetupCalled(c, s.pc, s.called)
      && GatesCalled(c, s.gates, s.called)
      && (PastLookup(s.pc) && AllowCache(c) ==> RemoteCache in s.called)
      && WorkCalled(c, s)
  }

  // Before stage 5, and once the build has failed, nothing is asked of it.
  lemma NoWorkYet(c: Config, s: State)
    requires s.pc.Setup? || s.pc.Dry? || s.pc.Gates?
             || (Ended(s.pc) && (!s.pc.result.ok || s.pc.result.kind.Plan? || s.pc.result.kind.FromCache?))
    ensures WorkCalled(c, s)
  {
    hide EndedTasksCalled, TaskPortsCalled, FanCalled, BuildTasks;
  }

  lemma EarlyCovered(c: Config, s: State, r: Reply)
    requires Covered(c, s) && s.pc.Setup? && (s.pc.setup.Begin? || s.pc.setup.DetectEnv? || s.pc.setup.Viability?)
    ensures Covered(c, SetupStep(c, s, r))
  {
    hide WorkCalled, NoNetwork, AllowCache, Accepted;
    NoWorkYet(c, SetupStep(c, s, r));
  }

  lemma SetupCovered(c: Config, s: State, r: Reply)
    requires Covered(c, s) && s.pc.Setup? && (s.pc.setup.Preflight? || s.pc.setup.RunnerVersion? || s.pc.setup.Dispatch?)
    ensures Covered(c, SetupStep(c, s, r))
  {
    hide WorkCalled, NoNetwork, AllowCache, Accepted;
    NoWorkYet(c, SetupStep(c, s, r));
  }

  lemma ResolveCovered(c: Config, s: State, r: Reply)
    requires Covered(c, s) && s.pc.Setup? && (s.pc.setup.ResolveBase? || s.pc.setup.Overlay?)
    ensures Covered(c, SetupStep(c, s, r))
  {
    hide WorkCalled, NoNetwork, AllowCache;
    NoWorkYet(c, SetupStep(c, s, r));
  }

  lemma DryScanCovered(c: Config, s: State, r: Reply)
    requires Covered(c, s) && s.pc.Dry? && s.pc.dry.ScanSecrets? && DryStep(c, s, r).Some?
    ensures Covered(c, DryStep(c, s, r).value)
  {
    hide WorkCalled, NoNetwork, AllowCache;
    NoWorkYet(c, DryStep(c, s, r).value);
  }

  lemma DryVerifyCovered(c: Config, s: State, r: Reply)
    requires Covered(c, s) && s.pc.Dry? && s.pc.dry.VerifyBase? && DryStep(c, s, r).Some?
    ensures Covered(c, DryStep(c, s, r).value)
  {
    hide WorkCalled, NoNetwork, AllowCache;
    NoWorkYet(c, DryStep(c, s, r).value);
  }

  lemma DryCovered(c: Config, s: State, r: Reply)
    requires Covered(c, s) && s.pc.Dry? && !s.pc.dry.ScanSecrets? && !s.pc.dry.VerifyBase? && DryStep(c, s, r).Some?
    ensures Covered(c, DryStep(c, s, r).value)
  {
    hide WorkCalled, NoNetwork, AllowCache;
    NoWorkYet(c, DryStep(c, s, r).value);
  }

  lemma JoinsCovered(c: Config, s: State, r: Reply)
    requires Covered(c, s) && s.pc.Gates? && GatesStep(c, s, r).Some?
    requires s.pc.gates.JoinCve? || s.pc.gates.JoinForWrite? || s.pc.gates.WriteLock?
    ensures Covered(c, GatesStep(c, s, r).value)
  {
    hide WorkCalled, NoNetwork, AllowCache;
    NoWorkYet(c, GatesStep(c, s, r).value);
  }

  lemma LookupCovered(c: Config, s: State, r: Reply)
    requires Covered(c, s) && s.pc.Gates? && GatesStep(c, s, r).Some?
    requires !s.pc.gates.JoinCve? && !s.pc.gates.JoinForWrite? && !s.pc.gates.WriteLock?
    ensures Covered(c, GatesStep(c, s, r).value)
  {
    hide BuildTasks, FanCalled, AllowCache;
  }

  lemma WorkCovered(c: Config, s: State, r: Reply)
    requires Covered(c, s) && s.pc.Work? && WorkStep(c, s, r).Some?
    ensures Covered(c, WorkStep(c, s, r).value)
  {
    hide AllowCache, BuildTasks;
  }

  lemma PostScanCovered(c: Config, s: State, r: Reply)
    requires Covered(c, s) && s.pc.Check? && s.pc.check.PostScan?
    ensures Covered(c, PostScanStep(c, s, r))
  {
    hide AllowCache, ScanDirs, BuildTasks;
  }

  lemma OverlayScanCovered(c: Config, s: State, r: Reply)
    requires Covered(c, s) && s.pc.Check? && s.pc.check.OverlayScan?
    ensures Covered(c, OverlayScanStep(c, s, r))
  {
    hide AllowCache;
  }

  lemma RoutesCovered(c: Config, s: State, r: Reply)
    requires Covered(c, s) && s.pc.Check? && s.pc.check.Routes?
    ensures Covered(c, RoutesStep(c, s, r))
  {
    hide AllowCache;
  }

  // A fan-out that succeeded packaged something and has its document.
  lemma FanFinished(c: Config, s: State)
    requires FanAt(c, s) && |c.req.platforms| > 0 && s.pc.Check? && s.pc.check.Fanning?
    ensures FanOut.Drained(s.fan) && !s.fan.failed ==>
              s.fan.packaged != {} && (SbomEnabled(c.req.sbom.format) ==> s.fan.scan.ScanOk?)
  {
    if FanOut.Drained(s.fan) && !s.fan.failed {
      FanOut.ResultsInPlatformOrder(FanConfig(c, s.work.base, s.work.prep), s.fan);
      var first := s.fan.built[0].value;
      assert FanOut.OwnBuild(FanConfig(c, s.work.base, s.work.prep), s.fan, 0, first);
    }
  }

  lemma FanningCovered(c: Config, s: State, r: Reply)
    requires Covered(c, s) && FanAt(c, s) && |c.req.platforms| > 0
    requires s.pc.Check? && s.pc.check.Fanning? && CheckStep(c, s, r).Some?
    ensures Covered(c, CheckStep(c, s, r).value)
  {
    hide AllowCache, FanOut.Drained;
    FanFinished(c, s);
  }

  lemma IndexCovered(c: Config, s: State, r: Reply)
    requires Covered(c, s) && s.pc.Release? && s.pc.release.Index?
    ensures Covered(c, ReleaseStep(c, s, r))
  {
    hide BuildTasks, FanCalled, NoNetwork, AllowCache, FanOut.ImageMap, Built;
  }

  lemma ReleaseCovered(c: Config, s: State, r: Reply)
    requires Covered(c, s) && s.pc.Release? && !s.pc.release.Index?
    ensures Covered(c, ReleaseStep(c, s, r))
  {
    hide BuildTasks, FanCalled, NoNetwork, AllowCache, PayloadOf;
  }

  // Once the image is published only the end is left to cover.
  lemma AfterStays(c: Config, s: State, t: State)
    requires Covered(c, s) && s.pc.After? && s.called <= t.called && t.gates == s.gates && t.work == s.work && t.fan == s.fan
    requires t.pc.After? || (Ended(t.pc) && t.pc.result.kind.Image?)
    ensures Covered(c, t)
  {
    hide BuildTasks, FanCalled, NoNetwork, AllowCache;
  }

  lemma AfterCovered(c: Config, s: State, r: Reply)
    requires Covered(c, s) && s.pc.After? && AfterStep(c, s, r).Some?
    ensures Covered(c, AfterStep(c, s, r).value)
  {
    hide Covered, SubjectsReadable, SigningConfig;
    AfterStays(c, s, AfterStep(c, s, r).value);
  }

  lemma MainCovered(c: Config, s: State, r: Reply)
    requires Covered(c, s) && FanAt(c, s) && MainStep(c, s, r).Some? && (s.pc.Check? ==> |c.req.platforms| > 0)
    ensures Covered(c, MainStep(c, s, r).value)
  {
    hide Covered, FanAt, SetupStep, DryStep, GatesStep, WorkStep, PostScanStep, OverlayScanStep, RoutesStep,
         ReleaseStep, AfterStep;
    match s.pc {
      case Setup(at) =>
        if at.ResolveBase? || at.Overlay? {
          ResolveCovered(c, s, r);
        } else if at.Begin? || at.DetectEnv? || at.Viability? {
          EarlyCovered(c, s, r);
        } else {
          SetupCovered(c, s, r);
        }
      case Dry(at) =>
        match at {
          case ScanSecrets => DryScanCovered(c, s, r);
          case VerifyBase => DryVerifyCovered(c, s, r);
          case _ => DryCovered(c, s, r);
        }
      case Gates(at) =>
        if at.JoinCve? || at.JoinForWrite? || at.WriteLock? {
          JoinsCovered(c, s, r);
        } else {
          LookupCovered(c, s, r);
        }
      case Work(_) => WorkCovered(c, s, r);
      case Check(at) =>
        match at {
          case PostScan => PostScanCovered(c, s, r);
          case OverlayScan => OverlayScanCovered(c, s, r);
          case Routes => RoutesCovered(c, s, r);
          case Fanning => FanningCovered(c, s, r);
        }
      case Release(at) =>
        if at.Index? {
          IndexCovered(c, s, r);
        } else {
          ReleaseCovered(c, s, r);
        }
      case After(_) => AfterCovered(c, s, r);
      case _ => LeavingCovered(c, s, r);
    }
  }

  lemma LeavingCovered(c: Config, s: State, r: Reply)
    requires Covered(c, s) && Ended(s.pc) && MainStep(c, s, r).Some?
    ensures Covered(c, MainStep(c, s, r).value)
  {
    hide AllowCache, BuildTasks;
  }

  lemma GateCovered(c: Config, s: State, a: Action)
    requires Covered(c, s) && GatesAt(s) && (a.CveEnds? || a.SecretEnds? || a.Cancel?) && Step(c, s, a).Some?
    ensures Covered(c, Step(c, s, a).value)
  {
    hide AllowCache, BuildTasks, ScanBaseImage;
  }

  lemma TaskCovered(c: Config, s: State, i: nat, ok: bool, prep: Prep)
    requires Covered(c, s) && TaskStep(c, s, i, ok, prep).Some?
    ensures Covered(c, TaskStep(c, s, i, ok, prep).value)
  {
    hide AllowCache, BuildTasks, TaskPort;
  }

  lemma FanCallsRecorded(fc: FanOut.Config, fan: FanOut.State, act: FanOut.Action, called: set<Port>)
    requires FanOut.Inv(fc, fan) && FanOut.Step(fc, fan, act).Some? && FanCalled(fan, called)
    ensures FanCalled(FanOut.Step(fc, fan, act).value, called + FanOut.Calls(fc, fan, act))
  {
  }

  lemma FanCovered(c: Config, s: State, act: FanOut.Action)
    requires Covered(c, s) && FanAt(c, s) && FanStep(c, s, act).Some?
    ensures Covered(c, FanStep(c, s, act).value)
  {
    hide AllowCache, BuildTasks, FanCalled, FanOut.Inv, FanOut.Step, FanOut.Calls;
    FanCallsRecorded(FanConfig(c, s.work.base, s.work.prep), s.fan, act, s.called);
  }

  lemma SignCovered(c: Config, s: State, act: Signing.Action)
    requires Covered(c, s) && SignStep(s, act).Some?
    ensures Covered(c, SignStep(s, act).value)
  {
    hide AllowCache, BuildTasks, Signing.Step, Signing.Calls;
  }

  lemma StepCovered(c: Config, s: State, a: Action)
    requires Inv(c, s) && Sound(c) && Covered(c, s) && Step(c, s, a).Some?
    ensures Covered(c, Step(c, s, a).value)
  {
    hide Covered, GateEvents, Progress, TasksAt, FanAt, Ordered, Faithful, MainStep, TaskStep, FanStep,
         SignStep, ValidateDeps, CveStep, SecretStep;
    match a {
      case TaskEnds(i, ok, prep) => TaskCovered(c, s, i, ok, prep);
      case FanActs(act) => FanCovered(c, s, act);
      case SignActs(act) => SignCovered(c, s, act);
      case Main(reply) => MainCovered(c, s, reply);
      case _ => GateCovered(c, s, a);
    }
  }

  // ---- What has to be noted on the way ---------------------------------------------------------

  // The asset overlay is to be resolved.
  predicate OverlayAsked(c: Config)
  {
    && c.req.compile.overlayGenerations > 0
    && (|c.req.compile.overlayFrom| > 0 || (c.req.output.mode.Push? && |c.req.repo| > 0 && |c.req.tags| > 0))
  }

  // The SBOM is to be attached to the published digest.
  predicate AttachAsked(c: Config)
  {
    SbomEnabled(c.req.sbom.format) && c.req.output.mode.Push? && !c.req.sbom.noAttach
  }

  predicate Success(pc: Pc)
  {
    Ended(pc) && pc.result.ok
  }

  predicate PastOverlay(pc: Pc)
  {
    (pc.Setup? && pc.setup.Dispatch?) || pc.Gates? || Producing(pc) || (Success(pc) && !pc.result.kind.Plan?)
  }

  predicate PastLock(pc: Pc)
  {
    || (pc.Gates? && !pc.gates.JoinCve? && !pc.gates.JoinForWrite? && !pc.gates.WriteLock?)
    || Producing(pc) || (Success(pc) && !pc.result.kind.Plan?)
  }

  // Waiting to write the lockfile, or writing it.
  predicate AtLock(pc: Pc)
  {
    pc.Gates? && (pc.gates.JoinForWrite? || pc.gates.WriteLock?)
  }

  predicate PastAttach(pc: Pc)
  {
    (pc.After? && !pc.after.AttachSbom?) || (Success(pc) && pc.result.kind.Image?)
  }

  // How far a dry run has come.
  function DryStage(pc: Pc): nat
  {
    if Success(pc) && pc.result.kind.Plan? then 4
    else if !pc.Dry? then 0
    else
      match pc.dry
      case ScanCves => 0
      case ScanSecrets => 1
      case VerifyBase => 2
      case Inspect => 3
      case PrintPlan => 4
  }

  predicate DryCalled(c: Config, pc: Pc, called: set<Port>)
  {
    && (DryStage(pc) > 0 && Scanner in c.deps && !NoNetwork(c.req) ==> Scanner in called)
    && (DryStage(pc) > 1 && SecretGuard in c.deps ==> SecretGuard in called)
    && (DryStage(pc) > 3 ==> NativeInspector in called)
  }

  // A recorded scan, and only one, has been written to the lockfile, an overlay asked for has
  // been resolved, an SBOM to be attached has been, and a dry run has scanned.
  predicate Noted(c: Config, s: State)
  {
    && (PastLock(s.pc) && s.gates.recorded && BaseImages in c.deps ==> LockWritten in s.trace)
    && (LockWritten in s.trace || AtLock(s.pc) ==> s.gates.recorded && s.gates.cve.Done?)
    && (PastOverlay(s.pc) && OverlayAsked(c) ==> AssetOverlay in s.called)
    && (PastAttach(s.pc) && AttachAsked(c) ==> SbomAttached in s.trace)
    && DryCalled(c, s.pc, s.called)
  }

  // A step that passes none of those points.
  ghost predicate Onward(s: State, t: State)
  {
    && t.gates.recorded == s.gates.recorded && (s.gates.cve.Done? ==> t.gates.cve.Done?)
    && s.called <= t.called && s.trace <= t.trace
    && (LockWritten in t.trace ==> LockWritten in s.trace) && (AtLock(t.pc) ==> AtLock(s.pc))
    && (PastLock(t.pc) ==> PastLock(s.pc)) && (PastOverlay(t.pc) ==> PastOverlay(s.pc))
    && (PastAttach(t.pc) ==> PastAttach(s.pc)) && DryStage(t.pc) <= DryStage(s.pc)
  }

  lemma OnwardNoted(c: Config, s: State, t: State)
    requires Noted(c, s) && Onward(s, t)
    ensures Noted(c, t)
  {
    hide PastLock, PastOverlay, PastAttach, AtLock, DryStage;
    assert forall k | 0 <= k < |s.trace| :: s.trace[k] == t.trace[k];
  }

  lemma EarlyNoted(c: Config, s: State, r: Reply)
    requires Noted(c, s) && s.pc.Setup? && (s.pc.setup.Begin? || s.pc.setup.DetectEnv? || s.pc.setup.Viability?)
    ensures Noted(c, SetupStep(c, s, r))
  {
    hide Noted, Accepted;
    OnwardNoted(c, s, SetupStep(c, s, r));
  }

  lemma SetupNoted(c: Config, s: State, r: Reply)
    requires Noted(c, s) && GatesAt(s)
    requires s.pc.Setup? && (s.pc.setup.Preflight? || s.pc.setup.RunnerVersion? || s.pc.setup.Dispatch?)
    ensures Noted(c, SetupStep(c, s, r))
  {
    hide Noted, Accepted;
    OnwardNoted(c, s, SetupStep(c, s, r));
  }

  lemma ResolveNoted(c: Config, s: State, r: Reply)
    requires Noted(c, s) && s.pc.Setup? && (s.pc.setup.ResolveBase? || s.pc.setup.Overlay?)
    ensures Noted(c, SetupStep(c, s, r))
  {
  }

  lemma DryScansNoted(c: Config, s: State, r: Reply)
    requires Noted(c, s) && s.pc.Dry? && (s.pc.dry.ScanSecrets? || s.pc.dry.VerifyBase?) && DryStep(c, s, r).Some?
    ensures Noted(c, DryStep(c, s, r).value)
  {
    hide NoNetwork, OverlayAsked, AttachAsked;
  }

  lemma DryNoted(c: Config, s: State, r: Reply)
    requires Noted(c, s) && s.pc.Dry? && !s.pc.dry.ScanSecrets? && !s.pc.dry.VerifyBase? && DryStep(c, s, r).Some?
    ensures Noted(c, DryStep(c, s, r).value)
  {
    hide NoNetwork, OverlayAsked, AttachAsked;
  }

  lemma JoinsNoted(c: Config, s: State, r: Reply)
    requires Noted(c, s) && GatesAt(s) && s.pc.Gates? && !PastLock(s.pc) && GatesStep(c, s, r).Some?
    ensures Noted(c, GatesStep(c, s, r).value)
  {
    hide OverlayAsked, AttachAsked, NoNetwork;
  }

  lemma LookupNoted(c: Config, s: State, r: Reply)
    requires Noted(c, s) && s.pc.Gates? && PastLock(s.pc) && GatesStep(c, s, r).Some?
    ensures Noted(c, GatesStep(c, s, r).value)
  {
    hide Noted, AllowCache;
    OnwardNoted(c, s, GatesStep(c, s, r).value);
  }

  lemma WorkNoted(c: Config, s: State, r: Reply)
    requires Noted(c, s) && s.pc.Work? && WorkStep(c, s, r).Some?
    ensures Noted(c, WorkStep(c, s, r).value)
  {
    hide Noted, ErrGroup.Drained, BuildTasks;
    OnwardNoted(c, s, WorkStep(c, s, r).value);
  }

  lemma PostScanNoted(c: Config, s: State, r: Reply)
    requires Noted(c, s) && s.pc.Check? && s.pc.check.PostScan?
    ensures Noted(c, PostScanStep(c, s, r))
  {
    hide Noted, ScanDirs;
    OnwardNoted(c, s, PostScanStep(c, s, r));
  }

  lemma OverlayScanNoted(c: Config, s: State, r: Reply)
    requires Noted(c, s) && s.pc.Check? && s.pc.check.OverlayScan?
    ensures Noted(c, OverlayScanStep(c, s, r))
  {
    hide Noted;
    OnwardNoted(c, s, OverlayScanStep(c, s, r));
  }

  lemma RoutesNoted(c: Config, s: State, r: Reply)
    requires Noted(c, s) && s.pc.Check? && s.pc.check.Routes?
    ensures Noted(c, RoutesStep(c, s, r))
  {
    hide Noted, FanOut.Init, FanConfig;
    OnwardNoted(c, s, RoutesStep(c, s, r));
  }

  lemma FanningNoted(c: Config, s: State, r: Reply)
    requires Noted(c, s) && s.pc.Check? && s.pc.check.Fanning? && CheckStep(c, s, r).Some?
    ensures Noted(c, CheckStep(c, s, r).value)
  {
    hide Noted, FanOut.Drained;
    OnwardNoted(c, s, CheckStep(c, s, r).value);
  }

  lemma ReleaseNoted(c: Config, s: State, r: Reply)
    requires Noted(c, s) && s.pc.Release?
    ensures Noted(c, ReleaseStep(c, s, r))
  {
    hide Noted, FanOut.ImageMap, Built;
    OnwardNoted(c, s, ReleaseStep(c, s, r));
  }

  lemma AttachNoted(c: Config, s: State, r: Reply)
    requires Noted(c, s) && s.pc.After? && s.pc.after.AttachSbom?
    ensures AfterStep(c, s, r).Some? && Noted(c, AfterStep(c, s, r).value)
  {
    hide NoNetwork, OverlayAsked;
  }

  lemma AfterNoted(c: Config, s: State, r: Reply)
    requires Noted(c, s) && s.pc.After? && !s.pc.after.AttachSbom? && AfterStep(c, s, r).Some?
    ensures Noted(c, AfterStep(c, s, r).value)
  {
    hide Noted, SubjectsReadable;
    OnwardNoted(c, s, AfterStep(c, s, r).value);
  }

  lemma LeavingNoted(c: Config, s: State, r: Reply)
    requires Noted(c, s) && Ended(s.pc) && MainStep(c, s, r).Some?
    ensures Noted(c, MainStep(c, s, r).value)
  {
    hide Noted;
    OnwardNoted(c, s, MainStep(c, s, r).value);
  }

  lemma MainNoted(c: Config, s: State, r: Reply)
    requires Noted(c, s) && GatesAt(s) && MainStep(c, s, r).Some?
    ensures Noted(c, MainStep(c, s, r).value)
  {
    hide Noted, GatesAt, SetupStep, DryStep, GatesStep, WorkStep, PostScanStep, OverlayScanStep, RoutesStep,
         ReleaseStep, AfterStep;
    match s.pc {
      case Setup(at) =>
        if at.ResolveBase? || at.Overlay? {
          ResolveNoted(c, s, r);
        } else if at.Begin? || at.DetectEnv? || at.Viability? {
          EarlyNoted(c, s, r);
        } else {
          SetupNoted(c, s, r);
        }
      case Dry(at) =>
        if at.ScanSecrets? || at.VerifyBase? {
          DryScansNoted(c, s, r);
        } else {
          DryNoted(c, s, r);
        }
      case Gates(_) =>
        if PastLock(s.pc) {
          LookupNoted(c, s, r);
        } else {
          JoinsNoted(c, s, r);
        }
      case Work(_) => WorkNoted(c, s, r);
      case Check(at) =>
        match at {
          case PostScan => PostScanNoted(c, s, r);
          case OverlayScan => OverlayScanNoted(c, s, r);
          case Routes => RoutesNoted(c, s, r);
          case Fanning => FanningNoted(c, s, r);
        }
      case Release(_) => ReleaseNoted(c, s, r);
      case After(at) =>
        if at.AttachSbom? {
          AttachNoted(c, s, r);
        } else {
          AfterNoted(c, s, r);
        }
      case _ => LeavingNoted(c, s, r);
    }
  }

  lemma CveNoted(c: Config, s: State, scan: ScanReply)
    requires Noted(c, s) && GatesAt(s) && CveStep(c, s, scan).Some?
    ensures Noted(c, CveStep(c, s, scan).value)
  {
    hide ScanBaseImage, OverlayAsked, AttachAsked;
  }

  lemma SideNoted(c: Config, s: State, a: Action)
    requires Noted(c, s) && Step(c, s, a).Some? && !a.Main? && !a.CveEnds?
    ensures Noted(c, Step(c, s, a).value)
  {
    hide Noted, BuildTasks, TaskPort, FanOut.Step, FanOut.Calls, Signing.Step, Signing.Calls;
    OnwardNoted(c, s, Step(c, s, a).value);
  }

  lemma StepNoted(c: Config, s: State, a: Action)
    requires Noted(c, s) && GatesAt(s) && Step(c, s, a).Some?
    ensures Noted(c, Step(c, s, a).value)
  {
    hide Noted, GatesAt, MainStep, CveStep;
    if a.Main? {
      MainNoted(c, s, a.reply);
    } else if a.CveEnds? {
      CveNoted(c, s, a.scan);
    } else {
      SideNoted(c, s, a);
    }
  }

  lemma {:induction false} ExecCovered(c: Config, s: State, acts: seq<Action>)
    requires Inv(c, s) && Sound(c) && Covered(c, s) && Noted(c, s) && Exec(c, s, acts).Some?
    ensures Covered(c, Exec(c, s, acts).value) && Noted(c, Exec(c, s, acts).value)
    decreases |acts|
  {
    assert GatesAt(s);
    hide Inv, Covered, Noted, GatesAt, Step;
    if acts != [] {
      StepCovered(c, s, acts[0]);
      StepNoted(c, s, acts[0]);
      StepKeepsInv(c, s, acts[0]);
      ExecCovered(c, Step(c, s, acts[0]).value, acts[1..]);
    }
  }

  // The cache may answer for a pushed build that does not forbid it; for a signed
  // one, only where cache hits are signature-verified.
  predicate CacheUsable(c: Config)
  {
    && RemoteCache in c.deps && c.req.output.mode.Push? && !c.req.compile.noCache
    && (c.req.policy.sign ==> !c.req.cacheVerify.mode.VerifyNone? && c.req.cacheVerify.verifySignature)
  }

  // The ports whose call no success but a plan can do without.
  predicate GatesWereAsked(c: Config, called: set<Port>)
  {
    && {Compiler, BaseImages, if c.req.compile.strategy.Static? then StaticServer else Supervisor} <= called
    && (EnvBakeDetector in c.deps ==> EnvBakeDetector in called)
    && (c.req.compile.strategy.Static? && StaticViability in c.deps ==> StaticViability in called)
    && (Scanner in c.deps && !c.req.baseImage.offline && !c.req.hermetic ==> Scanner in called)
    && (SecretGuard in c.deps ==> SecretGuard in called)
    && (CacheUsable(c) ==> RemoteCache in called)
    && (OverlayAsked(c) ==> AssetOverlay in called)
  }

  // What building, and publishing, take besides.
  predicate BuildWasDone(c: Config, s: State)
  {
    && {Compiler, BaseImages, NativeInspector, Packager} <= s.called
    && (c.req.compile.strategy.Layered? && c.req.appRuntime.Bun? && BunRuntime in c.deps ==> BunRuntime in s.called)
    && (|s.work.overlay| > 0 ==> AssetOverlay in s.called)
    && (|c.req.policy.excludeRoutes| > 0 && RouteFilter in c.deps ==> RouteFilter in s.called)
    && (!c.req.sbom.format.SbomOff? ==> Sbom in s.called)
  }

  // Nothing is skipped: a success other than a plan has called every port of the
  // steps before the cache decision, and written a recorded scan to the lockfile;
  // one that was built has called every port building needs; one that was
  // published, the destination's, and its SBOM is attached where it should be;
  // and a plan has scanned and inspected.
  lemma NothingSkipped(c: Config, s: State)
    requires Reachable(c, s) && Sound(c) && Ended(s.pc) && s.pc.result.ok
    ensures !s.pc.result.kind.Plan? ==> GatesWereAsked(c, s.called)
    ensures s.pc.result.kind.Image? || s.pc.result.kind.ManifestOnly? ==> BuildWasDone(c, s)
    ensures s.pc.result.kind.Image? ==> DestinationPort(c.req.output.mode) in s.called
    ensures s.pc.result.kind.Image? && AttachAsked(c) ==> SbomAttached in s.trace
    ensures !s.pc.result.kind.Plan? && s.gates.recorded ==> LockWritten in s.trace
    ensures s.pc.result.kind.Plan? ==> DryCalled(c, s.pc, s.called)
  {
    hide Progress, TasksAt, FanAt, GateEvents, Ordered, CacheAt, SignAt, PublishedAt, BuildTasks, TaskPort,
         TaskPortsCalled, Reachable, OverlayAsked, AttachAsked;
    ReachableInv(c, s);
    ReachableCovered(c, s);
    if TaskPortsCalled(c, s.called) {
      TaskPortsAre(c, s.called);
    }
    SuccessIsAccepted(c, s);
  }

  lemma TaskPortsAre(c: Config, called: set<Port>)
    requires TaskPortsCalled(c, called)
    ensures Compiler in called && NativeInspector in called
    ensures c.req.compile.strategy.Layered? && c.req.appRuntime.Bun? && BunRuntime in c.deps && |c.req.platforms| > 0
            ==> BunRuntime in called
  {
    var tasks := BuildTasks(c);
    var k := if c.req.baseImage.noVerifyBase then 1 else 2;
    assert TaskPort(tasks[0]) in called && TaskPort(tasks[k]) in called;
    if ResolveBun(c) {
      assert tasks[k + 1] == BunTask(0);
    }
  }

  lemma SuccessIsAccepted(c: Config, s: State)
    requires InBounds(c, s) && Sound(c) && Success(s.pc)
    ensures |c.req.platforms| > 0 && ValidFormat(c.req.sbom.format)
  {
    hide ValidateDeps;
  }

  lemma ReachableCovered(c: Config, s: State)
    requires Reachable(c, s) && Sound(c)
    ensures Covered(c, s) && Noted(c, s)
  {
    hide Exec;
    var acts :| Exec(c, Init(c), acts) == Some(s);
    InitInv(c);
    ExecCovered(c, Init(c), acts);
  }
}
