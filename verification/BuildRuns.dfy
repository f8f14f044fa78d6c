// What one event settles for the rest of a run: an error Build heeds ends every
// continuation without success, one it forgives changes nothing, and the CVE
// gate's results are the ones applied and recorded.
// Source: internal/core/pipeline.go, Build.

module BuildRuns {
  import opened Text
  import opened Request
  import opened Ports
  import opened CveGate
  import opened Build
  import opened BuildProofs
  import opened BuildOutcome
  import opened BuildTheorems
  import opened BuildCoverage
  import ErrGroup
  import FanOut
  import Signing

  // ---- Errors ----------------------------------------------------------------------------------

  // At this position the main goroutine makes a call, or writes.
  predicate CallMade(c: Config, s: State)
  {
    match s.pc
    case Setup(at) =>
      (match at
       case DetectEnv => EnvBakeDetector in c.deps
       case Viability => c.req.compile.strategy.Static? && StaticViability in c.deps
       case Overlay => OverlayAsked(c)
       case Begin => false
       case Dispatch => false
       case _ => true)
    case Dry(at) =>
      || (at.ScanSecrets? && SecretGuard in c.deps) || (at.VerifyBase? && !c.req.baseImage.noVerifyBase)
      || at.Inspect? || at.PrintPlan?
    case Gates(at) => at.WriteLock? || (at.HashTree? && AllowCache(c)) || at.CheckCache? || at.PrintHit?
    case Work(at) => (at.OverlayDir? && |s.work.overlay| > 0) || at.WorkDir?
    case Check(at) =>
      || (at.PostScan? && s.work.dirs < |ScanDirs(c, s.work.prep)| && SecretGuard in c.deps)
      || (at.OverlayScan? && |s.work.overlay| > 0 && SecretGuard in c.deps)
      || (at.Routes? && |c.req.policy.excludeRoutes| > 0 && RouteFilter in c.deps)
    case Release(at) => !at.Index? || Multi(c)
    case After(at) => (at.AttachSbom? && AttachAsked(c)) || at.PrintRef?
    case _ => false
  }

  // The calls whose error Build goes on from.
  predicate Forgiven(c: Config, pc: Pc)
  {
    || (pc.Setup? && (pc.setup.DetectEnv? || pc.setup.RunnerVersion?))
    || (pc.Setup? && pc.setup.Viability? && c.req.policy.allowServerCodeInStatic)
    || (pc.Gates? && (pc.gates.WriteLock? || pc.gates.HashTree? || pc.gates.CheckCache?))
  }

  // The evidence an armed CVE gate refuses.
  predicate Refused(c: Config, s: State, scan: ScanReply)
  {
    && Scanner in c.deps && Armed(c.req, c.failEnv)
    && (KnownBad(c.req, c.failEnv, s.work.base.audit, scan)
        || !(Complete(c.req, s.work.base.audit, scan) || c.req.policy.allowIncompleteScan))
  }

  // What fails a platform's goroutine, or the document's, in the fan-out.
  predicate FanFault(c: Config, s: State, act: FanOut.Action)
  {
    match act
    case Prepare(i, compiled) =>
      i < |c.req.platforms| &&
      (c.req.platforms[i] !in s.work.base.images ||
       (match c.req.compile.strategy
        case Layered => c.req.appRuntime == Bun && BunRuntime !in c.deps
        case Static => false
        case Exe => compiled.None?
        case _ => true))
    case FetchRunner(_, ok) => !ok || (c.req.compile.strategy.Static? && StaticServer !in c.deps)
    case Package(_, image) => image.None?
    case Scan(doc) => !doc
    case _ => false
  }

  predicate SignFault(sig: SignState, act: Signing.Action)
  {
    act.Call? && act.i < |sig.cfg.subjects| && act.i < |sig.st.pcs|
    && Signing.BadReply(sig.cfg, act.i, sig.st.pcs[act.i], act.reply)
  }

  // An answer that is no use to the call made here.
  predicate Useless(pc: Pc, reply: Reply)
  {
    if pc.Setup? && pc.setup.ResolveBase? then !reply.Resolved?
    else if pc.Setup? && pc.setup.Overlay? then !reply.Generations?
    else if pc.Release? && pc.release.Publish? then !reply.PublishedAs?
    else reply.Err?
  }

  // What keeps signing from starting: no published digest, one of several images
  // without a digest, or an SBOM wanted and a document that cannot be had, or has
  // content and is not JSON.
  predicate Unsignable(c: Config, s: State, reply: Reply)
  {
    || s.sig.published.None?
    || (|c.req.platforms| > 1 && exists i | 0 <= i < |Built(s.fan)| :: c.digestOf(Built(s.fan)[i].image).None?)
    || ((c.req.sbom.format.Spdx? || c.req.sbom.format.CycloneDx?) && !(reply.Document? && (reply.empty || reply.json)))
  }

  lemma UnsignableIff(c: Config, s: State, reply: Reply)
    ensures Unsignable(c, s, reply) <==> !SubjectsReadable(c, s, reply)
  {
  }

  // The main goroutine meets what stops it: a request or wiring that is not
  // accepted, a call that is not forgiven, digests or a document it cannot read.
  predicate MainFault(c: Config, s: State, reply: Reply)
  {
    || (s.pc.Setup? && s.pc.setup.Begin? && !Accepted(c))
    || (CallMade(c, s) && !Forgiven(c, s.pc) && Useless(s.pc, reply))
    || (s.pc.After? && s.pc.after.StartSigning? && c.req.policy.sign && c.req.output.mode.Push? && c.req.policy.signing.hasKey
        && Unsignable(c, s, reply))
  }

  // Some goroutine meets what Build has to fail for: refused evidence, an inlined
  // secret, or a fault of the main goroutine, of an errgroup task, of the fan-out
  // or of the signing stage. A cancellation is none.
  predicate Fault(c: Config, s: State, a: Action)
  {
    match a
    case Cancel => false
    case CveEnds(scan) => Refused(c, s, scan)
    case SecretEnds(clean) => !clean && SecretGuard in c.deps
    case TaskEnds(_, ok, _) => !ok
    case FanActs(act) => FanFault(c, s, act)
    case SignActs(act) => SignFault(s.sig, act)
    case Main(reply) => MainFault(c, s, reply)
  }

  predicate SignDoomed(st: Signing.State)
  {
    st.phase.Unsigned? || (st.failed && !st.phase.Signed?)
  }

  // A fault has been met: it has ended the build, or is held by a gate or a group
  // the main goroutine is still to join.
  predicate Doomed(s: State)
  {
    || (Ended(s.pc) && !s.pc.result.ok)
    || s.gates.cve == Done(false) || s.gates.secret == Done(false)
    || (s.pc.Work? && s.pc.work.AwaitTasks? && s.work.group.firstErr.Some?)
    || (s.pc.Check? && s.pc.check.Fanning? && s.fan.failed)
    || (s.pc.After? && s.pc.after.AwaitSigning? && SignDoomed(s.sig.st))
  }

  // Nothing has been cancelled.
  predicate Calm(s: State)
  {
    !s.cancelled && !s.fan.cancelled
  }

  // A step dooms the build when it meets a fault, and where nothing is cancelled
  // only then; and a fault publishes nothing.
  ghost predicate Verdict(s: State, fault: bool, t: State)
  {
    && (fault ==> Doomed(t) && (HasPublished(t.trace) ==> HasPublished(s.trace)))
    && (!fault && !Doomed(s) && Calm(s) ==> !Doomed(t) && Calm(t))
  }

  lemma FanVerdict(c: Config, s: State, act: FanOut.Action)
    requires FanAt(c, s) && FanStep(c, s, act).Some?
    ensures Verdict(s, FanFault(c, s, act), FanStep(c, s, act).value)
  {
    hide FanOut.Step, FanOut.Calls, FanOut.Inv, FanFault;
    FanFaultFails(c, s, act);
  }

  lemma FanFaultFails(c: Config, s: State, act: FanOut.Action)
    requires FanOut.Inv(FanConfig(c, s.work.base, s.work.prep), s.fan)
    requires FanOut.Step(FanConfig(c, s.work.base, s.work.prep), s.fan, act).Some?
    ensures var t := FanOut.Step(FanConfig(c, s.work.base, s.work.prep), s.fan, act).value;
            && (s.fan.failed || FanFault(c, s, act) ==> t.failed)
            && (t.failed ==> s.fan.failed || FanFault(c, s, act) || s.fan.cancelled)
            && (s.fan.cancelled ==> t.cancelled) && (t.cancelled ==> s.fan.cancelled || act.CancelBuild?)
  {
    hide FanOut.ShipmentOf, FanOut.MadeFor, FanOut.Occupied, FanOut.Cause;
    if act.Package? {
      assert FanOut.TaskOk(FanConfig(c, s.work.base, s.work.prep), s.fan, act.i);
    }
  }

  lemma SignVerdict(c: Config, s: State, act: Signing.Action)
    requires SignAt(c, s) && SignStep(s, act).Some?
    ensures Verdict(s, SignFault(s.sig, act), SignStep(s, act).value)
  {
    hide Signing.Step, Signing.Calls, Signing.Inv, SignFault, SignDoomed;
    SignFaultFails(s.sig, act);
  }

  lemma SignFaultFails(sig: SignState, act: Signing.Action)
    requires Signing.Inv(sig.cfg, sig.st) && Signing.Step(sig.cfg, sig.st, act).Some?
    ensures SignDoomed(Signing.Step(sig.cfg, sig.st, act).value) <==> SignDoomed(sig.st) || SignFault(sig, act)
  {
    hide Signing.TwoPhase, Signing.AllBacked, Signing.AllRefs, Signing.VerifiedIn, Signing.Running,
         Signing.SigChecked, Signing.AttachedAs, Signing.Names;
    if act.Call? && act.i < |sig.st.pcs| {
      assert Signing.TaskOk(sig.cfg, sig.st, act.i);
    }
  }

  lemma CveVerdict(c: Config, s: State, scan: ScanReply)
    requires GatesAt(s) && CveStep(c, s, scan).Some?
    ensures Verdict(s, Refused(c, s, scan), CveStep(c, s, scan).value)
  {
    hide KnownBad, Complete, AuditPasses, LivePasses, Armed, NoNetwork;
    GatePassesIff(c.req, c.failEnv, s.work.base.audit, scan);
    RefusedIffNotOk(c, s, scan);
    hide ScanBaseImage, Refused;
  }

  lemma RefusedIffNotOk(c: Config, s: State, scan: ScanReply)
    ensures Refused(c, s, scan) <==> !ScanBaseImage(Scanner in c.deps, c.req, c.failEnv, s.work.base.audit, scan).ok
  {
    hide KnownBad, Complete, AuditPasses, LivePasses, Armed, NoNetwork;
    GatePassesIff(c.req, c.failEnv, s.work.base.audit, scan);
  }

  lemma SecretVerdict(c: Config, s: State, clean: bool)
    requires GatesAt(s) && SecretStep(c, s, clean).Some?
    ensures Verdict(s, !clean && SecretGuard in c.deps, SecretStep(c, s, clean).value)
  {
  }

  lemma TaskVerdict(c: Config, s: State, i: nat, ok: bool, prep: Prep)
    requires TaskStep(c, s, i, ok, prep).Some?
    ensures Verdict(s, !ok, TaskStep(c, s, i, ok, prep).value)
  {
    hide BuildTasks, TaskPort;
  }

  lemma EarlyVerdict(c: Config, s: State, r: Reply)
    requires s.pc.Setup? && (s.pc.setup.Begin? || s.pc.setup.DetectEnv? || s.pc.setup.Viability?)
    ensures Verdict(s, MainFault(c, s, r), SetupStep(c, s, r))
  {
    hide Accepted;
  }

  lemma SetupVerdict(c: Config, s: State, r: Reply)
    requires s.pc.Setup? && (s.pc.setup.Preflight? || s.pc.setup.RunnerVersion? || s.pc.setup.Dispatch?)
    ensures Verdict(s, MainFault(c, s, r), SetupStep(c, s, r))
  {
    hide Accepted;
  }

  lemma ResolveVerdict(c: Config, s: State, r: Reply)
    requires s.pc.Setup? && (s.pc.setup.ResolveBase? || s.pc.setup.Overlay?)
    ensures Verdict(s, MainFault(c, s, r), SetupStep(c, s, r))
  {
    hide Accepted;
  }

  lemma DryVerdict(c: Config, s: State, r: Reply)
    requires s.pc.Dry? && DryStep(c, s, r).Some?
    ensures Verdict(s, MainFault(c, s, r), DryStep(c, s, r).value)
  {
    hide Accepted;
  }

  lemma GatesVerdict(c: Config, s: State, r: Reply)
    requires GatesAt(s) && s.pc.Gates? && GatesStep(c, s, r).Some?
    ensures Verdict(s, MainFault(c, s, r), GatesStep(c, s, r).value)
  {
    hide Accepted, AllowCache;
  }

  lemma WorkVerdict(c: Config, s: State, r: Reply)
    requires s.pc.Work? && WorkStep(c, s, r).Some?
    ensures Verdict(s, MainFault(c, s, r), WorkStep(c, s, r).value)
  {
    hide Accepted, BuildTasks, ErrGroup.Drained;
  }

  lemma PostScanVerdict(c: Config, s: State, r: Reply)
    requires s.pc.Check? && s.pc.check.PostScan?
    ensures Verdict(s, MainFault(c, s, r), PostScanStep(c, s, r))
  {
    hide Accepted, ScanDirs;
  }

  lemma OverlayScanVerdict(c: Config, s: State, r: Reply)
    requires s.pc.Check? && s.pc.check.OverlayScan?
    ensures Verdict(s, MainFault(c, s, r), OverlayScanStep(c, s, r))
  {
    hide Accepted;
  }

  lemma RoutesVerdict(c: Config, s: State, r: Reply)
    requires s.pc.Check? && s.pc.check.Routes?
    ensures Verdict(s, MainFault(c, s, r), RoutesStep(c, s, r))
  {
    hide Accepted;
  }

  lemma FanningVerdict(c: Config, s: State, r: Reply)
    requires s.pc.Check? && s.pc.check.Fanning? && CheckStep(c, s, r).Some?
    ensures Verdict(s, MainFault(c, s, r), CheckStep(c, s, r).value)
  {
    hide Accepted, FanOut.Drained;
  }

  lemma ReleaseVerdict(c: Config, s: State, r: Reply)
    requires s.pc.Release?
    ensures Verdict(s, MainFault(c, s, r), ReleaseStep(c, s, r))
  {
    hide Accepted, FanOut.ImageMap, Built;
  }

  lemma AfterVerdict(c: Config, s: State, r: Reply)
    requires s.pc.After? && AfterStep(c, s, r).Some?
    ensures Verdict(s, MainFault(c, s, r), AfterStep(c, s, r).value)
  {
    hide Accepted, SubjectsReadable, SigningConfig, Unsignable;
    UnsignableIff(c, s, r);
  }

  lemma LeavingVerdict(c: Config, s: State, r: Reply)
    requires Ended(s.pc) && MainStep(c, s, r).Some?
    ensures Verdict(s, MainFault(c, s, r), MainStep(c, s, r).value)
  {
    hide Accepted;
  }

  lemma MainVerdict(c: Config, s: State, r: Reply)
    requires GatesAt(s) && MainStep(c, s, r).Some?
    ensures Verdict(s, MainFault(c, s, r), MainStep(c, s, r).value)
  {
    hide Verdict, MainFault, GatesAt, SetupStep, DryStep, GatesStep, WorkStep, PostScanStep, OverlayScanStep,
         RoutesStep, ReleaseStep, AfterStep;
    match s.pc {
      case Setup(at) =>
        if at.ResolveBase? || at.Overlay? {
          ResolveVerdict(c, s, r);
        } else if at.Begin? || at.DetectEnv? || at.Viability? {
          EarlyVerdict(c, s, r);
        } else {
          SetupVerdict(c, s, r);
        }
      case Dry(_) => DryVerdict(c, s, r);
      case Gates(_) => GatesVerdict(c, s, r);
      case Work(_) => WorkVerdict(c, s, r);
      case Check(at) =>
        match at {
          case PostScan => PostScanVerdict(c, s, r);
          case OverlayScan => OverlayScanVerdict(c, s, r);
          case Routes => RoutesVerdict(c, s, r);
          case Fanning => FanningVerdict(c, s, r);
        }
      case Release(_) => ReleaseVerdict(c, s, r);
      case After(_) => AfterVerdict(c, s, r);
      case _ => LeavingVerdict(c, s, r);
    }
  }

  lemma StepVerdict(c: Config, s: State, a: Action)
    requires Inv(c, s) && Step(c, s, a).Some? && !a.Cancel?
    ensures Verdict(s, Fault(c, s, a), Step(c, s, a).value)
  {
    hide Verdict, MainFault, FanFault, SignFault, Refused, MainStep, CveStep, SecretStep, TaskStep, FanStep, SignStep,
         GatesAt, FanAt, SignAt, Ordered, Progress, TasksAt, GateEvents, InBounds, CacheAt, PublishedAt, Told;
    match a {
      case CveEnds(scan) => CveVerdict(c, s, scan);
      case SecretEnds(clean) => SecretVerdict(c, s, clean);
      case TaskEnds(i, ok, prep) => TaskVerdict(c, s, i, ok, prep);
      case FanActs(act) => FanVerdict(c, s, act);
      case SignActs(act) => SignVerdict(c, s, act);
      case Main(reply) => MainVerdict(c, s, reply);
    }
  }

  // A doomed build stays doomed, and publishes nothing more.
  lemma DoomedStays(c: Config, s: State, a: Action)
    requires Inv(c, s) && Doomed(s) && Step(c, s, a).Some?
    ensures Doomed(Step(c, s, a).value)
    ensures HasPublished(Step(c, s, a).value.trace) ==> HasPublished(s.trace)
  {
    hide MainStep, TaskStep, FanStep, SignStep, CveStep, Ordered, Progress, GateEvents, CacheAt, PublishedAt,
         Told, Doomed;
    match a {
      case Cancel => CancelDoomed(s);
      case CveEnds(scan) => CveDoomed(c, s, scan);
      case SecretEnds(clean) => SecretDoomed(c, s, clean);
      case TaskEnds(i, ok, prep) => TaskDoomed(c, s, i, ok, prep);
      case FanActs(act) => FanDoomed(c, s, act);
      case SignActs(act) => SignActDoomed(c, s, act);
      case Main(reply) => MainDoomed(c, s, reply);
    }
  }

  lemma CancelDoomed(s: State)
    requires Doomed(s)
    ensures Doomed(s.(cancelled := true))
  {
  }

  lemma CveDoomed(c: Config, s: State, scan: ScanReply)
    requires GatesAt(s) && Doomed(s) && CveStep(c, s, scan).Some?
    ensures Doomed(CveStep(c, s, scan).value)
    ensures HasPublished(CveStep(c, s, scan).value.trace) ==> HasPublished(s.trace)
  {
    hide ScanBaseImage;
  }

  lemma SecretDoomed(c: Config, s: State, clean: bool)
    requires GatesAt(s) && Doomed(s) && SecretStep(c, s, clean).Some?
    ensures Doomed(SecretStep(c, s, clean).value)
    ensures HasPublished(SecretStep(c, s, clean).value.trace) ==> HasPublished(s.trace)
  {
  }

  lemma TaskDoomed(c: Config, s: State, i: nat, ok: bool, prep: Prep)
    requires GatesAt(s) && Doomed(s) && TaskStep(c, s, i, ok, prep).Some?
    ensures Doomed(TaskStep(c, s, i, ok, prep).value)
    ensures HasPublished(TaskStep(c, s, i, ok, prep).value.trace) ==> HasPublished(s.trace)
  {
    hide BuildTasks, TaskPort;
  }

  lemma FanDoomed(c: Config, s: State, act: FanOut.Action)
    requires GatesAt(s) && FanAt(c, s) && Doomed(s) && FanStep(c, s, act).Some?
    ensures Doomed(FanStep(c, s, act).value) && FanStep(c, s, act).value.trace == s.trace
  {
    hide FanOut.Step, FanOut.Calls, FanOut.Inv, FanFault;
    FanFaultFails(c, s, act);
  }

  lemma SignActDoomed(c: Config, s: State, act: Signing.Action)
    requires GatesAt(s) && SignAt(c, s) && Doomed(s) && SignStep(s, act).Some?
    ensures Doomed(SignStep(s, act).value) && SignStep(s, act).value.trace == s.trace
  {
    hide Signing.Step, Signing.Calls, Signing.Inv, SignDoomed, SignFault;
    SignFaultFails(s.sig, act);
  }

  // A failed gate leaves the main goroutine at its joins; a failed group, at its wait.
  lemma DoomedWhere(s: State)
    requires GatesAt(s) && Doomed(s)
    ensures s.pc.Gates? || Ended(s.pc) || (s.pc.Work? && s.pc.work.AwaitTasks?) || (s.pc.Check? && s.pc.check.Fanning?)
            || (s.pc.After? && s.pc.after.AwaitSigning?)
  {
  }

  lemma MainDoomed(c: Config, s: State, r: Reply)
    requires GatesAt(s) && Doomed(s) && MainStep(c, s, r).Some?
    ensures Doomed(MainStep(c, s, r).value)
    ensures HasPublished(MainStep(c, s, r).value.trace) ==> HasPublished(s.trace)
  {
    DoomedWhere(s);
    if s.pc.Gates? {
      GatesDoomed(c, s, r);
    } else {
      JoinDoomed(c, s, r);
    }
  }

  lemma GatesDoomed(c: Config, s: State, r: Reply)
    requires GatesAt(s) && Doomed(s) && s.pc.Gates? && GatesStep(c, s, r).Some?
    ensures Doomed(GatesStep(c, s, r).value)
    ensures HasPublished(GatesStep(c, s, r).value.trace) ==> HasPublished(s.trace)
  {
    hide AllowCache;
  }

  lemma JoinDoomed(c: Config, s: State, r: Reply)
    requires GatesAt(s) && Doomed(s) && !s.pc.Gates? && MainStep(c, s, r).Some?
    ensures Doomed(MainStep(c, s, r).value)
    ensures MainStep(c, s, r).value.trace == s.trace || s.pc.Check?
    ensures HasPublished(MainStep(c, s, r).value.trace) ==> HasPublished(s.trace)
  {
    hide ErrGroup.Drained, FanOut.Drained, BuildTasks, SetupStep, DryStep, ReleaseStep, PostScanStep,
         OverlayScanStep, RoutesStep;
    DoomedWhere(s);
  }

  lemma {:induction false} DoomedForGood(c: Config, s: State, acts: seq<Action>)
    requires Inv(c, s) && Sound(c) && Doomed(s) && Exec(c, s, acts).Some?
    ensures var t := Exec(c, s, acts).value; Inv(c, t) && Doomed(t) && (HasPublished(t.trace) ==> HasPublished(s.trace))
    decreases |acts|
  {
    hide Inv, Step, Doomed, HasPublished;
    if acts != [] {
      DoomedStays(c, s, acts[0]);
      StepKeepsInv(c, s, acts[0]);
      DoomedForGood(c, Step(c, s, acts[0]).value, acts[1..]);
    }
  }

  lemma DoomedIsNoSuccess(c: Config, s: State)
    requires Inv(c, s) && Doomed(s)
    ensures (Ended(s.pc) ==> !s.pc.result.ok) && RefPrinted !in s.trace && CachePrinted !in s.trace
  {
    hide Ordered, Progress, TasksAt, FanAt, CacheAt, SignAt, PublishedAt;
  }

  // A fault, in whichever goroutine it is met and whatever the others are doing,
  // ends every run that follows without success: nothing is printed, and nothing is
  // published that was not already.
  lemma FaultsEndTheRun(c: Config, s: State, a: Action, acts: seq<Action>)
    requires Reachable(c, s) && Sound(c) && Step(c, s, a).Some? && Fault(c, s, a)
    requires Exec(c, Step(c, s, a).value, acts).Some?
    ensures var t := Exec(c, Step(c, s, a).value, acts).value;
            && (Ended(t.pc) ==> !t.pc.result.ok)
            && RefPrinted !in t.trace && CachePrinted !in t.trace
            && (HasPublished(t.trace) ==> HasPublished(s.trace))
  {
    hide Inv, Step, Doomed, Calm, HasPublished, Exec, Fault, Reachable;
    ReachableInv(c, s);
    FaultIsNoCancel(c, s, a);
    StepVerdict(c, s, a);
    StepKeepsInv(c, s, a);
    DoomedForGood(c, Step(c, s, a).value, acts);
    DoomedIsNoSuccess(c, Exec(c, Step(c, s, a).value, acts).value);
  }

  lemma FaultIsNoCancel(c: Config, s: State, a: Action)
    ensures Fault(c, s, a) ==> !a.Cancel?
  {
    hide MainFault, FanFault, SignFault, Refused;
  }

  // Somewhere along the run a fault is met.
  predicate Faulty(c: Config, s: State, acts: seq<Action>)
    decreases |acts|
  {
    acts != [] && Step(c, s, acts[0]).Some?
    && (Fault(c, s, acts[0]) || Faulty(c, Step(c, s, acts[0]).value, acts[1..]))
  }

  lemma {:induction false} FaultyIsDoomed(c: Config, s: State, acts: seq<Action>)
    requires Inv(c, s) && Sound(c) && Calm(s) && !Doomed(s) && Exec(c, s, acts).Some? && Cancel !in acts
    ensures var t := Exec(c, s, acts).value; Inv(c, t) && (Doomed(t) <==> Faulty(c, s, acts))
    decreases |acts|
  {
    hide Inv, Step, Doomed, Calm, HasPublished, Fault;
    if acts != [] {
      var t := Step(c, s, acts[0]).value;
      StepVerdict(c, s, acts[0]);
      StepKeepsInv(c, s, acts[0]);
      if Fault(c, s, acts[0]) {
        DoomedForGood(c, t, acts[1..]);
      } else {
        FaultyIsDoomed(c, t, acts[1..]);
      }
    }
  }

  // A build that nobody cancels fails if and only if it meets a fault: no call that
  // went well, and no order of the goroutines, ever fails it.
  lemma FailsIffFaulty(c: Config, acts: seq<Action>)
    requires Sound(c) && Exec(c, Init(c), acts).Some? && Cancel !in acts
    ensures var t := Exec(c, Init(c), acts).value;
            Ended(t.pc) ==> (!t.pc.result.ok <==> Faulty(c, Init(c), acts))
  {
    hide Inv, Step, HasPublished, Exec, Fault, Faulty;
    InitInv(c);
    FaultyIsDoomed(c, Init(c), acts);
    var t := Exec(c, Init(c), acts).value;
    if Ended(t.pc) && Doomed(t) {
      EndedGates(c, t);
    }
  }

  lemma EndedGates(c: Config, s: State)
    requires Inv(c, s) && Ended(s.pc) && Doomed(s)
    ensures !s.pc.result.ok
  {
    hide Ordered, Progress, TasksAt, FanAt, GateEvents, CacheAt, SignAt, PublishedAt;
  }

  // An error it forgives changes nothing: the run goes on from the very state an
  // answer would have led to, and a cache that cannot be asked is not asked again.
  lemma ForgivenErrorsChangeNothing(c: Config, s: State)
    requires CallMade(c, s) && Forgiven(c, s.pc)
    ensures MainStep(c, s, Err) == if s.pc.Gates? && s.pc.gates.HashTree?
                                   then Some(MainStep(c, s, Ok).value.(pc := Gates(JoinSecret), cache := s.cache.(hashed := false)))
                                   else MainStep(c, s, Ok)
    ensures MainStep(c, s, Err).Some? && !Ended(MainStep(c, s, Err).value.pc)
  {
    hide AllowCache;
  }

  // ---- What the CVE gate hands over ------------------------------------------------------------

  // Nothing touches the CVE gate's results once it has ended.
  lemma GateSettled(c: Config, s: State, a: Action)
    requires OnTrack(c, s) && Step(c, s, a).Some? && s.gates.cve.Done?
    requires s.pc.Release? ==> Distinct(c.req.platforms) && |c.req.platforms| > 0
    ensures var t := Step(c, s, a).value.gates;
            t.cve == s.gates.cve && t.applied == s.gates.applied && t.recorded == s.gates.recorded
  {
    hide Progress, TasksAt, FanAt, MainStep, BuildTasks, FanOut.Step, FanOut.Calls, Signing.Step, Signing.Calls;
    if a.Main? {
      hide Adds, Moved;
      MainMoved(c, s, a.reply);
      MovedGates(c, s, MainStep(c, s, a.reply).value);
    }
  }

  lemma MovedGates(c: Config, s: State, t: State)
    requires Moved(c, s, t) && GateEvents(s) && s.gates.cve.Done?
    ensures t.gates == s.gates
  {
    hide Progress, TasksAt, FanAt, Justified;
    assert s.trace != [];
  }

  lemma {:induction false} GateSettledForGood(c: Config, s: State, acts: seq<Action>)
    requires Inv(c, s) && Sound(c) && Covered(c, s) && Noted(c, s) && s.gates.cve.Done? && Exec(c, s, acts).Some?
    ensures var t := Exec(c, s, acts).value;
            && Inv(c, t) && Covered(c, t) && Noted(c, t)
            && t.gates.cve == s.gates.cve && t.gates.applied == s.gates.applied && t.gates.recorded == s.gates.recorded
    decreases |acts|
  {
    assert GatesAt(s) && OnTrack(c, s);
    PlatformsAtRelease(c, s);
    hide Inv, OnTrack, Covered, Noted, GatesAt, Step;
    if acts != [] {
      GateSettled(c, s, acts[0]);
      StepCovered(c, s, acts[0]);
      StepNoted(c, s, acts[0]);
      StepKeepsInv(c, s, acts[0]);
      GateSettledForGood(c, Step(c, s, acts[0]).value, acts[1..]);
    }
  }

  lemma PlatformsAtRelease(c: Config, s: State)
    requires InBounds(c, s) && Sound(c)
    ensures s.pc.Release? ==> Distinct(c.req.platforms) && |c.req.platforms| > 0
  {
    hide Distinct;
  }

  // What the finished gate left is what the build used: the tree is hashed only
  // once it has passed, and with its exemptions; the lockfile is written only of a
  // recorded scan, and always where the build succeeds.
  lemma ResultsUsed(c: Config, s: State)
    requires Inv(c, s) && Sound(c) && Noted(c, s) && s.gates.cve.Done?
    ensures forall e | e in s.trace && e.TreeHashed? :: s.gates.cve.ok && e.vex == Effective(c, s.gates)
    ensures LockWritten in s.trace ==> s.gates.recorded
    ensures s.gates.recorded && Success(s.pc) ==> LockWritten in s.trace
  {
    hide Ordered, Progress, TasksAt, FanAt, GateEvents, GatesAt, InBounds, SignAt, PublishedAt, Told, Effective;
    HashAfterGate(c, s);
    if Success(s.pc) {
      RealSuccess(c, s);
    }
  }

  lemma HashAfterGate(c: Config, s: State)
    requires Ordered(c, s.trace) && GateEvents(s)
    ensures forall e | e in s.trace && e.TreeHashed? :: s.gates.cve == Done(true)
  {
    forall e | e in s.trace && e.TreeHashed?
      ensures s.gates.cve == Done(true)
    {
      var k :| 0 <= k < |s.trace| && s.trace[k] == e;
      assert Justified(c, s.trace[..k], s.trace[k]);
    }
  }

  // A success once the gates have run is no plan, and its base ports are wired.
  lemma RealSuccess(c: Config, s: State)
    requires InBounds(c, s) && Told(c, s) && Sound(c) && !s.gates.cve.Idle? && Success(s.pc)
    ensures !s.pc.result.kind.Plan? && BaseImages in c.deps
  {
    hide Accepted, Buildable;
    AcceptedPorts(c);
  }

  lemma InvGates(c: Config, s: State)
    requires Inv(c, s)
    ensures GatesAt(s)
  {
    hide GatesAt, GateEvents, Progress, TasksAt, FanAt, Ordered, InBounds, Faithful;
  }

  // Of every run in which the CVE gate ends with this scan: the exemptions applied
  // are those of a live, passing scan and the request's own where there are none;
  // the lockfile records a live scan and no other, in every build that succeeds.
  lemma ScanResultsHandedOver(c: Config, s: State, scan: ScanReply, acts: seq<Action>)
    requires Reachable(c, s) && Sound(c) && s.gates.cve.Running?
    requires CveStep(c, s, scan).Some? && Exec(c, CveStep(c, s, scan).value, acts).Some?
    ensures var live := Scanner in c.deps && !c.req.baseImage.offline && !c.req.hermetic;
            var t := Exec(c, CveStep(c, s, scan).value, acts).value;
            && t.gates.cve.Done? && (t.gates.cve.ok <==> !Refused(c, s, scan))
            && (forall e | e in t.trace && e.TreeHashed? ::
                  e.vex == if live && scan.exempted != {} then scan.exempted else c.req.runtime.vexExemptions)
            && (LockWritten in t.trace ==> live)
            && (Ended(t.pc) && t.pc.result.ok ==> (LockWritten in t.trace <==> live))
  {
    hide Inv, Covered, Noted, Exec, Reachable, GatesAt, KnownBad, Complete, AuditPasses, LivePasses;
    ReachableInv(c, s);
    ReachableCovered(c, s);
    InvGates(c, s);
    var u := CveStep(c, s, scan).value;
    assert u == Step(c, s, CveEnds(scan)).value;
    StepCovered(c, s, CveEnds(scan));
    StepNoted(c, s, CveEnds(scan));
    StepKeepsInv(c, s, CveEnds(scan));
    GatePassesIff(c.req, c.failEnv, s.work.base.audit, scan);
    GateSettledForGood(c, u, acts);
    ResultsUsed(c, Exec(c, u, acts).value);
  }
}
