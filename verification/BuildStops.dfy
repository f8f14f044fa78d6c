// Where a build stops short: a confirmed cache hit is not built again, and a
// cancelled build goes no further than the stage it is in.
// Source: internal/core/pipeline.go, Build, checkCtx.

module BuildStops {
  import opened Text
  import opened Request
  import opened Ports
  import opened CveGate
  import opened Build
  import opened BuildProofs
  import opened BuildOutcome
  import opened BuildTheorems
  import ErrGroup
  import FanOut
  import Signing

  // ---- A cache hit --------------------------------------------------------------------

  // What can happen before the cache is asked, and what follows a hit.
  predicate Early(e: Event)
  {
    e.GateDone? || e.LockWritten? || e.TreeHashed? || e.CacheAnswered? || e.CachePrinted?
  }

  // A hit is returned or the build fails; nothing is built, scanned or published
  // but where there was none.
  predicate HitSettled(s: State)
  {
    && (s.cache.hit.Some? ==> s.pc.Gates? || (Ended(s.pc) && (s.pc.result.kind.FromCache? || s.pc.result.kind.NoImage?)))
    && (Ended(s.pc) && s.pc.result.kind.FromCache? ==> s.cache.hit.Some?)
    && (s.pc.Gates? && s.pc.gates.PrintHit? ==> s.cache.hit.Some?)
    && (Ended(s.pc) && s.pc.result.kind.NoImage? ==> !s.pc.result.ok)
    && (s.pc.Setup? || s.pc.Dry? || s.pc.Gates? || s.cache.hit.Some? ==> forall e | e in s.trace :: Early(e))
  }

  lemma ResolveSettled(c: Config, s: State, r: Reply)
    requires HitSettled(s) && s.pc.Setup? && (s.pc.setup.ResolveBase? || s.pc.setup.Overlay?)
    ensures HitSettled(SetupStep(c, s, r))
  {
  }

  lemma SetupSettled(c: Config, s: State, r: Reply)
    requires HitSettled(s) && s.pc.Setup? && !s.pc.setup.ResolveBase? && !s.pc.setup.Overlay?
    ensures HitSettled(SetupStep(c, s, r))
  {
    hide Accepted;
  }

  lemma DrySettled(c: Config, s: State, r: Reply)
    requires HitSettled(s) && s.pc.Dry? && DryStep(c, s, r).Some?
    ensures HitSettled(DryStep(c, s, r).value)
  {
  }

  lemma GatesSettled(c: Config, s: State, r: Reply)
    requires HitSettled(s) && s.pc.Gates? && GatesStep(c, s, r).Some?
    ensures HitSettled(GatesStep(c, s, r).value)
  {
    hide AllowCache;
  }

  lemma WorkSettled(c: Config, s: State, r: Reply)
    requires HitSettled(s) && s.pc.Work? && WorkStep(c, s, r).Some?
    ensures HitSettled(WorkStep(c, s, r).value)
  {
    hide BuildTasks, ErrGroup.Drained;
  }

  // Without a hit and past the gates there is nothing left to settle.
  predicate Hitless(s: State)
  {
    s.cache.hit.None? && (Producing(s.pc) || (Ended(s.pc) && s.pc.result == Result(false, NoImage, None)))
  }

  lemma OptionalHitless(c: Config, s: State, p: Port, r: Reply)
    requires Hitless(s)
    ensures Hitless(Optional(c, s, p, r, s.pc)) && Optional(c, s, p, r, s.pc).cache == s.cache
  {
  }

  lemma ScansHitless(c: Config, s: State, r: Reply)
    requires Hitless(s) && s.pc.Check?
    ensures Hitless(PostScanStep(c, s, r)) && Hitless(OverlayScanStep(c, s, r)) && Hitless(RoutesStep(c, s, r))
  {
    hide FanOut.Init, ScanDirs, FanConfig, Optional;
    OptionalHitless(c, s, SecretGuard, r);
    OptionalHitless(c, s, RouteFilter, r);
  }

  lemma CheckSettled(c: Config, s: State, r: Reply)
    requires HitSettled(s) && s.pc.Check? && CheckStep(c, s, r).Some?
    ensures HitSettled(CheckStep(c, s, r).value)
  {
    hide FanOut.Drained, PostScanStep, OverlayScanStep, RoutesStep;
    ScansHitless(c, s, r);
    var t := CheckStep(c, s, r).value;
    assert Hitless(t);
  }

  lemma ReleaseSettled(c: Config, s: State, r: Reply)
    requires HitSettled(s) && s.pc.Release?
    ensures HitSettled(ReleaseStep(c, s, r))
  {
    hide PayloadOf, Built, Multi, DestinationPort;
  }

  lemma AfterSettled(c: Config, s: State, r: Reply)
    requires HitSettled(s) && s.pc.After? && AfterStep(c, s, r).Some?
    ensures HitSettled(AfterStep(c, s, r).value)
  {
    hide SubjectsReadable, SigningConfig, Signing.Init;
  }

  lemma LeavingSettled(c: Config, s: State, r: Reply)
    requires HitSettled(s) && s.pc.Unwinding? && MainStep(c, s, r).Some?
    ensures HitSettled(MainStep(c, s, r).value)
  {
  }

  lemma MainSettled(c: Config, s: State, r: Reply)
    requires HitSettled(s) && MainStep(c, s, r).Some?
    ensures HitSettled(MainStep(c, s, r).value)
  {
    hide HitSettled, SetupStep, DryStep, GatesStep, WorkStep, CheckStep, ReleaseStep, AfterStep;
    match s.pc {
      case Setup(at) =>
        if at.ResolveBase? || at.Overlay? {
          ResolveSettled(c, s, r);
        } else {
          SetupSettled(c, s, r);
        }
      case Dry(_) => DrySettled(c, s, r);
      case Gates(_) => GatesSettled(c, s, r);
      case Work(_) => WorkSettled(c, s, r);
      case Check(_) => CheckSettled(c, s, r);
      case Release(_) => ReleaseSettled(c, s, r);
      case After(_) => AfterSettled(c, s, r);
      case _ => LeavingSettled(c, s, r);
    }
  }

  lemma StepSettled(c: Config, s: State, a: Action)
    requires HitSettled(s) && Step(c, s, a).Some?
    ensures HitSettled(Step(c, s, a).value)
  {
    hide MainStep, FanOut.Step, FanOut.Calls, Signing.Step, Signing.Calls, BuildTasks, FanConfig;
    if a.Main? {
      MainSettled(c, s, a.reply);
    }
  }

  lemma {:induction false} RunSettled(c: Config, s: State, acts: seq<Action>)
    requires HitSettled(s) && Exec(c, s, acts).Some?
    ensures HitSettled(Exec(c, s, acts).value)
    decreases |acts|
  {
    hide HitSettled, Step;
    if acts != [] {
      StepSettled(c, s, acts[0]);
      RunSettled(c, Step(c, s, acts[0]).value, acts[1..]);
    }
  }

  // Once the cache has answered with a hit, whatever its signature check said,
  // nothing is prepared, built or published in that run, and its only success is
  // the cached image; and that is what a cached success rests on.
  lemma HitIsNotRebuilt(c: Config, s: State)
    requires Reachable(c, s) && Sound(c)
    ensures (exists v :: CacheAnswered(v) in s.trace) ==>
              && (forall e | e in s.trace :: Early(e))
              && (Ended(s.pc) && s.pc.result.ok ==> s.pc.result.kind.FromCache?)
    ensures Ended(s.pc) && s.pc.result.kind.FromCache? ==> s.cache.hit.Some?
  {
    ReachableInv(c, s);
    var acts :| Exec(c, Init(c), acts) == Some(s);
    RunSettled(c, Init(c), acts);
    hide Exec, OnTrack, Ordered, InBounds, Told, SignAt, PublishedAt;
  }

  // ---- A dry run ------------------------------------------------------------------------

  // The rest of a dry run, its CVE scan done.
  predicate DryRest(pc: Pc)
  {
    (pc.Dry? && !pc.dry.ScanCves?) || Ended(pc)
  }

  lemma DryMainKeeps(c: Config, s: State, r: Reply)
    requires DryRest(s.pc) && MainStep(c, s, r).Some?
    ensures DryRest(MainStep(c, s, r).value.pc) && MainStep(c, s, r).value.cache == s.cache
  {
    hide SetupStep, GatesStep, WorkStep, CheckStep, ReleaseStep, AfterStep;
  }

  lemma DryStepKeeps(c: Config, s: State, a: Action)
    requires DryRest(s.pc) && Step(c, s, a).Some?
    ensures DryRest(Step(c, s, a).value.pc) && Step(c, s, a).value.cache == s.cache
  {
    hide MainStep, FanOut.Step, FanOut.Calls, Signing.Step, Signing.Calls, BuildTasks, FanConfig, ScanBaseImage;
    if a.Main? {
      DryMainKeeps(c, s, a.reply);
    }
  }

  lemma {:induction false} DryRunKeeps(c: Config, s: State, acts: seq<Action>)
    requires DryRest(s.pc) && Exec(c, s, acts).Some?
    ensures Exec(c, s, acts).value.cache == s.cache
    decreases |acts|
  {
    hide Step;
    if acts != [] {
      DryStepKeeps(c, s, acts[0]);
      DryRunKeeps(c, Step(c, s, acts[0]).value, acts[1..]);
    }
  }

  lemma ScansItsRequest(c: Config, s: State)
    requires Reachable(c, s) && Sound(c) && s.pc.Dry? && s.pc.dry.ScanCves?
    ensures s.gates.cve.Idle? && s.cache.vex == c.req.runtime.vexExemptions
  {
    ReachableInv(c, s);
    hide Reachable, OnTrack, Ordered, Told, SignAt, PublishedAt, Effective, AllowCache;
  }

  // The plan is drawn up with the exemptions the dry run's own scan applied, where
  // it was live and applied any, and else with the request's.
  lemma PlanHasAppliedExemptions(c: Config, s: State, scan: ScanReply, acts: seq<Action>)
    requires Reachable(c, s) && Sound(c) && s.pc.Dry? && s.pc.dry.ScanCves?
    requires CveStep(c, s, scan).Some? && CveStep(c, s, scan).value.pc.Dry?
    requires Exec(c, CveStep(c, s, scan).value, acts).Some?
    ensures var live := Scanner in c.deps && !c.req.baseImage.offline && !c.req.hermetic;
            Exec(c, CveStep(c, s, scan).value, acts).value.cache.vex ==
              if live && scan.exempted != {} then scan.exempted else c.req.runtime.vexExemptions
  {
    ScansItsRequest(c, s);
    DryRunKeeps(c, CveStep(c, s, scan).value, acts);
    hide Exec, Reachable;
  }

  // ---- Cancellation ---------------------------------------------------------------------

  // The stretches between the points at which Build looks whether it has been
  // cancelled, in order; what follows the signing is as far as what precedes it.
  function Stretch(pc: Pc): nat
  {
    match pc
    case Setup(at) => if at.Begin? then 0 else if at.Overlay? || at.Dispatch? then 2 else 1
    case Dry(_) => 2
    case Gates(_) => 2
    case Work(at) => if at.AwaitTasks? then 3 else 2
    case Check(at) => if at.PostScan? || at.OverlayScan? then 4 else 5
    case Release(_) => 6
    case After(at) => if at.AwaitSigning? then 8 else 7
    case _ => 9
  }

  predicate Halted(s: State, t: State)
  {
    && t.cancelled
    && (Ended(t.pc) || (!Ended(s.pc) && Stretch(t.pc) <= Stretch(s.pc)))
    && (HasPublished(t.trace) ==> HasPublished(s.trace))
    && (SbomAttached in t.trace ==> SbomAttached in s.trace)
  }

  lemma SetupHalts(c: Config, s: State, r: Reply)
    requires s.cancelled && s.pc.Setup?
    ensures Halted(s, SetupStep(c, s, r))
  {
    hide Accepted;
  }

  lemma DryHalts(c: Config, s: State, r: Reply)
    requires s.cancelled && s.pc.Dry? && DryStep(c, s, r).Some?
    ensures Halted(s, DryStep(c, s, r).value)
  {
  }

  lemma GatesHalts(c: Config, s: State, r: Reply)
    requires s.cancelled && s.pc.Gates? && GatesStep(c, s, r).Some?
    ensures Halted(s, GatesStep(c, s, r).value)
  {
    hide AllowCache;
  }

  lemma WorkHalts(c: Config, s: State, r: Reply)
    requires s.cancelled && s.pc.Work? && WorkStep(c, s, r).Some?
    ensures Halted(s, WorkStep(c, s, r).value)
  {
    hide BuildTasks, ErrGroup.Drained;
  }

  lemma ScansHalt(c: Config, s: State, r: Reply)
    requires s.cancelled && s.pc.Check?
    ensures s.pc.check.PostScan? ==> Halted(s, PostScanStep(c, s, r))
    ensures s.pc.check.OverlayScan? ==> Halted(s, OverlayScanStep(c, s, r))
  {
    hide ScanDirs;
  }

  lemma CheckHalts(c: Config, s: State, r: Reply)
    requires s.cancelled && s.pc.Check? && CheckStep(c, s, r).Some?
    ensures Halted(s, CheckStep(c, s, r).value)
  {
    hide FanOut.Drained, FanOut.Init, FanConfig, PostScanStep, OverlayScanStep;
    ScansHalt(c, s, r);
  }

  lemma ReleaseHalts(c: Config, s: State, r: Reply)
    requires s.cancelled && s.pc.Release?
    ensures Halted(s, ReleaseStep(c, s, r))
  {
    hide PayloadOf, Built, Multi, DestinationPort;
  }

  lemma AfterHalts(c: Config, s: State, r: Reply)
    requires s.cancelled && s.pc.After? && AfterStep(c, s, r).Some?
    ensures Halted(s, AfterStep(c, s, r).value)
  {
    hide SubjectsReadable, SigningConfig, Signing.Init;
  }

  lemma LeavingHalts(c: Config, s: State, r: Reply)
    requires s.cancelled && s.pc.Unwinding? && MainStep(c, s, r).Some?
    ensures Halted(s, MainStep(c, s, r).value)
  {
  }

  lemma MainHalts(c: Config, s: State, r: Reply)
    requires s.cancelled && MainStep(c, s, r).Some?
    ensures Halted(s, MainStep(c, s, r).value)
  {
    hide Halted, SetupStep, DryStep, GatesStep, WorkStep, CheckStep, ReleaseStep, AfterStep;
    match s.pc {
      case Setup(_) => SetupHalts(c, s, r);
      case Dry(_) => DryHalts(c, s, r);
      case Gates(_) => GatesHalts(c, s, r);
      case Work(_) => WorkHalts(c, s, r);
      case Check(_) => CheckHalts(c, s, r);
      case Release(_) => ReleaseHalts(c, s, r);
      case After(_) => AfterHalts(c, s, r);
      case _ => LeavingHalts(c, s, r);
    }
  }

  lemma StepHalts(c: Config, s: State, a: Action)
    requires s.cancelled && Step(c, s, a).Some?
    ensures Halted(s, Step(c, s, a).value)
  {
    hide MainStep, FanOut.Step, FanOut.Calls, Signing.Step, Signing.Calls, BuildTasks, FanConfig;
    if a.Main? {
      MainHalts(c, s, a.reply);
    }
  }

  // Once the caller's context has ended, a build that has not returned stays in
  // the stretch it is in: it starts no further stage, publishes nothing and
  // attaches nothing that it had not before.
  lemma {:induction false} CancelledGoesNoFurther(c: Config, s: State, acts: seq<Action>)
    requires s.cancelled && Exec(c, s, acts).Some?
    ensures Halted(s, Exec(c, s, acts).value)
    decreases |acts|
  {
    if acts != [] {
      var t := Step(c, s, acts[0]).value;
      StepHalts(c, s, acts[0]);
      hide Step;
      CancelledGoesNoFurther(c, t, acts[1..]);
    }
  }
}
