// What every run of Build guarantees, over every interleaving of its goroutines
// and every outcome of the driven ports.
// Source: internal/core/pipeline.go, Build.

module BuildTheorems {
  import opened Text
  import opened Request
  import opened Ports
  import opened CveGate
  import opened Build
  import opened BuildProofs
  import opened BuildOutcome
  import ErrGroup
  import FanOut
  import Signing

  // What Build has established of a request once Validate has accepted it.
  predicate Sound(c: Config)
  {
    c.valid ==> Buildable(c.req)
  }

  // Build normalises the caller's request and validates the outcome; every such
  // call is sound.
  ghost predicate Called(c: Config, h: Host, raw: Request)
  {
    c.req == Normalized(h, raw) && (c.valid <==> Verdict(h, c.req).None?)
  }

  lemma EveryCallIsSound(c: Config, h: Host, raw: Request)
    ensures Called(c, h, raw) ==> Sound(c)
  {
    AcceptedIsBuildable(h, raw);
  }

  ghost predicate Inv(c: Config, s: State)
  {
    OnTrack(c, s) && Ordered(c, s.trace) && InBounds(c, s) && Faithful(c, s)
  }

  lemma InitInv(c: Config)
    ensures Inv(c, Init(c))
  {
    assert Ordered(c, []);
  }

  lemma MainWired(c: Config, s: State, r: Reply)
    requires InBounds(c, s) && Sound(c) && MainStep(c, s, r).Some?
    ensures InBounds(c, MainStep(c, s, r).value)
  {
    hide InBounds, Buildable, SetupStep, DryStep, GatesStep, WorkStep, PostScanStep, OverlayScanStep,
         RoutesStep, ReleaseStep, AfterStep;
    match s.pc {
      case Setup(at) =>
        if at.Begin? {
          BeginWired(c, s, r);
        } else if at.ResolveBase? || at.Overlay? {
          ResolveWired(c, s, r);
        } else if at.DetectEnv? || at.Viability? {
          EarlyWired(c, s, r);
        } else {
          SetupWired(c, s, r);
        }
      case Dry(at) =>
        if at.ScanSecrets? || at.VerifyBase? {
          DryScansWired(c, s, r);
        } else {
          DryWired(c, s, r);
        }
      case Gates(at) =>
        if at.JoinCve? || at.JoinForWrite? || at.WriteLock? {
          JoinsWired(c, s, r);
        } else {
          LookupWired(c, s, r);
        }
      case Work(_) => WorkWired(c, s, r);
      case Check(at) =>
        match at {
          case PostScan => PostScanWired(c, s, r);
          case OverlayScan => OverlayScanWired(c, s, r);
          case Routes => RoutesWired(c, s, r);
          case Fanning => FanningWired(c, s, r);
        }
      case Release(at) =>
        if at.Index? {
          IndexWired(c, s, r);
        } else {
          ReleaseWired(c, s, r);
        }
      case After(_) => AfterWired(c, s, r);
      case _ => LeavingWired(c, s, r);
    }
  }

  lemma LeavingWired(c: Config, s: State, r: Reply)
    requires InBounds(c, s) && Ended(s.pc) && MainStep(c, s, r).Some?
    ensures InBounds(c, MainStep(c, s, r).value)
  {
  }

  lemma MainFaithful(c: Config, s: State, r: Reply)
    requires GatesAt(s) && InBounds(c, s) && Faithful(c, s) && MainStep(c, s, r).Some?
    ensures Faithful(c, MainStep(c, s, r).value)
  {
    hide GatesAt, InBounds, Faithful, SetupStep, DryStep, GatesStep, WorkStep, PostScanStep, OverlayScanStep,
         RoutesStep, ReleaseStep, AfterStep;
    match s.pc {
      case Setup(at) =>
        if at.ResolveBase? || at.Overlay? {
          ResolveFaithful(c, s, r);
        } else if at.Begin? || at.DetectEnv? || at.Viability? {
          EarlyFaithful(c, s, r);
        } else {
          SetupFaithful(c, s, r);
        }
      case Dry(at) =>
        if at.PrintPlan? {
          PlanFaithful(c, s, r);
        } else {
          DryFaithful(c, s, r);
        }
      case Gates(at) =>
        match at {
          case JoinCve => JoinCveFaithful(c, s, r);
          case HashTree => HashFaithful(c, s, r);
          case CheckCache =>
            if r.CacheReply? && r.hit {
              LookupFaithful(c, s, r);
            } else {
              MissFaithful(c, s, r);
            }
          case PrintHit => HitFaithful(c, s, r);
          case _ => JoinFaithful(c, s, r);
        }
      case Work(_) => WorkFaithful(c, s, r);
      case Check(at) =>
        match at {
          case PostScan => PostScanFaithful(c, s, r);
          case OverlayScan => OverlayScanFaithful(c, s, r);
          case Routes => RoutesFaithful(c, s, r);
          case Fanning => FanningFaithful(c, s, r);
        }
      case Release(at) =>
        if at.Index? {
          IndexFaithful(c, s, r);
        } else {
          PublishFaithful(c, s, r);
        }
      case After(at) =>
        if at.StartSigning? && AfterStep(c, s, r) != None && AfterStep(c, s, r).value.pc == After(AwaitSigning) {
          StartFaithful(c, s, r);
        } else if at.StartSigning? {
          UnsignedFaithful(c, s, r);
        } else if at.AwaitSigning? {
          AwaitFaithful(c, s, r);
        } else if at.AttachSbom? {
          SbomFaithful(c, s, r);
        } else {
          PrintFaithful(c, s, r);
        }
      case _ => LeavingFaithful(c, s, r);
    }
  }

  lemma CancelSane(c: Config, s: State)
    requires InBounds(c, s) && Faithful(c, s)
    ensures InBounds(c, s.(cancelled := true)) && Faithful(c, s.(cancelled := true))
  {
    hide Signing.Inv, Accepted, AllowCache, NoNetwork, Settled, AllVerified, PayloadOf;
  }

  lemma CancelInv(c: Config, s: State)
    requires Inv(c, s)
    ensures Inv(c, s.(cancelled := true))
  {
    hide OnTrack, Ordered, InBounds, Faithful;
    CancelKept(c, s);
    CancelSane(c, s);
  }

  // Every step of every goroutine keeps the invariant.
  lemma StepKeepsInv(c: Config, s: State, a: Action)
    requires Inv(c, s) && Sound(c) && Step(c, s, a).Some?
    ensures Inv(c, Step(c, s, a).value)
  {
    hide GatesAt, GateEvents, Progress, TasksAt, Ordered, Faithful, MainStep, CveStep, SecretStep, TaskStep,
         FanStep, SignStep, ValidateDeps;
    StepKept(c, s, a);
    match a {
      case Cancel => CancelInv(c, s);
      case CveEnds(scan) => if s.gates.cve.Running? { CveSane(c, s, scan); } else { DryCveSane(c, s, scan); }
      case SecretEnds(clean) => SecretSane(c, s, clean);
      case TaskEnds(i, ok, prep) => TaskSane(c, s, i, ok, prep);
      case FanActs(act) => FanSane(c, s, act);
      case SignActs(act) => SignSane(c, s, act);
      case Main(reply) =>
        MainWired(c, s, reply);
        MainFaithful(c, s, reply);
    }
  }

  lemma {:induction false} ExecKeepsInv(c: Config, s: State, acts: seq<Action>)
    requires Inv(c, s) && Sound(c) && Exec(c, s, acts).Some?
    ensures Inv(c, Exec(c, s, acts).value)
    decreases |acts|
  {
    hide Inv, Step;
    if acts != [] {
      StepKeepsInv(c, s, acts[0]);
      ExecKeepsInv(c, Step(c, s, acts[0]).value, acts[1..]);
    }
  }

  lemma ReachableInv(c: Config, s: State)
    requires Reachable(c, s) && Sound(c)
    ensures Inv(c, s)
  {
    hide Inv, Exec;
    var acts :| Exec(c, Init(c), acts) == Some(s);
    InitInv(c);
    ExecKeepsInv(c, Init(c), acts);
  }

  // ---- Gates and order -----------------------------------------------------------------

  // A cached success is returned, or printed, only when both gates have
  // finished without error; so is every other success but a dry run's plan.
  lemma SuccessNeedsBothGates(c: Config, s: State)
    requires Reachable(c, s) && Sound(c)
    ensures forall k | 0 <= k < |s.trace| && s.trace[k].CachePrinted? :: BothPassed(s.trace[..k])
    ensures Ended(s.pc) && s.pc.result.ok && !s.pc.result.kind.Plan? ==> GatesPassed(s.gates)
    ensures Ended(s.pc) && s.pc.result.ok && s.pc.result.kind.FromCache? ==> CachePrinted in s.trace
  {
    ReachableInv(c, s);
    forall k | 0 <= k < |s.trace| && s.trace[k].CachePrinted?
      ensures BothPassed(s.trace[..k])
    {
      assert Justified(c, s.trace[..k], s.trace[k]);
    }
  }

  // pokkum.lock is written while neither gate is running, and before the tree
  // is hashed.
  lemma LockWrittenAlone(c: Config, s: State)
    requires Reachable(c, s) && Sound(c)
    ensures s.pc.Gates? && s.pc.gates.WriteLock? ==> GatesPassed(s.gates)
    ensures forall k | 0 <= k < |s.trace| && s.trace[k].LockWritten? :: BothPassed(s.trace[..k]) && NoHash(s.trace[..k])
  {
    ReachableInv(c, s);
    forall k | 0 <= k < |s.trace| && s.trace[k].LockWritten?
      ensures BothPassed(s.trace[..k]) && NoHash(s.trace[..k])
    {
      assert Justified(c, s.trace[..k], s.trace[k]);
    }
  }

  lemma WrittenAfterGates(c: Config, trace: seq<Event>)
    requires Ordered(c, trace) && (LockWritten in trace || HasPublished(trace))
    ensures BothPassed(trace)
  {
    var k :| 0 <= k < |trace| && (trace[k].LockWritten? || trace[k].Published?);
    assert Justified(c, trace[..k], trace[k]);
  }

  // Once a gate has failed, nothing after it can be a success: no lock write, no
  // publication, nothing printed, and only an error to return.
  lemma FailedGateIsFinal(c: Config, s: State)
    requires Reachable(c, s) && Sound(c)
    requires GateDone(Cve, false) in s.trace || GateDone(Secret, false) in s.trace
    ensures LockWritten !in s.trace && !HasPublished(s.trace) && CachePrinted !in s.trace && RefPrinted !in s.trace
    ensures Ended(s.pc) ==> !s.pc.result.ok
  {
    ReachableInv(c, s);
    if LockWritten in s.trace || HasPublished(s.trace) {
      WrittenAfterGates(c, s.trace);
    }
  }

  // An armed CVE gate that meets a vulnerability at or above its threshold,
  // whether in a live scan or in the recorded audit, is such a failed gate.
  lemma ArmedGateFails(c: Config, s: State, scan: ScanReply)
    requires s.gates.cve.Running? && Scanner in c.deps && Armed(c.req, c.failEnv)
    requires KnownBad(c.req, c.failEnv, s.work.base.audit, scan)
    ensures CveStep(c, s, scan).Some? && GateDone(Cve, false) in CveStep(c, s, scan).value.trace
  {
    GatePassesIff(c.req, c.failEnv, s.work.base.audit, scan);
    hide ScanBaseImage, KnownBad;
    var t := CveStep(c, s, scan).value;
    assert t.trace[|s.trace|] == GateDone(Cve, false);
  }

  // However Build returns, it leaves no goroutine behind: gates, errgroup,
  // fan-out and signing have all ended.
  lemma NothingLeftRunning(c: Config, s: State)
    requires Reachable(c, s) && Sound(c) && s.pc.Returned?
    ensures !s.gates.cve.Running? && !s.gates.secret.Running?
    ensures ErrGroup.Drained(s.work.group) && FanOut.Drained(s.fan) && Settled(s.sig.st)
  {
    ReachableInv(c, s);
  }

  // The work of stage 5, task by task.
  predicate WorkDone(c: Config, trace: seq<Event>)
  {
    && TaskDone(PrepareTask) in trace && TaskDone(InspectTask) in trace
    && (!c.req.baseImage.noVerifyBase ==> TaskDone(VerifyTask) in trace)
    && (c.req.compile.strategy.Layered? && c.req.appRuntime.Bun? && BunRuntime in c.deps ==>
          forall i: nat | i < |c.req.platforms| :: TaskDone(BunTask(i)) in trace)
  }

  lemma ReadyMeansDone(c: Config, trace: seq<Event>, payload: Payload)
    requires ReadyToPublish(c, trace, payload)
    ensures WorkDone(c, trace)
  {
    TasksAreWork(c, trace);
    hide TasksDone;
  }

  // The errgroup of stage 5 runs exactly these tasks, each once.
  lemma TasksExactly(c: Config)
    ensures Distinct(BuildTasks(c))
    ensures forall t: BuildTask :: t in BuildTasks(c) <==>
              match t
              case PrepareTask => true
              case InspectTask => true
              case VerifyTask => !c.req.baseImage.noVerifyBase
              case BunTask(i) =>
                i < |c.req.platforms| && c.req.compile.strategy.Layered? && c.req.appRuntime.Bun? && BunRuntime in c.deps
  {
    var n := if c.req.baseImage.noVerifyBase then 2 else 3;
    forall i: nat | i < |c.req.platforms| && ResolveBun(c)
      ensures BunTask(i) in BuildTasks(c)
    {
      assert BuildTasks(c)[n + i] == BunTask(i);
    }
    assert BuildTasks(c)[0] == PrepareTask && BuildTasks(c)[n - 1] == InspectTask && (n == 3 ==> BuildTasks(c)[1] == VerifyTask);
  }

  lemma TasksAreWork(c: Config, trace: seq<Event>)
    requires TasksDone(c, trace)
    ensures WorkDone(c, trace)
  {
    var tasks := BuildTasks(c);
    var k := if c.req.baseImage.noVerifyBase then 1 else 2;
    assert TaskDone(tasks[0]) in trace && TaskDone(tasks[1]) in trace && TaskDone(tasks[k]) in trace;
    if ResolveBun(c) {
      forall i: nat | i < |c.req.platforms|
        ensures TaskDone(BunTask(i)) in trace
      {
        assert tasks[k + 1 + i] == BunTask(i);
      }
    }
  }

  // A publication comes after both gates, Prepare, the base verification unless
  // disabled, the inspection, every Bun resolve, every post-build scan, every
  // platform build, and of an index over exactly one image per requested
  // platform; and each image published is the one the packager returned for
  // that platform to that platform's own goroutine.
  lemma PublishComesLast(c: Config, s: State)
    requires Reachable(c, s) && Sound(c)
    ensures forall k | 0 <= k < |s.trace| && s.trace[k].Published? ::
              ReadyToPublish(c, s.trace[..k], s.trace[k].payload) && WorkDone(c, s.trace[..k])
  {
    hide Reachable, ReadyToPublish, WorkDone, GatesAt, GateEvents, Progress, TasksAt, FanAt, Faithful;
    ReachableInv(c, s);
    forall k | 0 <= k < |s.trace| && s.trace[k].Published?
      ensures ReadyToPublish(c, s.trace[..k], s.trace[k].payload) && WorkDone(c, s.trace[..k])
    {
      assert Justified(c, s.trace[..k], s.trace[k]);
      ReadyMeansDone(c, s.trace[..k], s.trace[k].payload);
    }
  }

  // ---- What ships was scanned --------------------------------------------------------------

  // Some tree the post-build scan cleared holds this one.
  predicate ScannedClean(trace: seq<Event>, tree: string)
  {
    exists e | e in trace :: e.DirCleared? && Within(e.dir, tree)
  }

  // What each strategy puts into an image of Prepare's output: the whole of it and
  // the staged dependencies; the client and prerendered trees; or what compiling
  // the entrypoint takes in.
  predicate Ships(strategy: Strategy, prep: Prep, sh: FanOut.Shipment)
  {
    match strategy
    case Layered =>
      && {prep.outputDir, FanOut.Join(prep.outputDir, "client"), FanOut.Join(prep.outputDir, "prerendered")} <= sh.trees
      && (prep.nodeModules != "" ==> prep.nodeModules in sh.trees) && sh.compiledFrom.None?
    case Static =>
      && sh.trees == {FanOut.Join(prep.outputDir, "client"), FanOut.Join(prep.outputDir, "prerendered")}
      && sh.compiledFrom.None?
    case Exe => sh.trees == {} && sh.compiledFrom == Some(prep.entrypoint)
    case _ => false
  }

  // The scan does not look at staged dependencies outside the output.
  predicate Unlooked(strategy: Strategy, prep: Prep, tree: string)
  {
    strategy.Layered? && tree == prep.nodeModules != "" && !Within(prep.outputDir, tree)
  }

  predicate ShipmentScanned(c: Config, trace: seq<Event>, prep: Prep, sh: FanOut.Shipment)
  {
    && (forall tree | tree in sh.trees :: Unlooked(c.req.compile.strategy, prep, tree) || ScannedClean(trace, tree))
    && (sh.compiledFrom.Some? ==>
          && ScannedClean(trace, prep.outputDir)
          && (sh.compiledFrom.value != "" ==> ScannedClean(trace, c.dirOf(sh.compiledFrom.value))))
  }

  lemma BelowIsWithin(dir: string, name: string)
    ensures Within(dir, FanOut.Join(dir, name))
  {
    assert FanOut.Join(dir, name)[..|dir|] == dir;
  }

  lemma OutputCovered(c: Config, trace: seq<Event>, prep: Prep)
    requires OutputScanned(c, trace, prep) && prep.outputDir != "" && ValidStrategy(c.req.compile.strategy)
    ensures Ships(c.req.compile.strategy, prep, FanOut.ShipmentOf(c.req.compile.strategy, prep))
    ensures ShipmentScanned(c, trace, prep, FanOut.ShipmentOf(c.req.compile.strategy, prep))
  {
    var o, dirs := prep.outputDir, ScanDirs(c, prep);
    forall name: string
      ensures Within(o, FanOut.Join(o, name))
    {
      BelowIsWithin(o, name);
    }
    assert |dirs| > 0 && DirCleared(dirs[0]) in trace;
    assert |dirs| > 1 ==> DirCleared(dirs[1]) in trace;
    hide DirsCleared;
  }

  // Everything an image ships of what the build wrote was scanned before the image
  // was published: for every published image, each tree it was packaged from, and
  // the output and the entrypoint's own directory it was compiled from, lie in a
  // tree the post-build scan had cleared. Only the staged dependencies of a layered
  // image are not looked at, where they lie outside the output.
  lemma ShippedWasScanned(c: Config, s: State, k: nat)
    requires Reachable(c, s) && Sound(c) && k < |s.trace| && s.trace[k].Published?
    ensures exists prep: Prep, packaged: set<FanOut.Packaging> ::
              && PreparedAs(prep) in s.trace[..k] && PlatformsBuilt(packaged) in s.trace[..k]
              && OwnPayload(c, packaged, s.trace[k].payload)
              && (prep.outputDir != "" ==> forall m | m in packaged ::
                    && Ships(c.req.compile.strategy, prep, m.shipment)
                    && ShipmentScanned(c, s.trace[..k], prep, m.shipment))
  {
    hide Reachable, OutputScanned, OwnPayload, Ships, ShipmentScanned, FanOut.ShipmentOf, GatesAt, GateEvents, Progress,
         TasksAt, FanAt, CacheAt, SignAt, PublishedAt, Told;
    ReachableInv(c, s);
    StrategyKnownOf(c, s, k);
    var before, payload := s.trace[..k], s.trace[k].payload;
    assert Justified(c, before, s.trace[k]);
    var prep, packaged :| OutputScanned(c, before, prep) && PayloadDone(c, before, payload, prep, packaged);
    if prep.outputDir != "" {
      OutputCovered(c, before, prep);
    }
    PreparedFirst(c, before, prep);
  }

  lemma PreparedFirst(c: Config, trace: seq<Event>, prep: Prep)
    requires OutputScanned(c, trace, prep)
    ensures PreparedAs(prep) in trace
  {
  }

  // Nothing is published of a request that was not accepted.
  lemma StrategyKnownOf(c: Config, s: State, k: nat)
    requires InBounds(c, s) && Told(c, s) && Sound(c) && k < |s.trace| && s.trace[k].Published?
    ensures ValidStrategy(c.req.compile.strategy)
  {
    assert s.trace[k] in s.trace;
  }

  // The staged dependencies of a layered image are what the scan can miss: it takes
  // in every tree that ships if and only if there are none, or they lie in the output.
  lemma ScanCoversShipmentIff(c: Config, prep: Prep)
    requires prep.outputDir != "" && ValidStrategy(c.req.compile.strategy)
    ensures (forall tree | tree in FanOut.ShipmentOf(c.req.compile.strategy, prep).trees ::
               exists d | d in ScanDirs(c, prep) :: Within(d, tree))
            <==> c.req.compile.strategy != Layered || prep.nodeModules == "" || Within(prep.outputDir, prep.nodeModules)
  {
    var o, dirs := prep.outputDir, ScanDirs(c, prep);
    forall name: string
      ensures Within(o, FanOut.Join(o, name))
    {
      BelowIsWithin(o, name);
    }
    assert dirs[0] in dirs && (|dirs| > 1 ==> dirs[1] in dirs);
    var trees := FanOut.ShipmentOf(c.req.compile.strategy, prep).trees;
    if c.req.compile.strategy.Layered? && prep.nodeModules != "" && !Within(o, prep.nodeModules) {
      assert prep.nodeModules in trees && dirs == [o];
    } else {
      forall tree | tree in trees
        ensures exists d | d in dirs :: Within(d, tree)
      {
        assert Within(dirs[0], tree) || (|dirs| > 1 && Within(dirs[1], tree));
      }
    }
  }

  // Such as a layered build with its output at /o and its dependencies at /n.
  lemma StagedDependenciesUnscanned(c: Config)
    requires c.req.compile.strategy == Layered
    ensures var prep := Prep(['/', 'o'], [], ['/', 'n']);
            && prep.nodeModules in FanOut.ShipmentOf(Layered, prep).trees
            && forall d | d in ScanDirs(c, prep) :: !Within(d, prep.nodeModules)
  {
  }

  // At no moment are more platforms built at once than the request allows.
  lemma ConcurrencyRespected(c: Config, s: State)
    requires Reachable(c, s) && Sound(c) && s.pc.Check? && s.pc.check.Fanning?
    ensures FanOut.Occupied(s.fan.pcs) <= c.req.concurrency
  {
    hide Reachable, GatesAt, GateEvents, Progress, TasksAt, Faithful, Ordered;
    ReachableInv(c, s);
    FanOut.SlotsRespected(FanConfig(c, s.work.base, s.work.prep), s.fan, 0);
  }

  // The cache key is taken with the exemptions the finished CVE gate applied.
  lemma HashedWithAppliedExemptions(c: Config, s: State)
    requires Reachable(c, s) && Sound(c)
    ensures forall k | 0 <= k < |s.trace| && s.trace[k].TreeHashed? ::
              GateDone(Cve, true) in s.trace[..k] && s.trace[k].vex == Effective(c, s.gates)
  {
    ReachableInv(c, s);
    forall k | 0 <= k < |s.trace| && s.trace[k].TreeHashed?
      ensures GateDone(Cve, true) in s.trace[..k] && s.trace[k].vex == Effective(c, s.gates)
    {
      assert Justified(c, s.trace[..k], s.trace[k]) && s.trace[k] in s.trace;
    }
  }

  // ---- Results --------------------------------------------------------------------------

  // The result says what the run did: it describes an image exactly when one was
  // published, and one reference is printed exactly on success.
  lemma ResultMatchesRun(c: Config, s: State)
    requires Reachable(c, s) && Sound(c) && Ended(s.pc)
    ensures HasPublished(s.trace) <==> s.pc.result.kind.Image?
    ensures RefPrinted in s.trace <==> s.pc.result.ok && s.pc.result.kind.Image?
    ensures CachePrinted in s.trace <==> s.pc.result.ok && s.pc.result.kind.FromCache?
    ensures s.pc.result.kind.NoImage? ==> !s.pc.result.ok
    ensures s.pc.result.kind.Plan? ==> c.opts.dryRun
    ensures s.pc.result.kind.ManifestOnly? ==> c.opts.printManifest && !HasPublished(s.trace)
    ensures s.pc.result.kind.Image? ==> !c.opts.printManifest && !c.opts.dryRun
  {
    hide Reachable, Progress, TasksAt, FanAt, GateEvents, GatesAt, Ordered, CacheAt, SignAt, PublishedAt, Accepted;
    ReachableInv(c, s);
  }

  // The caller asked for cache hits to be signature-verified.
  predicate VerifyActive(c: Config)
  {
    c.req.cacheVerify.mode != VerifyNone && c.req.cacheVerify.verifySignature
  }

  // The cacher's contract: under active verification a hit is verified.
  ghost predicate HonestCacher(c: Config, s: State)
  {
    forall v :: CacheAnswered(v) in s.trace && VerifyActive(c) ==> v
  }

  // With Signing.Require, a build that succeeds by publishing is signed, and one
  // that succeeds by a cache hit is signed exactly when the hit was verified;
  // so with a cacher that keeps its contract, always.
  lemma RequireMeansSigned(c: Config, s: State)
    requires Reachable(c, s) && Sound(c) && c.req.policy.signing.require
    requires Ended(s.pc) && s.pc.result.ok && (s.pc.result.kind.Image? || s.pc.result.kind.FromCache?)
    ensures s.pc.result.signed == Some(true) <==> s.pc.result.kind.Image? || CacheAnswered(true) in s.trace
    ensures HonestCacher(c, s) ==> s.pc.result.signed == Some(true)
  {
    ReachableInv(c, s);
  }

  // What was published, by the digest of each of its images: the destination's
  // own digest first, then, for an index, each platform's in platform order.
  predicate SignedDigests(c: Config, e: Event, subjects: seq<Signing.Hash>)
    requires e.Published?
  {
    && |subjects| > 0 && subjects[0] == e.digest
    && match e.payload
       case OneImage(_) => |subjects| == 1
       case IndexOf(images) =>
         && |subjects| == 1 + |c.req.platforms|
         && forall i | 0 <= i < |c.req.platforms| ::
              && c.req.platforms[i] in images
              && c.digestOf(images[c.req.platforms[i]]) == Some(subjects[1 + i])
  }

  // Once the fan-out is over, the index maps each platform to its own build.
  lemma IndexByPlatform(c: Config, s: State)
    requires FanAt(c, s) && !s.fan.failed && FanOut.Drained(s.fan) && FanOut.Inv(FanConfig(c, s.work.base, s.work.prep), s.fan)
    requires Distinct(c.req.platforms)
    ensures var built := Built(s.fan);
            && |built| == |c.req.platforms|
            && forall i | 0 <= i < |built| ::
                 && c.req.platforms[i] in FanOut.ImageMap(built)
                 && FanOut.ImageMap(built)[c.req.platforms[i]] == built[i].image
  {
    FanOut.ResultsInPlatformOrder(FanConfig(c, s.work.base, s.work.prep), s.fan);
    FanOut.OneImagePerPlatform(c.req.platforms, Built(s.fan));
  }

  // Signed means it: the published digest, and the digest of each platform's own
  // published image when there are several, was read back from the registry after
  // everything was attached, verified, and attested under exactly its digest; and
  // the i-th references are subject i's.
  lemma SignedMeansEverySubjectVerified(c: Config, s: State)
    requires Reachable(c, s) && Sound(c) && Ended(s.pc)
    requires s.pc.result.kind.Image? && s.pc.result.signed == Some(true)
    ensures HasPublished(s.trace) && forall e | e in s.trace && e.Published? :: SignedDigests(c, e, s.sig.cfg.subjects)
    ensures var cfg, st := s.sig.cfg, s.sig.st;
            && |cfg.subjects| == |st.attRefs| == |st.sigRefs|
            && SbomRight(c, s.trace, cfg) && Signing.AllBacked(cfg, st.trace) && Signing.TwoPhase(cfg, st.trace)
            && forall i | 0 <= i < |cfg.subjects| ::
                 Signing.VerifiedIn(cfg, st.trace, i) && Signing.AttachedAs(st.trace, i, st.attRefs[i], st.sigRefs[i])
  {
    hide Reachable, FanOut.ImageMap, FanOut.Inv, FanOut.Drained, GatesAt, GateEvents, Progress, TasksAt, Ordered,
         CacheAt, SbomRight, Signing.TwoPhase, Signing.AllBacked, Signing.VerifiedIn, Signing.TaskOk, Signing.Running;
    ReachableInv(c, s);
    IndexByPlatform(c, s);
    forall e | e in s.trace && e.Published?
      ensures SignedDigests(c, e, s.sig.cfg.subjects)
    {
      assert e == Published(s.sig.published.value, PayloadOf(c, s.fan));
    }
  }

  // The wiring check is complete: no run calls a port that is not wired, in any
  // output mode, strategy or early-stop mode.
  lemma OnlyWiredPortsAreCalled(c: Config, s: State)
    requires Reachable(c, s) && Sound(c)
    ensures s.called <= c.deps
  {
    hide Reachable, Progress, TasksAt, FanAt, GateEvents, GatesAt, Ordered, Faithful;
    ReachableInv(c, s);
  }

  // And none is called that the request has no use for: the scanner never offline,
  // the cache only where it is allowed and for a signed build only under active
  // verification, each destination only in its mode, the signers only to sign.
  lemma AskedOnlyIfWanted(c: Config, s: State, p: Port)
    requires Reachable(c, s) && Sound(c) && p in s.called
    ensures May(c, p)
  {
    hide Reachable, Progress, TasksAt, FanAt, GateEvents, GatesAt, Ordered, Faithful, May;
    ReachableInv(c, s);
  }

  // A dry run starts nothing, records nothing, and calls only ports that leave
  // no image anywhere; its only success is the plan.
  lemma DryRunTouchesNothing(c: Config, s: State)
    requires Reachable(c, s) && Sound(c) && c.opts.dryRun
    ensures s.trace == [] && s.called <= READ_ONLY && s.gates.cve.Idle? && s.gates.secret.Idle?
    ensures Ended(s.pc) && s.pc.result.ok ==> s.pc.result.kind.Plan?
  {
    ReachableInv(c, s);
  }
}
