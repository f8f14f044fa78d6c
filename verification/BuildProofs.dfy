// What Build keeps at every step, and what follows for every run: the gates,
// the order of the stages, the wiring check, and what success means.
// Source: internal/core/pipeline.go.

module BuildProofs {
  import opened Text
  import opened Request
  import opened Ports
  import opened CveGate
  import opened Build
  import ErrGroup
  import FanOut
  import Signing

  predicate Ended(pc: Pc)
  {
    pc.Unwinding? || pc.Returned?
  }

  // Past the gates and still working.
  predicate Producing(pc: Pc)
  {
    pc.Work? || pc.Check? || pc.Release? || pc.After?
  }

  // Both gates have finished, without error.
  predicate GatesPassed(g: GateState)
  {
    g.cve == Done(true) && g.secret == Done(true)
  }

  // ---- The gates -------------------------------------------------------------------

  // Where the two gate goroutines are, given where the main one is.
  predicate GatesAt(s: State)
  {
    var g := s.gates;
    && (g.cve.Idle? <==> g.secret.Idle?)
    && (s.pc.Setup? || s.pc.Dry? ==> g.cve.Idle?)
    && (s.pc.Gates? ==> !g.cve.Idle? && (!s.pc.gates.JoinCve? ==> g.cve == Done(true)))
    && (s.pc.Gates? && (s.pc.gates.WriteLock? || s.pc.gates.PrintHit?) ==> g.secret == Done(true))
    && (Producing(s.pc) ==> GatesPassed(g))
    && (Ended(s.pc) ==> !g.cve.Running? && (s.pc.result.ok && !s.pc.result.kind.Plan? ==> GatesPassed(g)))
    && (s.pc.Returned? ==> !g.secret.Running?)
    && (s.pc.Gates? && s.pc.gates.PrintHit? ==> s.cache.hit.Some?)
  }

  // A step before the gates start leaves them idle.
  lemma GatesStayIdle(s: State, t: State)
    requires GatesAt(s) && s.pc.Setup? && t.gates == s.gates
    requires t.pc.Setup? || t.pc.Dry? || (t.pc.Unwinding? && !t.pc.result.ok)
    ensures GatesAt(t)
  {
  }

  lemma GatesAtSetup(c: Config, s: State, r: Reply)
    requires GatesAt(s) && s.pc.Setup?
    ensures GatesAt(SetupStep(c, s, r))
  {
    if !s.pc.setup.Dispatch? {
      hide GatesAt, Accepted;
      GatesStayIdle(s, SetupStep(c, s, r));
    }
  }

  lemma GatesAtDry(c: Config, s: State, r: Reply)
    requires GatesAt(s) && s.pc.Dry? && DryStep(c, s, r).Some?
    ensures GatesAt(DryStep(c, s, r).value)
  {
  }

  lemma GatesAtGates(c: Config, s: State, r: Reply)
    requires GatesAt(s) && s.pc.Gates? && GatesStep(c, s, r).Some?
    ensures GatesAt(GatesStep(c, s, r).value)
  {
  }

  lemma GatesAtWork(c: Config, s: State, r: Reply)
    requires GatesAt(s) && s.pc.Work? && WorkStep(c, s, r).Some?
    ensures GatesAt(WorkStep(c, s, r).value)
  {
  }

  lemma GatesAtPostScan(c: Config, s: State, r: Reply)
    requires GatesAt(s) && s.pc.Check?
    ensures GatesAt(PostScanStep(c, s, r))
  {
    hide ScanDirs;
  }

  lemma GatesAtOverlayScan(c: Config, s: State, r: Reply)
    requires GatesAt(s) && s.pc.Check?
    ensures GatesAt(OverlayScanStep(c, s, r))
  {
  }

  lemma GatesAtRoutes(c: Config, s: State, r: Reply)
    requires GatesAt(s) && s.pc.Check?
    ensures GatesAt(RoutesStep(c, s, r))
  {
    hide FanConfig, FanOut.Init;
  }

  lemma GatesAtCheck(c: Config, s: State, r: Reply)
    requires GatesAt(s) && s.pc.Check? && CheckStep(c, s, r).Some?
    ensures GatesAt(CheckStep(c, s, r).value)
  {
    hide PostScanStep, OverlayScanStep, RoutesStep, FanOut.Drained;
    match s.pc.check {
      case PostScan => GatesAtPostScan(c, s, r);
      case OverlayScan => GatesAtOverlayScan(c, s, r);
      case Routes => GatesAtRoutes(c, s, r);
      case Fanning =>
    }
  }

  lemma GatesAtRelease(c: Config, s: State, r: Reply)
    requires GatesAt(s) && s.pc.Release?
    ensures GatesAt(ReleaseStep(c, s, r))
  {
  }

  lemma GatesAtAfter(c: Config, s: State, r: Reply)
    requires GatesAt(s) && s.pc.After? && AfterStep(c, s, r).Some?
    ensures GatesAt(AfterStep(c, s, r).value)
  {
  }

  lemma GatesAtKept(c: Config, s: State, a: Action)
    requires GatesAt(s) && Step(c, s, a).Some?
    ensures GatesAt(Step(c, s, a).value)
  {
    if a.Main? {
      match s.pc {
        case Setup(_) => GatesAtSetup(c, s, a.reply);
        case Dry(_) => GatesAtDry(c, s, a.reply);
        case Gates(_) => GatesAtGates(c, s, a.reply);
        case Work(_) => GatesAtWork(c, s, a.reply);
        case Check(_) => GatesAtCheck(c, s, a.reply);
        case Release(_) => GatesAtRelease(c, s, a.reply);
        case After(_) => GatesAtAfter(c, s, a.reply);
        case _ =>
      }
    }
  }

  // ---- The trace ---------------------------------------------------------------------

  // The trace says of a gate exactly what its goroutine's status says.
  predicate GateEvents(s: State)
  {
    && (GateDone(Cve, true) in s.trace <==> s.gates.cve == Done(true))
    && (GateDone(Cve, false) in s.trace <==> s.gates.cve == Done(false))
    && (GateDone(Secret, true) in s.trace <==> s.gates.secret == Done(true))
    && (GateDone(Secret, false) in s.trace <==> s.gates.secret == Done(false))
  }

  predicate BothPassed(trace: seq<Event>)
  {
    GateDone(Cve, true) in trace && GateDone(Secret, true) in trace
  }

  ghost predicate NoHash(trace: seq<Event>)
  {
    forall e | e in trace :: !e.TreeHashed?
  }

  ghost predicate Hashed(trace: seq<Event>)
  {
    exists e | e in trace :: e.TreeHashed?
  }

  ghost predicate Answered(trace: seq<Event>)
  {
    exists e | e in trace :: e.CacheAnswered?
  }

  predicate TasksDone(c: Config, trace: seq<Event>)
  {
    forall i | 0 <= i < |BuildTasks(c)| :: TaskDone(BuildTasks(c)[i]) in trace
  }

  predicate DirsCleared(trace: seq<Event>, dirs: seq<string>, n: nat)
    requires n <= |dirs|
  {
    forall i | 0 <= i < n :: DirCleared(dirs[i]) in trace
  }

  // The trees to be scanned of a completed Prepare were all scanned clean.
  predicate OutputScanned(c: Config, trace: seq<Event>, prep: Prep)
  {
    PreparedAs(prep) in trace && DirsCleared(trace, ScanDirs(c, prep), |ScanDirs(c, prep)|)
  }

  // One image per requested platform was handed to the index.
  predicate IndexComplete(c: Config, images: map<Platform, FanOut.Image>)
  {
    && images.Keys == (set p | p in c.req.platforms) && |images| == |c.req.platforms|
    && forall i | 0 <= i < |c.req.platforms| :: c.req.platforms[i] in images
  }

  // The packager returned img for the i-th platform, called by its own goroutine.
  predicate OwnImage(packaged: set<FanOut.Packaging>, i: nat, p: Platform, img: FanOut.Image)
  {
    exists k | k in packaged :: k.task == i && k.platform == p && k.image == img
  }

  // Every image was packaged from what Prepare reported.
  predicate MadeFrom(c: Config, packaged: set<FanOut.Packaging>, prep: Prep)
  {
    forall k | k in packaged :: k.shipment == FanOut.ShipmentOf(c.req.compile.strategy, prep)
  }

  // What is published is each requested platform's own image, and nothing else.
  predicate OwnPayload(c: Config, packaged: set<FanOut.Packaging>, payload: Payload)
  {
    match payload
    case OneImage(img) => |c.req.platforms| == 1 && OwnImage(packaged, 0, c.req.platforms[0], img)
    case IndexOf(images) =>
      && Multi(c) && IndexComplete(c, images)
      && forall i | 0 <= i < |c.req.platforms| :: OwnImage(packaged, i, c.req.platforms[i], images[c.req.platforms[i]])
  }

  // The payload's images are those the fan-out reported, made from prep, and an
  // index over them was assembled.
  predicate PayloadDone(c: Config, before: seq<Event>, payload: Payload, prep: Prep, packaged: set<FanOut.Packaging>)
  {
    && (payload.IndexOf? ==> Indexed(payload.images) in before)
    && PlatformsBuilt(packaged) in before && OwnPayload(c, packaged, payload) && MadeFrom(c, packaged, prep)
  }

  // What was scanned is what was prepared, packaged and is to be published.
  ghost predicate ContentReady(c: Config, before: seq<Event>, payload: Payload)
  {
    exists prep, packaged :: OutputScanned(c, before, prep) && PayloadDone(c, before, payload, prep, packaged)
  }

  // Everything that has to have happened before an image is published.
  ghost predicate ReadyToPublish(c: Config, before: seq<Event>, payload: Payload)
  {
    && BothPassed(before)
    && TasksDone(c, before)
    && OverlayCleared in before
    && ContentReady(c, before, payload)
  }

  predicate HasPublished(trace: seq<Event>)
  {
    exists e | e in trace :: e.Published?
  }

  // What must already be in the trace when an event is added to it.
  ghost predicate Justified(c: Config, before: seq<Event>, e: Event)
  {
    match e
    case LockWritten => BothPassed(before) && NoHash(before)
    case TreeHashed(_) => GateDone(Cve, true) in before
    case CacheAnswered(_) => Hashed(before)
    case CachePrinted => BothPassed(before) && Answered(before)
    case Published(_, payload) => ReadyToPublish(c, before, payload)
    case RefPrinted => HasPublished(before)
    case _ => true
  }

  ghost predicate Ordered(c: Config, trace: seq<Event>)
  {
    forall k | 0 <= k < |trace| :: Justified(c, trace[..k], trace[k])
  }

  lemma OrderedAppend(c: Config, trace: seq<Event>, e: Event)
    requires Ordered(c, trace) && Justified(c, trace, e)
    ensures Ordered(c, trace + [e])
  {
    var longer := trace + [e];
    forall k | 0 <= k < |longer|
      ensures Justified(c, longer[..k], longer[k])
    {
      assert longer[..k] == if k < |trace| then trace[..k] else trace;
    }
  }

  // What the trace shows of the tree hash and the cache lookup.
  ghost predicate CacheTrace(s: State)
  {
    && (s.pc.Gates? && (s.pc.gates.JoinCve? || s.pc.gates.JoinForWrite? || s.pc.gates.WriteLock?) ==> NoHash(s.trace))
    && (s.cache.hashed ==> Hashed(s.trace))
    && (s.pc.Gates? && s.pc.gates.CheckCache? ==> s.cache.hashed)
    && (s.cache.hit.Some? ==> Answered(s.trace))
  }

  // What it shows of stage 5 and later, once the main goroutine is past them.
  ghost predicate BuildTrace(c: Config, s: State)
  {
    && (s.pc.Check? || s.pc.Release? || s.pc.After? ==> TasksDone(c, s.trace) && PreparedAs(s.work.prep) in s.trace)
    && (s.pc.Check? && s.pc.check.PostScan? ==>
          s.work.dirs <= |ScanDirs(c, s.work.prep)| && DirsCleared(s.trace, ScanDirs(c, s.work.prep), s.work.dirs))
    && ((s.pc.Check? && !s.pc.check.PostScan?) || s.pc.Release? || s.pc.After? ==> OutputScanned(c, s.trace, s.work.prep))
    && ((s.pc.Check? && (s.pc.check.Routes? || s.pc.check.Fanning?)) || s.pc.Release? || s.pc.After? ==> OverlayCleared in s.trace)
    && (s.pc.Release? ==> PlatformsBuilt(s.fan.packaged) in s.trace)
    && (s.pc.Release? && !s.pc.release.Index? && Multi(c) ==> Indexed(FanOut.ImageMap(Built(s.fan))) in s.trace)
    && (s.pc.After? ==> HasPublished(s.trace))
  }

  // What the main goroutine's position says about the trace.
  ghost predicate Progress(c: Config, s: State)
  {
    (s.pc.Setup? || s.pc.Dry? ==> s.trace == []) && CacheTrace(s) && BuildTrace(c, s)
  }

  // The Stage 5 errgroup: what its tasks' statuses say about the trace.
  ghost predicate TasksAt(c: Config, s: State)
  {
    var g := s.work.group;
    && (!(s.pc.Work? && s.pc.work.AwaitTasks?) ==> ErrGroup.Drained(g))
    && (s.pc.Work? && s.pc.work.AwaitTasks? ==>
          && |g.tasks| == |BuildTasks(c)|
          && ErrGroup.Consistent(g)
          && TasksRecorded(c, g, s.trace)
          && (g.tasks[0].Succeeded? ==> PreparedAs(s.work.prep) in s.trace))
  }

  ghost predicate TasksRecorded(c: Config, g: ErrGroup.Group, trace: seq<Event>)
    requires |g.tasks| == |BuildTasks(c)|
  {
    forall i | 0 <= i < |g.tasks| && g.tasks[i].Succeeded? :: TaskDone(BuildTasks(c)[i]) in trace
  }

  // The fan-out: in its own invariant while it runs, and error-free once past it.
  ghost predicate FanAt(c: Config, s: State)
  {
    && (!(s.pc.Check? && s.pc.check.Fanning?) ==> FanOut.Drained(s.fan))
    && ((s.pc.Check? && s.pc.check.Fanning?) || FannedOut(s.pc) ==> FanOut.Inv(FanConfig(c, s.work.base, s.work.prep), s.fan))
    && (FannedOut(s.pc) ==> !s.fan.failed)
  }

  // Past the fan-out, or returning with what it built published.
  predicate FannedOut(pc: Pc)
  {
    pc.Release? || pc.After? || (Ended(pc) && pc.result.kind.Image?)
  }

  // A longer trace still shows everything a shorter one did.
  lemma TraceFacts(c: Config, a: seq<Event>, b: seq<Event>)
    requires a <= b
    ensures forall e | e in a :: e in b
    ensures Hashed(a) ==> Hashed(b)
    ensures Answered(a) ==> Answered(b)
    ensures TasksDone(c, a) ==> TasksDone(c, b)
    ensures forall prep | OutputScanned(c, a, prep) :: OutputScanned(c, b, prep)
    ensures HasPublished(a) ==> HasPublished(b)
    ensures forall dirs: seq<string>, n: nat | n <= |dirs| && DirsCleared(a, dirs, n) :: DirsCleared(b, dirs, n)
  {
    hide ScanDirs, BuildTasks, IndexComplete;
    assert forall k | 0 <= k < |a| :: a[k] == b[k];
  }

  // One step of the main goroutine adds at most one event, which what is
  // already there justifies, and which is not a gate's.
  ghost predicate Adds(c: Config, a: seq<Event>, b: seq<Event>)
  {
    && a <= b && |b| <= |a| + 1
    && (a != b ==> Justified(c, a, b[|a|]) && !b[|a|].GateDone?)
  }

  // What a step of the main goroutine relies on.
  ghost predicate OnTrack(c: Config, s: State)
  {
    GatesAt(s) && GateEvents(s) && Progress(c, s) && TasksAt(c, s) && FanAt(c, s)
  }

  // What a step of the main goroutine brings about; it starts the gates, and
  // never ends them.
  ghost predicate Moved(c: Config, s: State, t: State)
  {
    && Progress(c, t) && TasksAt(c, t) && FanAt(c, t) && Adds(c, s.trace, t.trace)
    && (t.gates == s.gates || (t.trace == [] && t.gates.cve.Running? && t.gates.secret.Running?))
  }

  // A step that leaves the trace empty and touches no stage's results.
  predicate Quiet(s: State, t: State)
  {
    && t.trace == s.trace == []
    && t.work.group == s.work.group && t.fan == s.fan && t.cache.hashed == s.cache.hashed && t.cache.hit == s.cache.hit
    && (t.pc.Setup? || t.pc.Dry? || (t.pc.Unwinding? && !t.pc.result.kind.Image?) || (t.pc.Gates? && t.pc.gates.JoinCve?))
    && (t.gates == s.gates || (t.gates.cve.Running? && t.gates.secret.Running?))
  }

  lemma QuietMoved(c: Config, s: State, t: State)
    requires OnTrack(c, s) && (s.pc.Setup? || s.pc.Dry?) && Quiet(s, t)
    ensures Moved(c, s, t)
  {
  }

  // A step elsewhere than at the errgroup's wait leaves its record standing.
  lemma TasksStay(c: Config, s: State, t: State)
    requires TasksAt(c, s) && t.work.group == s.work.group
    requires !(s.pc.Work? && s.pc.work.AwaitTasks?) && !(t.pc.Work? && t.pc.work.AwaitTasks?)
    ensures TasksAt(c, t)
  {
    hide ErrGroup.Drained;
  }

  // And one elsewhere than in the fan-out, the fan-out's.
  lemma FanStays(c: Config, s: State, t: State)
    requires FanAt(c, s) && t.fan == s.fan
    requires FannedOut(s.pc) ==> t.work.base == s.work.base && t.work.prep == s.work.prep
    requires !(s.pc.Check? && s.pc.check.Fanning?) && !(t.pc.Check? && t.pc.check.Fanning?)
    requires FannedOut(t.pc) ==> FannedOut(s.pc)
    ensures FanAt(c, t)
  {
    hide FanOut.Drained, FanOut.Inv;
  }

  // Past the lookup, the trace goes on showing what it did of it.
  lemma CacheTraceStays(c: Config, s: State, t: State)
    requires CacheTrace(s) && t.cache == s.cache && s.trace <= t.trace
    requires t.pc.Gates? ==> t.pc.gates.JoinSecret? || t.pc.gates.PrintHit?
    ensures CacheTrace(t)
  {
    TraceFacts(c, s.trace, t.trace);
  }

  // Outside stages 5.5 to 11 the trace has nothing to show of them.
  lemma NoBuildTrace(c: Config, s: State)
    requires !s.pc.Check? && !s.pc.Release? && !s.pc.After?
    ensures BuildTrace(c, s)
  {
    hide TasksDone, DirsCleared, OutputScanned, HasPublished, ScanDirs;
  }

  lemma EarlyProgress(c: Config, s: State, r: Reply)
    requires OnTrack(c, s) && s.pc.Setup? && (s.pc.setup.Begin? || s.pc.setup.DetectEnv? || s.pc.setup.Viability?)
    ensures Moved(c, s, SetupStep(c, s, r))
  {
    hide Accepted, TasksAt, FanAt, GateEvents, GatesAt, Moved;
    QuietMoved(c, s, SetupStep(c, s, r));
  }

  lemma SetupProgress(c: Config, s: State, r: Reply)
    requires OnTrack(c, s) && s.pc.Setup? && (s.pc.setup.Preflight? || s.pc.setup.RunnerVersion? || s.pc.setup.Dispatch?)
    ensures Moved(c, s, SetupStep(c, s, r))
  {
    hide Accepted, TasksAt, FanAt, GateEvents, GatesAt, Moved;
    QuietMoved(c, s, SetupStep(c, s, r));
  }

  lemma ResolveProgress(c: Config, s: State, r: Reply)
    requires OnTrack(c, s) && s.pc.Setup? && (s.pc.setup.ResolveBase? || s.pc.setup.Overlay?)
    ensures Moved(c, s, SetupStep(c, s, r))
  {
    hide TasksAt, FanAt, GateEvents, GatesAt, Moved;
    QuietMoved(c, s, SetupStep(c, s, r));
  }

  lemma DryScansProgress(c: Config, s: State, r: Reply)
    requires OnTrack(c, s) && s.pc.Dry? && (s.pc.dry.ScanSecrets? || s.pc.dry.VerifyBase?) && DryStep(c, s, r).Some?
    ensures Moved(c, s, DryStep(c, s, r).value)
  {
    hide TasksAt, FanAt, GateEvents, GatesAt, Moved;
    QuietMoved(c, s, DryStep(c, s, r).value);
  }

  lemma DryProgress(c: Config, s: State, r: Reply)
    requires OnTrack(c, s) && s.pc.Dry? && !s.pc.dry.ScanSecrets? && !s.pc.dry.VerifyBase? && DryStep(c, s, r).Some?
    ensures Moved(c, s, DryStep(c, s, r).value)
  {
    hide TasksAt, FanAt, GateEvents, GatesAt, Moved;
    QuietMoved(c, s, DryStep(c, s, r).value);
  }

  lemma JoinsProgress(c: Config, s: State, r: Reply)
    requires OnTrack(c, s) && s.pc.Gates? && GatesStep(c, s, r).Some?
    requires s.pc.gates.JoinCve? || s.pc.gates.JoinForWrite? || s.pc.gates.WriteLock?
    ensures var t := GatesStep(c, s, r).value; Moved(c, s, t)
  {
    hide BuildTrace, ReadyToPublish, TasksAt, FanAt;
    var t := GatesStep(c, s, r).value;
    TraceFacts(c, s.trace, t.trace);
    NoBuildTrace(c, t);
    TasksStay(c, s, t);
    FanStays(c, s, t);
  }

  // The tree's hash, and then the answer about it, go on the record.
  lemma TreeIsHashed(s: State, t: State)
    requires CacheTrace(s) && t.trace == s.trace + [TreeHashed(s.cache.vex)] && t.cache.hit == s.cache.hit
    requires t.pc.Gates? && (t.pc.gates.JoinSecret? || (t.pc.gates.CheckCache? && t.cache.hashed))
    ensures CacheTrace(t)
  {
    assert t.trace[|s.trace|] == TreeHashed(s.cache.vex);
    assert forall k | 0 <= k < |s.trace| :: s.trace[k] == t.trace[k];
  }

  lemma CacheHasAnswered(s: State, t: State, verified: bool)
    requires CacheTrace(s) && s.pc.Gates? && s.pc.gates.CheckCache? && t.cache.hashed == s.cache.hashed
    requires t.trace == s.trace + [CacheAnswered(verified)] && t.pc == Gates(JoinSecret)
    ensures CacheTrace(t) && Hashed(s.trace)
  {
    assert t.trace[|s.trace|] == CacheAnswered(verified);
    assert forall k | 0 <= k < |s.trace| :: s.trace[k] == t.trace[k];
  }

  lemma HashProgress(c: Config, s: State, r: Reply)
    requires OnTrack(c, s) && s.pc.Gates? && s.pc.gates.HashTree?
    ensures GatesStep(c, s, r).Some? && Moved(c, s, GatesStep(c, s, r).value)
  {
    hide BuildTrace, CacheTrace, ReadyToPublish, AllowCache, TasksAt, FanAt;
    var t := GatesStep(c, s, r).value;
    if t.trace == s.trace {
      CacheTraceStays(c, s, t);
    } else {
      TreeIsHashed(s, t);
    }
    NoBuildTrace(c, t);
    TasksStay(c, s, t);
    FanStays(c, s, t);
  }

  lemma LookupProgress(c: Config, s: State, r: Reply)
    requires OnTrack(c, s) && s.pc.Gates? && s.pc.gates.CheckCache?
    ensures GatesStep(c, s, r).Some? && Moved(c, s, GatesStep(c, s, r).value)
  {
    hide BuildTrace, CacheTrace, ReadyToPublish, GatesAt, GateEvents, TasksAt, FanAt, Hashed;
    var t := GatesStep(c, s, r).value;
    if t.trace == s.trace {
      CacheTraceStays(c, s, t);
    } else {
      CacheHasAnswered(s, t, r.verified);
    }
    NoBuildTrace(c, t);
    TasksStay(c, s, t);
    FanStays(c, s, t);
  }

  lemma HitProgress(c: Config, s: State, r: Reply)
    requires OnTrack(c, s) && s.pc.Gates? && GatesStep(c, s, r).Some?
    requires s.pc.gates.JoinSecret? || s.pc.gates.PrintHit?
    ensures Moved(c, s, GatesStep(c, s, r).value)
  {
    hide BuildTrace, ReadyToPublish, TasksAt, FanAt;
    var t := GatesStep(c, s, r).value;
    CacheTraceStays(c, s, t);
    NoBuildTrace(c, t);
    TasksStay(c, s, t);
    FanStays(c, s, t);
  }

  // The wait returned nil: every task of the errgroup is done.
  lemma TasksFinished(c: Config, s: State)
    requires TasksAt(c, s) && s.pc.Work? && s.pc.work.AwaitTasks?
    requires ErrGroup.Drained(s.work.group) && s.work.group.firstErr.None?
    ensures TasksDone(c, s.trace) && PreparedAs(s.work.prep) in s.trace
  {
    ErrGroup.WaitNilMeansAllSucceeded(s.work.group);
  }

  lemma WorkProgress(c: Config, s: State, r: Reply)
    requires OnTrack(c, s) && s.pc.Work? && !s.pc.work.AwaitTasks? && WorkStep(c, s, r).Some?
    ensures Moved(c, s, WorkStep(c, s, r).value)
  {
    hide TasksDone, OutputScanned, Justified, GateEvents, CacheTrace, ScanDirs, FanAt;
    FanStays(c, s, WorkStep(c, s, r).value);
    CacheTraceStays(c, s, WorkStep(c, s, r).value);
  }

  lemma AwaitProgress(c: Config, s: State, r: Reply)
    requires OnTrack(c, s) && s.pc.Work? && s.pc.work.AwaitTasks? && WorkStep(c, s, r).Some?
    ensures Moved(c, s, WorkStep(c, s, r).value)
  {
    hide TasksDone, OutputScanned, Justified, GateEvents, CacheTrace, ScanDirs, FanAt;
    var t := WorkStep(c, s, r).value;
    CacheTraceStays(c, s, t);
    FanStays(c, s, t);
    if t.pc.Check? {
      TasksFinished(c, s);
    }
  }

  lemma DirsClearedNext(trace: seq<Event>, dirs: seq<string>, n: nat)
    requires n < |dirs| && DirsCleared(trace, dirs, n)
    ensures DirsCleared(trace + [DirCleared(dirs[n])], dirs, n + 1)
  {
  }

  lemma DirScanned(c: Config, s: State, t: State)
    requires BuildTrace(c, s) && s.pc.Check? && s.pc.check.PostScan? && s.work.dirs < |ScanDirs(c, s.work.prep)|
    requires t.pc == s.pc && t.work == s.work.(dirs := s.work.dirs + 1)
    requires t.trace == s.trace + [DirCleared(ScanDirs(c, s.work.prep)[s.work.dirs])]
    ensures BuildTrace(c, t)
  {
    hide TasksDone, DirsCleared, OutputScanned, HasPublished, ScanDirs;
    TraceFacts(c, s.trace, t.trace);
    DirsClearedNext(s.trace, ScanDirs(c, s.work.prep), s.work.dirs);
  }

  // One more tree scanned clean, or the scan's error.
  lemma PostScanProgress(c: Config, s: State, r: Reply)
    requires OnTrack(c, s) && s.pc.Check? && s.pc.check.PostScan? && s.work.dirs < |ScanDirs(c, s.work.prep)|
    ensures Moved(c, s, PostScanStep(c, s, r))
  {
    hide BuildTrace, CacheTrace, ReadyToPublish, GateEvents, GatesAt, ScanDirs, TasksAt, FanAt;
    var t := PostScanStep(c, s, r);
    CacheTraceStays(c, s, t);
    TasksStay(c, s, t);
    FanStays(c, s, t);
    if t.pc.Check? {
      DirScanned(c, s, t);
    } else {
      NoBuildTrace(c, t);
    }
  }

  // No tree is left to scan.
  lemma PostScanned(c: Config, s: State, r: Reply)
    requires OnTrack(c, s) && s.pc.Check? && s.pc.check.PostScan? && s.work.dirs >= |ScanDirs(c, s.work.prep)|
    ensures Moved(c, s, PostScanStep(c, s, r))
  {
    hide DirsCleared, TasksDone, ReadyToPublish, CacheTrace, GateEvents, ScanDirs, TasksAt, FanAt;
    var t := PostScanStep(c, s, r);
    CacheTraceStays(c, s, t);
    TasksStay(c, s, t);
    FanStays(c, s, t);
  }

  lemma OverlayScanned(c: Config, s: State, t: State)
    requires BuildTrace(c, s) && s.pc.Check? && s.pc.check.OverlayScan? && t.pc.Check? && t.pc.check.Routes?
    requires t.work == s.work && t.trace == s.trace + [OverlayCleared]
    ensures BuildTrace(c, t)
  {
    hide TasksDone, DirsCleared, OutputScanned, HasPublished, ScanDirs;
    TraceFacts(c, s.trace, t.trace);
    assert t.trace[|s.trace|] == OverlayCleared;
  }

  lemma OverlayScanProgress(c: Config, s: State, r: Reply)
    requires OnTrack(c, s) && s.pc.Check? && s.pc.check.OverlayScan?
    ensures Moved(c, s, OverlayScanStep(c, s, r))
  {
    hide BuildTrace, CacheTrace, ReadyToPublish, GateEvents, GatesAt, TasksAt, FanAt;
    var t := OverlayScanStep(c, s, r);
    CacheTraceStays(c, s, t);
    TasksStay(c, s, t);
    FanStays(c, s, t);
    if t.pc.Check? {
      OverlayScanned(c, s, t);
    } else {
      NoBuildTrace(c, t);
    }
  }

  lemma RoutesProgress(c: Config, s: State, r: Reply)
    requires OnTrack(c, s) && s.pc.Check? && s.pc.check.Routes?
    ensures Moved(c, s, RoutesStep(c, s, r))
  {
    hide DirsCleared, OutputScanned, TasksDone, ReadyToPublish, CacheTrace, GateEvents, ScanDirs, TasksAt,
         FanOut.Inv, FanOut.Drained, FanOut.Init;
    TasksStay(c, s, RoutesStep(c, s, r));
    FanOut.InitInv(FanConfig(c, s.work.base, s.work.prep));
    CacheTraceStays(c, s, RoutesStep(c, s, r));
  }

  lemma FanningProgress(c: Config, s: State, r: Reply)
    requires OnTrack(c, s) && s.pc.Check? && s.pc.check.Fanning? && CheckStep(c, s, r).Some?
    ensures Moved(c, s, CheckStep(c, s, r).value)
  {
    hide DirsCleared, OutputScanned, TasksDone, ReadyToPublish, CacheTrace, GateEvents, ScanDirs, TasksAt,
         FanOut.Inv, FanOut.Drained;
    var t := CheckStep(c, s, r).value;
    CacheTraceStays(c, s, t);
    TraceFacts(c, s.trace, t.trace);
    TasksStay(c, s, t);
  }

  // Once the fan-out has succeeded, what is published is the platforms' own.
  lemma PayloadIsOwn(c: Config, s: State)
    requires FanAt(c, s) && s.pc.Release? && Distinct(c.req.platforms) && |c.req.platforms| > 0
    ensures OwnPayload(c, s.fan.packaged, PayloadOf(c, s.fan)) && MadeFrom(c, s.fan.packaged, s.work.prep)
  {
    hide FanOut.ShipmentOf;
    var fc, built := FanConfig(c, s.work.base, s.work.prep), Built(s.fan);
    FanOut.ResultsInPlatformOrder(fc, s.fan);
    forall i | 0 <= i < |built|
      ensures OwnImage(s.fan.packaged, i, c.req.platforms[i], built[i].image)
    {
      assert FanOut.OwnBuild(fc, s.fan, i, built[i]);
    }
    FanOut.OneImagePerPlatform(fc.platforms, built);
    FanOut.ImageCount(fc.platforms, built);
  }

  lemma IndexProgress(c: Config, s: State, r: Reply)
    requires OnTrack(c, s) && s.pc.Release? && s.pc.release.Index?
    ensures Moved(c, s, ReleaseStep(c, s, r))
  {
    hide GateEvents, ReadyToPublish, HasPublished, TasksDone, DirsCleared, OutputScanned, IndexComplete, CacheTrace,
         ScanDirs, TasksAt, FanAt, FanOut.ImageMap, Built;
    var t := ReleaseStep(c, s, r);
    CacheTraceStays(c, s, t);
    TraceFacts(c, s.trace, t.trace);
    TasksStay(c, s, t);
    FanStays(c, s, t);
    if t.trace != s.trace {
      assert t.trace[|s.trace|] == Indexed(FanOut.ImageMap(Built(s.fan)));
    }
  }

  lemma PublishProgress(c: Config, s: State, r: Reply)
    requires OnTrack(c, s) && s.pc.Release? && !s.pc.release.Index? && Distinct(c.req.platforms) && |c.req.platforms| > 0
    ensures Moved(c, s, ReleaseStep(c, s, r))
  {
    hide OwnImage, MadeFrom, TasksDone, DirsCleared, OutputScanned, IndexComplete, CacheTrace, ScanDirs, TasksAt,
         FanAt, FanOut.ImageMap, Built;
    var t := ReleaseStep(c, s, r);
    CacheTraceStays(c, s, t);
    TraceFacts(c, s.trace, t.trace);
    TasksStay(c, s, t);
    FanStays(c, s, t);
    PayloadIsOwn(c, s);
    if t.trace != s.trace {
      assert PayloadDone(c, s.trace, PayloadOf(c, s.fan), s.work.prep, s.fan.packaged);
      assert t.trace[|s.trace|] in t.trace;
    }
  }

  // Once the image is out, what the trace shows of its making stays.
  lemma BuildTraceStays(c: Config, s: State, t: State)
    requires BuildTrace(c, s) && s.pc.After? && (t.pc.After? || Ended(t.pc)) && t.work == s.work && s.trace <= t.trace
    ensures BuildTrace(c, t)
  {
    hide TasksDone, DirsCleared, OutputScanned, HasPublished, ScanDirs;
    TraceFacts(c, s.trace, t.trace);
  }

  lemma AfterProgress(c: Config, s: State, r: Reply)
    requires OnTrack(c, s) && s.pc.After? && AfterStep(c, s, r).Some?
    ensures Moved(c, s, AfterStep(c, s, r).value)
  {
    hide BuildTrace, CacheTrace, GateEvents, GatesAt, SubjectsReadable, SigningConfig, HasPublished, TasksAt, FanAt;
    var t := AfterStep(c, s, r).value;
    CacheTraceStays(c, s, t);
    BuildTraceStays(c, s, t);
    TasksStay(c, s, t);
    FanStays(c, s, t);
    AfterPublication(c, s);
  }

  lemma AfterPublication(c: Config, s: State)
    requires Progress(c, s) && s.pc.After?
    ensures HasPublished(s.trace)
  {
    hide TasksDone, DirsCleared, OutputScanned, ScanDirs, CacheTrace;
  }

  // Every step of the main goroutine, from the stages.
  lemma MainMoved(c: Config, s: State, r: Reply)
    requires OnTrack(c, s) && MainStep(c, s, r).Some?
    requires s.pc.Release? ==> Distinct(c.req.platforms) && |c.req.platforms| > 0
    ensures Moved(c, s, MainStep(c, s, r).value)
  {
    hide Progress, TasksAt, FanAt, GateEvents, Adds, Moved, SetupStep, DryStep, GatesStep, WorkStep,
         PostScanStep, OverlayScanStep, RoutesStep, ReleaseStep, AfterStep;
    match s.pc {
      case Setup(at) =>
        if at.ResolveBase? || at.Overlay? {
          ResolveProgress(c, s, r);
        } else if at.Begin? || at.DetectEnv? || at.Viability? {
          EarlyProgress(c, s, r);
        } else {
          SetupProgress(c, s, r);
        }
      case Dry(at) =>
        if at.ScanSecrets? || at.VerifyBase? {
          DryScansProgress(c, s, r);
        } else {
          DryProgress(c, s, r);
        }
      case Gates(at) =>
        if at.JoinCve? || at.JoinForWrite? || at.WriteLock? {
          JoinsProgress(c, s, r);
        } else if at.HashTree? {
          HashProgress(c, s, r);
        } else if at.CheckCache? {
          LookupProgress(c, s, r);
        } else {
          HitProgress(c, s, r);
        }
      case Work(at) =>
        if at.AwaitTasks? {
          AwaitProgress(c, s, r);
        } else {
          WorkProgress(c, s, r);
        }
      case Check(at) =>
        match at {
          case PostScan =>
            if s.work.dirs < |ScanDirs(c, s.work.prep)| {
              PostScanProgress(c, s, r);
            } else {
              PostScanned(c, s, r);
            }
          case OverlayScan => OverlayScanProgress(c, s, r);
          case Routes => RoutesProgress(c, s, r);
          case Fanning => FanningProgress(c, s, r);
        }
      case Release(at) =>
        if at.Index? {
          IndexProgress(c, s, r);
        } else {
          PublishProgress(c, s, r);
        }
      case After(_) => AfterProgress(c, s, r);
      case _ => LeavingMoved(c, s, r);
    }
  }

  lemma LeavingMoved(c: Config, s: State, r: Reply)
    requires OnTrack(c, s) && Ended(s.pc) && MainStep(c, s, r).Some?
    ensures Moved(c, s, MainStep(c, s, r).value)
  {
  }

  // So the order of events survives it, and the gates' events stay theirs.
  lemma MovedKeepsOrder(c: Config, s: State, t: State)
    requires Moved(c, s, t) && Ordered(c, s.trace) && GateEvents(s)
    ensures Ordered(c, t.trace) && GateEvents(t)
  {
    hide Progress, TasksAt, FanAt, Justified;
    if t.trace != s.trace {
      var e := t.trace[|s.trace|];
      assert t.trace == s.trace + [e];
      OrderedAppend(c, s.trace, e);
    }
  }

  // ---- The other goroutines' steps -----------------------------------------------------

  // A goroutine that only adds events which are no tree hash leaves the main
  // goroutine's progress standing.
  lemma ProgressKept(c: Config, s: State, t: State)
    requires Progress(c, s) && s.trace <= t.trace && !s.pc.Setup? && !s.pc.Dry?
    requires t.pc == s.pc && t.cache == s.cache && t.fan == s.fan && (t.work == s.work || s.pc.Work?)
    requires forall e | e in t.trace[|s.trace|..] :: !e.TreeHashed?
    ensures Progress(c, t)
  {
    hide TasksDone, DirsCleared, OutputScanned, BuildTasks, ScanDirs;
    TraceFacts(c, s.trace, t.trace);
    assert t.trace == s.trace + t.trace[|s.trace|..];
  }

  // A gate goroutine ends: its event is added, and the rest stands.
  lemma GateEnded(c: Config, s: State, t: State, e: Event)
    requires OnTrack(c, s) && Ordered(c, s.trace) && e.GateDone? && t.trace == s.trace + [e]
    requires !s.pc.Setup? && !s.pc.Dry? && !s.pc.Work?
    requires t.pc == s.pc && t.cache == s.cache && t.work == s.work && t.fan == s.fan
    ensures Progress(c, t) && TasksAt(c, t) && FanAt(c, t) && Ordered(c, t.trace)
  {
    hide Progress, TasksDone, FanOut.Inv, BuildTasks;
    OrderedAppend(c, s.trace, e);
    assert t.trace[|s.trace|..] == [e];
    ProgressKept(c, s, t);
  }

  lemma CveKept(c: Config, s: State, scan: ScanReply)
    requires OnTrack(c, s) && Ordered(c, s.trace) && CveStep(c, s, scan).Some?
    ensures OnTrack(c, CveStep(c, s, scan).value) && Ordered(c, CveStep(c, s, scan).value.trace)
  {
    hide TasksAt, FanAt, Ordered, ScanBaseImage;
    var t := CveStep(c, s, scan).value;
    if s.gates.cve.Running? {
      GateEnded(c, s, t, t.trace[|s.trace|]);
    } else {
      QuietMoved(c, s, t);
    }
  }

  lemma SecretKept(c: Config, s: State, clean: bool)
    requires OnTrack(c, s) && Ordered(c, s.trace) && SecretStep(c, s, clean).Some?
    ensures OnTrack(c, SecretStep(c, s, clean).value) && Ordered(c, SecretStep(c, s, clean).value.trace)
  {
    hide TasksAt, FanAt, Ordered, Progress;
    var t := SecretStep(c, s, clean).value;
    GateEnded(c, s, t, t.trace[|s.trace|]);
  }

  // A task of the Stage 5 errgroup ends: the group's record of it is the trace's.
  lemma TaskEnded(c: Config, s: State, i: nat, ok: bool, prep: Prep)
    requires TasksAt(c, s) && TaskStep(c, s, i, ok, prep).Some?
    ensures TasksAt(c, TaskStep(c, s, i, ok, prep).value)
  {
    var t := TaskStep(c, s, i, ok, prep).value;
    ErrGroup.FinishKeepsConsistent(s.work.group, i, ok);
    TraceFacts(c, s.trace, t.trace);
    forall j | 0 <= j < |t.work.group.tasks| && t.work.group.tasks[j].Succeeded?
      ensures TaskDone(BuildTasks(c)[j]) in t.trace
    {
      if j == i {
        assert t.trace[|t.trace| - 1] == TaskDone(BuildTasks(c)[j]);
      }
    }
    if t.work.group.tasks[0].Succeeded? && i == 0 {
      assert t.trace[|s.trace|] == PreparedAs(prep);
    }
  }

  // A task says nothing of the gates.
  lemma TaskLeavesGates(c: Config, s: State, i: nat, ok: bool, prep: Prep)
    requires GatesAt(s) && GateEvents(s) && TaskStep(c, s, i, ok, prep).Some?
    ensures GatesAt(TaskStep(c, s, i, ok, prep).value) && GateEvents(TaskStep(c, s, i, ok, prep).value)
  {
    hide BuildTasks, TaskPort;
  }

  lemma TaskKept(c: Config, s: State, i: nat, ok: bool, prep: Prep)
    requires OnTrack(c, s) && Ordered(c, s.trace) && TaskStep(c, s, i, ok, prep).Some?
    ensures OnTrack(c, TaskStep(c, s, i, ok, prep).value) && Ordered(c, TaskStep(c, s, i, ok, prep).value.trace)
  {
    hide TasksAt, FanAt, Ordered, Progress, GateEvents, GatesAt, BuildTasks, TaskPort;
    var t := TaskStep(c, s, i, ok, prep).value;
    TaskEnded(c, s, i, ok, prep);
    FanStays(c, s, t);
    TaskLeavesGates(c, s, i, ok, prep);
    var done := TaskDone(BuildTasks(c)[i]);
    if ok && BuildTasks(c)[i].PrepareTask? {
      OrderedAppend(c, s.trace, PreparedAs(prep));
      OrderedAppend(c, s.trace + [PreparedAs(prep)], done);
      assert t.trace == s.trace + [PreparedAs(prep)] + [done];
      assert t.trace[|s.trace|..] == [PreparedAs(prep), done];
    } else if ok {
      OrderedAppend(c, s.trace, done);
      assert t.trace[|s.trace|..] == [done];
    } else {
      assert t.trace == s.trace && t.trace[|s.trace|..] == [];
    }
    ProgressKept(c, s, t);
  }

  lemma FanKept(c: Config, s: State, act: FanOut.Action)
    requires OnTrack(c, s) && FanStep(c, s, act).Some?
    ensures OnTrack(c, FanStep(c, s, act).value) && FanStep(c, s, act).value.trace == s.trace
  {
    hide TasksDone, DirsCleared, OutputScanned, BuildTasks, ScanDirs, FanOut.Inv, FanOut.Step, FanOut.Calls;
    FanOut.StepKeepsInv(FanConfig(c, s.work.base, s.work.prep), s.fan, act);
  }

  lemma SignKept(c: Config, s: State, act: Signing.Action)
    requires OnTrack(c, s) && SignStep(s, act).Some?
    ensures OnTrack(c, SignStep(s, act).value) && SignStep(s, act).value.trace == s.trace
  {
    hide TasksDone, DirsCleared, OutputScanned, BuildTasks, ScanDirs, FanOut.Inv, Signing.Step, Signing.Calls;
  }

  lemma CancelKept(c: Config, s: State)
    requires OnTrack(c, s)
    ensures OnTrack(c, s.(cancelled := true))
  {
  }

  lemma StepKept(c: Config, s: State, a: Action)
    requires OnTrack(c, s) && Ordered(c, s.trace) && Step(c, s, a).Some?
    requires s.pc.Release? ==> Distinct(c.req.platforms) && |c.req.platforms| > 0
    ensures OnTrack(c, Step(c, s, a).value) && Ordered(c, Step(c, s, a).value.trace)
  {
    hide Progress, TasksAt, FanAt, GateEvents, GatesAt, Ordered, Adds, MainStep, CveStep, SecretStep, TaskStep,
         FanStep, SignStep;
    match a {
      case Cancel => CancelKept(c, s);
      case CveEnds(scan) => CveKept(c, s, scan);
      case SecretEnds(clean) => SecretKept(c, s, clean);
      case TaskEnds(i, ok, prep) => TaskKept(c, s, i, ok, prep);
      case FanActs(act) => FanKept(c, s, act);
      case SignActs(act) => SignKept(c, s, act);
      case Main(reply) =>
        GatesAtKept(c, s, a);
        MainMoved(c, s, reply);
        MovedKeepsOrder(c, s, MainStep(c, s, reply).value);
    }
  }
}
