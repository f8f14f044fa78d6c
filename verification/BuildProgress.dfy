// Build always gets to its return: some goroutine can always move, and every
// step uses up work, under any pattern of failures and cancellation.
// Source: internal/core/pipeline.go, Build.

module BuildProgress {
  import opened Text
  import opened Request
  import opened Ports
  import opened CveGate
  import opened Build
  import opened BuildProofs
  import opened BuildOutcome
  import opened BuildTheorems
  import ErrGroup
  import FanOut
  import Signing

  // ---- No deadlock ---------------------------------------------------------------------------

  lemma WorkCanMove(c: Config, s: State) returns (a: Action)
    requires TasksAt(c, s) && s.pc.Work?
    ensures Step(c, s, a).Some? && !a.Cancel?
  {
    if s.pc.work.AwaitTasks? && !ErrGroup.Drained(s.work.group) {
      var i: nat :| i < |s.work.group.tasks| && s.work.group.tasks[i].Running?;
      return TaskEnds(i, false, Prep("", "", ""));
    }
    a := Main(Err);
  }

  lemma CheckCanMove(c: Config, s: State) returns (a: Action)
    requires FanAt(c, s) && s.pc.Check?
    ensures Step(c, s, a).Some? && !a.Cancel?
  {
    if s.pc.check.Fanning? && !FanOut.Drained(s.fan) {
      var act := FanOut.NeverStuck(FanConfig(c, s.work.base, s.work.prep), s.fan);
      return FanActs(act);
    }
    a := Main(Err);
  }

  lemma AfterCanMove(c: Config, s: State) returns (a: Action)
    requires SignAt(c, s) && s.pc.After?
    ensures Step(c, s, a).Some? && !a.Cancel?
  {
    if s.pc.after.AwaitSigning? && (s.sig.st.phase.Attach? || s.sig.st.phase.Verify?) {
      var act := Signing.NeverStuck(s.sig.cfg, s.sig.st);
      return SignActs(act);
    }
    a := Main(Err);
  }

  lemma OthersCanMove(c: Config, s: State) returns (a: Action)
    requires GatesAt(s) && (s.pc.Setup? || s.pc.Dry? || s.pc.Gates? || s.pc.Release? || s.pc.Unwinding?)
    ensures Step(c, s, a).Some? && !a.Cancel?
  {
    hide SetupStep, ReleaseStep, ScanBaseImage, AllowCache;
    if s.gates.cve.Running? || (s.pc.Dry? && s.pc.dry.ScanCves?) {
      a := CveEnds(ScanReply(Clean, {}));
    } else if s.gates.secret.Running? {
      a := SecretEnds(true);
    } else {
      a := Main(Err);
    }
  }

  // Until Build has returned, some goroutine other than the canceller can move:
  // no join, wait or slot ever deadlocks.
  lemma NeverStuck(c: Config, s: State) returns (a: Action)
    requires Reachable(c, s) && Sound(c) && !s.pc.Returned?
    ensures Step(c, s, a).Some? && !a.Cancel?
  {
    hide Reachable, GatesAt, GateEvents, Progress, TasksAt, FanAt, Ordered, InBounds, CacheAt, SignAt, Told,
         Step;
    ReachableInv(c, s);
    if s.pc.Work? {
      a := WorkCanMove(c, s);
    } else if s.pc.Check? {
      a := CheckCanMove(c, s);
    } else if s.pc.After? {
      a := AfterCanMove(c, s);
    } else {
      a := OthersCanMove(c, s);
    }
  }

  // ---- No endless run ------------------------------------------------------------------------

  function FanWork(c: Config): nat
  {
    4 * |c.req.platforms| + 2
  }

  function SignWork(c: Config): nat
  {
    14 * (|c.req.platforms| + 1) + 2
  }

  function LaterWork(c: Config): nat
  {
    FanWork(c) + SignWork(c) + |BuildTasks(c)|
  }

  function SetupRank(at: SetupPc): nat
  {
    match at
    case Begin => 34
    case DetectEnv => 33
    case Viability => 32
    case Preflight => 31
    case RunnerVersion => 30
    case ResolveBase => 29
    case Overlay => 28
    case Dispatch => 27
  }

  function DryRank(at: DryPc): nat
  {
    match at
    case ScanCves => 6
    case ScanSecrets => 5
    case VerifyBase => 4
    case Inspect => 3
    case PrintPlan => 2
  }

  function GatesRank(at: GatesPc): nat
  {
    match at
    case JoinCve => 24
    case JoinForWrite => 23
    case WriteLock => 22
    case HashTree => 21
    case CheckCache => 20
    case JoinSecret => 19
    case PrintHit => 2
  }

  function WorkRank(c: Config, at: WorkPc): nat
  {
    match at
    case OverlayDir => 18 + LaterWork(c)
    case WorkDir => 17 + LaterWork(c)
    case StartTasks => 16 + LaterWork(c)
    case AwaitTasks => 15 + FanWork(c) + SignWork(c)
  }

  function CheckRank(c: Config, at: CheckPc, work: WorkState): nat
  {
    var dirs := |ScanDirs(c, work.prep)|;
    match at
    case PostScan => 11 + FanWork(c) + SignWork(c) + (if work.dirs < dirs then dirs - work.dirs else 0)
    case OverlayScan => 10 + FanWork(c) + SignWork(c)
    case Routes => 9 + FanWork(c) + SignWork(c)
    case Fanning => 8 + SignWork(c)
  }

  function AfterRank(c: Config, at: AfterPc): nat
  {
    match at
    case AttachSbom => 5 + SignWork(c)
    case StartSigning => 4 + SignWork(c)
    case AwaitSigning => 3
    case PrintRef => 2
  }

  // The steps the main goroutine may still take, with the work it will start.
  function Rank(c: Config, pc: Pc, work: WorkState): nat
  {
    match pc
    case Setup(at) => SetupRank(at) + LaterWork(c)
    case Dry(at) => DryRank(at)
    case Gates(at) => GatesRank(at) + LaterWork(c)
    case Work(at) => WorkRank(c, at)
    case Check(at) => CheckRank(c, at, work)
    case Release(at) => (if at.Index? then 7 else 6) + SignWork(c)
    case After(at) => AfterRank(c, at)
    case Unwinding(_) => 1
    case Returned(_) => 0
  }

  function RunningTasks(ts: seq<ErrGroup.Status>): nat
  {
    if ts == [] then 0 else RunningTasks(ts[..|ts| - 1]) + (if ts[|ts| - 1].Running? then 1 else 0)
  }

  lemma {:induction false} RunningUpdate(ts: seq<ErrGroup.Status>, i: nat, st: ErrGroup.Status)
    requires i < |ts| && ts[i].Running? && !st.Running?
    ensures RunningTasks(ts[i := st]) == RunningTasks(ts) - 1
  {
    var k := |ts| - 1;
    if i < k {
      RunningUpdate(ts[..k], i, st);
      assert ts[i := st][..k] == ts[..k][i := st];
    } else {
      assert ts[i := st][..k] == ts[..k];
    }
  }

  lemma {:induction false} AllRunning(n: nat)
    ensures RunningTasks(ErrGroup.Start(n).tasks) == n
  {
    if n > 0 {
      assert ErrGroup.Start(n).tasks[..n - 1] == ErrGroup.Start(n - 1).tasks;
      AllRunning(n - 1);
    }
  }

  // The work of the goroutines that are running now.
  function Inner(s: State): nat
  {
    (if s.gates.cve.Running? then 1 else 0) + (if s.gates.secret.Running? then 1 else 0)
    + (if s.pc.Work? && s.pc.work.AwaitTasks? then RunningTasks(s.work.group.tasks)
       else if s.pc.Check? && s.pc.check.Fanning? then FanOut.Measure(s.fan)
       else if s.pc.After? && s.pc.after.AwaitSigning? then Signing.Measure(s.sig.st)
       else 0)
  }

  function Measure(c: Config, s: State): nat
  {
    Rank(c, s.pc, s.work) + Inner(s) + (if s.cancelled then 0 else 1)
  }

  lemma EarlyUsesWork(c: Config, s: State, r: Reply)
    requires s.pc.Setup? && (s.pc.setup.Begin? || s.pc.setup.DetectEnv? || s.pc.setup.Viability?)
    ensures Measure(c, SetupStep(c, s, r)) < Measure(c, s)
  {
    hide DryRank, LaterWork, WorkRank, CheckRank, AfterRank, BuildTasks, Accepted, FanWork, SignWork, ScanDirs;
  }

  lemma SetupUsesWork(c: Config, s: State, r: Reply)
    requires s.pc.Setup? && (s.pc.setup.Preflight? || s.pc.setup.RunnerVersion? || s.pc.setup.Dispatch?)
    ensures Measure(c, SetupStep(c, s, r)) < Measure(c, s)
  {
    hide DryRank, LaterWork, WorkRank, CheckRank, AfterRank, BuildTasks, Accepted, FanWork, SignWork, ScanDirs;
  }

  lemma ResolveUsesWork(c: Config, s: State, r: Reply)
    requires s.pc.Setup? && (s.pc.setup.ResolveBase? || s.pc.setup.Overlay?)
    ensures Measure(c, SetupStep(c, s, r)) < Measure(c, s)
  {
    hide LaterWork, WorkRank, CheckRank, AfterRank, BuildTasks, Accepted, FanWork, SignWork, ScanDirs;
  }

  lemma DryScansUseWork(c: Config, s: State, r: Reply)
    requires s.pc.Dry? && (s.pc.dry.ScanSecrets? || s.pc.dry.VerifyBase?) && DryStep(c, s, r).Some?
    ensures Measure(c, DryStep(c, s, r).value) < Measure(c, s)
  {
    hide LaterWork, WorkRank, CheckRank, AfterRank, BuildTasks, FanWork, SignWork, ScanDirs;
  }

  lemma DryUsesWork(c: Config, s: State, r: Reply)
    requires s.pc.Dry? && !s.pc.dry.ScanSecrets? && !s.pc.dry.VerifyBase? && DryStep(c, s, r).Some?
    ensures Measure(c, DryStep(c, s, r).value) < Measure(c, s)
  {
    hide LaterWork, WorkRank, CheckRank, AfterRank, BuildTasks, FanWork, SignWork, ScanDirs;
  }

  lemma JoinsUseWork(c: Config, s: State, r: Reply)
    requires s.pc.Gates? && (s.pc.gates.JoinCve? || s.pc.gates.JoinForWrite? || s.pc.gates.WriteLock?) && GatesStep(c, s, r).Some?
    ensures Measure(c, GatesStep(c, s, r).value) < Measure(c, s)
  {
    hide SetupRank, DryRank, AllowCache, LaterWork, CheckRank, AfterRank, BuildTasks, FanWork, SignWork,
         ScanDirs;
  }

  lemma GatesUsesWork(c: Config, s: State, r: Reply)
    requires s.pc.Gates? && !(s.pc.gates.JoinCve? || s.pc.gates.JoinForWrite? || s.pc.gates.WriteLock?) && GatesStep(c, s, r).Some?
    ensures Measure(c, GatesStep(c, s, r).value) < Measure(c, s)
  {
    hide SetupRank, DryRank, AllowCache, LaterWork, CheckRank, AfterRank, BuildTasks, FanWork, SignWork,
         ScanDirs;
  }

  lemma WorkUsesWork(c: Config, s: State, r: Reply)
    requires s.pc.Work? && WorkStep(c, s, r).Some?
    ensures Measure(c, WorkStep(c, s, r).value) < Measure(c, s)
  {
    hide SetupRank, DryRank, GatesRank, AfterRank, ErrGroup.Drained, BuildTasks, FanWork, SignWork;
    AllRunning(|BuildTasks(c)|);
  }

  lemma PostScanUsesWork(c: Config, s: State, r: Reply)
    requires s.pc.Check? && s.pc.check.PostScan?
    ensures Measure(c, PostScanStep(c, s, r)) < Measure(c, s)
  {
    hide FanWork, SignWork, ScanDirs;
  }

  lemma OverlayScanUsesWork(c: Config, s: State, r: Reply)
    requires s.pc.Check? && s.pc.check.OverlayScan?
    ensures Measure(c, OverlayScanStep(c, s, r)) < Measure(c, s)
  {
    hide FanWork, SignWork, ScanDirs;
  }

  lemma RoutesUsesWork(c: Config, s: State, r: Reply)
    requires s.pc.Check? && s.pc.check.Routes?
    ensures Measure(c, RoutesStep(c, s, r)) < Measure(c, s)
  {
    hide SignWork, ScanDirs, FanOut.Init, FanOut.Measure;
    FanOut.InitMeasure(FanConfig(c, s.work.base, s.work.prep));
  }

  lemma FanningUsesWork(c: Config, s: State, r: Reply)
    requires s.pc.Check? && s.pc.check.Fanning? && CheckStep(c, s, r).Some?
    ensures Measure(c, CheckStep(c, s, r).value) < Measure(c, s)
  {
    hide SignWork, ScanDirs, FanOut.Measure;
  }

  lemma ReleaseUsesWork(c: Config, s: State, r: Reply)
    requires s.pc.Release?
    ensures Measure(c, ReleaseStep(c, s, r)) < Measure(c, s)
  {
    hide SignWork, ScanDirs, FanOut.ImageMap, Built;
  }

  // One subject for the published digest, and one for each platform at most.
  lemma SubjectCount(c: Config, s: State, r: Reply)
    requires FanAt(c, s) && s.pc.After? && SubjectsReadable(c, s, r)
    ensures |SigningConfig(c, s, r).subjects| <= 1 + |c.req.platforms|
  {
    hide ImagesReadable, FanOut.Drained;
  }

  lemma AfterUsesWork(c: Config, s: State, r: Reply)
    requires FanAt(c, s) && s.pc.After? && AfterStep(c, s, r).Some?
    ensures Measure(c, AfterStep(c, s, r).value) < Measure(c, s)
  {
    hide SetupRank, DryRank, GatesRank, LaterWork, FanWork, WorkRank, CheckRank, FanAt, SigningConfig, SubjectsReadable,
         Signing.Init, Signing.Measure, ScanDirs;
    if s.pc.after.StartSigning? && SubjectsReadable(c, s, r) {
      SubjectCount(c, s, r);
      Signing.InitMeasure(SigningConfig(c, s, r));
    }
  }

  lemma MainUsesWork(c: Config, s: State, r: Reply)
    requires FanAt(c, s) && MainStep(c, s, r).Some?
    ensures Measure(c, MainStep(c, s, r).value) < Measure(c, s)
  {
    hide FanAt, SetupStep, DryStep, GatesStep, WorkStep, PostScanStep, OverlayScanStep, RoutesStep, ReleaseStep,
         AfterStep;
    match s.pc {
      case Setup(at) =>
        if at.ResolveBase? || at.Overlay? {
          ResolveUsesWork(c, s, r);
        } else if at.Begin? || at.DetectEnv? || at.Viability? {
          EarlyUsesWork(c, s, r);
        } else {
          SetupUsesWork(c, s, r);
        }
      case Dry(at) =>
        if at.ScanSecrets? || at.VerifyBase? {
          DryScansUseWork(c, s, r);
        } else {
          DryUsesWork(c, s, r);
        }
      case Gates(at) =>
        if at.JoinCve? || at.JoinForWrite? || at.WriteLock? {
          JoinsUseWork(c, s, r);
        } else {
          GatesUsesWork(c, s, r);
        }
      case Work(_) => WorkUsesWork(c, s, r);
      case Check(at) =>
        match at {
          case PostScan => PostScanUsesWork(c, s, r);
          case OverlayScan => OverlayScanUsesWork(c, s, r);
          case Routes => RoutesUsesWork(c, s, r);
          case Fanning => FanningUsesWork(c, s, r);
        }
      case Release(_) => ReleaseUsesWork(c, s, r);
      case After(_) => AfterUsesWork(c, s, r);
      case _ =>
    }
  }

  lemma GateUsesWork(c: Config, s: State, a: Action)
    requires (a.CveEnds? || a.SecretEnds?) && Step(c, s, a).Some?
    ensures Measure(c, Step(c, s, a).value) < Measure(c, s)
  {
    hide LaterWork, WorkRank, CheckRank, AfterRank, ScanBaseImage, BuildTasks, FanWork, SignWork, ScanDirs;
  }

  lemma TaskUsesWork(c: Config, s: State, i: nat, ok: bool, prep: Prep)
    requires TaskStep(c, s, i, ok, prep).Some?
    ensures Measure(c, TaskStep(c, s, i, ok, prep).value) < Measure(c, s)
  {
    hide BuildTasks, FanWork, SignWork, ScanDirs;
    RunningUpdate(s.work.group.tasks, i, if ok then ErrGroup.Succeeded else ErrGroup.Failed);
  }

  lemma FanUsesWork(c: Config, s: State, act: FanOut.Action)
    requires FanAt(c, s) && FanStep(c, s, act).Some?
    ensures Measure(c, FanStep(c, s, act).value) < Measure(c, s)
  {
    hide FanOut.Inv, FanOut.Step, FanOut.Calls, FanOut.Measure, ScanDirs;
    FanOut.StepUsesWork(FanConfig(c, s.work.base, s.work.prep), s.fan, act);
  }

  lemma SignUsesWork(c: Config, s: State, act: Signing.Action)
    requires SignAt(c, s) && SignStep(s, act).Some?
    ensures Measure(c, SignStep(s, act).value) < Measure(c, s)
  {
    hide Signing.Inv, Signing.Step, Signing.Calls, Signing.Measure, ScanDirs;
    Signing.StepUsesWork(s.sig.cfg, s.sig.st, act);
  }

  lemma StepUsesWork(c: Config, s: State, a: Action)
    requires Inv(c, s) && Step(c, s, a).Some?
    ensures Measure(c, Step(c, s, a).value) < Measure(c, s)
  {
    hide GatesAt, GateEvents, Progress, TasksAt, Ordered, InBounds, CacheAt, Told, MainStep, CveStep,
         SecretStep, TaskStep, FanStep, SignStep;
    match a {
      case Cancel =>
      case TaskEnds(i, ok, prep) => TaskUsesWork(c, s, i, ok, prep);
      case FanActs(act) => FanUsesWork(c, s, act);
      case SignActs(act) => SignUsesWork(c, s, act);
      case Main(reply) => MainUsesWork(c, s, reply);
      case _ => GateUsesWork(c, s, a);
    }
  }

  lemma {:induction false} RunsAreBounded(c: Config, s: State, acts: seq<Action>)
    requires Inv(c, s) && Sound(c) && Exec(c, s, acts).Some?
    ensures |acts| + Measure(c, Exec(c, s, acts).value) <= Measure(c, s)
    decreases |acts|
  {
    hide Inv, Step, Measure;
    if acts != [] {
      StepKeepsInv(c, s, acts[0]);
      StepUsesWork(c, s, acts[0]);
      RunsAreBounded(c, Step(c, s, acts[0]).value, acts[1..]);
    }
  }

  // No run of Build is longer than this, so with NeverStuck every build returns.
  lemma EveryBuildEnds(c: Config, acts: seq<Action>)
    requires Sound(c) && Exec(c, Init(c), acts).Some?
    ensures |acts| <= 19 * |c.req.platforms| + 56
  {
    InitInv(c);
    RunsAreBounded(c, Init(c), acts);
    assert |BuildTasks(c)| <= 3 + |c.req.platforms|;
  }
}
