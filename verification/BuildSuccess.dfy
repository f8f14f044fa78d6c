// A build that is accepted can succeed: whatever the request, some run of benign
// answers leads from the call of Build to its successful return.
// Source: internal/core/pipeline.go, Build.

module BuildSuccess {
  import opened Text
  import opened Request
  import opened Ports
  import opened CveGate
  import opened Build
  import opened BuildProofs
  import opened BuildOutcome
  import opened BuildTheorems
  import opened BuildProgress
  import opened BuildRuns
  import ErrGroup
  import FanOut
  import Signing

  // Besides being accepted: a layered Bun build has a runtime resolver, and there
  // are images whose digest can be read.
  predicate Feasible(c: Config, img: FanOut.Image)
  {
    && Accepted(c)
    && (c.req.compile.strategy.Layered? && c.req.appRuntime.Bun? ==> BunRuntime in c.deps)
    && c.digestOf(img).Some?
  }

  // ---- Benign answers ----------------------------------------------------------------------

  const NO_FINDINGS := Audit(0, BlankSeverity)

  function BaseFor(c: Config): Base
  {
    Base(map p | p in c.req.platforms :: 0, NO_FINDINGS)
  }

  function Answer(c: Config, pc: Pc): Reply
  {
    match pc
    case Setup(ResolveBase) => Resolved(BaseFor(c))
    case Setup(Overlay) => Generations([])
    case Release(Publish) => PublishedAs(Signing.Hash("", ""))
    case After(StartSigning) => Document(false, true)
    case _ => Ok
  }

  function Stating(d: Signing.Hash): Signing.Statement
  {
    [Some(map[d.alg := d.hex])]
  }

  function SignAnswer(pc: Signing.Pc, d: Signing.Hash): Signing.Reply
  {
    match pc
    case Generating => Signing.OkStatement(1)
    case AttachingAtt(_, _) => Signing.OkRef("")
    case AttachingSig(_, _) => Signing.OkRef("")
    case CosignVerifying(_) => Signing.Ok
    case DsseVerifying(_) => Signing.OkPayload(Some(Stating(d)))
    case _ => Signing.OkBlob(0)
  }

  // ---- On the way to success ----------------------------------------------------------------

  // No fault so far, and only benign answers.
  ghost predicate Promising(c: Config, s: State, img: FanOut.Image)
  {
    && !Doomed(s) && Calm(s)
    && (BaseResolved(s.pc) ==> s.work.base == BaseFor(c))
    && (forall i | 0 <= i < |s.fan.built| && s.fan.built[i].Some? :: s.fan.built[i].value.image == img)
    && (s.pc.After? && s.pc.after.AwaitSigning? ==> GoodStatements(s.sig))
  }

  predicate BaseResolved(pc: Pc)
  {
    !pc.Setup? || pc.setup.Overlay? || pc.setup.Dispatch?
  }

  predicate GoodStatements(sig: SignState)
  {
    |sig.st.pcs| == |sig.cfg.subjects|
    && forall i | 0 <= i < |sig.st.pcs| && sig.st.pcs[i].Naming? :: Signing.Names(sig.st.pcs[i].stmt, sig.cfg.subjects[i])
  }

  // A move that keeps the promise.
  ghost predicate Good(c: Config, s: State, a: Action, img: FanOut.Image)
  {
    !a.Cancel? && Step(c, s, a).Some? && !Fault(c, s, a) && KeepsPromise(c, s, Step(c, s, a).value, img)
  }

  // What a move has to see to besides meeting no fault.
  ghost predicate KeepsPromise(c: Config, s: State, t: State, img: FanOut.Image)
  {
    && (BaseResolved(t.pc) ==> t.work.base == BaseFor(c))
    && (forall i | 0 <= i < |t.fan.built| && t.fan.built[i].Some? :: t.fan.built[i].value.image == img)
    && (t.pc.After? && t.pc.after.AwaitSigning? ==> GoodStatements(t.sig))
  }

  // Some platform's goroutine can move, and nothing is wrong with it.
  lemma FanPick(fc: FanOut.Config, fan: FanOut.State, img: FanOut.Image) returns (act: FanOut.Action)
    requires FanOut.Inv(fc, fan) && !FanOut.Drained(fan) && fan.scan != FanOut.Scanning
    ensures FanOut.Step(fc, fan, act).Some?
    ensures match act
            case Acquire(_) => true
            case Prepare(i, compiled) => i < |fc.platforms| && compiled.Some?
            case FetchRunner(_, ok) => ok
            case Package(_, image) => image == Some(img)
            case _ => false
    ensures var t := FanOut.Step(fc, fan, act).value;
            forall k | 0 <= k < |t.built| && t.built[k].Some? :: t.built[k] == fan.built[k] || t.built[k].value.image == img
  {
    hide FanOut.ShipmentOf, FanOut.MadeFor, FanOut.Cause, FanOut.TaskOk, FanOut.StrategyWork;
    var i :| 0 <= i < |fan.pcs| && !FanOut.Over(fan.pcs[i]);
    if j :| 0 <= j < |fan.pcs| && FanOut.InBody(fan.pcs[j]) {
      FanOut.OccupiedPositive(fan.pcs, j);
      act := if fan.pcs[j].Entered? then FanOut.Prepare(j, Some(FanOut.Artifact(OtherPlatform(""), 0)))
             else if fan.pcs[j].Prepared? then FanOut.FetchRunner(j, true)
             else FanOut.Package(j, Some(img));
    } else {
      FanOut.OccupiedNone(fan.pcs);
      act := FanOut.Acquire(i);
    }
  }

  lemma FanMove(c: Config, s: State, img: FanOut.Image) returns (a: Action)
    requires Feasible(c, img) && Sound(c) && Promising(c, s, img) && FanAt(c, s)
    requires s.pc.Check? && s.pc.check.Fanning? && !FanOut.Drained(s.fan)
    ensures Good(c, s, a, img)
  {
    var fc := FanConfig(c, s.work.base, s.work.prep);
    var act: FanOut.Action;
    if s.fan.scan == FanOut.Scanning {
      act := FanOut.Scan(true);
    } else {
      act := FanPick(fc, s.fan, img);
      hide FanOut.Step;
    }
    a := FanActs(act);
    FanMoveFaultless(c, s, act, img);
    hide FanOut.Inv, FanOut.Calls, FanFault, Feasible;
  }

  lemma FanMoveFaultless(c: Config, s: State, act: FanOut.Action, img: FanOut.Image)
    requires Feasible(c, img) && Sound(c) && BaseResolved(s.pc) && s.work.base == BaseFor(c)
    requires match act
             case Acquire(_) => true
             case Prepare(i, compiled) => i < |c.req.platforms| && compiled.Some?
             case FetchRunner(_, ok) => ok
             case Package(_, image) => image == Some(img)
             case Scan(doc) => doc
             case _ => false
    ensures !FanFault(c, s, act)
  {
    hide ValidateDeps;
    AcceptedPorts(c);
  }

  lemma SignMove(c: Config, s: State, img: FanOut.Image) returns (a: Action)
    requires Promising(c, s, img) && SignAt(c, s)
    requires s.pc.After? && s.pc.after.AwaitSigning? && (s.sig.st.phase.Attach? || s.sig.st.phase.Verify?)
    ensures Good(c, s, a, img)
  {
    var cfg, st := s.sig.cfg, s.sig.st;
    var act: Signing.Action;
    if i :| 0 <= i < |st.pcs| && Signing.Active(st.pcs[i]) {
      act := Signing.Call(i, SignAnswer(st.pcs[i], cfg.subjects[i]));
      SignCallGood(cfg, st, i);
    } else {
      act := Signing.NeverStuck(cfg, st);
      SignIdleGood(cfg, st, act);
    }
    a := SignActs(act);
    hide Signing.Inv, Signing.Step, Signing.Calls, SignAnswer;
  }

  lemma SignCallGood(cfg: Signing.Config, st: Signing.State, i: nat)
    requires Signing.Inv(cfg, st) && (st.phase.Attach? || st.phase.Verify?) && i < |st.pcs| && Signing.Active(st.pcs[i])
    requires forall j | 0 <= j < |st.pcs| && st.pcs[j].Naming? :: Signing.Names(st.pcs[j].stmt, cfg.subjects[j])
    ensures var act := Signing.Call(i, SignAnswer(st.pcs[i], cfg.subjects[i]));
            && Signing.Step(cfg, st, act).Some?
            && !Signing.BadReply(cfg, i, st.pcs[i], act.reply)
            && var t := Signing.Step(cfg, st, act).value;
               forall j | 0 <= j < |t.pcs| && t.pcs[j].Naming? :: Signing.Names(t.pcs[j].stmt, cfg.subjects[j])
  {
    hide Signing.TwoPhase, Signing.AllBacked, Signing.AllRefs, Signing.VerifiedIn, Signing.Running;
    assert Signing.TaskOk(cfg, st, i);
    assert Signing.SubjectIs(Stating(cfg.subjects[i])[0], cfg.subjects[i]);
  }

  lemma SignIdleGood(cfg: Signing.Config, st: Signing.State, act: Signing.Action)
    requires Signing.Inv(cfg, st) && Signing.Step(cfg, st, act).Some?
    requires forall i | 0 <= i < |st.pcs| :: !Signing.Active(st.pcs[i])
    ensures !act.Call?
    ensures var t := Signing.Step(cfg, st, act).value;
            |t.pcs| == |st.pcs| && forall j | 0 <= j < |t.pcs| :: !t.pcs[j].Naming?
  {
    hide Signing.TwoPhase, Signing.AllBacked, Signing.AllRefs, Signing.VerifiedIn, Signing.TaskOk;
  }

  lemma TaskMove(c: Config, s: State, img: FanOut.Image) returns (a: Action)
    requires Promising(c, s, img) && TasksAt(c, s) && s.pc.Work? && s.pc.work.AwaitTasks? && !ErrGroup.Drained(s.work.group)
    ensures Good(c, s, a, img)
  {
    hide BuildTasks, TaskPort;
    var i: nat :| i < |s.work.group.tasks| && s.work.group.tasks[i].Running?;
    a := TaskEnds(i, true, Prep("", "", ""));
  }

  lemma GateMove(c: Config, s: State, img: FanOut.Image) returns (a: Action)
    requires Promising(c, s, img) && (s.gates.cve.Running? || s.gates.secret.Running? || (s.pc.Dry? && s.pc.dry.ScanCves?))
    requires BaseResolved(s.pc)
    ensures Good(c, s, a, img)
  {
    if s.gates.cve.Running? || (s.pc.Dry? && s.pc.dry.ScanCves?) {
      a := CveEnds(ScanReply(Clean, {}));
      CleanIsNotRefused(c, s);
    } else {
      a := SecretEnds(true);
    }
    hide ScanBaseImage, Refused;
  }

  lemma CleanIsNotRefused(c: Config, s: State)
    requires s.work.base.audit == NO_FINDINGS
    ensures !Refused(c, s, ScanReply(Clean, {}))
  {
  }

  // Where no goroutine but the main one has to move, it can.
  predicate Unblocked(s: State)
  {
    && !s.gates.cve.Running? && !s.gates.secret.Running?
    && !(s.pc.Dry? && s.pc.dry.ScanCves?)
    && (s.pc.Work? && s.pc.work.AwaitTasks? ==> ErrGroup.Drained(s.work.group))
    && (s.pc.Check? && s.pc.check.Fanning? ==> FanOut.Drained(s.fan))
    && (s.pc.After? && s.pc.after.AwaitSigning? ==> s.sig.st.phase.Signed?)
    && !s.pc.Returned?
  }

  lemma EarlyMove(c: Config, s: State, img: FanOut.Image)
    requires Feasible(c, img) && Promising(c, s, img) && GatesAt(s) && Unblocked(s) && (s.pc.Setup? || s.pc.Dry?)
    ensures Good(c, s, Main(Answer(c, s.pc)), img)
  {
    hide Accepted, ErrGroup.Drained, FanOut.Drained, Doomed;
  }

  lemma GatesMove(c: Config, s: State, img: FanOut.Image)
    requires Feasible(c, img) && Promising(c, s, img) && GatesAt(s) && Unblocked(s) && s.pc.Gates?
    ensures Good(c, s, Main(Answer(c, s.pc)), img)
  {
    hide Accepted, AllowCache, ErrGroup.Drained, FanOut.Drained;
  }

  lemma WorkMove(c: Config, s: State, img: FanOut.Image)
    requires Feasible(c, img) && Promising(c, s, img) && Unblocked(s) && s.pc.Work?
    ensures Good(c, s, Main(Answer(c, s.pc)), img)
  {
    hide Accepted, BuildTasks, ErrGroup.Drained, FanOut.Drained;
  }

  lemma CheckMove(c: Config, s: State, img: FanOut.Image)
    requires Feasible(c, img) && Promising(c, s, img) && Unblocked(s) && s.pc.Check?
    ensures Good(c, s, Main(Answer(c, s.pc)), img)
  {
    hide Accepted, ScanDirs, ErrGroup.Drained, FanOut.Drained;
  }

  lemma ReleaseMove(c: Config, s: State, img: FanOut.Image)
    requires Feasible(c, img) && Promising(c, s, img) && Unblocked(s) && s.pc.Release?
    ensures Good(c, s, Main(Answer(c, s.pc)), img)
  {
    hide Accepted, ErrGroup.Drained, FanOut.Drained, FanOut.ImageMap, Built;
  }

  lemma AfterMove(c: Config, s: State, img: FanOut.Image)
    requires Feasible(c, img) && Promising(c, s, img) && FanAt(c, s) && PublishedAt(c, s) && Unblocked(s)
    requires s.pc.After? && !s.pc.after.StartSigning?
    ensures Good(c, s, Main(Answer(c, s.pc)), img)
  {
    hide Accepted, ErrGroup.Drained, FanOut.Drained, FanOut.Inv, ImagesReadable, SubjectsOf;
  }

  lemma StartSigningMove(c: Config, s: State, img: FanOut.Image)
    requires Feasible(c, img) && Promising(c, s, img) && FanAt(c, s) && PublishedAt(c, s) && Unblocked(s)
    requires s.pc.After? && s.pc.after.StartSigning?
    ensures Good(c, s, Main(Answer(c, s.pc)), img)
  {
    DigestsReadable(c, s, img);
    hide Accepted, ErrGroup.Drained, FanOut.Drained, FanOut.Inv, ImagesReadable, SubjectsOf;
  }

  lemma DigestsReadable(c: Config, s: State, img: FanOut.Image)
    requires Feasible(c, img) && Promising(c, s, img) && FanAt(c, s) && s.pc.After?
    ensures ImagesReadable(c, s.fan)
  {
    FanOut.ResultsInPlatformOrder(FanConfig(c, s.work.base, s.work.prep), s.fan);
  }

  lemma LeavingMove(c: Config, s: State, img: FanOut.Image)
    requires Promising(c, s, img) && Unblocked(s) && s.pc.Unwinding?
    ensures Good(c, s, Main(Answer(c, s.pc)), img)
  {
  }

  // From every promising state that is not the return, some move keeps the promise.
  lemma GoodMove(c: Config, s: State, img: FanOut.Image) returns (a: Action)
    requires Inv(c, s) && Sound(c) && Feasible(c, img) && Promising(c, s, img) && !s.pc.Returned?
    ensures Good(c, s, a, img)
  {
    GatesStarted(s);
    hide Good, Feasible, GatesAt, GateEvents, Progress, TasksAt, FanAt, Ordered, InBounds, CacheAt, SignAt, PublishedAt, Told,
         GoodStatements;
    if s.gates.cve.Running? || s.gates.secret.Running? || (s.pc.Dry? && s.pc.dry.ScanCves?) {
      a := GateMove(c, s, img);
    } else if s.pc.Work? && s.pc.work.AwaitTasks? && !ErrGroup.Drained(s.work.group) {
      a := TaskMove(c, s, img);
    } else if s.pc.Check? && s.pc.check.Fanning? && !FanOut.Drained(s.fan) {
      a := FanMove(c, s, img);
    } else if s.pc.After? && s.pc.after.AwaitSigning? && !s.sig.st.phase.Signed? {
      a := SignMove(c, s, img);
    } else {
      a := Main(Answer(c, s.pc));
      match s.pc {
        case Setup(_) => EarlyMove(c, s, img);
        case Dry(_) => EarlyMove(c, s, img);
        case Gates(_) => GatesMove(c, s, img);
        case Work(_) => WorkMove(c, s, img);
        case Check(_) => CheckMove(c, s, img);
        case Release(_) => ReleaseMove(c, s, img);
        case After(StartSigning) => StartSigningMove(c, s, img);
        case After(_) => AfterMove(c, s, img);
        case _ => LeavingMove(c, s, img);
      }
    }
  }

  lemma GatesStarted(s: State)
    requires GatesAt(s)
    ensures s.gates.cve.Running? || s.gates.secret.Running? || (s.pc.Dry? && s.pc.dry.ScanCves?) ==> BaseResolved(s.pc)
  {
  }

  lemma PromiseKept(c: Config, s: State, a: Action, img: FanOut.Image)
    requires Inv(c, s) && Promising(c, s, img) && Good(c, s, a, img)
    ensures Promising(c, Step(c, s, a).value, img)
  {
    hide Inv, Doomed, Calm, Fault, Step, GoodStatements, HasPublished;
    StepVerdict(c, s, a);
  }

  // The benign answers, one after the other, lead to a successful return.
  lemma {:induction false} CanFinish(c: Config, s: State, img: FanOut.Image) returns (acts: seq<Action>)
    requires Inv(c, s) && Sound(c) && Feasible(c, img) && Promising(c, s, img)
    ensures Exec(c, s, acts).Some? && Cancel !in acts
    ensures var t := Exec(c, s, acts).value; t.pc.Returned? && t.pc.result.ok
    decreases Measure(c, s)
  {
    if s.pc.Returned? {
      assert !Doomed(s);
      return [];
    }
    hide Inv, Step, Feasible, Promising, Good, Measure;
    var a := GoodMove(c, s, img);
    GoodHappens(c, s, a, img);
    StepKeepsInv(c, s, a);
    StepUsesWork(c, s, a);
    PromiseKept(c, s, a, img);
    var rest := CanFinish(c, Step(c, s, a).value, img);
    acts := [a] + rest;
    assert acts[1..] == rest;
  }

  lemma GoodHappens(c: Config, s: State, a: Action, img: FanOut.Image)
    requires Good(c, s, a, img)
    ensures Step(c, s, a).Some? && !a.Cancel?
  {
    hide Step, Fault, KeepsPromise;
  }

  // Every request that is accepted, whatever its mode, strategy, gates and signing,
  // can be built: some run with no fault and no cancellation in it returns success.
  lemma EveryAcceptedBuildCanSucceed(c: Config, img: FanOut.Image)
    requires Sound(c) && Feasible(c, img)
    ensures exists acts :: Exec(c, Init(c), acts).Some? && Cancel !in acts
                           && Exec(c, Init(c), acts).value.pc.Returned? && Exec(c, Init(c), acts).value.pc.result.ok
  {
    hide Inv, Step, Exec;
    InitInv(c);
    var acts := CanFinish(c, Init(c), img);
  }
}
