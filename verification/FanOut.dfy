// The per-platform fan-out: one goroutine per platform, a counted slot channel
// that caps how many are inside their body, and the project SBOM scan in the
// same errgroup. A state machine over the goroutines' steps.
// Source: internal/core/pipeline.go, fanOut and the assembly that follows it.

module FanOut {
  import opened Text
  import opened Request
  import opened Ports

  // An OCI image is only its identity here.
  type Image = nat

  datatype Artifact = Artifact(platform: Platform, binary: nat)
  datatype PlatformBuild = PlatformBuild(artifact: Artifact, image: Image)

  // What fanOut is called with. baseImages are the images the resolver returned,
  // by platform; bunRuntimes is how many runtimes were resolved.
  datatype Config = Config(
    platforms: seq<Platform>, strategy: Strategy, runtime: AppRuntime, concurrency: int,
    baseImages: map<Platform, Image>, deps: Deps, bunRuntimes: nat, sbom: bool, prep: Prep)

  // Where one platform's goroutine is.
  datatype Pc =
    | Queued                       // waiting for a slot
    | Entered                      // holds a slot, nothing done yet
    | Prepared(art: Artifact)      // strategy work done, artifact labelled
    | HasRunner(art: Artifact, runner: Port)   // supervisor or static server fetched
    | Succeeded
    | Failed

  datatype ScanPc = ScanOff | Scanning | ScanOk | ScanFailed

  // What of Prepare's output goes into an image: directories, packaged as they
  // are, and an entrypoint, compiled with all it imports.
  datatype Shipment = Shipment(trees: set<string>, compiledFrom: Option<string>)

  // A call to Compiler.Compile that returned a binary, by goroutine and platform.
  datatype Compiling = Compiling(task: nat, platform: Platform, binary: nat)

  // A call to Packager.Build: which goroutine, for which platform, from which
  // artifact, base image, runner and trees, and the image it returned.
  datatype Packaging = Packaging(
    task: nat, platform: Platform, art: Artifact, base: Image, runner: Port, shipment: Shipment, image: Image)

  datatype State = State(
    pcs: seq<Pc>, slots: nat, scan: ScanPc, built: seq<Option<PlatformBuild>>,
    failed: bool, cancelled: bool, compiled: set<Compiling>, packaged: set<Packaging>)

  datatype Action =
    | Acquire(i: nat)                              // the slot arm of the select
    | GiveUp(i: nat)                               // the gctx.Done arm
    | Prepare(i: nat, compiled: Option<Artifact>)  // None: the compiler failed
    | FetchRunner(i: nat, ok: bool)
    | Package(i: nat, image: Option<Image>)
    | Scan(doc: bool)                              // false: error, or no document
    | CancelBuild                                  // the caller's context ends

  // limit is req.Concurrency, or one slot per platform when it is not positive.
  function Limit(c: Config): nat
  {
    if c.concurrency <= 0 then |c.platforms| else c.concurrency
  }

  function Init(c: Config): State
  {
    State(seq(|c.platforms|, _ => Queued), 0, if c.sbom then Scanning else ScanOff,
          seq(|c.platforms|, _ => None), false, false, {}, {})
  }

  predicate InBody(pc: Pc)
  {
    pc.Entered? || pc.Prepared? || pc.HasRunner?
  }

  predicate Over(pc: Pc)
  {
    pc.Succeeded? || pc.Failed?
  }

  // gctx is done once a task has failed or the caller's context has.
  predicate Done(s: State)
  {
    s.failed || s.cancelled
  }

  // Leaving the body returns the slot, whatever the outcome.
  function Fail(s: State, i: nat): State
    requires i < |s.pcs| && s.slots > 0
  {
    s.(pcs := s.pcs[i := Failed], slots := s.slots - 1, failed := true)
  }

  // The strategy switch up to the point where art.Platform is assigned: the
  // artifact without its platform label, or None where it fails.
  function StrategyWork(c: Config, i: nat, compiled: Option<Artifact>): Option<Artifact>
    requires i < |c.platforms|
  {
    var blank := Artifact(OtherPlatform(""), 0);
    match c.strategy
    case Layered =>
      if c.runtime == Bun && (BunRuntime !in c.deps || i >= c.bunRuntimes) then None else Some(blank)
    case Static => Some(blank)
    case Exe => compiled
    case _ => None
  }

  function PrepareStep(c: Config, s: State, i: nat, compiled: Option<Artifact>): State
    requires i < |c.platforms| == |s.pcs| && s.slots > 0
  {
    var work := StrategyWork(c, i, compiled);
    if c.platforms[i] !in c.baseImages || work.None? then Fail(s, i)
    else s.(pcs := s.pcs[i := Prepared(work.value.(platform := c.platforms[i]))],
            compiled := if c.strategy.Exe? then s.compiled + {Compiling(i, c.platforms[i], work.value.binary)} else s.compiled)
  }

  function RunnerStep(c: Config, s: State, i: nat, ok: bool): State
    requires i < |s.pcs| && s.pcs[i].Prepared? && s.slots > 0
  {
    if !ok || (c.strategy == Static && StaticServer !in c.deps) then Fail(s, i)
    else s.(pcs := s.pcs[i := HasRunner(s.pcs[i].art, if c.strategy == Static then StaticServer else Supervisor)])
  }

  function Join(dir: string, name: string): string
  {
    dir + ['/'] + name
  }

  // The packaging switch: what each strategy takes from Prepare's output.
  function ShipmentOf(strategy: Strategy, prep: Prep): Shipment
  {
    match strategy
    case Layered =>
      Shipment({prep.outputDir, Join(prep.outputDir, "client"), Join(prep.outputDir, "vendor"),
                Join(prep.outputDir, "native"), Join(prep.outputDir, "prerendered")}
               + (if prep.nodeModules == "" then {} else {prep.nodeModules}), None)
    case Static => Shipment({Join(prep.outputDir, "client"), Join(prep.outputDir, "prerendered")}, None)
    case Exe => Shipment({}, Some(prep.entrypoint))
    case _ => Shipment({}, None)
  }

  function PackageStep(c: Config, s: State, i: nat, image: Option<Image>): State
    requires i < |c.platforms| == |s.pcs| == |s.built| && s.pcs[i].HasRunner? && s.slots > 0
  {
    var p := c.platforms[i];
    if image.None? || p !in c.baseImages then Fail(s, i)
    else
      var art, img := s.pcs[i].art, image.value;
      s.(pcs := s.pcs[i := Succeeded], slots := s.slots - 1,
         built := s.built[i := Some(PlatformBuild(art, img))],
         packaged := s.packaged + {Packaging(i, p, art, c.baseImages[p], s.pcs[i].runner, ShipmentOf(c.strategy, c.prep), img)})
  }

  // One step of one goroutine, or None when the action cannot happen now.
  function Step(c: Config, s: State, a: Action): (r: Option<State>)
    requires |s.pcs| == |s.built| == |c.platforms|
    ensures r.Some? ==> |r.value.pcs| == |r.value.built| == |c.platforms|
  {
    match a
    case Acquire(i) =>
      if i < |s.pcs| && s.pcs[i] == Queued && s.slots < Limit(c)
      then Some(s.(pcs := s.pcs[i := Entered], slots := s.slots + 1)) else None
    case GiveUp(i) =>
      if i < |s.pcs| && s.pcs[i] == Queued && Done(s)
      then Some(s.(pcs := s.pcs[i := Failed], failed := true)) else None
    case Prepare(i, compiled) =>
      if i < |s.pcs| && s.pcs[i] == Entered && s.slots > 0 then Some(PrepareStep(c, s, i, compiled)) else None
    case FetchRunner(i, ok) =>
      if i < |s.pcs| && s.pcs[i].Prepared? && s.slots > 0 then Some(RunnerStep(c, s, i, ok)) else None
    case Package(i, image) =>
      if i < |s.pcs| && s.pcs[i].HasRunner? && s.slots > 0 then Some(PackageStep(c, s, i, image)) else None
    case Scan(doc) =>
      if s.scan == Scanning
      then Some(s.(scan := if doc then ScanOk else ScanFailed, failed := s.failed || !doc)) else None
    case CancelBuild =>
      if !s.cancelled then Some(s.(cancelled := true)) else None
  }

  // The ports a step calls.
  function Calls(c: Config, s: State, a: Action): set<Port>
    requires |s.pcs| == |c.platforms|
  {
    match a
    case Prepare(i, _) => if i < |c.platforms| && c.platforms[i] in c.baseImages && c.strategy == Exe then {Compiler} else {}
    case FetchRunner(i, _) =>
      if c.strategy != Static then {Supervisor} else if StaticServer in c.deps then {StaticServer} else {}
    case Package(_, _) => {Packager}
    case Scan(_) => {Sbom}
    case _ => {}
  }

  // The calls a step makes are those its results need: a binary from the compiler,
  // the runner the strategy takes, an image from the packager, a document.
  lemma CallsMatchWork(c: Config, s: State, a: Action)
    requires |s.pcs| == |s.built| == |c.platforms| && Step(c, s, a).Some?
    ensures var t, ports := Step(c, s, a).value, Calls(c, s, a);
            && (t.compiled != s.compiled ==> ports == {Compiler})
            && (a.FetchRunner? && t.pcs[a.i].HasRunner? ==> ports == {t.pcs[a.i].runner})
            && (t.packaged != s.packaged || t.built != s.built ==> ports == {Packager})
            && (t.scan != s.scan ==> ports == {Port.Sbom})
  {
  }

  // g.Wait may return, and whether it returns nil.
  predicate Drained(s: State)
  {
    (forall i | 0 <= i < |s.pcs| :: Over(s.pcs[i])) && s.scan != Scanning
  }

  // ---- Invariant -----------------------------------------------------------

  function Occupied(pcs: seq<Pc>): nat
  {
    if pcs == [] then 0
    else Occupied(pcs[..|pcs| - 1]) + (if InBody(pcs[|pcs| - 1]) then 1 else 0)
  }

  lemma {:induction false} OccupiedUpdate(pcs: seq<Pc>, i: nat, pc: Pc)
    requires i < |pcs|
    ensures Occupied(pcs[i := pc]) ==
            Occupied(pcs) - (if InBody(pcs[i]) then 1 else 0) + (if InBody(pc) then 1 else 0)
  {
    var k := |pcs| - 1;
    if i < k {
      OccupiedUpdate(pcs[..k], i, pc);
      assert pcs[i := pc][..k] == pcs[..k][i := pc];
    } else {
      assert pcs[i := pc][..k] == pcs[..k];
    }
  }

  lemma {:induction false} OccupiedPositive(pcs: seq<Pc>, i: nat)
    requires i < |pcs| && InBody(pcs[i])
    ensures Occupied(pcs) > 0
  {
    var k := |pcs| - 1;
    if i < k {
      OccupiedPositive(pcs[..k], i);
    }
  }

  lemma {:induction false} OccupiedNone(pcs: seq<Pc>)
    requires forall i | 0 <= i < |pcs| :: !InBody(pcs[i])
    ensures Occupied(pcs) == 0
  {
    if pcs != [] {
      OccupiedNone(pcs[..|pcs| - 1]);
    }
  }

  // The artifact is platform i's own: compiled by its own goroutine for the exe
  // strategy, and no binary at all for the others.
  predicate OwnArtifact(c: Config, compiled: set<Compiling>, i: nat, art: Artifact)
    requires i < |c.platforms|
  {
    && art.platform == c.platforms[i]
    && (if c.strategy.Exe? then Compiling(i, c.platforms[i], art.binary) in compiled else art.binary == 0)
  }

  // The packager was called by goroutine i with everything of its own platform.
  predicate MadeFor(c: Config, compiled: set<Compiling>, i: nat, k: Packaging)
    requires i < |c.platforms|
  {
    && k.task == i && k.platform == c.platforms[i] && OwnArtifact(c, compiled, i, k.art)
    && k.platform in c.baseImages && k.base == c.baseImages[k.platform]
    && k.runner == (if c.strategy.Static? then StaticServer else Supervisor)
    && k.shipment == ShipmentOf(c.strategy, c.prep)
  }

  // What goroutine i left in the results is what the packager made for it.
  predicate OwnBuild(c: Config, s: State, i: nat, b: PlatformBuild)
    requires i < |c.platforms|
  {
    exists k | k in s.packaged :: MadeFor(c, s.compiled, i, k) && k.art == b.artifact && k.image == b.image
  }

  // What holds of goroutine i at every step.
  ghost predicate TaskOk(c: Config, s: State, i: nat)
    requires i < |s.pcs| == |s.built| == |c.platforms|
  {
    var pc := s.pcs[i];
    && (pc.Prepared? ==> OwnArtifact(c, s.compiled, i, pc.art))
    && (pc.HasRunner? ==>
          OwnArtifact(c, s.compiled, i, pc.art) && pc.runner == (if c.strategy.Static? then StaticServer else Supervisor))
    && (pc.Failed? ==> s.failed)
    && (pc.Succeeded? <==> s.built[i].Some?)
    && (pc.Succeeded? ==> OwnBuild(c, s, i, s.built[i].value))
    && (InBody(pc) && !pc.Entered? ==> c.platforms[i] in c.baseImages)
  }

  ghost predicate Inv(c: Config, s: State)
  {
    && |s.pcs| == |s.built| == |c.platforms|
    && s.slots == Occupied(s.pcs) <= Limit(c)
    && (forall i | 0 <= i < |s.pcs| :: TaskOk(c, s, i))
    && (forall k | k in s.packaged :: k.task < |c.platforms| && MadeFor(c, s.compiled, k.task, k))
    && (s.scan == ScanOff <==> !c.sbom)
    && (s.scan == ScanFailed ==> s.failed)
    && (s.failed ==> Cause(s))
  }

  // The errgroup holds an error only when some task failed.
  ghost predicate Cause(s: State)
  {
    s.scan == ScanFailed || exists i | 0 <= i < |s.pcs| :: s.pcs[i] == Failed
  }

  lemma InitInv(c: Config)
    ensures Inv(c, Init(c))
  {
    OccupiedNone(Init(c).pcs);
  }

  // One goroutine moved from s to t; the others' facts and the error's cause stand.
  lemma OthersKept(c: Config, s: State, t: State, i: nat)
    requires Inv(c, s) && i < |s.pcs| == |t.pcs| == |t.built| && !Over(s.pcs[i])
    requires t.pcs == s.pcs[i := t.pcs[i]] && t.built == s.built[i := t.built[i]]
    requires s.packaged <= t.packaged && s.compiled <= t.compiled && (s.failed ==> t.failed) && t.scan == s.scan
    requires TaskOk(c, t, i)
    requires t.failed ==> s.failed || t.pcs[i] == Failed
    ensures forall j | 0 <= j < |t.pcs| :: TaskOk(c, t, j)
    ensures t.failed ==> Cause(t)
  {
    forall j | 0 <= j < |t.pcs|
      ensures TaskOk(c, t, j)
    {
      assert TaskOk(c, s, j);
    }
    if s.failed && s.scan != ScanFailed {
      var j :| 0 <= j < |s.pcs| && s.pcs[j] == Failed;
      assert t.pcs[j] == Failed;
    }
  }

  // An action of goroutine i moves that goroutine forward and no other.
  lemma StepMovesOne(c: Config, s: State, a: Action)
    requires |s.pcs| == |s.built| == |c.platforms|
    requires Step(c, s, a).Some? && !a.Scan? && !a.CancelBuild?
    ensures a.i < |s.pcs| && !Over(s.pcs[a.i])
    ensures var t := Step(c, s, a).value;
            && t.pcs == s.pcs[a.i := t.pcs[a.i]] && t.built == s.built[a.i := t.built[a.i]]
            && Work(t.pcs[a.i]) < Work(s.pcs[a.i])
            && t.scan == s.scan && t.cancelled == s.cancelled && s.packaged <= t.packaged && s.compiled <= t.compiled
  {
  }

  // Its own facts hold where it arrives, and what it packaged is its own.
  lemma ArrivesOk(c: Config, s: State, a: Action)
    requires Inv(c, s) && Step(c, s, a).Some? && !a.Scan? && !a.CancelBuild?
    ensures TaskOk(c, Step(c, s, a).value, a.i)
  {
    hide ShipmentOf, Occupied, Cause;
    assert TaskOk(c, s, a.i);
    var t := Step(c, s, a).value;
    if t.pcs[a.i].Succeeded? {
      var p, art := c.platforms[a.i], s.pcs[a.i].art;
      var k := Packaging(a.i, p, art, c.baseImages[p], s.pcs[a.i].runner, ShipmentOf(c.strategy, c.prep), a.image.value);
      assert k in t.packaged && MadeFor(c, t.compiled, a.i, k);
    }
  }

  lemma PackagedOk(c: Config, s: State, a: Action)
    requires Inv(c, s) && Step(c, s, a).Some?
    ensures var t := Step(c, s, a).value; forall k | k in t.packaged :: k.task < |c.platforms| && MadeFor(c, t.compiled, k.task, k)
  {
    hide ShipmentOf, Occupied, Cause, StrategyWork;
    if a.Package? {
      assert TaskOk(c, s, a.i);
    }
  }

  lemma StepKeepsInv(c: Config, s: State, a: Action)
    requires Inv(c, s) && Step(c, s, a).Some?
    ensures Inv(c, Step(c, s, a).value)
  {
    hide TaskOk, MadeFor, StrategyWork, ShipmentOf;
    var t := Step(c, s, a).value;
    PackagedOk(c, s, a);
    if !a.Scan? && !a.CancelBuild? {
      StepMovesOne(c, s, a);
      ArrivesOk(c, s, a);
      OccupiedUpdate(s.pcs, a.i, t.pcs[a.i]);
      OthersKept(c, s, t, a.i);
    } else {
      GroupKept(c, s, t);
    }
  }

  lemma GroupKept(c: Config, s: State, t: State)
    requires Inv(c, s) && t.pcs == s.pcs && t.built == s.built && t.packaged == s.packaged && t.compiled == s.compiled
    requires s.failed ==> t.failed
    ensures forall j | 0 <= j < |t.pcs| :: TaskOk(c, t, j)
  {
    hide MadeFor;
    forall j | 0 <= j < |t.pcs|
      ensures TaskOk(c, t, j)
    {
      assert TaskOk(c, s, j);
    }
  }

  // ---- Runs ------------------------------------------------------------------

  // The state after a sequence of actions, if every one of them was possible.
  function Exec(c: Config, s: State, acts: seq<Action>): Option<State>
    requires |s.pcs| == |s.built| == |c.platforms|
    decreases |acts|
  {
    if acts == [] then Some(s)
    else
      var t := Step(c, s, acts[0]);
      if t.None? then None else Exec(c, t.value, acts[1..])
  }

  ghost predicate Reachable(c: Config, s: State)
  {
    exists acts :: Exec(c, Init(c), acts) == Some(s)
  }

  lemma {:induction false} ExecKeepsInv(c: Config, s: State, acts: seq<Action>)
    requires Inv(c, s) && Exec(c, s, acts).Some?
    ensures Inv(c, Exec(c, s, acts).value)
    decreases |acts|
  {
    if acts != [] {
      StepKeepsInv(c, s, acts[0]);
      ExecKeepsInv(c, Step(c, s, acts[0]).value, acts[1..]);
    }
  }

  lemma ReachableInv(c: Config, s: State)
    requires Reachable(c, s)
    ensures Inv(c, s)
  {
    var acts :| Exec(c, Init(c), acts) == Some(s);
    InitInv(c);
    ExecKeepsInv(c, Init(c), acts);
  }

  // ---- Results: of every state that keeps the invariant, so of every reachable one

  lemma {:induction false} OccupiedAtMost(pcs: seq<Pc>)
    ensures Occupied(pcs) <= |pcs|
    ensures (exists i | 0 <= i < |pcs| :: !InBody(pcs[i])) ==> Occupied(pcs) < |pcs|
  {
    if pcs != [] {
      OccupiedAtMost(pcs[..|pcs| - 1]);
    }
  }

  // With a concurrency asked for, never more platforms are being built at once,
  // and a queued platform is held back only while that many are; with none asked
  // for, a queued platform is never held back.
  lemma SlotsRespected(c: Config, s: State, i: nat)
    requires Inv(c, s)
    ensures c.concurrency > 0 ==> Occupied(s.pcs) <= c.concurrency
    ensures |s.pcs| == |s.built| == |c.platforms|
    ensures i < |s.pcs| && s.pcs[i].Queued? ==>
              (Step(c, s, Acquire(i)).Some? <==> c.concurrency <= 0 || Occupied(s.pcs) < c.concurrency)
  {
    OccupiedAtMost(s.pcs);
  }

  // Wait returns nil exactly when every task succeeded, and then position i
  // holds platform i's own artifact, for every strategy, and the image the packager
  // built from it by platform i's own goroutine, on that platform's base image and
  // with its runner.
  lemma ResultsInPlatformOrder(c: Config, s: State)
    requires Inv(c, s) && Drained(s)
    ensures !s.failed <==> (forall i | 0 <= i < |s.pcs| :: s.pcs[i] == Succeeded) && s.scan != ScanFailed
    ensures !s.failed ==> Complete(c, s.built)
    ensures !s.failed ==> forall i | 0 <= i < |s.built| :: OwnBuild(c, s, i, s.built[i].value)
  {
    if !s.failed {
      forall i | 0 <= i < |s.pcs|
        ensures s.pcs[i] == Succeeded && s.built[i].Some? && s.built[i].value.artifact.platform == c.platforms[i]
        ensures OwnBuild(c, s, i, s.built[i].value)
      {
        assert TaskOk(c, s, i) && Over(s.pcs[i]);
      }
    }
  }

  predicate Complete(c: Config, built: seq<Option<PlatformBuild>>)
  {
    && |built| == |c.platforms|
    && forall i | 0 <= i < |built| :: built[i].Some? && built[i].value.artifact.platform == c.platforms[i]
  }

  // The work left: every step but a cancellation uses some of it up.
  function Work(pc: Pc): nat
  {
    match pc
    case Queued => 4
    case Entered => 3
    case Prepared(_) => 2
    case HasRunner(_, _) => 1
    case _ => 0
  }

  function WorkLeft(pcs: seq<Pc>): nat
  {
    if pcs == [] then 0 else WorkLeft(pcs[..|pcs| - 1]) + Work(pcs[|pcs| - 1])
  }

  lemma {:induction false} WorkUpdate(pcs: seq<Pc>, i: nat, pc: Pc)
    requires i < |pcs|
    ensures WorkLeft(pcs[i := pc]) == WorkLeft(pcs) - Work(pcs[i]) + Work(pc)
  {
    var k := |pcs| - 1;
    if i < k {
      WorkUpdate(pcs[..k], i, pc);
      assert pcs[i := pc][..k] == pcs[..k][i := pc];
    } else {
      assert pcs[i := pc][..k] == pcs[..k];
    }
  }

  function Measure(s: State): nat
  {
    WorkLeft(s.pcs) + (if s.scan == Scanning then 1 else 0) + (if s.cancelled then 0 else 1)
  }

  lemma StepUsesWork(c: Config, s: State, a: Action)
    requires Inv(c, s) && Step(c, s, a).Some?
    ensures Measure(Step(c, s, a).value) < Measure(s)
  {
    var t := Step(c, s, a).value;
    if !a.Scan? && !a.CancelBuild? {
      StepMovesOne(c, s, a);
      WorkUpdate(s.pcs, a.i, t.pcs[a.i]);
    }
  }

  lemma {:induction false} RunsAreBounded(c: Config, s: State, acts: seq<Action>)
    requires Inv(c, s) && Exec(c, s, acts).Some?
    ensures |acts| + Measure(Exec(c, s, acts).value) <= Measure(s)
    decreases |acts|
  {
    if acts != [] {
      StepKeepsInv(c, s, acts[0]);
      StepUsesWork(c, s, acts[0]);
      RunsAreBounded(c, Step(c, s, acts[0]).value, acts[1..]);
    }
  }

  lemma {:induction false} QueuedWork(n: nat)
    ensures WorkLeft(seq(n, _ => Queued)) == 4 * n
  {
    if n > 0 {
      assert seq(n, _ => Queued)[..n - 1] == seq(n - 1, _ => Queued);
      QueuedWork(n - 1);
    }
  }

  lemma InitMeasure(c: Config)
    ensures Measure(Init(c)) <= 4 * |c.platforms| + 2
  {
    QueuedWork(|c.platforms|);
    assert Init(c).pcs == seq(|c.platforms|, _ => Queued);
  }

  // Every run is finite: at most four steps a platform, the scan and one
  // cancellation, under any pattern of failures.
  lemma RunLength(c: Config, acts: seq<Action>)
    requires Exec(c, Init(c), acts).Some?
    ensures |acts| <= 4 * |c.platforms| + 2
  {
    InitInv(c);
    RunsAreBounded(c, Init(c), acts);
    InitMeasure(c);
  }

  // No task is ever stranded: until everything is over, some goroutine other
  // than the canceller can move.
  lemma NeverStuck(c: Config, s: State) returns (a: Action)
    requires Inv(c, s) && !Drained(s)
    ensures Step(c, s, a).Some? && a != CancelBuild
  {
    if s.scan == Scanning {
      return Scan(true);
    }
    var i :| 0 <= i < |s.pcs| && !Over(s.pcs[i]);
    if j :| 0 <= j < |s.pcs| && InBody(s.pcs[j]) {
      OccupiedPositive(s.pcs, j);
      a := if s.pcs[j].Entered? then Prepare(j, None)
           else if s.pcs[j].Prepared? then FetchRunner(j, false)
           else Package(j, None);
    } else {
      OccupiedNone(s.pcs);
      a := Acquire(i);
    }
  }

  // ---- The image map handed to the index ---------------------------------------

  // images[b.artifact.Platform] = b.image, for each finished build in order.
  function ImageMap(built: seq<PlatformBuild>): map<Platform, Image>
  {
    if built == [] then map[]
    else
      var k := |built| - 1;
      ImageMap(built[..k])[built[k].artifact.platform := built[k].image]
  }

  method AssembleImages(built: seq<PlatformBuild>) returns (artifacts: seq<Artifact>, images: map<Platform, Image>)
    ensures images == ImageMap(built)
    ensures |artifacts| == |built| && forall i | 0 <= i < |built| :: artifacts[i] == built[i].artifact
  {
    artifacts, images := [], map[];
    for i := 0 to |built|
      invariant images == ImageMap(built[..i])
      invariant |artifacts| == i && forall k | 0 <= k < i :: artifacts[k] == built[k].artifact
    {
      assert built[..i + 1][..i] == built[..i];
      artifacts := artifacts + [built[i].artifact];
      images := images[built[i].artifact.platform := built[i].image];
    }
    assert built[..|built|] == built;
  }

  // With no platform listed twice, the map has exactly one image per requested
  // platform, each the one built for it; none is lost or overwritten.
  lemma {:induction false} OneImagePerPlatform(platforms: seq<Platform>, built: seq<PlatformBuild>)
    requires Distinct(platforms) && |built| == |platforms|
    requires forall i | 0 <= i < |built| :: built[i].artifact.platform == platforms[i]
    ensures ImageMap(built).Keys == set p | p in platforms
    ensures forall i | 0 <= i < |built| :: platforms[i] in ImageMap(built) && ImageMap(built)[platforms[i]] == built[i].image
  {
    if built != [] {
      var k := |built| - 1;
      assert Distinct(platforms[..k]) && platforms[k] !in platforms[..k];
      hide Distinct;
      OneImagePerPlatform(platforms[..k], built[..k]);
      assert ImageMap(built) == ImageMap(built[..k])[platforms[k] := built[k].image];
      assert platforms == platforms[..k] + [platforms[k]];
    }
  }

  lemma ImageCount(platforms: seq<Platform>, built: seq<PlatformBuild>)
    requires Distinct(platforms) && |built| == |platforms|
    requires forall i | 0 <= i < |built| :: built[i].artifact.platform == platforms[i]
    ensures |ImageMap(built)| == |platforms|
  {
    OneImagePerPlatform(platforms, built);
    DistinctSize(platforms);
    assert |ImageMap(built)| == |ImageMap(built).Keys|;
  }

  // Without that check a repeated platform costs an image.
  lemma RepeatedPlatformLosesAnImage(p: Platform, a: Image, b: Image)
    ensures var built := [PlatformBuild(Artifact(p, 0), a), PlatformBuild(Artifact(p, 0), b)];
            ImageMap(built) == map[p := b]
  {
    var first := PlatformBuild(Artifact(p, 0), a);
    var built := [first, PlatformBuild(Artifact(p, 0), b)];
    assert built[..1] == [first] && [first][..0] == [];
    assert ImageMap([first]) == map[p := a];
  }
}
