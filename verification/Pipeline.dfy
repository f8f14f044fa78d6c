// Vocabulary of the build pipeline: the driven ports, the wiring check, and
// the errgroup the stages run their goroutines in.
// Source: internal/core/pipeline.go.

module Ports {
  import opened Text
  import opened Request

  // The fields of Deps that hold a driven port.
  datatype Port =
    | Compiler | BaseImages | Supervisor | StaticServer | Packager | BunRuntime
    | Registry | Daemon | Tarballs | OciLayouts | Sbom | NativeInspector
    | SlsaGenerator | CosignSigner | DsseSigner | Scanner | SecretGuard
    | EnvBakeDetector | StaticViability | RouteFilter | RemoteCache | AssetOverlay

  // The ports that are wired; a port outside the set is a nil field.
  type Deps = set<Port>

  datatype Options = Options(dryRun: bool, printManifest: bool)

  // What Prepare reports: the adapter's output, the server's entrypoint, and the
  // staged production dependencies; empty where there is none.
  datatype Prep = Prep(outputDir: string, entrypoint: string, nodeModules: string)

  // Deps.validate: the first port this build needs and does not have.
  datatype Wiring = Wired | Missing(port: Port) | BadMode

  function DestinationWiring(d: Deps, mode: OutputMode): Wiring
  {
    match mode
    case Push => if Registry in d then Wired else Missing(Registry)
    case Local => if Daemon in d then Wired else Missing(Daemon)
    case Tarball => if Tarballs in d then Wired else Missing(Tarballs)
    case OciLayout => if OciLayouts in d then Wired else Missing(OciLayouts)
    case _ => BadMode
  }

  function ValidateDeps(d: Deps, r: Request, o: Options): Wiring
  {
    if Compiler !in d then Missing(Compiler)
    else if BaseImages !in d then Missing(BaseImages)
    else if Supervisor !in d then Missing(Supervisor)
    else if r.compile.strategy == Static && StaticServer !in d then Missing(StaticServer)
    else if NativeInspector !in d then Missing(NativeInspector)
    else if r.compile.overlayGenerations > 0 && AssetOverlay !in d then Missing(AssetOverlay)
    else if o.dryRun then Wired
    else if Packager !in d then Missing(Packager)
    else if SbomEnabled(r.sbom.format) && Sbom !in d then Missing(Sbom)
    else if r.policy.sign && SlsaGenerator !in d then Missing(SlsaGenerator)
    else if r.policy.sign && CosignSigner !in d then Missing(CosignSigner)
    else if r.policy.sign && DsseSigner !in d then Missing(DsseSigner)
    else if o.printManifest then Wired
    else DestinationWiring(d, r.output.mode)
  }

  // Every port a build cannot do without, by what it is asked for.
  function Needed(r: Request, o: Options): set<Port>
  {
    {Compiler, BaseImages, Supervisor, NativeInspector}
    + (if r.compile.strategy.Static? then {StaticServer} else {})
    + (if r.compile.overlayGenerations > 0 then {AssetOverlay} else {})
    + (if o.dryRun then {} else
         {Packager} + (if r.sbom.format.Spdx? || r.sbom.format.CycloneDx? then {Sbom} else {})
         + (if r.policy.sign then {SlsaGenerator, CosignSigner, DsseSigner} else {})
         + (if o.printManifest then {} else Destination(r.output.mode)))
  }

  function Destination(mode: OutputMode): set<Port>
  {
    match mode
    case Push => {Registry}
    case Local => {Daemon}
    case Tarball => {Tarballs}
    case OciLayout => {OciLayouts}
    case _ => {}
  }

  // The wiring check passes exactly when every needed port is there, and the mode
  // is known where something is to be published; else it names a port that is
  // needed and missing.
  lemma WiredIff(d: Deps, r: Request, o: Options)
    ensures ValidateDeps(d, r, o) == Wired <==> Needed(r, o) <= d && (o.dryRun || o.printManifest || ValidMode(r.output.mode))
    ensures ValidateDeps(d, r, o).Missing? ==> ValidateDeps(d, r, o).port in Needed(r, o) - d
    ensures ValidateDeps(d, r, o).BadMode? ==> !o.dryRun && !o.printManifest && !ValidMode(r.output.mode)
  {
  }
}

// golang.org/x/sync/errgroup: every task runs to its own end, the first failure
// is the one kept, and Wait returns only once all tasks have finished.
module ErrGroup {
  import opened Text

  datatype Status = Running | Succeeded | Failed

  datatype Group = Group(tasks: seq<Status>, firstErr: Option<nat>)

  function Start(n: nat): Group
  {
    Group(seq(n, _ => Running), None)
  }

  predicate CanFinish(g: Group, i: nat)
  {
    i < |g.tasks| && g.tasks[i] == Running
  }

  function Finish(g: Group, i: nat, ok: bool): Group
    requires CanFinish(g, i)
  {
    Group(g.tasks[i := if ok then Succeeded else Failed],
          if ok || g.firstErr.Some? then g.firstErr else Some(i))
  }

  // Wait may return.
  predicate Drained(g: Group)
  {
    forall i | 0 <= i < |g.tasks| :: g.tasks[i] != Running
  }

  // The kept error names a task that failed, and is absent only when none has.
  ghost predicate Consistent(g: Group)
  {
    && (g.firstErr.Some? ==> g.firstErr.value < |g.tasks| && g.tasks[g.firstErr.value] == Failed)
    && (g.firstErr.None? ==> forall i | 0 <= i < |g.tasks| :: g.tasks[i] != Failed)
  }

  lemma FinishKeepsConsistent(g: Group, i: nat, ok: bool)
    requires Consistent(g) && CanFinish(g, i)
    ensures Consistent(Finish(g, i, ok))
  {
  }

  // Wait returning nil means every task succeeded.
  lemma WaitNilMeansAllSucceeded(g: Group)
    requires Consistent(g) && Drained(g)
    ensures g.firstErr.None? <==> forall i | 0 <= i < |g.tasks| :: g.tasks[i] == Succeeded
  {
  }

  // One task's end.
  datatype End = End(task: nat, ok: bool)

  predicate Orderly(g: Group, ends: seq<End>)
    decreases |ends|
  {
    ends == [] || (CanFinish(g, ends[0].task) && Orderly(Finish(g, ends[0].task, ends[0].ok), ends[1..]))
  }

  function After(g: Group, ends: seq<End>): Group
    requires Orderly(g, ends)
    decreases |ends|
  {
    if ends == [] then g else After(Finish(g, ends[0].task, ends[0].ok), ends[1..])
  }

  // The first error wins: whatever order the tasks end in, the error kept is that
  // of the earliest to fail, and there is none only when none failed.
  lemma {:induction false} FirstErrorWins(g: Group, ends: seq<End>)
    requires g.firstErr.None? && Orderly(g, ends)
    ensures match After(g, ends).firstErr
            case None => forall k | 0 <= k < |ends| :: ends[k].ok
            case Some(i) => exists k | 0 <= k < |ends| :: ends[k] == End(i, false) && forall j | 0 <= j < k :: ends[j].ok
    decreases |ends|
  {
    if ends != [] {
      var next := Finish(g, ends[0].task, ends[0].ok);
      if ends[0].ok {
        FirstErrorWins(next, ends[1..]);
        var last := After(g, ends).firstErr;
        if last.Some? {
          var k :| 0 <= k < |ends| - 1 && ends[1..][k] == End(last.value, false) && forall j | 0 <= j < k :: ends[1..][j].ok;
          assert ends[k + 1] == End(last.value, false);
          assert forall j | 0 < j <= k :: ends[j] == ends[1..][j - 1];
        }
      } else {
        ErrorStays(next, ends[1..]);
        assert ends[0] == End(ends[0].task, false);
      }
    }
  }

  lemma {:induction false} ErrorStays(g: Group, ends: seq<End>)
    requires g.firstErr.Some? && Orderly(g, ends)
    ensures After(g, ends).firstErr == g.firstErr
    decreases |ends|
  {
    if ends != [] {
      ErrorStays(Finish(g, ends[0].task, ends[0].ok), ends[1..]);
    }
  }
}
