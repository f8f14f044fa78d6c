// The build request: defaulting in place (Normalize), validation (Validate)
// and what later stages may rely on once both have run.
// Source: internal/core/model.go, internal/ports/packager.go.

module Request {
  import opened Text

  // Every enumeration is a Go string type: the zero value, the known values,
  // and any other text.
  datatype Strategy = NoStrategy | Layered | Exe | Static | OtherStrategy(text: string)
  datatype AppRuntime = NoRuntime | Bun | Node | OtherRuntime(text: string)
  datatype OutputMode = NoMode | Push | Local | Tarball | OciLayout | OtherMode(text: string)
  datatype Preset = NoPreset | Distroless | Chainguard | DistrolessNode | Custom | OtherPreset(text: string)
  datatype VerifyMode = NoVerifyMode | Auto | StaticKey | Keyless | VerifyNone | OtherVerifyMode(text: string)
  datatype SbomFormat = NoFormat | Spdx | CycloneDx | SbomOff | OtherFormat(text: string)
  datatype AttachMode = NoAttachMode | Referrer | TagAttach | AutoAttach | OtherAttach(text: string)
  datatype Severity = Low | Medium | High | Critical | OtherSeverity(text: string)

  // The two build targets, and every other os/arch/variant triple.
  datatype Platform = LinuxAmd64 | LinuxArm64 | OtherPlatform(text: string)

  const SUPPORTED := [LinuxAmd64, LinuxArm64]

  predicate Supported(p: Platform)
  {
    p.LinuxAmd64? || p.LinuxArm64?
  }

  datatype BaseImageOptions = BaseImageOptions(preset: Preset, ref: string, offline: bool, noVerifyBase: bool)
  datatype SbomOptions = SbomOptions(format: SbomFormat, attachMode: AttachMode, noAttach: bool)
  datatype OutputOptions = OutputOptions(mode: OutputMode, tarballPath: string, ociLayoutPath: string)
  datatype CompileOptions = CompileOptions(strategy: Strategy, noCache: bool, overlayGenerations: int, overlayFrom: seq<string>)
  datatype BunOptions = BunOptions(version: string, variant: string, customBinaryPath: string, stubLauncher: bool)
  datatype SigningOptions = SigningOptions(hasKey: bool, hasPublicKey: bool, require: bool)
  datatype CacheVerify = CacheVerify(mode: VerifyMode, verifySignature: bool)

  // A nil Go slice and an empty one differ here: only nil is defaulted.
  datatype RuntimeConfig = RuntimeConfig(
    entrypoint: Option<seq<string>>, user: string, workingDir: string,
    port: int, probePort: int, shutdownTimeout: int,
    exposedPorts: seq<int>, requireEnv: seq<string>, vexExemptions: set<string>)

  // The fields Normalize never touches.
  datatype Policy = Policy(
    telemetry: bool, sign: bool, signing: SigningOptions, failOnCve: Option<Severity>,
    allowIncompleteScan: bool, allowServerCodeInStatic: bool, excludeRoutes: seq<string>, pushConcurrency: int)

  // One request as a value. Times are nanoseconds since Go's zero time
  // (1 January of year 1), so 0 is the zero time.
  datatype Request = Request(
    projectDir: string, repo: string, tags: seq<string>, platforms: seq<Platform>,
    sourceDateEpoch: int, baseImage: BaseImageOptions, sbom: SbomOptions,
    output: OutputOptions, compile: CompileOptions, appRuntime: AppRuntime,
    bunRuntime: BunOptions, runtime: RuntimeConfig, cacheVerify: CacheVerify,
    concurrency: int, hermetic: bool, policy: Policy)

  // What the host's libraries compute: filepath.Abs, filepath.Base and the
  // registry library's tag grammar.
  datatype Host = Host(abs: string -> Option<string>, base: string -> string, tagOk: string -> bool)

  // filepath.Abs of an absolute path is that path.
  ghost predicate AbsIdempotent(h: Host)
  {
    forall p :: h.abs(p).Some? ==> h.abs(h.abs(p).value) == h.abs(p)
  }

  const SECOND: int := 1_000_000_000
  const UNIX_EPOCH: int := 62_135_596_800 * SECOND
  const DEFAULT_BUN := "1.4.4"
  const DEFAULT_TAG := "latest"
  const DEFAULT_ENTRYPOINT := ["/pokkum/init", "--", "/app/server"]
  const DISTROLESS_REF := "gcr.io/distroless/cc-debian12:nonroot"
  const CHAINGUARD_REF := "cgr.dev/chainguard/glibc-dynamic:latest"
  const DISTROLESS_NODE_REF := "gcr.io/distroless/nodejs24-debian12:nonroot"

  // time.Truncate(time.Second): down to a whole second since the zero time.
  function Truncate(t: int): int
  {
    t - t % SECOND
  }

  function DefaultRef(p: Preset): Option<string>
  {
    match p
    case Distroless => Some(DISTROLESS_REF)
    case Chainguard => Some(CHAINGUARD_REF)
    case DistrolessNode => Some(DISTROLESS_NODE_REF)
    case _ => None
  }

  function WithDefaults(c: RuntimeConfig): RuntimeConfig
  {
    c.(entrypoint := if c.entrypoint.None? then Some(DEFAULT_ENTRYPOINT) else c.entrypoint,
       user := if c.user == "" then "65532:65532" else c.user,
       workingDir := if c.workingDir == "" then "/app" else c.workingDir,
       port := if c.port == 0 then 3000 else c.port,
       probePort := if c.probePort == 0 then 8081 else c.probePort,
       shutdownTimeout := if c.shutdownTimeout == 0 then 30 * SECOND else c.shutdownTimeout)
  }

  function NormalizedBun(b: BunOptions): BunOptions
  {
    b.(version := if b.version == "" then DEFAULT_BUN else b.version,
       variant := if b.variant == "" then "standard" else b.variant)
  }

  function NormalizedDir(h: Host, dir: string): string
  {
    if dir != "" && h.abs(dir).Some? then h.abs(dir).value else dir
  }

  function NormalizedEpoch(t: int): int
  {
    if t == 0 then UNIX_EPOCH else Truncate(t)
  }

  function NormalizedPreset(b: BaseImageOptions, runtime: AppRuntime): Preset
  {
    if b.preset != NoPreset then b.preset
    else if b.ref != "" then Custom
    else if runtime == Node then DistrolessNode
    else Distroless
  }

  function NormalizedRef(preset: Preset, ref: string): string
  {
    if ref == "" && DefaultRef(preset).Some? then DefaultRef(preset).value else ref
  }

  function NormalizedBase(b: BaseImageOptions, hermetic: bool, runtime: AppRuntime): BaseImageOptions
  {
    var preset := NormalizedPreset(b, runtime);
    b.(offline := hermetic || b.offline, preset := preset, ref := NormalizedRef(preset, b.ref))
  }

  function NormalizedCacheVerify(v: CacheVerify): CacheVerify
  {
    var mode := if v.mode == NoVerifyMode then Auto else v.mode;
    CacheVerify(mode, mode != VerifyNone || v.verifySignature)
  }

  function NormalizedSbom(s: SbomOptions): SbomOptions
  {
    s.(format := if s.format == NoFormat then Spdx else s.format,
       attachMode := if s.attachMode == NoAttachMode then AutoAttach else s.attachMode)
  }

  function NormalizedRepo(h: Host, repo: string, mode: OutputMode, dir: string): string
  {
    if repo == "" && mode != Push && dir != "" then "pokkum.local/" + Lower(h.base(dir)) else repo
  }

  // What Normalize leaves behind, field by field.
  function Normalized(h: Host, r: Request): Request
  {
    var dir := NormalizedDir(h, r.projectDir);
    var mode := if r.output.mode == NoMode then Push else r.output.mode;
    var runtime := if r.appRuntime == NoRuntime then Bun else r.appRuntime;
    var platforms := if r.platforms == [] then SUPPORTED else r.platforms;
    Request(
      dir, NormalizedRepo(h, r.repo, mode, dir), if r.tags == [] then [DEFAULT_TAG] else r.tags, platforms,
      NormalizedEpoch(r.sourceDateEpoch), NormalizedBase(r.baseImage, r.hermetic, runtime), NormalizedSbom(r.sbom),
      r.output.(mode := mode),
      r.compile.(strategy := if r.compile.strategy == NoStrategy then Layered else r.compile.strategy),
      runtime, NormalizedBun(r.bunRuntime), WithDefaults(r.runtime), NormalizedCacheVerify(r.cacheVerify),
      if r.concurrency == 0 then |platforms| else r.concurrency, r.hermetic, r.policy)
  }

  // The request as the Go code holds it: a struct whose fields Normalize
  // overwrites one at a time.
  class BuildRequest {
    var projectDir: string
    var repo: string
    var tags: seq<string>
    var platforms: seq<Platform>
    var sourceDateEpoch: int
    var baseImage: BaseImageOptions
    var sbom: SbomOptions
    var output: OutputOptions
    var compile: CompileOptions
    var appRuntime: AppRuntime
    var bunRuntime: BunOptions
    var runtime: RuntimeConfig
    var cacheVerify: CacheVerify
    var concurrency: int
    var hermetic: bool
    var policy: Policy

    function Snapshot(): Request
      reads this
    {
      Request(projectDir, repo, tags, platforms, sourceDateEpoch, baseImage, sbom, output, compile,
              appRuntime, bunRuntime, runtime, cacheVerify, concurrency, hermetic, policy)
    }

    constructor (r: Request)
      ensures Snapshot() == r
    {
      projectDir, repo, tags, platforms, sourceDateEpoch := r.projectDir, r.repo, r.tags, r.platforms, r.sourceDateEpoch;
      baseImage, sbom, output, compile, appRuntime := r.baseImage, r.sbom, r.output, r.compile, r.appRuntime;
      bunRuntime, runtime, cacheVerify := r.bunRuntime, r.runtime, r.cacheVerify;
      concurrency, hermetic, policy := r.concurrency, r.hermetic, r.policy;
    }

    // Normalize fills in defaults in place, section by section in source order.
    method Normalize(h: Host)
      modifies this
      ensures Snapshot() == Normalized(h, old(Snapshot()))
    {
      hide NormalizedBase, NormalizedBun, NormalizedDir, NormalizedEpoch, NormalizedRepo, NormalizedSbom,
           NormalizedCacheVerify, WithDefaults;
      NormalizeHead(h);
      NormalizeOutput();
      NormalizeTail(h);
    }

    method NormalizeHead(h: Host)
      modifies `projectDir, `platforms, `tags, `sourceDateEpoch, `baseImage, `compile, `appRuntime, `bunRuntime
      ensures baseImage == NormalizedBase(old(baseImage), hermetic, appRuntime)
      ensures compile == old(compile).(strategy := if old(compile.strategy) == NoStrategy then Layered else old(compile.strategy))
      ensures appRuntime == if old(appRuntime) == NoRuntime then Bun else old(appRuntime)
      ensures bunRuntime == NormalizedBun(old(bunRuntime))
      ensures projectDir == NormalizedDir(h, old(projectDir))
      ensures platforms == if old(platforms) == [] then SUPPORTED else old(platforms)
      ensures tags == if old(tags) == [] then [DEFAULT_TAG] else old(tags)
      ensures sourceDateEpoch == NormalizedEpoch(old(sourceDateEpoch))
    {
      hide DefaultRef, NormalizedBun, NormalizedDir, NormalizedEpoch;
      NormalizeRuntime();
      NormalizeInputs(h);
      NormalizeBaseImage();
    }

    method NormalizeTail(h: Host)
      modifies `repo, `runtime, `concurrency
      ensures repo == NormalizedRepo(h, old(repo), output.mode, projectDir)
      ensures runtime == WithDefaults(old(runtime))
      ensures concurrency == if old(concurrency) == 0 then |platforms| else old(concurrency)
    {
      if repo == "" && output.mode != Push && projectDir != "" {
        repo := "pokkum.local/" + Lower(h.base(projectDir));
      }
      runtime := WithDefaults(runtime);
      if concurrency == 0 {
        concurrency := |platforms|;
      }
    }

    method NormalizeRuntime()
      modifies `baseImage, `compile, `appRuntime, `bunRuntime
      ensures baseImage == old(baseImage).(offline := hermetic || old(baseImage.offline))
      ensures compile == old(compile).(strategy := if old(compile.strategy) == NoStrategy then Layered else old(compile.strategy))
      ensures appRuntime == if old(appRuntime) == NoRuntime then Bun else old(appRuntime)
      ensures bunRuntime == NormalizedBun(old(bunRuntime))
    {
      if hermetic {
        baseImage := baseImage.(offline := true);
      }
      if compile.strategy == NoStrategy {
        compile := compile.(strategy := Layered);
      }
      if appRuntime == NoRuntime {
        appRuntime := Bun;
      }
      if bunRuntime.version == "" {
        bunRuntime := bunRuntime.(version := DEFAULT_BUN);
      }
      if bunRuntime.variant == "" {
        bunRuntime := bunRuntime.(variant := "standard");
      }
    }

    method NormalizeInputs(h: Host)
      modifies `projectDir, `platforms, `tags, `sourceDateEpoch
      ensures projectDir == NormalizedDir(h, old(projectDir))
      ensures platforms == if old(platforms) == [] then SUPPORTED else old(platforms)
      ensures tags == if old(tags) == [] then [DEFAULT_TAG] else old(tags)
      ensures sourceDateEpoch == NormalizedEpoch(old(sourceDateEpoch))
    {
      if projectDir != "" {
        var abs := h.abs(projectDir);
        if abs.Some? {
          projectDir := abs.value;
        }
      }
      if |platforms| == 0 {
        platforms := SUPPORTED;
      }
      if |tags| == 0 {
        tags := [DEFAULT_TAG];
      }
      if sourceDateEpoch == 0 {
        sourceDateEpoch := UNIX_EPOCH;
      } else {
        sourceDateEpoch := Truncate(sourceDateEpoch);
      }
    }

    method NormalizeBaseImage()
      modifies `baseImage
      ensures baseImage.preset == NormalizedPreset(old(baseImage), appRuntime)
      ensures baseImage == old(baseImage).(preset := baseImage.preset, ref := NormalizedRef(baseImage.preset, old(baseImage.ref)))
    {
      if baseImage.preset == NoPreset {
        if baseImage.ref != "" {
          baseImage := baseImage.(preset := Custom);
        } else if appRuntime == Node {
          baseImage := baseImage.(preset := DistrolessNode);
        } else {
          baseImage := baseImage.(preset := Distroless);
        }
      }
      if baseImage.ref == "" {
        var ref := DefaultRef(baseImage.preset);
        if ref.Some? {
          baseImage := baseImage.(ref := ref.value);
        }
      }
    }

    method NormalizeOutput()
      modifies `cacheVerify, `sbom, `output
      ensures cacheVerify == NormalizedCacheVerify(old(cacheVerify))
      ensures sbom == NormalizedSbom(old(sbom))
      ensures output == old(output).(mode := if old(output.mode) == NoMode then Push else old(output.mode))
    {
      if cacheVerify.mode == NoVerifyMode {
        cacheVerify := cacheVerify.(mode := Auto);
      }
      if cacheVerify.mode != VerifyNone {
        cacheVerify := cacheVerify.(verifySignature := true);
      }
      if sbom.format == NoFormat {
        sbom := sbom.(format := Spdx);
      }
      if sbom.attachMode == NoAttachMode {
        sbom := sbom.(attachMode := AutoAttach);
      }
      if output.mode == NoMode {
        output := output.(mode := Push);
      }
    }

    // Validate accepts exactly the requests that meet every requirement, and
    // otherwise reports the first one broken, in its fixed order.
    method Validate(h: Host) returns (e: Option<Error>)
      ensures e == Verdict(h, Snapshot())
      ensures e.None? <==> forall q: Requirement :: Met(h, Snapshot(), q)
      ensures e.Some? ==> exists q: Requirement :: FirstBroken(h, Snapshot(), q) && e.value == ErrorOf(q)
    {
      VerdictIsFirstBroken(h, Snapshot());
      hide Met, Rank, ErrorOf, TailError, HeadError;
      e := HeadError(Snapshot());
      if e.Some? {
        return;
      }
      if |platforms| == 0 {
        return Some(UnsupportedPlatform);
      }
      e := ValidatePlatforms(platforms);
      if e.Some? {
        return;
      }
      e := ValidateDockerTags(h, tags);
      if e.Some? {
        return;
      }
      e := TailError(Snapshot());
    }
  }

  method ValidatePlatforms(ps: seq<Platform>) returns (e: Option<Error>)
    ensures e == PlatformError(ps)
  {
    var seen: set<Platform> := {};
    for i := 0 to |ps|
      invariant seen == set p | p in ps[..i]
      invariant PlatformError(ps[..i]).None?
    {
      assert ps[..i + 1][..i] == ps[..i];
      if !Supported(ps[i]) {
        PlatformErrorSticks(ps, i + 1);
        return Some(UnsupportedPlatform);
      }
      if ps[i] in seen {
        PlatformErrorSticks(ps, i + 1);
        return Some(InvalidRequest);
      }
      seen := seen + {ps[i]};
    }
    assert ps[..|ps|] == ps;
    return None;
  }

  method ValidateDockerTags(h: Host, tags: seq<string>) returns (e: Option<Error>)
    ensures e == TagError(h, tags)
  {
    hide TagOk;
    var seen: set<string> := {};
    for i := 0 to |tags|
      invariant forall t :: t in seen <==> t in tags[..i]
      invariant TagError(h, tags[..i]).None?
    {
      assert tags[..i + 1][..i] == tags[..i];
      if !TagOk(h, tags[i]) {
        TagErrorSticks(h, tags, i + 1);
        return Some(InvalidRequest);
      }
      assert tags[i] in seen <==> tags[i] in tags[..i];
      if tags[i] in seen {
        TagErrorSticks(h, tags, i + 1);
        return Some(InvalidRequest);
      }
      seen := seen + {tags[i]};
    }
    assert tags[..|tags|] == tags;
    return None;
  }

  // ---- Validation -------------------------------------------------------

  datatype Error =
    | InvalidRequest
    | InvalidOutputMode
    | NoDockerRepo
    | UnsupportedPlatform
    | InvalidBaseImage
    | InvalidSbomFormat
    | InvalidSbomAttachMode
    | InvalidRuntimeConfig
    | SigningKeyMissing

  predicate ValidMode(m: OutputMode) { m.Push? || m.Local? || m.Tarball? || m.OciLayout? }
  predicate ValidPreset(p: Preset) { p.Distroless? || p.Chainguard? || p.DistrolessNode? || p.Custom? }
  predicate ValidFormat(f: SbomFormat) { f.Spdx? || f.CycloneDx? || f.SbomOff? }
  predicate SbomEnabled(f: SbomFormat) { f.Spdx? || f.CycloneDx? }
  predicate ValidAttach(a: AttachMode) { a.Referrer? || a.TagAttach? || a.AutoAttach? }
  predicate ValidStrategy(s: Strategy) { s.Layered? || s.Exe? || s.Static? }
  predicate ValidVerifyMode(m: VerifyMode) { m.Auto? || m.StaticKey? || m.Keyless? || m.VerifyNone? }

  // A ':' or '@' with no '/' after it: the name carries a tag or a digest.
  predicate NamesTagOrDigest(repo: string)
  {
    exists i | 0 <= i < |repo| :: (repo[i] == ':' || repo[i] == '@') && '/' !in repo[i..]
  }

  // A repository with a tag or a digest added is one of those; a port in front of
  // a path makes no difference, and neither does anything else before a slash.
  lemma TaggedRepo(repo: string, rest: string)
    requires '/' !in rest
    ensures NamesTagOrDigest(repo + [':'] + rest) && NamesTagOrDigest(repo + ['@'] + rest)
    ensures NamesTagOrDigest(repo + ['/'] + rest) <==> ':' in rest || '@' in rest
  {
    var tagged, pinned, path := repo + [':'] + rest, repo + ['@'] + rest, repo + ['/'] + rest;
    var n := |repo|;
    assert tagged[n..] == [':'] + rest && tagged[n] == ':';
    assert pinned[n..] == ['@'] + rest && pinned[n] == '@';
    assert forall i | 0 <= i <= n :: path[i..][n - i] == '/';
    forall i | 0 <= i < |rest| && (rest[i] == ':' || rest[i] == '@')
      ensures NamesTagOrDigest(path)
    {
      assert path[n + 1 + i] == rest[i] && path[n + 1 + i..] == rest[i..];
    }
    if NamesTagOrDigest(path) {
      var i :| 0 <= i < |path| && (path[i] == ':' || path[i] == '@') && '/' !in path[i..];
      assert i > n;
      assert path[i] == rest[i - n - 1];
    }
  }

  // The checks Validate makes before it looks at platforms and tags.
  function HeadError(r: Request): Option<Error>
  {
    if Blank(r.projectDir) then Some(InvalidRequest)
    else if !ValidMode(r.output.mode) then Some(InvalidOutputMode)
    else if r.output.mode == Tarball && Blank(r.output.tarballPath) then Some(InvalidRequest)
    else if r.output.mode == OciLayout && Blank(r.output.ociLayoutPath) then Some(InvalidRequest)
    else if Blank(r.repo) then Some(NoDockerRepo)
    else if ' ' in r.repo || '\t' in r.repo then Some(InvalidRequest)
    else if NamesTagOrDigest(r.repo) then Some(InvalidRequest)
    else None
  }

  function PlatformError(ps: seq<Platform>): Option<Error>
  {
    if ps == [] then None
    else
      var k := |ps| - 1;
      var e := PlatformError(ps[..k]);
      if e.Some? then e
      else if !Supported(ps[k]) then Some(UnsupportedPlatform)
      else if ps[k] in ps[..k] then Some(InvalidRequest)
      else None
  }

  predicate TagOk(h: Host, tag: string)
  {
    !Blank(tag) && h.tagOk(Trim(tag))
  }

  function TagError(h: Host, ts: seq<string>): Option<Error>
  {
    if ts == [] then None
    else
      var k := |ts| - 1;
      if TagError(h, ts[..k]).Some? || !TagOk(h, ts[k]) || ts[k] in ts[..k] then Some(InvalidRequest)
      else None
  }

  lemma {:induction false} PlatformErrorSticks(ps: seq<Platform>, k: nat)
    requires k <= |ps| && PlatformError(ps[..k]).Some?
    ensures PlatformError(ps) == PlatformError(ps[..k])
    decreases |ps|
  {
    if k < |ps| {
      assert ps[..|ps| - 1][..k] == ps[..k];
      PlatformErrorSticks(ps[..|ps| - 1], k);
    } else {
      assert ps[..k] == ps;
    }
  }

  lemma {:induction false} TagErrorSticks(h: Host, ts: seq<string>, k: nat)
    requires k <= |ts| && TagError(h, ts[..k]).Some?
    ensures TagError(h, ts) == Some(InvalidRequest)
    decreases |ts|
  {
    if k < |ts| {
      assert ts[..|ts| - 1][..k] == ts[..k];
      TagErrorSticks(h, ts[..|ts| - 1], k);
    } else {
      assert ts[..k] == ts;
    }
  }

  function RuntimeError(rc: RuntimeConfig): Option<Error>
  {
    var c := WithDefaults(rc);
    if !(1 <= c.port <= 65535) || !(1 <= c.probePort <= 65535) || c.port == c.probePort then Some(InvalidRuntimeConfig)
    else if c.shutdownTimeout < 0 || c.entrypoint.value == [] then Some(InvalidRuntimeConfig)
    else if exists p | p in c.exposedPorts :: !(1 <= p <= 65535) then Some(InvalidRuntimeConfig)
    else if exists e | e in c.requireEnv :: !EnvNameOk(e) then Some(InvalidRuntimeConfig)
    else None
  }

  predicate EnvNameOk(e: string)
  {
    var t := Trim(e);
    t != "" && forall i | 0 <= i < |t| :: t[i] != '=' && !IsSpace(t[i])
  }

  // The (runtime, strategy, base) support matrix.
  function MatrixError(r: Request): Option<Error>
  {
    match r.appRuntime
    case Bun => None
    case Node =>
      if r.compile.strategy != Layered || r.bunRuntime.stubLauncher
         || r.bunRuntime.customBinaryPath != "" || r.policy.telemetry then Some(InvalidRequest)
      else if r.baseImage.preset == DistrolessNode || r.baseImage.preset == Custom then None
      else Some(InvalidBaseImage)
    case _ => Some(InvalidRequest)
  }

  function SigningError(r: Request): Option<Error>
  {
    if r.policy.signing.require && (!r.policy.sign || r.output.mode != Push) then Some(InvalidRequest)
    else if r.policy.signing.require && !r.policy.signing.hasKey then Some(SigningKeyMissing)
    else if r.policy.signing.hasKey && !r.policy.signing.hasPublicKey then Some(InvalidRequest)
    else None
  }

  // What goes into the image.
  function InputError(r: Request): Option<Error>
  {
    if !ValidPreset(r.baseImage.preset) || Blank(r.baseImage.ref) then Some(InvalidBaseImage)
    else if !ValidFormat(r.sbom.format) then Some(InvalidSbomFormat)
    else if !ValidAttach(r.sbom.attachMode) then Some(InvalidSbomAttachMode)
    else if r.sourceDateEpoch == 0 then Some(InvalidRequest)
    else None
  }

  function OptionError(r: Request): Option<Error>
  {
    if r.policy.failOnCve.Some? && r.policy.failOnCve.value.OtherSeverity? then Some(InvalidRequest)
    else if r.cacheVerify.mode != NoVerifyMode && !ValidVerifyMode(r.cacheVerify.mode) then Some(InvalidRequest)
    else if r.concurrency < 0 || r.policy.pushConcurrency < 0 then Some(InvalidRequest)
    else None
  }

  function StrategyError(r: Request): Option<Error>
  {
    if !(0 <= r.compile.overlayGenerations <= 1000) then Some(InvalidRequest)
    else if !ValidStrategy(r.compile.strategy) then Some(InvalidRequest)
    else if r.bunRuntime.stubLauncher && r.compile.strategy != Layered then Some(InvalidRequest)
    else None
  }

  // The checks after platforms and tags, in order.
  function TailError(r: Request): Option<Error>
  {
    if InputError(r).Some? then InputError(r)
    else if RuntimeError(r.runtime).Some? then RuntimeError(r.runtime)
    else if OptionError(r).Some? then OptionError(r)
    else if StrategyError(r).Some? then StrategyError(r)
    else if MatrixError(r).Some? then MatrixError(r)
    else SigningError(r)
  }

  function Verdict(h: Host, r: Request): Option<Error>
  {
    if HeadError(r).Some? then HeadError(r)
    else if r.platforms == [] then Some(UnsupportedPlatform)
    else if PlatformError(r.platforms).Some? then PlatformError(r.platforms)
    else if TagError(h, r.tags).Some? then TagError(h, r.tags)
    else TailError(r)
  }

  // ---- Requirements ------------------------------------------------------

  // What a request has to meet, in the order Validate asks. The indexed ones are
  // asked of each platform or tag in turn.
  datatype Requirement =
    | DirGiven | ModeKnown | TarballPathGiven | LayoutPathGiven | RepoGiven | RepoUnspaced | RepoBare
    | PlatformsGiven | PlatformSupported(i: nat) | PlatformNew(i: nat) | TagValid(i: nat) | TagNew(i: nat)
    | PresetKnown | RefGiven | FormatKnown | AttachKnown | EpochGiven
    | PortsSound | ShutdownSound | EntrypointGiven | ExposedSound | EnvNamesSound
    | ThresholdKnown | VerifyModeKnown | ConcurrencySound | GenerationsBounded | StrategyKnown | StubIsLayered
    | RuntimeKnown | NodeWithoutBun | NodeHasABase | RequiredCanSign | RequiredHasKey | KeyIsAPair

  predicate Met(h: Host, r: Request, q: Requirement)
  {
    match q
    case DirGiven => !Blank(r.projectDir)
    case ModeKnown => r.output.mode.Push? || r.output.mode.Local? || r.output.mode.Tarball? || r.output.mode.OciLayout?
    case TarballPathGiven => r.output.mode == Tarball ==> !Blank(r.output.tarballPath)
    case LayoutPathGiven => r.output.mode == OciLayout ==> !Blank(r.output.ociLayoutPath)
    case RepoGiven => !Blank(r.repo)
    case RepoUnspaced => ' ' !in r.repo && '\t' !in r.repo
    case RepoBare => !NamesTagOrDigest(r.repo)
    case PlatformsGiven => r.platforms != []
    case PlatformSupported(i) => i < |r.platforms| ==> r.platforms[i] == LinuxAmd64 || r.platforms[i] == LinuxArm64
    case PlatformNew(i) => i < |r.platforms| ==> r.platforms[i] !in r.platforms[..i]
    case TagValid(i) => i < |r.tags| ==> !Blank(r.tags[i]) && h.tagOk(Trim(r.tags[i]))
    case TagNew(i) => i < |r.tags| ==> r.tags[i] !in r.tags[..i]
    case _ =>
      if OfRuntime(q) then MetByRuntime(WithDefaults(r.runtime), q)
      else if OfInput(q) then MetByInput(r, q)
      else MetByOptions(r, q)
  }

  predicate OfInput(q: Requirement)
  {
    q.PresetKnown? || q.RefGiven? || q.FormatKnown? || q.AttachKnown? || q.EpochGiven?
  }

  predicate OfRuntime(q: Requirement)
  {
    q.PortsSound? || q.ShutdownSound? || q.EntrypointGiven? || q.ExposedSound? || q.EnvNamesSound?
  }

  predicate MetByInput(r: Request, q: Requirement)
  {
    match q
    case PresetKnown =>
      var p := r.baseImage.preset;
      p.Distroless? || p.Chainguard? || p.DistrolessNode? || p.Custom?
    case RefGiven => !Blank(r.baseImage.ref)
    case FormatKnown => r.sbom.format.Spdx? || r.sbom.format.CycloneDx? || r.sbom.format.SbomOff?
    case AttachKnown => r.sbom.attachMode.Referrer? || r.sbom.attachMode.TagAttach? || r.sbom.attachMode.AutoAttach?
    case EpochGiven => r.sourceDateEpoch != 0
    case _ => true
  }

  predicate MetByOptions(r: Request, q: Requirement)
  {
    match q
    case ThresholdKnown => r.policy.failOnCve.Some? ==> !r.policy.failOnCve.value.OtherSeverity?
    case VerifyModeKnown =>
      var m := r.cacheVerify.mode;
      m.NoVerifyMode? || m.Auto? || m.StaticKey? || m.Keyless? || m.VerifyNone?
    case ConcurrencySound => r.concurrency >= 0 && r.policy.pushConcurrency >= 0
    case GenerationsBounded => 0 <= r.compile.overlayGenerations <= 1000
    case StrategyKnown => r.compile.strategy.Layered? || r.compile.strategy.Exe? || r.compile.strategy.Static?
    case StubIsLayered => r.bunRuntime.stubLauncher ==> r.compile.strategy == Layered
    case RuntimeKnown => r.appRuntime == Bun || r.appRuntime == Node
    case NodeWithoutBun =>
      r.appRuntime == Node ==> r.compile.strategy == Layered && !r.bunRuntime.stubLauncher
                               && r.bunRuntime.customBinaryPath == "" && !r.policy.telemetry
    case NodeHasABase => r.appRuntime == Node ==> r.baseImage.preset == DistrolessNode || r.baseImage.preset == Custom
    case RequiredCanSign => r.policy.signing.require ==> r.policy.sign && r.output.mode == Push
    case RequiredHasKey => r.policy.signing.require ==> r.policy.signing.hasKey
    case KeyIsAPair => r.policy.signing.hasKey ==> r.policy.signing.hasPublicKey
    case _ => true
  }

  // Of the runtime configuration, with its defaults filled in.
  predicate MetByRuntime(c: RuntimeConfig, q: Requirement)
  {
    match q
    case PortsSound => 1 <= c.port <= 65535 && 1 <= c.probePort <= 65535 && c.port != c.probePort
    case ShutdownSound => c.shutdownTimeout >= 0
    case EntrypointGiven => c.entrypoint.Some? && c.entrypoint.value != []
    case ExposedSound => forall p | p in c.exposedPorts :: 1 <= p <= 65535
    case EnvNamesSound => forall e | e in c.requireEnv :: NamesVariable(Trim(e))
    case _ => true
  }

  predicate NamesVariable(name: string)
  {
    name != [] && '=' !in name && ' ' !in name && '\t' !in name && '\n' !in name && '\r' !in name
  }

  function ErrorOf(q: Requirement): Error
  {
    match q
    case ModeKnown => InvalidOutputMode
    case RepoGiven => NoDockerRepo
    case PlatformsGiven => UnsupportedPlatform
    case PlatformSupported(_) => UnsupportedPlatform
    case PresetKnown => InvalidBaseImage
    case RefGiven => InvalidBaseImage
    case NodeHasABase => InvalidBaseImage
    case FormatKnown => InvalidSbomFormat
    case AttachKnown => InvalidSbomAttachMode
    case RequiredHasKey => SigningKeyMissing
    case _ => if OfRuntime(q) then InvalidRuntimeConfig else InvalidRequest
  }

  // Where in the order a requirement stands: its stage, and within the platforms
  // and the tags, their position.
  function Rank(q: Requirement): (nat, nat)
  {
    match q
    case DirGiven => (0, 0)
    case ModeKnown => (1, 0)
    case TarballPathGiven => (2, 0)
    case LayoutPathGiven => (3, 0)
    case RepoGiven => (4, 0)
    case RepoUnspaced => (5, 0)
    case RepoBare => (6, 0)
    case PlatformsGiven => (7, 0)
    case PlatformSupported(i) => (8, 2 * i)
    case PlatformNew(i) => (8, 2 * i + 1)
    case TagValid(i) => (9, 2 * i)
    case TagNew(i) => (9, 2 * i + 1)
    case _ => (LaterRank(q), 0)
  }

  function LaterRank(q: Requirement): (n: nat)
    ensures n >= 10
  {
    match q
    case PresetKnown => 10
    case RefGiven => 11
    case FormatKnown => 12
    case AttachKnown => 13
    case EpochGiven => 14
    case PortsSound => 15
    case ShutdownSound => 16
    case EntrypointGiven => 17
    case ExposedSound => 18
    case EnvNamesSound => 19
    case ThresholdKnown => 20
    case VerifyModeKnown => 21
    case ConcurrencySound => 22
    case GenerationsBounded => 23
    case StrategyKnown => 24
    case StubIsLayered => 25
    case RuntimeKnown => 26
    case NodeWithoutBun => 27
    case NodeHasABase => 28
    case RequiredCanSign => 29
    case RequiredHasKey => 30
    case _ => 31
  }

  predicate Before(p: Requirement, q: Requirement)
  {
    Rank(p).0 < Rank(q).0 || (Rank(p).0 == Rank(q).0 && Rank(p).1 < Rank(q).1)
  }

  // q is broken, and everything asked before it is met.
  ghost predicate FirstBroken(h: Host, r: Request, q: Requirement)
  {
    !Met(h, r, q) && forall p: Requirement :: Before(p, q) ==> Met(h, r, p)
  }

  // The platforms and the tags up to the first broken one.
  lemma {:induction false} FirstBadPlatform(ps: seq<Platform>) returns (i: nat)
    requires PlatformError(ps).Some?
    ensures i < |ps| && (forall j | 0 <= j < i :: Supported(ps[j]) && ps[j] !in ps[..j])
    ensures !Supported(ps[i]) || ps[i] in ps[..i]
    ensures PlatformError(ps).value == if Supported(ps[i]) then InvalidRequest else UnsupportedPlatform
  {
    var k := |ps| - 1;
    if PlatformError(ps[..k]).Some? {
      i := FirstBadPlatform(ps[..k]);
      assert forall j | 0 <= j <= i :: ps[..k][..j] == ps[..j];
    } else {
      i := k;
      PlatformsAccepted(ps[..k]);
      assert forall j | 0 <= j < k :: ps[..k][j] == ps[j];
    }
  }

  lemma {:induction false} FirstBadTag(h: Host, ts: seq<string>) returns (i: nat)
    requires TagError(h, ts).Some?
    ensures i < |ts| && (forall j | 0 <= j < i :: TagOk(h, ts[j]) && ts[j] !in ts[..j])
    ensures !TagOk(h, ts[i]) || ts[i] in ts[..i]
  {
    hide TagOk;
    var k := |ts| - 1;
    if TagError(h, ts[..k]).Some? {
      i := FirstBadTag(h, ts[..k]);
      assert forall j | 0 <= j <= i :: ts[..k][..j] == ts[..j];
    } else {
      i := k;
      TagsAccepted(h, ts[..k]);
      assert forall j | 0 <= j < k :: ts[..k][j] == ts[j];
    }
  }

  // Everything asked before stage n is met.
  ghost predicate MetBefore(h: Host, r: Request, n: nat)
  {
    forall q: Requirement | Rank(q).0 < n :: Met(h, r, q)
  }

  // A stretch of the checks, up to stage n, reports what it should.
  ghost predicate Reports(h: Host, r: Request, e: Option<Error>, n: nat)
  {
    if e.None? then MetBefore(h, r, n) else exists q: Requirement :: FirstBroken(h, r, q) && e.value == ErrorOf(q)
  }

  // One requirement asked: it is the first broken, or the next may be asked.
  lemma Asked(h: Host, r: Request, q: Requirement, n: nat)
    requires Rank(q) == (n, 0) && n != 8 && n != 9 && MetBefore(h, r, n)
    ensures if Met(h, r, q) then MetBefore(h, r, n + 1) else FirstBroken(h, r, q)
  {
    hide Met;
  }

  lemma HeadMeans(h: Host, r: Request)
    ensures HeadError(r) ==
            if !Met(h, r, DirGiven) then Some(ErrorOf(DirGiven))
            else if !Met(h, r, ModeKnown) then Some(ErrorOf(ModeKnown))
            else if !Met(h, r, TarballPathGiven) then Some(ErrorOf(TarballPathGiven))
            else if !Met(h, r, LayoutPathGiven) then Some(ErrorOf(LayoutPathGiven))
            else if !Met(h, r, RepoGiven) then Some(ErrorOf(RepoGiven))
            else if !Met(h, r, RepoUnspaced) then Some(ErrorOf(RepoUnspaced))
            else if !Met(h, r, RepoBare) then Some(ErrorOf(RepoBare))
            else None
  {
    hide Blank, TagOk, NamesTagOrDigest, MetByInput, MetByRuntime, MetByOptions;
  }

  lemma HeadReports(h: Host, r: Request)
    requires MetBefore(h, r, 0)
    ensures Reports(h, r, HeadError(r), 7)
  {
    hide Met, MetBefore, FirstBroken, ErrorOf, HeadError;
    HeadMeans(h, r);
    Asked(h, r, DirGiven, 0);
    if Met(h, r, DirGiven) {
      Asked(h, r, ModeKnown, 1);
      if Met(h, r, ModeKnown) {
        Asked(h, r, TarballPathGiven, 2);
        if Met(h, r, TarballPathGiven) {
          Asked(h, r, LayoutPathGiven, 3);
          if Met(h, r, LayoutPathGiven) {
            Asked(h, r, RepoGiven, 4);
            if Met(h, r, RepoGiven) {
              Asked(h, r, RepoUnspaced, 5);
              if Met(h, r, RepoUnspaced) {
                Asked(h, r, RepoBare, 6);
              }
            }
          }
        }
      }
    }
  }

  // The loops' own tests, spelled out.
  lemma TestsMean(h: Host)
    ensures forall p: Platform :: Supported(p) <==> p == LinuxAmd64 || p == LinuxArm64
    ensures forall t :: TagOk(h, t) <==> !Blank(t) && h.tagOk(Trim(t))
  {
    hide Blank;
    assert SUPPORTED[0] == LinuxAmd64 && SUPPORTED[1] == LinuxArm64;
  }

  lemma NamesMean()
    ensures forall e :: EnvNameOk(e) <==> NamesVariable(Trim(e))
  {
    hide Trim;
  }

  lemma PlatformsReport(h: Host, r: Request)
    requires MetBefore(h, r, 7)
    ensures Reports(h, r, if r.platforms == [] then Some(UnsupportedPlatform) else PlatformError(r.platforms), 9)
  {
    hide MetByInput, MetByRuntime, MetByOptions, TagOk, Supported, Blank, Trim;
    TestsMean(h);
    if r.platforms == [] {
      assert FirstBroken(h, r, PlatformsGiven);
    } else if PlatformError(r.platforms).Some? {
      var i := FirstBadPlatform(r.platforms);
      assert FirstBroken(h, r, if Supported(r.platforms[i]) then PlatformNew(i) else PlatformSupported(i));
    } else {
      PlatformsAccepted(r.platforms);
      assert forall i | 0 <= i < |r.platforms| :: Supported(r.platforms[i]);
    }
  }

  lemma TagsReport(h: Host, r: Request)
    requires MetBefore(h, r, 9)
    ensures Reports(h, r, TagError(h, r.tags), 10)
  {
    hide MetByInput, MetByRuntime, MetByOptions, TagOk, Supported, Blank, Trim;
    TestsMean(h);
    if TagError(h, r.tags).Some? {
      var i := FirstBadTag(h, r.tags);
      assert FirstBroken(h, r, if TagOk(h, r.tags[i]) then TagNew(i) else TagValid(i));
    } else {
      TagsAccepted(h, r.tags);
    }
  }

  lemma InputMeans(h: Host, r: Request)
    ensures InputError(r) ==
            if !Met(h, r, PresetKnown) then Some(ErrorOf(PresetKnown))
            else if !Met(h, r, RefGiven) then Some(ErrorOf(RefGiven))
            else if !Met(h, r, FormatKnown) then Some(ErrorOf(FormatKnown))
            else if !Met(h, r, AttachKnown) then Some(ErrorOf(AttachKnown))
            else if !Met(h, r, EpochGiven) then Some(ErrorOf(EpochGiven))
            else None
  {
    hide Blank, TagOk, NamesTagOrDigest, MetByRuntime, MetByOptions;
  }

  lemma InputReports(h: Host, r: Request)
    requires MetBefore(h, r, 10)
    ensures Reports(h, r, InputError(r), 15)
  {
    hide Met, MetBefore, FirstBroken, ErrorOf, InputError;
    InputMeans(h, r);
    Asked(h, r, PresetKnown, 10);
    if Met(h, r, PresetKnown) {
      Asked(h, r, RefGiven, 11);
      if Met(h, r, RefGiven) {
        Asked(h, r, FormatKnown, 12);
        if Met(h, r, FormatKnown) {
          Asked(h, r, AttachKnown, 13);
          if Met(h, r, AttachKnown) {
            Asked(h, r, EpochGiven, 14);
          }
        }
      }
    }
  }

  lemma RuntimeMeans(h: Host, r: Request)
    ensures RuntimeError(r.runtime) ==
            if !Met(h, r, PortsSound) then Some(ErrorOf(PortsSound))
            else if !Met(h, r, ShutdownSound) then Some(ErrorOf(ShutdownSound))
            else if !Met(h, r, EntrypointGiven) then Some(ErrorOf(EntrypointGiven))
            else if !Met(h, r, ExposedSound) then Some(ErrorOf(ExposedSound))
            else if !Met(h, r, EnvNamesSound) then Some(ErrorOf(EnvNamesSound))
            else None
  {
    hide Blank, TagOk, NamesTagOrDigest, EnvNameOk, NamesVariable, Trim, MetByInput, MetByOptions;
    NamesMean();
  }

  lemma RuntimeReports(h: Host, r: Request)
    requires MetBefore(h, r, 15)
    ensures Reports(h, r, RuntimeError(r.runtime), 20)
  {
    hide Met, MetBefore, FirstBroken, ErrorOf, RuntimeError;
    RuntimeMeans(h, r);
    Asked(h, r, PortsSound, 15);
    if Met(h, r, PortsSound) {
      Asked(h, r, ShutdownSound, 16);
      if Met(h, r, ShutdownSound) {
        Asked(h, r, EntrypointGiven, 17);
        if Met(h, r, EntrypointGiven) {
          Asked(h, r, ExposedSound, 18);
          if Met(h, r, ExposedSound) {
            Asked(h, r, EnvNamesSound, 19);
          }
        }
      }
    }
  }

  lemma OptionMeans(h: Host, r: Request)
    ensures OptionError(r) ==
            if !Met(h, r, ThresholdKnown) then Some(ErrorOf(ThresholdKnown))
            else if !Met(h, r, VerifyModeKnown) then Some(ErrorOf(VerifyModeKnown))
            else if !Met(h, r, ConcurrencySound) then Some(ErrorOf(ConcurrencySound))
            else None
  {
    hide Blank, TagOk, NamesTagOrDigest, MetByInput, MetByRuntime;
  }

  lemma OptionReports(h: Host, r: Request)
    requires MetBefore(h, r, 20)
    ensures Reports(h, r, OptionError(r), 23)
  {
    hide Met, MetBefore, FirstBroken, ErrorOf, OptionError;
    OptionMeans(h, r);
    Asked(h, r, ThresholdKnown, 20);
    if Met(h, r, ThresholdKnown) {
      Asked(h, r, VerifyModeKnown, 21);
      if Met(h, r, VerifyModeKnown) {
        Asked(h, r, ConcurrencySound, 22);
      }
    }
  }

  lemma StrategyMeans(h: Host, r: Request)
    ensures StrategyError(r) ==
            if !Met(h, r, GenerationsBounded) then Some(ErrorOf(GenerationsBounded))
            else if !Met(h, r, StrategyKnown) then Some(ErrorOf(StrategyKnown))
            else if !Met(h, r, StubIsLayered) then Some(ErrorOf(StubIsLayered))
            else None
  {
    hide Blank, TagOk, NamesTagOrDigest, MetByInput, MetByRuntime;
  }

  lemma StrategyReports(h: Host, r: Request)
    requires MetBefore(h, r, 23)
    ensures Reports(h, r, StrategyError(r), 26)
  {
    hide Met, MetBefore, FirstBroken, ErrorOf, StrategyError;
    StrategyMeans(h, r);
    Asked(h, r, GenerationsBounded, 23);
    if Met(h, r, GenerationsBounded) {
      Asked(h, r, StrategyKnown, 24);
      if Met(h, r, StrategyKnown) {
        Asked(h, r, StubIsLayered, 25);
      }
    }
  }

  lemma MatrixMeans(h: Host, r: Request)
    ensures MatrixError(r) ==
            if !Met(h, r, RuntimeKnown) then Some(ErrorOf(RuntimeKnown))
            else if !Met(h, r, NodeWithoutBun) then Some(ErrorOf(NodeWithoutBun))
            else if !Met(h, r, NodeHasABase) then Some(ErrorOf(NodeHasABase))
            else None
  {
    hide Blank, TagOk, NamesTagOrDigest, MetByInput, MetByRuntime;
  }

  lemma MatrixReports(h: Host, r: Request)
    requires MetBefore(h, r, 26)
    ensures Reports(h, r, MatrixError(r), 29)
  {
    hide Met, MetBefore, FirstBroken, ErrorOf, MatrixError;
    MatrixMeans(h, r);
    Asked(h, r, RuntimeKnown, 26);
    if Met(h, r, RuntimeKnown) {
      Asked(h, r, NodeWithoutBun, 27);
      if Met(h, r, NodeWithoutBun) {
        Asked(h, r, NodeHasABase, 28);
      }
    }
  }

  lemma SigningMeans(h: Host, r: Request)
    ensures SigningError(r) ==
            if !Met(h, r, RequiredCanSign) then Some(ErrorOf(RequiredCanSign))
            else if !Met(h, r, RequiredHasKey) then Some(ErrorOf(RequiredHasKey))
            else if !Met(h, r, KeyIsAPair) then Some(ErrorOf(KeyIsAPair))
            else None
  {
    hide Blank, TagOk, NamesTagOrDigest, MetByInput, MetByRuntime;
  }

  lemma SigningReports(h: Host, r: Request)
    requires MetBefore(h, r, 29)
    ensures Reports(h, r, SigningError(r), 32)
  {
    hide Met, MetBefore, FirstBroken, ErrorOf, SigningError;
    SigningMeans(h, r);
    Asked(h, r, RequiredCanSign, 29);
    if Met(h, r, RequiredCanSign) {
      Asked(h, r, RequiredHasKey, 30);
      if Met(h, r, RequiredHasKey) {
        Asked(h, r, KeyIsAPair, 31);
      }
    }
  }

  // Validate's verdict is acceptance exactly when every requirement is met, and
  // otherwise the error of the first one broken.
  lemma VerdictIsFirstBroken(h: Host, r: Request)
    ensures Verdict(h, r).None? <==> forall q: Requirement :: Met(h, r, q)
    ensures Verdict(h, r).Some? ==> exists q: Requirement :: FirstBroken(h, r, q) && Verdict(h, r).value == ErrorOf(q)
  {
    hide Met, ErrorOf, HeadError, PlatformError, TagError, InputError, RuntimeError, OptionError, StrategyError,
         MatrixError, SigningError;
    assert MetBefore(h, r, 0);
    HeadReports(h, r);
    if HeadError(r).None? {
      PlatformsReport(h, r);
      if r.platforms != [] && PlatformError(r.platforms).None? {
        TagsReport(h, r);
        if TagError(h, r.tags).None? {
          TailReports(h, r);
        }
      }
    }
    assert forall q: Requirement :: Rank(q).0 < 32;
  }

  lemma TailReports(h: Host, r: Request)
    requires MetBefore(h, r, 10)
    ensures Reports(h, r, TailError(r), 32)
  {
    hide Met, Rank, ErrorOf, FirstBroken, InputError, RuntimeError, OptionError, StrategyError, MatrixError,
         SigningError;
    InputReports(h, r);
    if InputError(r).None? {
      RuntimeReports(h, r);
      if RuntimeError(r.runtime).None? {
        OptionReports(h, r);
        if OptionError(r).None? {
          StrategyReports(h, r);
          if StrategyError(r).None? {
            MatrixReports(h, r);
            if MatrixError(r).None? {
              SigningReports(h, r);
            }
          }
        }
      }
    }
  }

  // ---- What the source promises ------------------------------------------

  // The platform loop accepts exactly the duplicate-free lists of supported platforms.
  lemma {:induction false} PlatformsAccepted(ps: seq<Platform>)
    ensures PlatformError(ps).None? <==> Distinct(ps) && forall p | p in ps :: Supported(p)
  {
    if ps != [] {
      var k := |ps| - 1;
      PlatformsAccepted(ps[..k]);
      assert ps == ps[..k] + [ps[k]];
      assert ps[k] in ps;
      assert Distinct(ps) ==> ps[k] !in ps[..k];
    }
  }

  // The tag loop accepts exactly the duplicate-free lists of valid tags.
  lemma {:induction false} TagsAccepted(h: Host, ts: seq<string>)
    ensures TagError(h, ts).None? <==> Distinct(ts) && forall t | t in ts :: TagOk(h, t)
  {
    hide TagOk;
    if ts != [] {
      var k := |ts| - 1;
      TagsAccepted(h, ts[..k]);
      assert ts == ts[..k] + [ts[k]];
      assert ts[k] in ts;
      assert Distinct(ts) ==> ts[k] !in ts[..k];
    }
  }

  // So a request that validates has one or two platforms, never a repeat.
  lemma AtMostTwoPlatforms(ps: seq<Platform>)
    requires PlatformError(ps).None?
    ensures |ps| <= 2
  {
    PlatformsAccepted(ps);
    DistinctSize(ps);
    var both := {LinuxAmd64, LinuxArm64};
    assert (set p | p in ps) <= both;
    SubsetSize((set p | p in ps), both);
  }

  lemma SubsetSize<T>(a: set<T>, b: set<T>)
    requires a <= b
    ensures |a| <= |b|
  {
    assert b == a + (b - a);
  }

  // Normalising twice is normalising once, exactly when the timestamp does not
  // fall strictly inside the first second of year 1: there the first pass
  // truncates it to the zero time and the second replaces it by the epoch.
  lemma NormalizeIdempotentIff(h: Host, r: Request)
    requires AbsIdempotent(h)
    ensures Normalized(h, Normalized(h, r)) == Normalized(h, r) <==> !(0 < r.sourceDateEpoch < SECOND)
  {
    var n := Normalized(h, r);
    var t := r.sourceDateEpoch;
    TruncateTwice(t);
    assert NormalizedBase(n.baseImage, n.hermetic, n.appRuntime) == n.baseImage;
    assert NormalizedCacheVerify(n.cacheVerify) == n.cacheVerify;
    assert WithDefaults(n.runtime) == n.runtime;
    assert Normalized(h, n).(sourceDateEpoch := n.sourceDateEpoch) == n;
  }

  // What the caller set, Normalize keeps; the exceptions are the project
  // directory made absolute, the timestamp cut to the second, and the switches
  // that hermetic builds and cache verification turn on.
  lemma NormalizeKeepsWhatIsSet(h: Host, r: Request)
    ensures var n := Normalized(h, r);
            && (r.repo != [] ==> n.repo == r.repo) && (r.tags != [] ==> n.tags == r.tags)
            && (r.platforms != [] ==> n.platforms == r.platforms) && (r.concurrency != 0 ==> n.concurrency == r.concurrency)
            && (r.appRuntime != NoRuntime ==> n.appRuntime == r.appRuntime)
            && n.hermetic == r.hermetic && n.policy == r.policy
            && KeepsOutput(r, n) && KeepsBase(r.baseImage, n.baseImage) && KeepsRuntime(r.runtime, n.runtime)
  {
    hide Lower, DefaultRef;
  }

  predicate KeepsOutput(r: Request, n: Request)
  {
    && n.output == r.output.(mode := n.output.mode) && (r.output.mode != NoMode ==> n.output == r.output)
    && n.compile == r.compile.(strategy := n.compile.strategy) && (r.compile.strategy != NoStrategy ==> n.compile == r.compile)
    && (r.sbom.format != NoFormat ==> n.sbom.format == r.sbom.format)
    && (r.sbom.attachMode != NoAttachMode ==> n.sbom.attachMode == r.sbom.attachMode)
    && n.sbom.noAttach == r.sbom.noAttach
    && (r.cacheVerify.mode != NoVerifyMode ==> n.cacheVerify.mode == r.cacheVerify.mode)
    && (r.cacheVerify.verifySignature ==> n.cacheVerify.verifySignature)
    && (r.bunRuntime.version != [] ==> n.bunRuntime.version == r.bunRuntime.version)
    && (r.bunRuntime.variant != [] ==> n.bunRuntime.variant == r.bunRuntime.variant)
    && n.bunRuntime.customBinaryPath == r.bunRuntime.customBinaryPath && n.bunRuntime.stubLauncher == r.bunRuntime.stubLauncher
  }

  predicate KeepsBase(b: BaseImageOptions, n: BaseImageOptions)
  {
    && (b.preset != NoPreset ==> n.preset == b.preset) && (b.ref != [] ==> n.ref == b.ref)
    && (b.offline ==> n.offline) && n.noVerifyBase == b.noVerifyBase
  }

  predicate KeepsRuntime(c: RuntimeConfig, n: RuntimeConfig)
  {
    && (c.entrypoint.Some? ==> n.entrypoint == c.entrypoint)
    && (c.user != [] ==> n.user == c.user) && (c.workingDir != [] ==> n.workingDir == c.workingDir)
    && (c.port != 0 ==> n.port == c.port) && (c.probePort != 0 ==> n.probePort == c.probePort)
    && (c.shutdownTimeout != 0 ==> n.shutdownTimeout == c.shutdownTimeout)
    && n.exposedPorts == c.exposedPorts && n.requireEnv == c.requireEnv && n.vexExemptions == c.vexExemptions
  }

  // And what is left blank it fills, field by field, with the documented default:
  // both platforms, the latest tag, the Unix epoch, a Bun build in layers pushed to
  // a registry, an SPDX document, and so on. Nothing with a default stays blank.
  lemma NormalizeFillsBlanks(h: Host, r: Request)
    ensures var n := Normalized(h, r);
            && (r.platforms == [] ==> n.platforms == [LinuxAmd64, LinuxArm64]) && (r.tags == [] ==> n.tags == ["latest"])
            && (r.sourceDateEpoch == 0 ==> n.sourceDateEpoch == 62_135_596_800_000_000_000)
            && (r.sourceDateEpoch != 0 ==> n.sourceDateEpoch <= r.sourceDateEpoch < n.sourceDateEpoch + SECOND
                                           && n.sourceDateEpoch % SECOND == 0)
            && (r.concurrency == 0 ==> n.concurrency == |n.platforms|)
            && (r.output.mode.NoMode? ==> n.output.mode.Push?) && (r.compile.strategy.NoStrategy? ==> n.compile.strategy.Layered?)
            && (r.appRuntime.NoRuntime? ==> n.appRuntime.Bun?)
            && (r.sbom.format.NoFormat? ==> n.sbom.format.Spdx?)
            && (r.sbom.attachMode.NoAttachMode? ==> n.sbom.attachMode.AutoAttach?)
            && (r.cacheVerify.mode.NoVerifyMode? ==> n.cacheVerify.mode.Auto?)
            && (n.cacheVerify.verifySignature <==> !n.cacheVerify.mode.VerifyNone? || r.cacheVerify.verifySignature)
            && (n.baseImage.offline <==> r.hermetic || r.baseImage.offline)
            && FillsBase(r, n.baseImage, n.appRuntime) && FillsRuntime(r.runtime, n.runtime)
            && (r.bunRuntime.version == [] ==> n.bunRuntime.version == "1.4.4")
            && (r.bunRuntime.variant == [] ==> n.bunRuntime.variant == "standard")
  {
    hide Lower;
    var t := r.sourceDateEpoch;
    assert Truncate(t) == t / SECOND * SECOND && (t / SECOND * SECOND) % SECOND == 0;
  }

  // A custom reference makes a custom base; else Node gets one that carries it.
  predicate FillsBase(r: Request, n: BaseImageOptions, runtime: AppRuntime)
  {
    && (r.baseImage.preset.NoPreset? ==>
          && (r.baseImage.ref != [] <==> n.preset.Custom?)
          && (r.baseImage.ref == [] ==> if runtime.Node? then n.preset.DistrolessNode? else n.preset.Distroless?))
    && (r.baseImage.ref == [] ==>
          && (n.preset.Distroless? ==> n.ref == DISTROLESS_REF) && (n.preset.Chainguard? ==> n.ref == CHAINGUARD_REF)
          && (n.preset.DistrolessNode? ==> n.ref == DISTROLESS_NODE_REF)
          && (n.preset.Custom? || n.preset.OtherPreset? ==> n.ref == []))
  }

  predicate FillsRuntime(c: RuntimeConfig, n: RuntimeConfig)
  {
    && (c.entrypoint.None? ==> n.entrypoint == Some(DEFAULT_ENTRYPOINT))
    && (c.user == [] ==> n.user == "65532:65532") && (c.workingDir == [] ==> n.workingDir == "/app")
    && (c.port == 0 ==> n.port == 3000) && (c.probePort == 0 ==> n.probePort == 8081)
    && (c.shutdownTimeout == 0 ==> n.shutdownTimeout == 30 * SECOND)
  }

  // A local build without a repository is named after its directory, in lower
  // case; one to be pushed keeps none, and is rejected for it.
  lemma LocalRepoFromDirectory(h: Host, r: Request)
    requires r.repo == [] && r.projectDir != [] && h.abs(r.projectDir).Some? && h.abs(r.projectDir).value != []
    ensures var n := Normalized(h, r);
            && n.projectDir == h.abs(r.projectDir).value
            && n.repo == (if r.output.mode.Push? || r.output.mode.NoMode? then [] else "pokkum.local/" + Lower(h.base(n.projectDir)))
            && (r.output.mode.Push? || r.output.mode.NoMode? ==>
                  Blank(n.projectDir) || Verdict(h, n) == Some(NoDockerRepo))
  {
    hide Lower, Trim, Blank, Verdict, NormalizedBase, NormalizedBun, NormalizedSbom, NormalizedCacheVerify, WithDefaults;
    if r.output.mode.Push? || r.output.mode.NoMode? {
      NoRepoNoPush(h, Normalized(h, r));
    }
  }

  lemma NoRepoNoPush(h: Host, n: Request)
    requires n.repo == [] && n.output.mode.Push?
    ensures Blank(n.projectDir) || Verdict(h, n) == Some(NoDockerRepo)
  {
    hide Blank, PlatformError, TagError, TailError, NamesTagOrDigest;
    EmptyIsBlank();
  }

  lemma EmptyIsBlank()
    ensures Blank([])
  {
    assert TrimLeft([]) == [] && TrimRight([]) == [];
  }

  lemma TruncateTwice(t: int)
    ensures Truncate(Truncate(t)) == Truncate(t)
    ensures Truncate(t) == 0 <==> 0 <= t < SECOND
  {
    var q := t / SECOND;
    assert Truncate(t) == q * SECOND;
    assert (q * SECOND) % SECOND == 0;
  }

  function NormalizedTimes(h: Host, r: Request, n: nat): Request
  {
    if n == 0 then r else Normalized(h, NormalizedTimes(h, r, n - 1))
  }

  // Validate's verdict is the same after one normalisation and after any
  // larger number of them.
  lemma {:induction false} VerdictStable(h: Host, r: Request, n: nat)
    requires AbsIdempotent(h) && !(0 < r.sourceDateEpoch < SECOND) && n >= 1
    ensures NormalizedTimes(h, r, n) == Normalized(h, r)
    ensures Verdict(h, NormalizedTimes(h, r, n)) == Verdict(h, Normalized(h, r))
  {
    NormalizeIdempotentIff(h, r);
    if n > 1 {
      VerdictStable(h, r, n - 1);
    } else {
      assert NormalizedTimes(h, r, 1) == Normalized(h, NormalizedTimes(h, r, 0));
    }
  }

  // The concrete case in which a second pass still changes the request.
  lemma NormalizeNotIdempotentInFirstSecond(h: Host, r: Request)
    requires AbsIdempotent(h) && r.sourceDateEpoch == 1
    ensures Normalized(h, r).sourceDateEpoch == 0
    ensures Normalized(h, Normalized(h, r)).sourceDateEpoch == UNIX_EPOCH
  {
    TruncateTwice(1);
  }

  // Everything the pipeline reads from an accepted request. Stated of the
  // normalised form, because that is the only form Build validates.
  predicate Buildable(r: Request)
  {
    && 1 <= |r.platforms| <= 2
    && Distinct(r.platforms)
    && (forall p | p in r.platforms :: Supported(p))
    && r.concurrency > 0
    && ValidMode(r.output.mode)
    && ValidStrategy(r.compile.strategy)
    && ValidFormat(r.sbom.format)
    && (r.appRuntime == Bun || (r.appRuntime == Node && r.compile.strategy == Layered))
    && (r.policy.signing.require ==> r.policy.sign && r.output.mode == Push && r.policy.signing.hasKey)
    && (r.policy.signing.hasKey ==> r.policy.signing.hasPublicKey)
    && (r.cacheVerify.mode != VerifyNone ==> r.cacheVerify.verifySignature)
    && r.compile.overlayGenerations >= 0
  }

  lemma VerdictMeans(h: Host, n: Request)
    ensures Verdict(h, n).None? && n.concurrency != 0 && (n.cacheVerify.mode != VerifyNone ==> n.cacheVerify.verifySignature)
            ==> Buildable(n)
  {
    hide PlatformError, TagError, TagOk, RuntimeError, Blank, NamesTagOrDigest, Distinct;
    if Verdict(h, n).None? {
      PlatformsAccepted(n.platforms);
      AtMostTwoPlatforms(n.platforms);
    }
  }

  lemma AcceptedIsBuildable(h: Host, r: Request)
    ensures Verdict(h, Normalized(h, r)).None? ==> Buildable(Normalized(h, r))
  {
    VerdictMeans(h, Normalized(h, r));
  }

  // A Node request whose base was left to the defaults always gets a base that
  // carries Node, so the runtime matrix never rejects it for its base; and an
  // explicit preset or reference is never replaced.
  lemma NodeDefaultsToANodeBase(h: Host, r: Request)
    ensures r.appRuntime == Node && r.baseImage.preset == NoPreset
            ==> Normalized(h, r).baseImage.preset in {DistrolessNode, Custom}
    ensures r.baseImage.preset != NoPreset ==> Normalized(h, r).baseImage.preset == r.baseImage.preset
    ensures r.baseImage.ref != "" ==> Normalized(h, r).baseImage.ref == r.baseImage.ref
    ensures r.appRuntime == Node && r.baseImage.preset == NoPreset
            ==> MatrixError(Normalized(h, r)) != Some(InvalidBaseImage)
  {
  }
}
