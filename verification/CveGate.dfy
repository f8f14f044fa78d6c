// The base-image CVE gate: when it is armed, what evidence lets a build
// through, and what it hands back for the pipeline to record.
// Source: internal/core/pipeline.go, scanBaseImage.

module CveGate {
  import opened Text
  import opened Request

  // POKKUM_FAIL_ON_CVE as the gate reads it.
  datatype FailEnv = Unset | Yes | Level(severity: Severity) | Unparseable

  // The audit pokkum.lock carries for this base, if any. A severity is blank,
  // a level, or text that is no level.
  datatype Recorded = BlankSeverity | Known(severity: Severity) | UnknownSeverity
  datatype Audit = NoAudit | Audit(vulnerabilities: nat, severity: Recorded)

  // What the scanner port answers: its verdict and the exempted CVE IDs.
  datatype ScanVerdict = Clean | ThresholdExceeded | Incomplete | ScannerError
  datatype ScanReply = ScanReply(verdict: ScanVerdict, exempted: set<string>)

  datatype GateResult = GateResult(ok: bool, vex: set<string>, recorded: bool)

  function Rank(s: Severity): nat
  {
    match s
    case Low => 1
    case Medium => 2
    case High => 3
    case Critical => 4
    case _ => 0
  }

  predicate Armed(r: Request, env: FailEnv)
  {
    r.policy.failOnCve.Some? || env.Yes? || env.Level?
  }

  function Threshold(r: Request, env: FailEnv): Severity
  {
    if r.policy.failOnCve.Some? then r.policy.failOnCve.value
    else if env.Level? then env.severity
    else Critical
  }

  predicate NoNetwork(r: Request)
  {
    r.baseImage.offline || r.hermetic
  }

  // The offline branch: does the recorded audit let an armed build through?
  function AuditPasses(r: Request, env: FailEnv, audit: Audit): bool
  {
    match audit
    case NoAudit => r.policy.allowIncompleteScan
    case Audit(n, severity) =>
      match severity
      case Known(s) => Rank(s) < Rank(Threshold(r, env))
      case UnknownSeverity => r.policy.allowIncompleteScan
      case BlankSeverity => n == 0 || r.policy.allowIncompleteScan
  }

  function LivePasses(r: Request, verdict: ScanVerdict): bool
  {
    match verdict
    case ThresholdExceeded => false
    case Incomplete => r.policy.allowIncompleteScan
    case _ => true
  }

  function ScanBaseImage(scanner: bool, r: Request, env: FailEnv, audit: Audit, reply: ScanReply): GateResult
  {
    if !scanner then GateResult(true, {}, false)
    else if NoNetwork(r) then GateResult(Armed(r, env) ==> AuditPasses(r, env, audit), {}, false)
    else if Armed(r, env) && !LivePasses(r, reply.verdict) then GateResult(false, {}, true)
    else GateResult(true, reply.exempted, true)
  }

  // The evidence shows a severity at or above the threshold.
  predicate KnownBad(r: Request, env: FailEnv, audit: Audit, reply: ScanReply)
  {
    if NoNetwork(r)
    then audit.Audit? && audit.severity.Known? && Rank(audit.severity.severity) >= Rank(Threshold(r, env))
    else reply.verdict == ThresholdExceeded
  }

  // The evidence leaves nothing open: a finished scan, or a recorded audit that
  // names its worst severity or found nothing.
  predicate Complete(r: Request, audit: Audit, reply: ScanReply)
  {
    if NoNetwork(r)
    then audit.Audit? && (audit.severity.Known? || (audit.severity.BlankSeverity? && audit.vulnerabilities == 0))
    else reply.verdict != Incomplete
  }

  // An unarmed gate never fails. An armed one passes exactly when nothing known
  // is at or above the threshold and the evidence is complete or need not be:
  // allowing incomplete scans excuses missing evidence, never a finding. Only a
  // live scan is recorded, and only a passing one applies exemptions.
  lemma GatePassesIff(r: Request, env: FailEnv, audit: Audit, reply: ScanReply)
    ensures var g := ScanBaseImage(true, r, env, audit, reply);
            && (!Armed(r, env) ==> g.ok)
            && (Armed(r, env) ==> (g.ok <==> !KnownBad(r, env, audit, reply)
                                             && (Complete(r, audit, reply) || r.policy.allowIncompleteScan)))
            && (g.recorded <==> !NoNetwork(r))
            && g.vex == (if g.ok && !NoNetwork(r) then reply.exempted else {})
  {
  }

  // ---- From findings to the gate ---------------------------------------------------------

  // The levels, mildest first.
  const LEVELS := [Low, Medium, High, Critical]

  predicate AtLeast(s: Severity, threshold: Severity)
  {
    exists i, j | 0 <= i <= j < |LEVELS| :: LEVELS[i] == threshold && LEVELS[j] == s
  }

  // What arms the gate, and at which level: the flag, else a level in the
  // environment, else, when the environment merely says yes, critical.
  predicate ArmedAt(r: Request, env: FailEnv, level: Severity)
  {
    if r.policy.failOnCve.Some? then level == r.policy.failOnCve.value
    else (env == Level(level) || (env.Yes? && level == Critical))
  }

  // What the scanner is asked.
  datatype ScanCall = ScanCall(failOn: Severity, allowIncomplete: bool)

  function CallFor(r: Request, env: FailEnv): ScanCall
  {
    ScanCall(Threshold(r, env), r.policy.allowIncompleteScan)
  }

  // A scanner that finishes, and tells by the level it is asked for: worst is the
  // worst finding that is not exempted.
  predicate HonestScan(call: ScanCall, worst: Option<Severity>, reply: ScanReply)
  {
    reply.verdict == if worst.Some? && AtLeast(worst.value, call.failOn) then ThresholdExceeded else Clean
  }

  lemma RanksAreLevels(s: Severity, t: Severity)
    requires s in LEVELS && t in LEVELS
    ensures Rank(s) >= Rank(t) <==> AtLeast(s, t)
  {
    var i :| 0 <= i < |LEVELS| && LEVELS[i] == t;
    var j :| 0 <= j < |LEVELS| && LEVELS[j] == s;
    assert Rank(t) == i + 1 && Rank(s) == j + 1;
  }

  // A gate armed at some level lets a build through exactly when no finding is at
  // that level or worse, whether an honest scanner reports it or pokkum.lock
  // recorded it; a gate that is not armed lets every build through.
  lemma ArmedGateMeansItsLevel(r: Request, env: FailEnv, level: Severity, worst: Severity, n: nat, reply: ScanReply)
    requires ArmedAt(r, env, level) && level in LEVELS && worst in LEVELS
    requires !NoNetwork(r) ==> HonestScan(CallFor(r, env), Some(worst), reply)
    ensures ScanBaseImage(true, r, env, Audit(n, Known(worst)), reply).ok <==> !AtLeast(worst, level)
  {
    RanksAreLevels(worst, level);
  }

  lemma UnarmedGatePasses(r: Request, env: FailEnv, audit: Audit, reply: ScanReply)
    ensures (forall level :: !ArmedAt(r, env, level)) <==> r.policy.failOnCve.None? && (env.Unset? || env.Unparseable?)
    ensures (forall level :: !ArmedAt(r, env, level)) ==> ScanBaseImage(true, r, env, audit, reply).ok
  {
    if r.policy.failOnCve.Some? {
      assert ArmedAt(r, env, r.policy.failOnCve.value);
    } else if env.Yes? {
      assert ArmedAt(r, env, Critical);
    } else if env.Level? {
      assert ArmedAt(r, env, env.severity);
    }
  }
}
