// The signing stage: every subject is signed and attached in one errgroup, and
// only when that group has drained is every subject fetched back and verified
// in a second one. Both groups run at most four subjects at once.
// Source: internal/core/pipeline.go, signingSubjects, signAndSelfVerify,
// statementNamesDigest.

module Signing {
  import opened Text
  import opened Request
  import opened Ports

  const CONCURRENCY: nat := 4

  datatype Hash = Hash(alg: string, hex: string)

  type Ref = string          // an attachment reference returned by the registry
  type Blob = nat            // a signature or envelope as fetched, by identity

  // One in-toto subject: its digest map, or None for a nil map.
  type Subject = Option<map<string, string>>
  type Statement = seq<Subject>

  // Go's map read: a missing key reads as the empty string.
  predicate SubjectIs(s: Subject, d: Hash)
  {
    s.Some? && (if d.alg in s.value then s.value[d.alg] else "") == d.hex
  }

  predicate Names(stmt: Statement, d: Hash)
  {
    exists k | 0 <= k < |stmt| :: SubjectIs(stmt[k], d)
  }

  method StatementNamesDigest(stmt: Statement, d: Hash) returns (r: bool)
    ensures r <==> Names(stmt, d)
  {
    for k := 0 to |stmt|
      invariant forall j | 0 <= j < k :: !SubjectIs(stmt[j], d)
    {
      if SubjectIs(stmt[k], d) {
        return true;
      }
    }
    return false;
  }

  // The published digest first, then each platform's own digest when the
  // image is an index over several.
  function Subjects(published: Hash, children: seq<Hash>, multi: bool): (r: seq<Hash>)
    ensures |r| == if multi then 1 + |children| else 1
  {
    if multi then [published] + children else [published]
  }

  datatype Config = Config(subjects: seq<Hash>, sbom: bool)

  // Where one subject's goroutine is: the phase-one chain, then the phase-two
  // chain. Each state names the call it makes next.
  datatype Pc =
    | Waiting
    | Generating | DsseSigning | SbomSigning(env: Blob) | AttachingAtt(env: Blob, extra: Option<Blob>)
    | CosignSigning(att: Ref) | AttachingSig(att: Ref, bundle: Blob)
    | FetchingSig | CosignVerifying(sig: Blob) | FetchingAtt | DsseVerifying(fetched: Blob) | Naming(stmt: Statement)
    | Succeeded | Failed

  datatype Phase = Attach | Verify | Signed | Unsigned

  // What happened to subject i, in order: an attestation is attached with the
  // provenance envelope and, as an extra one, the SBOM's; a signature, as a bundle.
  datatype Event =
    | ProvenanceSigned(i: nat, env: Blob)
    | SbomSigned(i: nat, env: Blob)
    | BundleSigned(i: nat, bundle: Blob)
    | AttAttached(i: nat, ref: Ref, env: Blob, extra: Option<Blob>)
    | SigAttached(i: nat, ref: Ref, bundle: Blob)
    | SigFetched(i: nat, sig: Blob)
    | SigVerified(i: nat, sig: Blob)
    | AttFetched(i: nat, env: Blob)
    | AttVerified(i: nat, env: Blob, stmt: Statement)

  // next is how many subjects the dispatch loop has started in this phase.
  datatype State = State(
    phase: Phase, pcs: seq<Pc>, next: nat, failed: bool,
    attRefs: seq<Ref>, sigRefs: seq<Ref>, envs: seq<Blob>, trace: seq<Event>)

  // The reply of the call a goroutine is making.
  datatype Reply =
    | Err
    | Ok
    | OkStatement(subjects: nat)   // SLSA statement, by its number of subjects
    | OkRef(ref: Ref)
    | OkBlob(blob: Blob)
    | OkPayload(stmt: Option<Statement>)   // None: the payload does not parse

  datatype Action = Dispatch | Call(i: nat, reply: Reply) | Wait

  function Init(c: Config): State
  {
    var n := |c.subjects|;
    State(Attach, seq(n, _ => Waiting), 0, false, seq(n, _ => ""), seq(n, _ => ""), seq(n, _ => 0), [])
  }

  predicate Over(pc: Pc)
  {
    pc.Succeeded? || pc.Failed?
  }

  predicate Active(pc: Pc)
  {
    !Over(pc) && !pc.Waiting?
  }

  function Running(pcs: seq<Pc>): nat
  {
    if pcs == [] then 0
    else Running(pcs[..|pcs| - 1]) + (if Active(pcs[|pcs| - 1]) then 1 else 0)
  }

  predicate Shaped(c: Config, s: State)
  {
    |s.pcs| == |s.attRefs| == |s.sigRefs| == |s.envs| == |c.subjects|
  }

  function Fail(s: State, i: nat): State
    requires i < |s.pcs|
  {
    s.(pcs := s.pcs[i := Failed], failed := true)
  }

  function To(s: State, i: nat, pc: Pc): State
    requires i < |s.pcs|
  {
    s.(pcs := s.pcs[i := pc])
  }

  // Phase one of subject i: statement, envelope, SBOM envelope when there is
  // one, attestation attach, signature, signature attach.
  function AttachStep(c: Config, s: State, i: nat, reply: Reply): State
    requires Shaped(c, s) && i < |s.pcs|
  {
    match s.pcs[i]
    case Generating =>
      if reply.OkStatement? && reply.subjects > 0 then To(s, i, DsseSigning) else Fail(s, i)
    case DsseSigning =>
      if reply.OkBlob? then
        To(s, i, if c.sbom then SbomSigning(reply.blob) else AttachingAtt(reply.blob, None)).(
          trace := s.trace + [ProvenanceSigned(i, reply.blob)])
      else Fail(s, i)
    case SbomSigning(env) =>
      if reply.OkBlob? then
        To(s, i, AttachingAtt(env, Some(reply.blob))).(trace := s.trace + [SbomSigned(i, reply.blob)])
      else Fail(s, i)
    case AttachingAtt(env, extra) =>
      if reply.OkRef? then
        To(s, i, CosignSigning(reply.ref)).(trace := s.trace + [AttAttached(i, reply.ref, env, extra)])
      else Fail(s, i)
    case CosignSigning(att) =>
      if reply.OkBlob? then
        To(s, i, AttachingSig(att, reply.blob)).(trace := s.trace + [BundleSigned(i, reply.blob)])
      else Fail(s, i)
    case AttachingSig(att, bundle) =>
      if reply.OkRef? then
        To(s, i, Succeeded).(
          attRefs := s.attRefs[i := att], sigRefs := s.sigRefs[i := reply.ref],
          trace := s.trace + [SigAttached(i, reply.ref, bundle)])
      else Fail(s, i)
    case _ => s
  }

  // Phase two of subject i: fetch and verify the signature, fetch and verify
  // the attestation, and check that its statement names this digest.
  function VerifyStep(c: Config, s: State, i: nat, reply: Reply): State
    requires Shaped(c, s) && i < |s.pcs|
  {
    match s.pcs[i]
    case FetchingSig =>
      if reply.OkBlob? then To(s, i, CosignVerifying(reply.blob)).(trace := s.trace + [SigFetched(i, reply.blob)])
      else Fail(s, i)
    case CosignVerifying(sig) =>
      if reply.Ok? then To(s, i, FetchingAtt).(trace := s.trace + [SigVerified(i, sig)]) else Fail(s, i)
    case FetchingAtt =>
      if reply.OkBlob? then
        To(s, i, DsseVerifying(reply.blob)).(
          envs := s.envs[i := reply.blob], trace := s.trace + [AttFetched(i, reply.blob)])
      else Fail(s, i)
    case DsseVerifying(env) =>
      if reply.OkPayload? && reply.stmt.Some? then
        To(s, i, Naming(reply.stmt.value)).(trace := s.trace + [AttVerified(i, env, reply.stmt.value)])
      else Fail(s, i)
    case Naming(stmt) =>
      if Names(stmt, c.subjects[i]) then To(s, i, Succeeded) else Fail(s, i)
    case _ => s
  }

  // An answer that is no use where a subject's goroutine is: an error, a statement
  // without a subject, a payload that does not parse, another digest's statement.
  predicate BadReply(c: Config, i: nat, pc: Pc, reply: Reply)
    requires i < |c.subjects|
  {
    match pc
    case Generating => !reply.OkStatement? || reply.subjects == 0
    case DsseSigning => !reply.OkBlob?
    case SbomSigning(_) => !reply.OkBlob?
    case AttachingAtt(_, _) => !reply.OkRef?
    case CosignSigning(_) => !reply.OkBlob?
    case AttachingSig(_, _) => !reply.OkRef?
    case FetchingSig => !reply.OkBlob?
    case CosignVerifying(_) => !reply.Ok?
    case FetchingAtt => !reply.OkBlob?
    case DsseVerifying(_) => !reply.OkPayload? || reply.stmt.None?
    case Naming(stmt) => !Names(stmt, c.subjects[i])
    case _ => false
  }

  function Step(c: Config, s: State, a: Action): (r: Option<State>)
    requires Shaped(c, s)
    ensures r.Some? ==> Shaped(c, r.value)
  {
    match a
    case Dispatch =>
      // g.Go blocks while the limit is reached.
      if (s.phase == Attach || s.phase == Verify) && s.next < |s.pcs| && s.pcs[s.next] == Waiting && Running(s.pcs) < CONCURRENCY
      then Some(To(s, s.next, if s.phase == Attach then Generating else FetchingSig).(next := s.next + 1))
      else None
    case Call(i, reply) =>
      if i < |s.pcs| && Active(s.pcs[i]) then
        if s.phase == Attach then Some(AttachStep(c, s, i, reply))
        else if s.phase == Verify then Some(VerifyStep(c, s, i, reply))
        else None
      else None
    case Wait =>
      if s.next < |s.pcs| || exists i | 0 <= i < |s.pcs| :: !Over(s.pcs[i]) then None
      else if s.phase == Attach then
        Some(if s.failed then s.(phase := Unsigned)
             else s.(phase := Verify, pcs := seq(|s.pcs|, _ => Waiting), next := 0))
      else if s.phase == Verify then Some(s.(phase := if s.failed then Unsigned else Signed))
      else None
  }

  // The ports a step calls.
  function Calls(s: State, a: Action): set<Port>
  {
    if a.Call? && a.i < |s.pcs| then
      match s.pcs[a.i]
      case Generating => {SlsaGenerator}
      case DsseSigning => {DsseSigner}
      case SbomSigning(_) => {DsseSigner}
      case DsseVerifying(_) => {DsseSigner}
      case CosignSigning(_) => {CosignSigner}
      case CosignVerifying(_) => {CosignSigner}
      case AttachingAtt(_, _) => {Registry}
      case AttachingSig(_, _) => {Registry}
      case FetchingSig => {Registry}
      case FetchingAtt => {Registry}
      case _ => {}
    else {}
  }

  // The calls a step makes are those its results need.
  lemma CallsMatchWork(c: Config, s: State, a: Action)
    requires Shaped(c, s) && Step(c, s, a).Some?
    ensures var t := Step(c, s, a).value;
            t.trace == s.trace || (|t.trace| == |s.trace| + 1 && t.trace[..|s.trace|] == s.trace
                                   && Calls(s, a) == {PortOf(t.trace[|s.trace|])})
    ensures a.Call? && a.i < |s.pcs| && s.pcs[a.i].Generating? ==> Calls(s, a) == {SlsaGenerator}
    ensures !a.Call? ==> Calls(s, a) == {}
  {
  }

  function PortOf(e: Event): Port
  {
    match e
    case ProvenanceSigned(_, _) => DsseSigner
    case SbomSigned(_, _) => DsseSigner
    case AttVerified(_, _, _) => DsseSigner
    case BundleSigned(_, _) => CosignSigner
    case SigVerified(_, _) => CosignSigner
    case _ => Registry
  }

  // ---- Invariant --------------------------------------------------------------

  predicate AttachPc(pc: Pc)
  {
    pc.Waiting? || pc.Generating? || pc.DsseSigning? || pc.SbomSigning? || pc.AttachingAtt?
    || pc.CosignSigning? || pc.AttachingSig? || Over(pc)
  }

  predicate VerifyPc(pc: Pc)
  {
    pc.Waiting? || pc.FetchingSig? || pc.CosignVerifying? || pc.FetchingAtt?
    || pc.DsseVerifying? || pc.Naming? || Over(pc)
  }

  predicate HasAtt(trace: seq<Event>, i: nat, att: Ref)
  {
    exists e | e in trace :: e.AttAttached? && e.i == i && e.ref == att
  }

  predicate HasSig(trace: seq<Event>, i: nat, sig: Ref)
  {
    exists e | e in trace :: e.SigAttached? && e.i == i && e.ref == sig
  }

  // Subject i is attached on both counts, under these references.
  predicate AttachedAs(trace: seq<Event>, i: nat, att: Ref, sig: Ref)
  {
    HasAtt(trace, i, att) && HasSig(trace, i, sig)
  }

  // What an attachment carries was signed before, for this very subject: the
  // provenance envelope, an SBOM envelope exactly when there is an SBOM to sign,
  // the signature bundle.
  predicate Backed(c: Config, before: seq<Event>, e: Event)
  {
    match e
    case AttAttached(i, _, env, extra) =>
      && ProvenanceSigned(i, env) in before
      && (extra.Some? <==> c.sbom) && (extra.Some? ==> SbomSigned(i, extra.value) in before)
    case SigAttached(i, _, bundle) => BundleSigned(i, bundle) in before
    case _ => true
  }

  ghost predicate AllBacked(c: Config, trace: seq<Event>)
  {
    forall k | 0 <= k < |trace| :: Backed(c, trace[..k], trace[k])
  }

  ghost predicate Attached(trace: seq<Event>, i: nat)
  {
    exists att, sig :: AttachedAs(trace, i, att, sig)
  }

  ghost predicate AllAttached(trace: seq<Event>, n: nat)
  {
    forall i | 0 <= i < n :: Attached(trace, i)
  }

  // What the registry served back for subject i verified and names its digest.
  ghost predicate VerifiedIn(c: Config, trace: seq<Event>, i: nat)
    requires i < |c.subjects|
  {
    && (exists sig :: SigFetched(i, sig) in trace && SigVerified(i, sig) in trace)
    && (exists env, stmt :: AttFetched(i, env) in trace && AttVerified(i, env, stmt) in trace && Names(stmt, c.subjects[i]))
  }

  ghost predicate SigChecked(trace: seq<Event>, i: nat)
  {
    exists sig :: SigFetched(i, sig) in trace && SigVerified(i, sig) in trace
  }

  ghost predicate AttachTaskOk(c: Config, s: State, i: nat)
    requires i < |s.pcs| && i < |s.attRefs| && i < |s.sigRefs|
  {
    var pc := s.pcs[i];
    && AttachPc(pc)
    && (pc.SbomSigning? ==> c.sbom && ProvenanceSigned(i, pc.env) in s.trace)
    && (pc.AttachingAtt? ==>
          && ProvenanceSigned(i, pc.env) in s.trace
          && (pc.extra.Some? <==> c.sbom) && (pc.extra.Some? ==> SbomSigned(i, pc.extra.value) in s.trace))
    && (pc.CosignSigning? ==> HasAtt(s.trace, i, pc.att))
    && (pc.AttachingSig? ==> HasAtt(s.trace, i, pc.att) && BundleSigned(i, pc.bundle) in s.trace)
    && (pc.Succeeded? ==> AttachedAs(s.trace, i, s.attRefs[i], s.sigRefs[i]))
  }

  ghost predicate VerifyTaskOk(c: Config, s: State, i: nat)
    requires Shaped(c, s) && i < |s.pcs|
  {
    var pc := s.pcs[i];
    && VerifyPc(pc)
    && (pc.CosignVerifying? ==> SigFetched(i, pc.sig) in s.trace)
    && (pc.FetchingAtt? ==> SigChecked(s.trace, i))
    && (pc.DsseVerifying? ==> SigChecked(s.trace, i) && AttFetched(i, pc.fetched) in s.trace && s.envs[i] == pc.fetched)
    && (pc.Naming? ==>
          SigChecked(s.trace, i) && AttFetched(i, s.envs[i]) in s.trace && AttVerified(i, s.envs[i], pc.stmt) in s.trace)
    && (pc.Succeeded? ==> VerifiedIn(c, s.trace, i))
  }

  ghost predicate TaskOk(c: Config, s: State, i: nat)
    requires Shaped(c, s) && i < |s.pcs|
  {
    && (s.phase == Attach ==> AttachTaskOk(c, s, i))
    && (s.phase == Verify ==> VerifyTaskOk(c, s, i))
    && (s.pcs[i].Failed? ==> s.failed)
    && ((s.phase == Attach || s.phase == Verify) ==> (s.pcs[i].Waiting? <==> s.next <= i))
  }

  predicate Fetch(e: Event)
  {
    e.SigFetched? || e.SigVerified? || e.AttFetched? || e.AttVerified?
  }

  // Nothing is read back before every subject is attached.
  ghost predicate TwoPhase(c: Config, trace: seq<Event>)
  {
    forall k | 0 <= k < |trace| && Fetch(trace[k]) :: AllAttached(trace[..k], |c.subjects|)
  }

  // The reported references are those the registry returned for each subject.
  ghost predicate AllRefs(s: State)
    requires |s.attRefs| == |s.sigRefs| == |s.pcs|
  {
    forall i | 0 <= i < |s.pcs| :: AttachedAs(s.trace, i, s.attRefs[i], s.sigRefs[i])
  }

  ghost predicate Inv(c: Config, s: State)
  {
    && Shaped(c, s)
    && s.next <= |s.pcs|
    && Running(s.pcs) <= CONCURRENCY
    && (forall i | 0 <= i < |s.pcs| :: TaskOk(c, s, i))
    && (s.phase == Attach ==> forall k | 0 <= k < |s.trace| :: !Fetch(s.trace[k]))
    && (s.phase == Verify || s.phase == Signed ==> AllRefs(s))
    && (s.phase == Signed ==> forall i | 0 <= i < |s.pcs| :: VerifiedIn(c, s.trace, i))
    && (s.phase == Signed || s.phase == Unsigned ==> forall i | 0 <= i < |s.pcs| :: Over(s.pcs[i]))
    && TwoPhase(c, s.trace) && AllBacked(c, s.trace)
  }

  lemma {:induction false} RunningUpdate(pcs: seq<Pc>, i: nat, pc: Pc)
    requires i < |pcs|
    ensures Running(pcs[i := pc]) == Running(pcs) - (if Active(pcs[i]) then 1 else 0) + (if Active(pc) then 1 else 0)
  {
    var k := |pcs| - 1;
    if i < k {
      RunningUpdate(pcs[..k], i, pc);
      assert pcs[i := pc][..k] == pcs[..k][i := pc];
    } else {
      assert pcs[i := pc][..k] == pcs[..k];
    }
  }

  lemma {:induction false} NoneRunning(pcs: seq<Pc>)
    requires forall i | 0 <= i < |pcs| :: !Active(pcs[i])
    ensures Running(pcs) == 0
  {
    if pcs != [] {
      NoneRunning(pcs[..|pcs| - 1]);
    }
  }

  lemma InitInv(c: Config)
    ensures Inv(c, Init(c))
  {
    NoneRunning(Init(c).pcs);
  }

  // Appending one event keeps the two-phase order when it is an attach, or
  // when everything is attached already.
  lemma TwoPhaseAppend(c: Config, trace: seq<Event>, e: Event)
    requires TwoPhase(c, trace)
    requires Fetch(e) ==> AllAttached(trace, |c.subjects|)
    ensures TwoPhase(c, trace + [e])
  {
    var longer := trace + [e];
    forall k | 0 <= k < |longer| && Fetch(longer[k])
      ensures AllAttached(longer[..k], |c.subjects|)
    {
      if k < |trace| {
        assert longer[..k] == trace[..k] && longer[k] == trace[k];
      } else {
        assert longer[..k] == trace;
      }
    }
  }

  lemma AllBackedAppend(c: Config, trace: seq<Event>, e: Event)
    requires AllBacked(c, trace) && Backed(c, trace, e)
    ensures AllBacked(c, trace + [e])
  {
    var longer := trace + [e];
    forall k | 0 <= k < |longer|
      ensures Backed(c, longer[..k], longer[k])
    {
      assert longer[..k] == if k < |trace| then trace[..k] else trace;
    }
  }

  lemma AttachTaskKept(c: Config, s: State, t: State, i: nat, j: nat)
    requires Inv(c, s) && Shaped(c, t) && i < |s.pcs| && j < |s.pcs| && i != j
    requires t.pcs == s.pcs[i := t.pcs[i]]
    requires t.attRefs == s.attRefs[i := t.attRefs[i]] && t.sigRefs == s.sigRefs[i := t.sigRefs[i]]
    requires t.phase == s.phase == Attach && t.next == s.next && (s.failed ==> t.failed)
    requires s.trace <= t.trace
    ensures TaskOk(c, t, j)
  {
    assert TaskOk(c, s, j);
    TraceGrows(s.trace, t.trace);
  }

  lemma TraceGrows(a: seq<Event>, b: seq<Event>)
    requires a <= b
    ensures forall e :: e in a ==> e in b
  {
    assert forall k | 0 <= k < |a| :: a[k] == b[k];
  }

  lemma VerifiedGrows(c: Config, a: seq<Event>, b: seq<Event>, i: nat)
    requires a <= b && i < |c.subjects|
    ensures VerifiedIn(c, a, i) ==> VerifiedIn(c, b, i)
    ensures SigChecked(a, i) ==> SigChecked(b, i)
  {
    TraceGrows(a, b);
    if VerifiedIn(c, a, i) {
      var env, stmt :| AttFetched(i, env) in a && AttVerified(i, env, stmt) in a && Names(stmt, c.subjects[i]);
      assert AttFetched(i, env) in b && AttVerified(i, env, stmt) in b;
    }
  }

  lemma VerifyTaskKept(c: Config, s: State, t: State, i: nat, j: nat)
    requires Inv(c, s) && Shaped(c, t) && i < |s.pcs| && j < |s.pcs| && i != j
    requires t.pcs == s.pcs[i := t.pcs[i]] && t.envs == s.envs[i := t.envs[i]]
    requires t.phase == s.phase == Verify && t.next == s.next && (s.failed ==> t.failed)
    requires s.trace <= t.trace
    ensures TaskOk(c, t, j)
  {
    assert TaskOk(c, s, j);
    TraceGrows(s.trace, t.trace);
    VerifiedGrows(c, s.trace, t.trace, j);
  }

  lemma AttachTraceKept(c: Config, s: State, i: nat, reply: Reply)
    requires Inv(c, s) && s.phase == Attach && i < |s.pcs| && Active(s.pcs[i])
    ensures var t := AttachStep(c, s, i, reply);
            && TwoPhase(c, t.trace) && AllBacked(c, t.trace)
            && s.trace <= t.trace && forall k | 0 <= k < |t.trace| :: !Fetch(t.trace[k])
  {
    hide AllBacked, TwoPhase;
    var t := AttachStep(c, s, i, reply);
    assert TaskOk(c, s, i);
    if t.trace != s.trace {
      var e := t.trace[|s.trace|];
      assert t.trace == s.trace + [e];
      TwoPhaseAppend(c, s.trace, e);
      AllBackedAppend(c, s.trace, e);
    }
  }

  lemma AttachTaskStep(c: Config, s: State, i: nat, reply: Reply)
    requires Inv(c, s) && s.phase == Attach && i < |s.pcs| && Active(s.pcs[i])
    ensures TaskOk(c, AttachStep(c, s, i, reply), i)
  {
    assert TaskOk(c, s, i);
    var t := AttachStep(c, s, i, reply);
    TraceGrows(s.trace, t.trace);
    if t.trace != s.trace {
      assert t.trace[|s.trace|] in t.trace;
    }
  }

  // A call moves the goroutine that makes it and no other.
  ghost predicate MovesOne(c: Config, s: State, t: State, i: nat)
    requires Shaped(c, s) && i < |s.pcs|
  {
    && Shaped(c, t) && t.phase == s.phase && t.next == s.next && (s.failed ==> t.failed)
    && t.pcs == s.pcs[i := t.pcs[i]] && !t.pcs[i].Waiting? && t.attRefs == s.attRefs[i := t.attRefs[i]]
    && t.sigRefs == s.sigRefs[i := t.sigRefs[i]] && t.envs == s.envs[i := t.envs[i]]
  }

  lemma AttachMovesOne(c: Config, s: State, i: nat, reply: Reply)
    requires Shaped(c, s) && i < |s.pcs| && Active(s.pcs[i])
    ensures MovesOne(c, s, AttachStep(c, s, i, reply), i)
  {
  }

  lemma VerifyMovesOne(c: Config, s: State, i: nat, reply: Reply)
    requires Shaped(c, s) && i < |s.pcs| && Active(s.pcs[i])
    ensures MovesOne(c, s, VerifyStep(c, s, i, reply), i)
  {
    hide Names;
  }

  lemma AttachKeepsInv(c: Config, s: State, i: nat, reply: Reply)
    requires Inv(c, s) && s.phase == Attach && i < |s.pcs| && Active(s.pcs[i])
    ensures Inv(c, AttachStep(c, s, i, reply))
  {
    hide TwoPhase, AllBacked, TaskOk, AllRefs, AttachStep, Fetch;
    var t := AttachStep(c, s, i, reply);
    AttachMovesOne(c, s, i, reply);
    AttachTraceKept(c, s, i, reply);
    AttachTaskStep(c, s, i, reply);
    RunningUpdate(s.pcs, i, t.pcs[i]);
    forall j | 0 <= j < |t.pcs|
      ensures TaskOk(c, t, j)
    {
      if j != i {
        AttachTaskKept(c, s, t, i, j);
      }
    }
  }

  lemma VerifyTraceKept(c: Config, s: State, i: nat, reply: Reply)
    requires Inv(c, s) && s.phase == Verify && i < |s.pcs| && Active(s.pcs[i])
    ensures var t := VerifyStep(c, s, i, reply); AllRefs(t) && TwoPhase(c, t.trace) && AllBacked(c, t.trace) && s.trace <= t.trace
  {
    var t := VerifyStep(c, s, i, reply);
    TraceGrows(s.trace, t.trace);
    forall j | 0 <= j < |t.pcs|
      ensures AttachedAs(t.trace, j, t.attRefs[j], t.sigRefs[j]) && Attached(s.trace, j)
    {
      assert AttachedAs(s.trace, j, s.attRefs[j], s.sigRefs[j]);
    }
    if t.trace != s.trace {
      var e := t.trace[|s.trace|];
      assert t.trace == s.trace + [e];
      TwoPhaseAppend(c, s.trace, e);
      AllBackedAppend(c, s.trace, e);
    }
  }

  lemma VerifyTaskStep(c: Config, s: State, i: nat, reply: Reply)
    requires Inv(c, s) && s.phase == Verify && i < |s.pcs| && Active(s.pcs[i])
    ensures TaskOk(c, VerifyStep(c, s, i, reply), i)
  {
    var t := VerifyStep(c, s, i, reply);
    assert TaskOk(c, s, i);
    TraceGrows(s.trace, t.trace);
    VerifiedGrows(c, s.trace, t.trace, i);
    if s.pcs[i].CosignVerifying? && reply.Ok? {
      assert SigFetched(i, s.pcs[i].sig) in t.trace && SigVerified(i, s.pcs[i].sig) in t.trace;
    }
  }

  lemma VerifyKeepsInv(c: Config, s: State, i: nat, reply: Reply)
    requires Inv(c, s) && s.phase == Verify && i < |s.pcs| && Active(s.pcs[i])
    ensures Inv(c, VerifyStep(c, s, i, reply))
  {
    hide TwoPhase, AllBacked, TaskOk, AllRefs, VerifyStep, Fetch;
    var t := VerifyStep(c, s, i, reply);
    VerifyMovesOne(c, s, i, reply);
    VerifyTraceKept(c, s, i, reply);
    VerifyTaskStep(c, s, i, reply);
    RunningUpdate(s.pcs, i, t.pcs[i]);
    forall j | 0 <= j < |t.pcs|
      ensures TaskOk(c, t, j)
    {
      if j != i {
        VerifyTaskKept(c, s, t, i, j);
      }
    }
  }

  lemma DispatchKeepsInv(c: Config, s: State)
    requires Inv(c, s) && Step(c, s, Dispatch).Some?
    ensures Inv(c, Step(c, s, Dispatch).value)
  {
    var t := Step(c, s, Dispatch).value;
    RunningUpdate(s.pcs, s.next, t.pcs[s.next]);
    forall j | 0 <= j < |t.pcs|
      ensures TaskOk(c, t, j)
    {
      assert TaskOk(c, s, j);
    }
    if s.phase == Verify {
      forall j | 0 <= j < |t.pcs|
        ensures AttachedAs(t.trace, j, t.attRefs[j], t.sigRefs[j])
      {
        assert AttachedAs(s.trace, j, s.attRefs[j], s.sigRefs[j]);
      }
    }
  }

  // A drained group without an error has all its subjects succeeded.
  lemma DrainedMeansDone(c: Config, s: State)
    requires Inv(c, s) && Step(c, s, Wait).Some? && !s.failed
    ensures forall j | 0 <= j < |s.pcs| :: s.pcs[j] == Succeeded
    ensures s.phase == Attach ==> AllRefs(s)
    ensures s.phase == Verify ==> forall j | 0 <= j < |s.pcs| :: VerifiedIn(c, s.trace, j)
  {
    forall j | 0 <= j < |s.pcs|
      ensures s.pcs[j] == Succeeded
      ensures s.phase == Attach ==> AttachedAs(s.trace, j, s.attRefs[j], s.sigRefs[j])
      ensures s.phase == Verify ==> VerifiedIn(c, s.trace, j)
    {
      assert TaskOk(c, s, j) && Over(s.pcs[j]);
    }
  }

  lemma WaitKeepsInv(c: Config, s: State)
    requires Inv(c, s) && Step(c, s, Wait).Some?
    ensures Inv(c, Step(c, s, Wait).value)
  {
    var t := Step(c, s, Wait).value;
    if !s.failed {
      DrainedMeansDone(c, s);
    }
    if t.phase == Verify {
      NoneRunning(t.pcs);
    }
    forall j | 0 <= j < |t.pcs|
      ensures TaskOk(c, t, j)
    {
      assert TaskOk(c, s, j);
    }
  }

  lemma StepKeepsInv(c: Config, s: State, a: Action)
    requires Inv(c, s) && Step(c, s, a).Some?
    ensures Inv(c, Step(c, s, a).value)
  {
    match a {
      case Dispatch => DispatchKeepsInv(c, s);
      case Wait => WaitKeepsInv(c, s);
      case Call(i, reply) =>
        if s.phase == Attach {
          AttachKeepsInv(c, s, i, reply);
        } else {
          VerifyKeepsInv(c, s, i, reply);
        }
    }
  }

  // ---- Runs -------------------------------------------------------------------

  function Exec(c: Config, s: State, acts: seq<Action>): Option<State>
    requires Shaped(c, s)
    decreases |acts|
  {
    if acts == [] then Some(s)
    else
      var t := Step(c, s, acts[0]);
      if t.None? then None else Exec(c, t.value, acts[1..])
  }

  ghost predicate Reachable(c: Config, s: State)
  {
    exists acts :: Exec(c, Init(c), acts) == Some(s)
  }

  lemma {:induction false} ExecKeepsInv(c: Config, s: State, acts: seq<Action>)
    requires Inv(c, s) && Exec(c, s, acts).Some?
    ensures Inv(c, Exec(c, s, acts).value)
    decreases |acts|
  {
    if acts != [] {
      StepKeepsInv(c, s, acts[0]);
      ExecKeepsInv(c, Step(c, s, acts[0]).value, acts[1..]);
    }
  }

  lemma ReachableInv(c: Config, s: State)
    requires Reachable(c, s)
    ensures Inv(c, s)
  {
    var acts :| Exec(c, Init(c), acts) == Some(s);
    InitInv(c);
    ExecKeepsInv(c, Init(c), acts);
  }

  // ---- Results ------------------------------------------------------------------

  // Under every schedule at most four subjects are in flight; nothing is attached
  // that was not signed before for the same subject, and an attestation carries
  // the SBOM's envelope exactly when there is one to sign; and no signature or
  // attestation is fetched, or checked, before every subject has both attached.
  lemma NothingOutOfOrder(c: Config, s: State)
    requires Reachable(c, s)
    ensures TwoPhase(c, s.trace) && AllBacked(c, s.trace)
    ensures Running(s.pcs) <= 4
  {
    ReachableInv(c, s);
  }

  // While subjects are left to start, the next one is started unless four are in
  // flight.
  lemma StartedUnlessFour(c: Config, s: State)
    requires Reachable(c, s) && (s.phase == Attach || s.phase == Verify)
    ensures Shaped(c, s) && (Step(c, s, Dispatch).Some? <==> s.next < |c.subjects| && Running(s.pcs) < 4)
  {
    ReachableInv(c, s);
    if s.next < |s.pcs| {
      assert TaskOk(c, s, s.next);
    }
  }

  // A statement made for one digest names that digest and no other of its kind.
  lemma StatementNamesItsOwn(stmt: Statement, made: Hash, d: Hash)
    requires stmt == [Some(map[made.alg := made.hex])] && d.alg == made.alg
    ensures Names(stmt, d) <==> d == made
  {
    assert stmt[0] == Some(map[made.alg := made.hex]);
  }

  // Signed is reported only when each subject's fetched signature verified and
  // its fetched, verified attestation names exactly that subject's digest; and
  // then the i-th references are the ones the registry returned for subject i,
  // whatever the completion order.
  lemma SignedMeansVerified(c: Config, s: State)
    requires Reachable(c, s) && s.phase == Signed
    ensures forall i | 0 <= i < |c.subjects| :: VerifiedIn(c, s.trace, i)
    ensures |s.attRefs| == |s.sigRefs| == |c.subjects|
    ensures forall i | 0 <= i < |c.subjects| :: AttachedAs(s.trace, i, s.attRefs[i], s.sigRefs[i])
    ensures AllBacked(c, s.trace)
  {
    ReachableInv(c, s);
  }

  // The work left in a phase, one unit a step.
  function Work(pc: Pc): nat
  {
    match pc
    case Waiting => 7
    case Generating => 6
    case DsseSigning => 5
    case SbomSigning(_) => 4
    case AttachingAtt(_, _) => 3
    case CosignSigning(_) => 2
    case AttachingSig(_, _) => 1
    case FetchingSig => 5
    case CosignVerifying(_) => 4
    case FetchingAtt => 3
    case DsseVerifying(_) => 2
    case Naming(_) => 1
    case _ => 0
  }

  function WorkLeft(pcs: seq<Pc>): nat
  {
    if pcs == [] then 0 else WorkLeft(pcs[..|pcs| - 1]) + Work(pcs[|pcs| - 1])
  }

  lemma {:induction false} WorkUpdate(pcs: seq<Pc>, i: nat, pc: Pc)
    requires i < |pcs|
    ensures WorkLeft(pcs[i := pc]) == WorkLeft(pcs) - Work(pcs[i]) + Work(pc)
  {
    var k := |pcs| - 1;
    if i < k {
      WorkUpdate(pcs[..k], i, pc);
      assert pcs[i := pc][..k] == pcs[..k][i := pc];
    } else {
      assert pcs[i := pc][..k] == pcs[..k];
    }
  }

  lemma {:induction false} WaitingWork(n: nat)
    ensures WorkLeft(seq(n, _ => Waiting)) == 7 * n
  {
    if n > 0 {
      assert seq(n, _ => Waiting)[..n - 1] == seq(n - 1, _ => Waiting);
      WaitingWork(n - 1);
    }
  }

  function Measure(s: State): nat
  {
    WorkLeft(s.pcs) + (match s.phase case Attach => 7 * |s.pcs| + 2 case Verify => 1 case _ => 0)
  }

  lemma InitMeasure(c: Config)
    ensures Measure(Init(c)) == 14 * |c.subjects| + 2
  {
    WaitingWork(|c.subjects|);
    assert Init(c).pcs == seq(|c.subjects|, _ => Waiting);
  }

  // A call of subject i moves that subject forward and no other.
  lemma CallMovesOne(c: Config, s: State, i: nat, reply: Reply)
    requires Shaped(c, s) && i < |s.pcs| && Active(s.pcs[i])
    ensures AttachPc(s.pcs[i]) ==>
              var t := AttachStep(c, s, i, reply);
              t.pcs == s.pcs[i := t.pcs[i]] && Work(t.pcs[i]) < Work(s.pcs[i]) && t.phase == s.phase
    ensures VerifyPc(s.pcs[i]) ==>
              var t := VerifyStep(c, s, i, reply);
              t.pcs == s.pcs[i := t.pcs[i]] && Work(t.pcs[i]) < Work(s.pcs[i]) && t.phase == s.phase
  {
  }

  lemma StepUsesWork(c: Config, s: State, a: Action)
    requires Inv(c, s) && Step(c, s, a).Some?
    ensures Measure(Step(c, s, a).value) < Measure(s)
  {
    var t := Step(c, s, a).value;
    match a {
      case Dispatch => WorkUpdate(s.pcs, s.next, t.pcs[s.next]);
      case Call(i, reply) =>
        assert TaskOk(c, s, i);
        CallMovesOne(c, s, i, reply);
        WorkUpdate(s.pcs, i, t.pcs[i]);
      case Wait => WaitingWork(|s.pcs|);
    }
  }

  lemma {:induction false} RunsAreBounded(c: Config, s: State, acts: seq<Action>)
    requires Inv(c, s) && Exec(c, s, acts).Some?
    ensures |acts| + Measure(Exec(c, s, acts).value) <= Measure(s)
    decreases |acts|
  {
    if acts != [] {
      StepKeepsInv(c, s, acts[0]);
      StepUsesWork(c, s, acts[0]);
      RunsAreBounded(c, Step(c, s, acts[0]).value, acts[1..]);
    }
  }

  // Both groups always drain: a run takes at most fourteen steps a subject and
  // the two waits.
  lemma RunLength(c: Config, acts: seq<Action>)
    requires Exec(c, Init(c), acts).Some?
    ensures |acts| <= 14 * |c.subjects| + 2
  {
    InitInv(c);
    RunsAreBounded(c, Init(c), acts);
    InitMeasure(c);
  }

  // Until the stage has its verdict some goroutine, or the dispatch loop, or a
  // wait, can always move: the limit of four never deadlocks the dispatch loop.
  lemma NeverStuck(c: Config, s: State) returns (a: Action)
    requires Inv(c, s) && (s.phase == Attach || s.phase == Verify)
    ensures Step(c, s, a).Some?
  {
    if i :| 0 <= i < |s.pcs| && Active(s.pcs[i]) {
      return Call(i, Err);
    }
    NoneRunning(s.pcs);
    if s.next < |s.pcs| {
      assert TaskOk(c, s, s.next);
      return Dispatch;
    }
    forall i | 0 <= i < |s.pcs|
      ensures Over(s.pcs[i])
    {
      assert TaskOk(c, s, i) && !Active(s.pcs[i]);
    }
    a := Wait;
  }
}
