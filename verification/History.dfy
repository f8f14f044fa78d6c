// Which child of a multi-platform index `pokkum history` reads: the choice must
// not depend on the order a registry lists the children in.
// Source: cmd/pokkum/history.go, selectHistoryChildManifest, platformString.

module History {
  import opened Text

  datatype Platform = Platform(os: string, arch: string, variant: string)

  // A child of the index; other is whatever else its descriptor carries.
  datatype Descriptor = Descriptor(platform: Option<Platform>, digest: string, other: nat)

  // v1.Platform.String, the library's rendering of a platform.
  type Rendering = Platform -> string

  function PlatformString(render: Rendering, p: Option<Platform>): string
  {
    if p.None? then [] else render(p.value)
  }

  // buildx's mark for attestation entries, which are no images.
  predicate IsAttestation(d: Descriptor)
  {
    d.platform.Some? && d.platform.value.os == "unknown" && d.platform.value.arch == "unknown"
  }

  predicate IsDefault(d: Descriptor)
  {
    d.platform.Some? && d.platform.value.os == "linux" && d.platform.value.arch == "amd64"
  }

  predicate Runs(d: Descriptor, os: string, arch: string)
  {
    d.platform.Some? && d.platform.value.os == os && d.platform.value.arch == arch
  }

  // What the command reports of a child, and what it sorts by.
  datatype Key = Key(platform: string, digest: string)

  function KeyOf(render: Rendering, d: Descriptor): Key
  {
    Key(PlatformString(render, d.platform), d.digest)
  }

  // ---- Go's string order, and the sort ------------------------------------------------

  predicate LexLeq(a: string, b: string)
  {
    a == [] || (b != [] && (a[0] < b[0] || (a[0] == b[0] && LexLeq(a[1..], b[1..]))))
  }

  predicate Leq(a: Key, b: Key)
  {
    if a.platform != b.platform then LexLeq(a.platform, b.platform) else LexLeq(a.digest, b.digest)
  }

  lemma {:induction false} LexTotal(a: string, b: string)
    ensures LexLeq(a, b) || LexLeq(b, a)
    ensures LexLeq(a, b) && LexLeq(b, a) ==> a == b
  {
    if a != [] && b != [] && a[0] == b[0] {
      LexTotal(a[1..], b[1..]);
      assert a == [a[0]] + a[1..] && b == [b[0]] + b[1..];
    }
  }

  lemma {:induction false} LexTransitive(a: string, b: string, c: string)
    requires LexLeq(a, b) && LexLeq(b, c)
    ensures LexLeq(a, c)
  {
    if a != [] && a[0] == b[0] && b[0] == c[0] {
      LexTransitive(a[1..], b[1..], c[1..]);
    }
  }

  lemma LeqIsATotalOrder(a: Key, b: Key, c: Key)
    ensures Leq(a, b) || Leq(b, a)
    ensures Leq(a, b) && Leq(b, a) ==> a == b
    ensures Leq(a, b) && Leq(b, c) ==> Leq(a, c)
  {
    LexTotal(a.platform, b.platform);
    LexTotal(a.digest, b.digest);
    LexTotal(b.platform, c.platform);
    if LexLeq(a.platform, b.platform) && LexLeq(b.platform, c.platform) {
      LexTransitive(a.platform, b.platform, c.platform);
    }
    if LexLeq(a.digest, b.digest) && LexLeq(b.digest, c.digest) {
      LexTransitive(a.digest, b.digest, c.digest);
    }
  }

  predicate Sorted(render: Rendering, s: seq<Descriptor>)
  {
    forall i, j | 0 <= i < j < |s| :: Leq(KeyOf(render, s[i]), KeyOf(render, s[j]))
  }

  // sort.Slice promises a sorted rearrangement and no more; this is one.
  method SortByKey(render: Rendering, s: seq<Descriptor>) returns (t: seq<Descriptor>)
    ensures Sorted(render, t) && multiset(t) == multiset(s)
  {
    t := [];
    for i := 0 to |s|
      invariant Sorted(render, t) && multiset(t) == multiset(s[..i])
    {
      assert s[..i + 1] == s[..i] + [s[i]];
      t := Insert(render, t, s[i]);
    }
    assert s[..|s|] == s;
  }

  method Insert(render: Rendering, s: seq<Descriptor>, d: Descriptor) returns (t: seq<Descriptor>)
    requires Sorted(render, s)
    ensures Sorted(render, t) && multiset(t) == multiset(s) + multiset{d}
  {
    hide Leq, KeyOf;
    var k := 0;
    while k < |s| && Leq(KeyOf(render, s[k]), KeyOf(render, d))
      invariant 0 <= k <= |s|
      invariant forall i | 0 <= i < k :: Leq(KeyOf(render, s[i]), KeyOf(render, d))
    {
      k := k + 1;
    }
    t := s[..k] + [d] + s[k..];
    assert s == s[..k] + s[k..];
    if k < |s| {
      forall j | k <= j < |s|
        ensures Leq(KeyOf(render, d), KeyOf(render, s[j]))
      {
        LeqIsATotalOrder(KeyOf(render, s[k]), KeyOf(render, d), KeyOf(render, s[j]));
        LeqIsATotalOrder(KeyOf(render, d), KeyOf(render, s[k]), KeyOf(render, s[j]));
      }
    }
  }

  // ---- The choice ------------------------------------------------------------------------

  function Candidates(ms: seq<Descriptor>): seq<Descriptor>
  {
    if ms == [] then []
    else (if IsAttestation(ms[0]) then [] else [ms[0]]) + Candidates(ms[1..])
  }

  lemma {:induction false} CandidatesAreImages(ms: seq<Descriptor>)
    ensures forall d :: d in Candidates(ms) <==> d in ms && !IsAttestation(d)
  {
    hide IsAttestation;
    if ms != [] {
      CandidatesAreImages(ms[1..]);
      assert ms == [ms[0]] + ms[1..];
    }
  }

  // The first linux/amd64 candidate where there is one, else a least one.
  predicate Selected(render: Rendering, ms: seq<Descriptor>, d: Descriptor)
  {
    var cs := Candidates(ms);
    if exists e | e in cs :: IsDefault(e)
    then exists k | 0 <= k < |cs| :: cs[k] == d && IsDefault(d) && forall j | 0 <= j < k :: !IsDefault(cs[j])
    else d in cs && forall e | e in cs :: Leq(KeyOf(render, d), KeyOf(render, e))
  }

  method FilterCandidates(ms: seq<Descriptor>) returns (cs: seq<Descriptor>)
    ensures cs == Candidates(ms)
  {
    hide IsAttestation;
    cs := [];
    for i := 0 to |ms|
      invariant cs + Candidates(ms[i..]) == Candidates(ms)
    {
      assert ms[i..][1..] == ms[i + 1..] && ms[i..][0] == ms[i];
      if !IsAttestation(ms[i]) {
        cs := cs + [ms[i]];
      }
    }
  }

  method FindDefault(cs: seq<Descriptor>) returns (k: nat)
    ensures k <= |cs| && (forall j | 0 <= j < k :: !IsDefault(cs[j])) && (k < |cs| ==> IsDefault(cs[k]))
  {
    hide IsDefault;
    k := 0;
    while k < |cs| && !IsDefault(cs[k])
      invariant k <= |cs|
      invariant forall j | 0 <= j < k :: !IsDefault(cs[j])
    {
      k := k + 1;
    }
  }

  lemma MarksTell()
    ensures forall d :: IsAttestation(d) <==> Runs(d, "unknown", "unknown")
    ensures forall d :: IsDefault(d) <==> Runs(d, "linux", "amd64")
    ensures forall d :: IsDefault(d) ==> !IsAttestation(d)
  {
  }

  // The order is by platform, then by digest, both by the first difference.
  lemma OrderIs(a: Key, b: Key)
    ensures Leq(a, b) <==> Precedes(a.platform, b.platform)
                           || (a.platform == b.platform && (a.digest == b.digest || Precedes(a.digest, b.digest)))
  {
    LexByDifference(a.platform, b.platform);
    LexByDifference(a.digest, b.digest);
    LexTotal(a.platform, b.platform);
  }

  // b goes on where a ends, or has the greater character where they first differ.
  predicate Precedes(a: string, b: string)
  {
    exists k | 0 <= k <= |a| && k < |b| :: a[..k] == b[..k] && (k == |a| || a[k] < b[k])
  }

  lemma PrecedesStep(a: string, b: string)
    requires a != [] && b != [] && a[0] == b[0]
    ensures Precedes(a, b) <==> Precedes(a[1..], b[1..])
  {
    if Precedes(a[1..], b[1..]) {
      var k :| 0 <= k < |a| && k < |b| - 1 && a[1..][..k] == b[1..][..k] && (k == |a| - 1 || a[1..][k] < b[1..][k]);
      assert a[..k + 1] == [a[0]] + a[1..][..k] && b[..k + 1] == [b[0]] + b[1..][..k];
    }
    if Precedes(a, b) {
      var k :| 0 <= k <= |a| && k < |b| && a[..k] == b[..k] && (k == |a| || a[k] < b[k]);
      assert a[1..][..k - 1] == a[..k][1..] == b[..k][1..] == b[1..][..k - 1];
    }
  }

  lemma PrecedesHere(a: string, b: string)
    requires b != [] && (a == [] || a[0] != b[0])
    ensures Precedes(a, b) <==> a == [] || a[0] < b[0]
  {
    assert a[..0] == b[..0];
    assert forall k | 0 < k <= |a| && k < |b| :: a[..k][0] == a[0] && b[..k][0] == b[0];
  }

  lemma {:induction false} LexByDifference(a: string, b: string)
    ensures LexLeq(a, b) <==> a == b || Precedes(a, b)
  {
    if b == [] {
    } else if a == [] || a[0] != b[0] {
      PrecedesHere(a, b);
    } else {
      LexByDifference(a[1..], b[1..]);
      PrecedesStep(a, b);
      hide Precedes;
      assert a == [a[0]] + a[1..] && b == [b[0]] + b[1..];
    }
  }

  method SelectHistoryChildManifest(render: Rendering, ms: seq<Descriptor>) returns (r: Option<Descriptor>)
    ensures r.None? <==> forall d | d in ms :: IsAttestation(d)
    ensures r.Some? ==> Selected(render, ms, r.value) && r.value in ms && !IsAttestation(r.value)
    ensures r.None? <==> forall d | d in ms :: Runs(d, "unknown", "unknown")
    ensures (exists d | d in ms :: Runs(d, "linux", "amd64")) ==> r.Some? && Runs(r.value, "linux", "amd64")
  {
    MarksTell();
    CandidatesAreImages(ms);
    hide IsAttestation, IsDefault, Leq, KeyOf, Sorted, Runs;
    var cs := FilterCandidates(ms);
    hide Candidates;
    if |cs| == 0 {
      assert forall d | d in ms :: !IsAttestation(d) ==> d in cs;
      return None;
    }
    assert cs[0] in cs;
    var k := FindDefault(cs);
    if k < |cs| {
      assert cs[k] in cs;
      return Some(cs[k]);
    }
    var sorted := SortByKey(render, cs);
    SameChildren(sorted, cs);
    FirstIsLeast(render, sorted);
    assert sorted[0] in sorted;
    r := Some(sorted[0]);
  }

  lemma FirstIsLeast(render: Rendering, s: seq<Descriptor>)
    requires Sorted(render, s) && s != []
    ensures forall e | e in s :: Leq(KeyOf(render, s[0]), KeyOf(render, e))
  {
    LeqIsATotalOrder(KeyOf(render, s[0]), KeyOf(render, s[0]), KeyOf(render, s[0]));
  }

  // ---- Independence of the order ---------------------------------------------------------

  // The linux/amd64 children of an index all read the same: in particular when
  // there is at most one.
  predicate DefaultsAgree(render: Rendering, ms: seq<Descriptor>)
  {
    forall a, b | a in ms && b in ms && IsDefault(a) && IsDefault(b) :: KeyOf(render, a) == KeyOf(render, b)
  }

  predicate Permutes(a: seq<Descriptor>, b: seq<Descriptor>)
  {
    multiset(a) == multiset(b)
  }

  lemma SameChildren(a: seq<Descriptor>, b: seq<Descriptor>)
    requires Permutes(a, b)
    ensures forall d :: d in a <==> d in b
  {
    assert forall d :: d in a <==> d in multiset(a);
    assert forall d :: d in b <==> d in multiset(b);
  }

  lemma SelectionAgrees(render: Rendering, ms: seq<Descriptor>, p: seq<Descriptor>, q: seq<Descriptor>, x: Descriptor, y: Descriptor)
    requires DefaultsAgree(render, ms) && Permutes(p, ms) && Permutes(q, ms)
    requires Selected(render, p, x) && Selected(render, q, y)
    ensures KeyOf(render, x) == KeyOf(render, y)
  {
    hide Leq, IsDefault, IsAttestation;
    SameChildren(p, ms);
    SameChildren(q, ms);
    CandidatesAreImages(p);
    CandidatesAreImages(q);
    hide Candidates;
    assert forall d :: d in Candidates(p) <==> d in Candidates(q);
    LeqIsATotalOrder(KeyOf(render, x), KeyOf(render, y), KeyOf(render, x));
  }

  // Brought to the front, a linux/amd64 child is the one selected.
  lemma FrontIsSelected(render: Rendering, ms: seq<Descriptor>, k: nat)
    requires k < |ms| && IsDefault(ms[k])
    ensures var front := [ms[k]] + ms[..k] + ms[k + 1..]; Permutes(front, ms) && Selected(render, front, ms[k])
  {
    var front := [ms[k]] + ms[..k] + ms[k + 1..];
    assert ms == ms[..k] + [ms[k]] + ms[k + 1..];
    assert !IsAttestation(ms[k]);
    assert front[0] == ms[k] && Candidates(front)[0] == ms[k];
    assert ms[k] in Candidates(front);
  }

  // What is selected has the same platform and digest in every order of the
  // children exactly when all linux/amd64 children agree on both.
  lemma OrderIndependentIff(render: Rendering, ms: seq<Descriptor>)
    ensures DefaultsAgree(render, ms) <==>
            forall p, q, x, y | Permutes(p, ms) && Permutes(q, ms) && Selected(render, p, x) && Selected(render, q, y) ::
              KeyOf(render, x) == KeyOf(render, y)
  {
    hide Selected, IsDefault, KeyOf, Permutes;
    if DefaultsAgree(render, ms) {
      forall p, q, x, y | Permutes(p, ms) && Permutes(q, ms) && Selected(render, p, x) && Selected(render, q, y)
        ensures KeyOf(render, x) == KeyOf(render, y)
      {
        SelectionAgrees(render, ms, p, q, x, y);
      }
    } else {
      var a, b :| a in ms && b in ms && IsDefault(a) && IsDefault(b) && KeyOf(render, a) != KeyOf(render, b);
      var i :| 0 <= i < |ms| && ms[i] == a;
      var j :| 0 <= j < |ms| && ms[j] == b;
      FrontIsSelected(render, ms, i);
      FrontIsSelected(render, ms, j);
    }
  }
}
