// The signed self-update: what is fetched and verified, in which order, and
// what may end up installed.
// Source: cmd/pokkum/upgrade.go, runUpgrade, parseChecksumForFilename,
// extractBinaryFromTarGz.

module Upgrade {
  import opened Text
  import opened Replacement
  import opened ReplacementProofs

  // ---- checksums.txt ---------------------------------------------------------------------

  // The length of the first word of s.
  function WordLength(s: string): (n: nat)
    ensures n <= |s| && (forall i | 0 <= i < n :: !IsSpace(s[i])) && (n < |s| ==> IsSpace(s[n]))
  {
    if s == [] || IsSpace(s[0]) then 0 else 1 + WordLength(s[1..])
  }

  // strings.Fields
  function Fields(s: string): seq<string>
    decreases |s|
  {
    var t := TrimLeft(s);
    if t == [] then [] else [t[..WordLength(t)]] + Fields(t[WordLength(t)..])
  }

  predicate HasSuffix(s: string, suffix: string)
  {
    |suffix| <= |s| && s[|s| - |suffix|..] == suffix
  }

  predicate NamesFile(fields: seq<string>, name: string): (b: bool)
    ensures b ==> |fields| >= 2
  {
    |fields| >= 2 && (fields[1] == name || HasSuffix(fields[1], ['/'] + name) || fields[1] == ['*'] + name)
  }

  // A line of the file that gives name's checksum, and the checksum it gives.
  predicate Gives(line: string, name: string)
  {
    NamesFile(Fields(Trim(line)), name)
  }

  function Digest(line: string, name: string): string
    requires Gives(line, name)
  {
    Fields(Trim(line))[0]
  }

  // The checksum on the first line, from the k-th on, that gives one for name.
  function ChecksumFrom(lines: seq<string>, k: nat, name: string): Option<string>
    requires k <= |lines|
    decreases |lines| - k
  {
    if k == |lines| then None
    else if Gives(lines[k], name) then Some(Digest(lines[k], name))
    else ChecksumFrom(lines, k + 1, name)
  }

  function Checksum(lines: seq<string>, name: string): Option<string>
  {
    ChecksumFrom(lines, 0, name)
  }

  method ParseChecksumForFilename(data: string, name: string) returns (r: Option<string>)
    ensures r == Checksum(Split(data, '\n'), name)
  {
    var lines := Split(data, '\n');
    hide Split;
    for k := 0 to |lines|
      invariant Checksum(lines, name) == ChecksumFrom(lines, k, name)
    {
      r := ReadLine(lines[k], name);
      hide Gives, Digest;
      if r.Some? {
        return;
      }
    }
    r := None;
  }

  // One line: trimmed, skipped when blank, split into fields.
  method ReadLine(line: string, name: string) returns (r: Option<string>)
    ensures r == if Gives(line, name) then Some(Digest(line, name)) else None
  {
    assert Fields([]) == [] && !NamesFile([], name);
    hide Trim, Fields, NamesFile;
    var trimmed := Trim(line);
    if trimmed != [] {
      var fields := Fields(trimmed);
      if NamesFile(fields, name) {
        return Some(fields[0]);
      }
    }
    r := None;
  }

  // Nothing is found exactly when no line gives a checksum; what is found is on
  // the first line that does.
  lemma {:induction false} ChecksumIsTheFirst(lines: seq<string>, k: nat, name: string)
    requires k <= |lines|
    ensures ChecksumFrom(lines, k, name).None? <==> forall j | k <= j < |lines| :: !Gives(lines[j], name)
    ensures ChecksumFrom(lines, k, name).Some? ==>
              exists j | k <= j < |lines| :: Gives(lines[j], name) && ChecksumFrom(lines, k, name).value == Digest(lines[j], name)
                                             && forall i | k <= i < j :: !Gives(lines[i], name)
    decreases |lines| - k
  {
    hide Gives, Digest;
    if k < |lines| {
      if Gives(lines[k], name) {
        assert ChecksumFrom(lines, k, name).value == Digest(lines[k], name);
      } else {
        ChecksumIsTheFirst(lines, k + 1, name);
        assert ChecksumFrom(lines, k, name) == ChecksumFrom(lines, k + 1, name);
      }
    }
  }

  // ---- What sha256sum writes reads back -----------------------------------------------------

  datatype Sum = Sum(digest: string, name: string)

  predicate Word(s: string)
  {
    s != [] && forall i | 0 <= i < |s| :: !IsSpace(s[i])
  }

  function Written(s: Sum): string
  {
    s.digest + ([' '] + ([' '] + s.name))
  }

  lemma WordAtEnd(w: string)
    requires Word(w)
    ensures WordLength(w) == |w| && TrimLeft(w) == w && Fields(w) == [w]
  {
    assert w[..|w|] == w && w[|w|..] == [];
    assert TrimLeft([]) == [] && Fields([]) == [];
  }

  lemma WordThen(w: string, rest: string)
    requires Word(w) && rest != [] && IsSpace(rest[0])
    ensures TrimLeft(w + rest) == w + rest && WordLength(w + rest) == |w|
    ensures Fields(w + rest) == [w] + Fields(rest)
  {
    var s := w + rest;
    WordLengthStops(w, rest);
    assert s[..|w|] == w && s[|w|..] == rest;
  }

  lemma {:induction false} WordLengthStops(w: string, rest: string)
    requires forall i | 0 <= i < |w| :: !IsSpace(w[i])
    requires rest != [] && IsSpace(rest[0])
    ensures WordLength(w + rest) == |w|
  {
    if w != [] {
      WordLengthStops(w[1..], rest);
      assert (w + rest)[1..] == w[1..] + rest;
    } else {
      assert w + rest == rest;
    }
  }

  lemma WrittenIsTrimmed(s: Sum)
    requires Word(s.digest) && Word(s.name)
    ensures Trim(Written(s)) == Written(s)
  {
    hide Trim;
    var line := Written(s);
    assert line[0] == s.digest[0] && line[|line| - 1] == s.name[|s.name| - 1];
    hide Written;
    TrimmedIsFixed(line);
  }

  lemma LineReadsBack(s: Sum)
    requires Word(s.digest) && Word(s.name)
    ensures Trim(Written(s)) == Written(s) && Fields(Written(s)) == [s.digest, s.name]
  {
    hide Trim, Fields;
    WrittenIsTrimmed(s);
    var gap := [' '] + ([' '] + s.name);
    WordThen(s.digest, gap);
    GapThenWord(s.name);
  }

  lemma SpaceThen(s: string)
    ensures TrimLeft([' '] + s) == TrimLeft(s) && Fields([' '] + s) == Fields(s)
  {
    assert ([' '] + s)[1..] == s;
  }

  lemma GapThenWord(w: string)
    requires Word(w)
    ensures Fields([' '] + ([' '] + w)) == [w]
  {
    hide Fields;
    WordAtEnd(w);
    SpaceThen(w);
    SpaceThen([' '] + w);
  }

  lemma LineGives(s: Sum, name: string)
    requires Word(s.digest) && Word(s.name)
    ensures Gives(Written(s), name) <==> s.name == name || HasSuffix(s.name, ['/'] + name) || s.name == ['*'] + name
    ensures Gives(Written(s), name) ==> Digest(Written(s), name) == s.digest
    ensures '\n' !in Written(s)
  {
    hide Fields, Trim;
    LineReadsBack(s);
  }

  function Lines(sums: seq<Sum>): (r: seq<string>)
    ensures |r| == |sums| && forall i | 0 <= i < |r| :: r[i] == Written(sums[i])
  {
    seq(|sums|, i requires 0 <= i < |sums| => Written(sums[i]))
  }

  // A name no other line's name is, or ends in.
  predicate OnlyListed(sums: seq<Sum>, k: nat)
    requires k < |sums|
  {
    forall i | 0 <= i < |sums| && i != k ::
      sums[i].name != sums[k].name && !HasSuffix(sums[i].name, ['/'] + sums[k].name) && sums[i].name != ['*'] + sums[k].name
  }

  lemma OnlyThatLineGives(sums: seq<Sum>, k: nat, i: nat)
    requires k < |sums| && i < |sums| && OnlyListed(sums, k)
    requires Word(sums[i].digest) && Word(sums[i].name)
    ensures var line := Lines(sums)[i];
            && (Gives(line, sums[k].name) <==> i == k)
            && (i == k ==> Digest(line, sums[k].name) == sums[k].digest)
            && '\n' !in line
  {
    hide Gives, Digest, Word;
    LineGives(sums[i], sums[k].name);
  }

  // A checksums file that lists a name once, and no other name ending in it,
  // gives back exactly the digest listed.
  lemma ListedDigestReadsBack(sums: seq<Sum>, k: nat)
    requires k < |sums| && OnlyListed(sums, k)
    requires forall i | 0 <= i < |sums| :: Word(sums[i].digest) && Word(sums[i].name)
    ensures Checksum(Split(Join(Lines(sums), '\n'), '\n'), sums[k].name) == Some(sums[k].digest)
  {
    hide Gives, Digest, Word, OnlyListed, HasSuffix, Written, ChecksumFrom;
    var lines, name := Lines(sums), sums[k].name;
    forall i | 0 <= i < |lines|
      ensures Gives(lines[i], name) <==> i == k
      ensures i == k ==> Digest(lines[i], name) == sums[k].digest
      ensures '\n' !in lines[i]
    {
      OnlyThatLineGives(sums, k, i);
    }
    assert forall p | p in lines :: '\n' !in p;
    SplitJoin(lines, '\n');
    hide Split, Join;
    ChecksumIsTheFirst(lines, 0, name);
    assert Gives(lines[k], name);
  }

  // ---- The archive -----------------------------------------------------------------------

  // A tar entry as read: readable is false when its data is cut short.
  datatype Entry = Entry(name: string, regular: bool, data: Bytes, readable: bool)

  // What gzip and tar make of the downloaded bytes: entries up to a clean end or
  // to the first error.
  datatype Archive = NotGzip | Tar(entries: seq<Entry>, clean: bool)

  const BINARY := "pokkum"
  const MAX_BINARY: nat := 536_870_912

  predicate IsBinary(base: string -> string, e: Entry)
  {
    base(e.name) == BINARY && e.regular
  }

  // The first regular entry named pokkum, in any directory.
  predicate FirstBinary(base: string -> string, entries: seq<Entry>, k: nat)
  {
    k < |entries| && IsBinary(base, entries[k]) && forall j | 0 <= j < k :: !IsBinary(base, entries[j])
  }

  // bytes are that entry's, whole and within the size cap.
  predicate Ships(base: string -> string, a: Archive, bytes: Bytes)
  {
    a.Tar? && exists k | 0 <= k < |a.entries| ::
      FirstBinary(base, a.entries, k) && a.entries[k].readable && a.entries[k].data == bytes && |bytes| <= MAX_BINARY
  }

  method ExtractBinary(base: string -> string, a: Archive) returns (r: Option<Bytes>)
    ensures r.Some? ==> Ships(base, a, r.value)
    ensures r.None? ==> forall bytes :: !Ships(base, a, bytes)
    ensures r.Some? ==> |r.value| <= 512 * 1024 * 1024
    ensures a.Tar? && r.None? ==> forall k | 0 <= k < |a.entries| && FirstBinary(base, a.entries, k) ::
                                    !a.entries[k].readable || |a.entries[k].data| > 512 * 1024 * 1024
  {
    if a.NotGzip? {
      return None;
    }
    for k := 0 to |a.entries|
      invariant forall j | 0 <= j < k :: !IsBinary(base, a.entries[j])
    {
      if IsBinary(base, a.entries[k]) {
        if !a.entries[k].readable || |a.entries[k].data| > MAX_BINARY {
          return None;
        }
        assert FirstBinary(base, a.entries, k);
        return Some(a.entries[k].data);
      }
    }
    r := None;
  }

  // Two byte strings cannot both be what an archive ships.
  lemma ShipsOneBinary(base: string -> string, a: Archive, x: Bytes, y: Bytes)
    requires Ships(base, a, x) && Ships(base, a, y)
    ensures x == y
  {
    var i :| 0 <= i < |a.entries| && FirstBinary(base, a.entries, i) && a.entries[i].data == x;
    var j :| 0 <= j < |a.entries| && FirstBinary(base, a.entries, j) && a.entries[j].data == y;
    assert i == j;
  }

  // ---- The run ------------------------------------------------------------------------------

  datatype Url = LatestRelease | Checksums(version: string) | ChecksumsSig(version: string) | ArchiveOf(version: string)

  // VerifyArtifactSignature(data, signature, key) and VerifyChecksum(data, digest).
  datatype Verifier = Verifier(signed: (Bytes, Bytes, Bytes) -> bool, matches: (Bytes, string) -> bool)

  // Everything outside the program: what the network serves, what the decoders
  // make of it, key files, and the verifier, when one is configured.
  datatype World = World(
    fetch: Url -> Option<Bytes>, tagOf: Bytes -> Option<string>, text: Bytes -> string, unpack: Bytes -> Archive,
    base: string -> string, archiveName: string -> string, readKey: string -> Option<Bytes>, defaultKey: Bytes,
    verifier: Option<Verifier>)

  datatype Flags = Flags(check: bool, target: string, offline: bool, key: string, json: bool)

  datatype Outcome =
    | Offline                                     // --offline, reported only
    | Checked(verified: bool, upToDate: bool)     // --check
    | Current(verified: bool)                     // nothing to do
    | Applied
    | Stopped

  // What may go wrong while the new binary is put in place; temp is the name
  // os.CreateTemp picked.
  datatype ApplyFaults = ApplyFaults(
    probe: bool, stat: bool, temp: Path, create: bool, write: Option<nat>, chmod: bool, close: bool, dropTemp: bool,
    replace: Faults)

  // strings.TrimPrefix(s, "v")
  function TrimV(s: string): string
  {
    if s != [] && s[0] == 'v' then s[1..] else s
  }

  const DEV_VERSION := "1.0.0-dev"

  function Running(version: string): string
  {
    if version == [] then DEV_VERSION else version
  }

  // The version asked for, or the latest release's; None when that is not to be had.
  function Wanted(w: World, current: string, flags: Flags): Option<string>
  {
    if flags.target != [] then Some(TrimV(flags.target))
    else
      var release := w.fetch(LatestRelease);
      if release.None? || w.tagOf(release.value).None? then None
      else if w.tagOf(release.value).value != [] then Some(TrimV(w.tagOf(release.value).value))
      else Some(current)
  }

  // --version, with or without its leading v, decides; else the latest release's
  // tag does, and only a release without a tag leaves the version as it is.
  lemma WantedIsAsked(w: World, current: string, flags: Flags, v: string)
    requires v == [] || v[0] != 'v'
    ensures v != [] && (flags.target == v || flags.target == ['v'] + v) ==> Wanted(w, current, flags) == Some(v)
    ensures flags.target == [] && w.fetch(LatestRelease).Some? ==>
              var tag := w.tagOf(w.fetch(LatestRelease).value);
              && (v != [] && (tag == Some(v) || tag == Some(['v'] + v)) ==> Wanted(w, current, flags) == Some(v))
              && (tag == Some([]) ==> Wanted(w, current, flags) == Some(current))
    ensures flags.target == [] && w.fetch(LatestRelease).None? ==> Wanted(w, current, flags).None?
  {
    assert (['v'] + v)[1..] == v;
  }

  function Key(w: World, flags: Flags): Option<Bytes>
  {
    if flags.key != [] then w.readKey(flags.key) else Some(w.defaultKey)
  }

  // The checksums file, its signature and a key to check it with are to be had.
  predicate Fetched(w: World, flags: Flags, version: string)
  {
    w.fetch(Checksums(version)).Some? && w.fetch(ChecksumsSig(version)).Some? && Key(w, flags).Some?
  }

  // The checksums file of that version was fetched, and its signature verifies.
  predicate SignedChecksums(w: World, flags: Flags, version: string)
  {
    var sums, sig, key := w.fetch(Checksums(version)), w.fetch(ChecksumsSig(version)), Key(w, flags);
    sums.Some? && sig.Some? && key.Some? && w.verifier.Some? && w.verifier.value.signed(sums.value, sig.value, key.value)
  }

  // The key is the file given with --key, which must be readable, else the built-in
  // one; so with a readable key file it is that key the signature must verify under.
  lemma SignedUnderTheAskedKey(w: World, flags: Flags, version: string)
    ensures SignedChecksums(w, flags, version) <==>
              && w.verifier.Some? && w.fetch(Checksums(version)).Some? && w.fetch(ChecksumsSig(version)).Some?
              && (flags.key == [] || w.readKey(flags.key).Some?)
              && w.verifier.value.signed(w.fetch(Checksums(version)).value, w.fetch(ChecksumsSig(version)).value,
                                         if flags.key == [] then w.defaultKey else w.readKey(flags.key).value)
  {
  }

  // bytes are the pokkum entry of an archive whose checksum verified against the
  // value parsed from that signed file.
  predicate Authentic(w: World, flags: Flags, version: string, bytes: Bytes)
  {
    && SignedChecksums(w, flags, version)
    && var archive := w.fetch(ArchiveOf(version));
    && archive.Some?
    && var digest := Checksum(Split(w.text(w.fetch(Checksums(version)).value), '\n'), w.archiveName(version));
    && digest.Some?
    && w.verifier.value.matches(archive.value, digest.value)
    && Ships(w.base, w.unpack(archive.value), bytes)
  }

  const DEFAULT_MODE: nat := 493   // 0o755

  // The mode the new binary gets: the old one's permission bits, or 0o755.
  function TargetMode(d: Files, exec: Path): nat
  {
    if exec in d then Perm(d[exec].mode) else DEFAULT_MODE
  }

  // Nothing an upgrade does makes an installed binary unavailable, and it touches
  // only the target, its backup and its own temporary file.
  ghost predicate Harmless(before: Files, now: Files, exec: Path, temp: Path, source: File)
  {
    && (exec in before ==> Safe(now, exec, before[exec], source))
    && SameExcept(now, before, {temp, exec, BackupOf(exec)})
  }

  ghost predicate AllHarmless(before: Files, steps: seq<Files>, exec: Path, temp: Path, source: File)
  {
    forall k | 0 <= k < |steps| :: Harmless(before, steps[k], exec, temp, source)
  }

  // Swapping in a staged file, instant by instant, and how it ends.
  lemma SwapHarmless(before: Files, temp: Path, exec: Path, source: File, f: Faults)
    requires temp !in before && temp != exec && temp != BackupOf(exec) && Perm(source.mode) == source.mode
    ensures var d := before[temp := source];
            var r := ReplaceSpec(d, temp, exec, f);
            && AllHarmless(before, r.steps, exec, temp, source)
            && Harmless(before, Final(d, r), exec, temp, source)
            && (r.ok ==> exec in Final(d, r) && Final(d, r)[exec] == source)
            && (!r.ok && exec !in before && f.dropPartial ==> exec !in Final(d, r))
            && (r.ok && f.dropSource ==> temp !in Final(d, r))
  {
    hide RenameOrCopySpec, BackupOf;
    var d := before[temp := source];
    var r := ReplaceSpec(d, temp, exec, f);
    if exec in before {
      ReplaceOutcome(d, temp, exec, f);
      forall k | 0 <= k < |Instants(d, r)|
        ensures Harmless(before, Instants(d, r)[k], exec, temp, source)
      {
        EveryInstantSafe(d, temp, exec, f, k);
      }
      assert forall k | 0 <= k < |r.steps| :: r.steps[k] == Instants(d, r)[k + 1];
      assert Final(d, r) == Instants(d, r)[|r.steps|];
    } else {
      FreshInstallOutcome(d, temp, exec, f);
      MoveTouchesTwoPaths(d, temp, exec, f);
    }
  }

  // Every step of the apply that can fail works.
  predicate InstallWorks(d: Files, bytes: Bytes, exec: Path, f: ApplyFaults)
  {
    && (exec in d ==> f.stat)
    && f.create && f.write.None? && f.chmod && f.close
    && ReplaceSpec(d[f.temp := File(bytes, TargetMode(d, exec))], f.temp, exec, f.replace).ok
  }

  // The temporary file: created, written, given its mode and closed, or removed.
  method Stage(disk: Disk, bytes: Bytes, mode: nat, f: ApplyFaults) returns (ok: bool)
    requires disk.Valid() && f.temp !in disk.files
    modifies disk
    ensures disk.Valid() && old(disk.trail) <= disk.trail
    ensures forall k | |old(disk.trail)| <= k < |disk.trail| :: SameExcept(disk.trail[k], old(disk.files), {f.temp})
    ensures SameExcept(disk.files, old(disk.files), {f.temp})
    ensures ok <==> f.create && f.write.None? && f.chmod && f.close
    ensures ok ==> disk.files == old(disk.files)[f.temp := File(bytes, mode)]
    ensures !ok && f.dropTemp ==> f.temp !in disk.files
  {
    if !f.create {
      return false;
    }
    disk.Write(f.temp, [], 384);
    var n := if f.write.Some? && f.write.value < |bytes| then f.write.value else |bytes|;
    disk.WriteBytes(f.temp, bytes, 384, n);
    if f.write.Some? || !f.chmod {
      disk.RemoveFile(f.temp, f.dropTemp);
      return false;
    }
    disk.Write(f.temp, bytes, mode);
    if !f.close {
      disk.RemoveFile(f.temp, f.dropTemp);
      return false;
    }
    ok := true;
  }

  // The apply step: the new binary is staged beside the target and swapped in.
  method Install(disk: Disk, bytes: Bytes, exec: Path, f: ApplyFaults) returns (ok: bool)
    requires disk.Valid() && f.temp !in disk.files && f.temp != exec && f.temp != BackupOf(exec)
    modifies disk
    ensures disk.Valid() && old(disk.trail) <= disk.trail
    ensures ok <==> InstallWorks(old(disk.files), bytes, exec, f)
    ensures var source := File(bytes, TargetMode(old(disk.files), exec));
            && (ok ==> exec in disk.files && disk.files[exec] == source)
            && (!ok && exec !in old(disk.files) && f.replace.dropPartial ==> exec !in disk.files)
            && AllHarmless(old(disk.files), disk.trail[|old(disk.trail)|..], exec, f.temp, source)
    ensures (if ok then f.replace.dropSource else f.dropTemp) ==> f.temp !in disk.files
  {
    ghost var before, t := disk.files, disk.trail;
    var mode := TargetMode(disk.files, exec);
    ghost var source := File(bytes, mode);
    if exec in disk.files && !f.stat {
      return false;
    }
    ok := Stage(disk, bytes, mode, f);
    assert AllHarmless(before, disk.trail[|t|..], exec, f.temp, source);
    if !ok {
      return;
    }
    hide ReplaceSpec, BackupOf, Harmless;
    ghost var staged := disk.trail;
    SwapHarmless(before, f.temp, exec, source, f.replace);
    ok := disk.ReplaceBinary(f.temp, exec, f.replace);
    ghost var swapped := ReplaceSpec(before[f.temp := source], f.temp, exec, f.replace).steps;
    assert disk.trail[|t|..] == staged[|t|..] + swapped;
    if !ok {
      RemovalHarmless(before, disk.files, exec, f.temp, source, f.dropTemp);
      disk.RemoveFile(f.temp, f.dropTemp);
      assert disk.trail[|t|..] == staged[|t|..] + swapped + [disk.files];
    }
  }

  lemma RemovalHarmless(before: Files, now: Files, exec: Path, temp: Path, source: File, works: bool)
    requires temp != exec && temp != BackupOf(exec) && Harmless(before, now, exec, temp, source)
    ensures Harmless(before, Remove(now, temp, works), exec, temp, source)
  {
  }

  // The run goes on to install something, if it can: not a check, not offline,
  // and not already at the latest version.
  predicate Installs(w: World, current: string, flags: Flags)
  {
    && !flags.offline && !flags.check
    && Wanted(w, current, flags).Some?
    && !(Wanted(w, current, flags).value == current && flags.target == [])
  }

  // What the disk has been through is harmless, and only a binary that is
  // authentic was ever brought in.
  ghost predicate OnlyAuthentic(w: World, flags: Flags, version: string, before: Files, steps: seq<Files>, exec: Path, temp: Path)
  {
    steps == [] || exists bytes :: Authentic(w, flags, version, bytes)
                                   && AllHarmless(before, steps, exec, temp, File(bytes, TargetMode(before, exec)))
  }

  method RunUpgrade(disk: Disk, w: World, version: string, flags: Flags, exec: Path, f: ApplyFaults) returns (r: Outcome)
    requires disk.Valid() && f.temp !in disk.files && f.temp != exec && f.temp != BackupOf(exec)
    modifies disk
    ensures disk.Valid() && old(disk.trail) <= disk.trail
    ensures !Installs(w, Running(version), flags) ==> !r.Applied? && disk.files == old(disk.files) && disk.trail == old(disk.trail)
    ensures r.Offline? <==> flags.offline && (flags.check || flags.json)
    ensures r.Checked? <==> !flags.offline && flags.check && Wanted(w, Running(version), flags).Some?
                            && Fetched(w, flags, Wanted(w, Running(version), flags).value)
    ensures r.Current? <==> !flags.offline && !flags.check && flags.target == []
                            && Wanted(w, Running(version), flags) == Some(if version == [] then DEV_VERSION else version)
                            && SignedChecksums(w, flags, if version == [] then DEV_VERSION else version)
    ensures r.Checked? ==> Wanted(w, Running(version), flags).Some?
                           && (r.verified <==> SignedChecksums(w, flags, Wanted(w, Running(version), flags).value))
                           && (r.upToDate <==> Wanted(w, Running(version), flags) == Some(Running(version)))
    ensures r.Current? ==> r.verified
    ensures r.Applied? <==> Installs(w, Running(version), flags) && f.probe &&
                            exists bytes :: Authentic(w, flags, Wanted(w, Running(version), flags).value, bytes)
                                            && InstallWorks(old(disk.files), bytes, exec, f)
    ensures r.Applied? ==> exec in disk.files
                           && Authentic(w, flags, Wanted(w, Running(version), flags).value, disk.files[exec].content)
                           && disk.files[exec].mode == if exec in old(disk.files) then old(disk.files)[exec].mode % 512 else 493
    ensures Installs(w, Running(version), flags) ==>
              OnlyAuthentic(w, flags, Wanted(w, Running(version), flags).value, old(disk.files),
                            disk.trail[|old(disk.trail)|..], exec, f.temp)
  {
    hide InstallWorks, AllHarmless, Checksum, Ships;
    var current := Running(version);
    if flags.offline {
      return if flags.check || flags.json then Offline else Stopped;
    }
    var wanted := Wanted(w, current, flags);
    if wanted.None? {
      return Stopped;
    }
    var sums := w.fetch(Checksums(wanted.value));
    if sums.None? {
      return Stopped;
    }
    var sig := w.fetch(ChecksumsSig(wanted.value));
    if sig.None? {
      return Stopped;
    }
    var key := Key(w, flags);
    if key.None? {
      return Stopped;
    }
    var verified := false;
    if w.verifier.None? {
      if !flags.check {
        return Stopped;
      }
    } else {
      verified := w.verifier.value.signed(sums.value, sig.value, key.value);
      if !verified && !flags.check {
        return Stopped;
      }
    }
    if flags.check {
      return Checked(verified, wanted.value == current);
    }
    if wanted.value == current && flags.target == [] {
      return Current(verified);
    }
    if !f.probe {
      return Stopped;
    }
    var archive := w.fetch(ArchiveOf(wanted.value));
    if archive.None? {
      return Stopped;
    }
    var digest := ParseChecksumForFilename(w.text(sums.value), w.archiveName(wanted.value));
    if digest.None? || !w.verifier.value.matches(archive.value, digest.value) {
      return Stopped;
    }
    var bytes := ExtractBinary(w.base, w.unpack(archive.value));
    if bytes.None? {
      return Stopped;
    }
    assert Authentic(w, flags, wanted.value, bytes.value);
    var ok := Install(disk, bytes.value, exec, f);
    OneAuthentic(w, flags, wanted.value, bytes.value);
    r := if ok then Applied else Stopped;
  }

  // There is only one binary a run could install.
  lemma OneAuthentic(w: World, flags: Flags, version: string, bytes: Bytes)
    ensures forall other :: Authentic(w, flags, version, bytes) && Authentic(w, flags, version, other) ==> other == bytes
  {
    forall other | Authentic(w, flags, version, bytes) && Authentic(w, flags, version, other)
      ensures other == bytes
    {
      ShipsOneBinary(w.base, w.unpack(w.fetch(ArchiveOf(version)).value), other, bytes);
    }
  }
}
