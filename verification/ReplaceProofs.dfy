// What replacing the binary guarantees at every instant, how it ends, and what a
// second attempt may rely on after a crash.
// Source: cmd/pokkum/upgrade.go, replaceBinary.

module ReplacementProofs {
  import opened Text
  import opened Replacement

  predicate Holds(d: Files, p: Path, f: File)
  {
    p in d && d[p] == f
  }

  // The complete new binary: the source's bytes, with its mode or, where it was
  // copied, its permission bits.
  predicate IsNew(f: File, source: File)
  {
    f.content == source.content && (f.mode == source.mode || f.mode == Perm(source.mode))
  }

  // The new binary complete at the target, or the old one intact at target or backup.
  predicate Safe(d: Files, target: Path, old_: File, source: File)
  {
    || (target in d && IsNew(d[target], source))
    || Holds(d, target, old_)
    || Holds(d, BackupOf(target), old_)
  }

  ghost predicate SameExcept(a: Files, b: Files, ps: set<Path>)
  {
    forall p | p !in ps :: (p in a <==> p in b) && (p in a ==> a[p] == b[p])
  }

  // The disk before the run and after each of its steps: where a crash can find it.
  function Instants(d: Files, r: Run): (s: seq<Files>)
    ensures |s| == |r.steps| + 1 && s[|s| - 1] == Final(d, r)
  {
    [d] + r.steps
  }

  lemma BackupIsElsewhere(target: Path)
    ensures BackupOf(target) != target
  {
    assert |BackupOf(target)| > |target|;
  }

  // ---- One operation at a time -------------------------------------------------------

  // Filling a file touches that file only.
  lemma FillTouchesOnlyDst(d: Files, dst: Path, content: Bytes, mode: nat, made: nat, f: Faults)
    ensures var r := FillSpec(d, dst, content, mode, made, f);
            && |r.steps| > 0
            && (forall k | 0 <= k < |r.steps| :: SameExcept(r.steps[k], d, {dst}))
            && (r.ok ==> Holds(Final(d, r), dst, File(content, mode)))
            && (!r.ok && f.dropPartial ==> dst !in Final(d, r))
  {
  }

  // Moving or copying into place touches source and destination only; it
  // succeeds exactly with the new binary complete at the destination.
  lemma MoveTouchesTwoPaths(d: Files, src: Path, dst: Path, f: Faults)
    requires src in d && src != dst
    ensures var r := RenameOrCopySpec(d, src, dst, f);
            && (forall k | 0 <= k < |r.steps| :: SameExcept(r.steps[k], d, {src, dst}))
            && (r.ok ==> dst in Final(d, r) && IsNew(Final(d, r)[dst], d[src]))
            && (r.ok && f.dropSource ==> src !in Final(d, r))
            && (!r.ok && f.dropPartial && dst !in d ==> dst !in Final(d, r))
            && SameExcept(Final(d, r), d, {src, dst})
  {
    hide FillSpec;
    FillTouchesOnlyDst(d, dst, d[src].content, Perm(d[src].mode), f.umask(Perm(d[src].mode)), f);
  }

  // ---- Every instant -------------------------------------------------------------------

  // At every instant of a replacement, whatever fails and wherever it stops,
  // either the new binary is complete at the target or the old one is intact at
  // target or backup; and no other path is touched.
  lemma EveryInstantSafe(d: Files, src: Path, target: Path, f: Faults, k: nat)
    requires src in d && target in d && src != target && src != BackupOf(target)
    requires k < |Instants(d, ReplaceSpec(d, src, target, f))|
    ensures Safe(Instants(d, ReplaceSpec(d, src, target, f))[k], target, d[target], d[src])
    ensures SameExcept(Instants(d, ReplaceSpec(d, src, target, f))[k], d, {src, target, BackupOf(target)})
  {
    hide RenameOrCopySpec, BackupOf;
    BackupIsElsewhere(target);
    var aside := Rename(d, target, BackupOf(target), f.backup).0;
    MoveTouchesTwoPaths(aside, src, target, f);
  }

  // How a replacement of an existing binary ends. Success: the new binary at the
  // target. Failure: the old binary at the target, or at the backup exactly when
  // it had been moved there and the rename back failed too.
  lemma ReplaceOutcome(d: Files, src: Path, target: Path, f: Faults)
    requires src in d && target in d && src != target && src != BackupOf(target)
    ensures var r := ReplaceSpec(d, src, target, f);
            var end := Final(d, r);
            && (r.ok ==> target in end && IsNew(end[target], d[src]))
            && (r.ok && f.dropBackup ==> BackupOf(target) !in end)
            && (r.ok && f.dropSource ==> src !in end)
            && (!r.ok ==> Holds(end, if f.backup.Works? && !f.restore.Works? then BackupOf(target) else target, d[target]))
  {
    hide RenameOrCopySpec, BackupOf;
    BackupIsElsewhere(target);
    var aside := Rename(d, target, BackupOf(target), f.backup).0;
    MoveTouchesTwoPaths(aside, src, target, f);
  }

  // ---- What the target ends with ----------------------------------------------------------

  // Moving or copying the new binary into place works.
  predicate Installs(f: Faults)
  {
    f.install.Works? || (f.install.CrossDevice? && f.copy.CopyWorks?)
  }

  // What a failed install leaves at an empty destination: nothing, unless a copy
  // had begun there and removing it failed too. Before the mode is set again the
  // file has what the umask left of it.
  function Leftover(source: File, f: Faults): Option<File>
  {
    if !f.install.CrossDevice? || f.dropPartial then None
    else
      match f.copy
      case WriteFails(_) => Some(File(source.content[..Written(source.content, f.copy)], f.umask(Perm(source.mode))))
      case ChmodFails => Some(File(source.content, f.umask(Perm(source.mode))))
      case SyncFails => Some(File(source.content, Perm(source.mode)))
      case CloseFails => Some(File(source.content, Perm(source.mode)))
      case _ => None
  }

  lemma FailedInstallLeaves(d: Files, src: Path, dst: Path, f: Faults)
    requires src in d && dst !in d
    ensures var r := RenameOrCopySpec(d, src, dst, f);
            && (r.ok <==> Installs(f))
            && (!r.ok ==> match Leftover(d[src], f)
                          case None => dst !in Final(d, r)
                          case Some(left) => Holds(Final(d, r), dst, left))
  {
  }

  // The target holds the old binary or the complete new one.
  predicate TargetComplete(d: Files, target: Path, old_: File, source: File)
  {
    Holds(d, target, old_) || (target in d && IsNew(d[target], source))
  }

  // A replacement succeeds exactly when the old binary can be moved aside and the
  // new one moved or copied in. The target ends up with the old binary or the
  // complete new one exactly when it succeeds, or never moved the old one aside,
  // or moved it back, or what a failed copy left behind happens to be complete.
  lemma TargetCompleteIff(d: Files, src: Path, target: Path, f: Faults)
    requires src in d && target in d && src != target && src != BackupOf(target)
    ensures var r, left := ReplaceSpec(d, src, target, f), Leftover(d[src], f);
            && (r.ok <==> f.backup.Works? && Installs(f))
            && (TargetComplete(Final(d, r), target, d[target], d[src]) <==>
                || !f.backup.Works? || Installs(f) || f.restore.Works?
                || (left.Some? && (IsNew(left.value, d[src]) || left.value == d[target])))
  {
    hide RenameOrCopySpec, BackupOf, Leftover, IsNew;
    BackupIsElsewhere(target);
    var aside := Rename(d, target, BackupOf(target), f.backup).0;
    MoveTouchesTwoPaths(aside, src, target, f);
    if f.backup.Works? {
      FailedInstallLeaves(aside, src, target, f);
    }
    ReplaceOutcome(d, src, target, f);
  }

  // So it can end with neither: the rename into place is refused, and so is the
  // rename back. Nothing is at the target, and the old binary is at the backup.
  lemma TargetCanEndWithNeither(d: Files, src: Path, target: Path, f: Faults)
    requires src in d && target in d && src != target && src != BackupOf(target)
    requires f.backup.Works? && f.install.Refused? && f.restore.Refused?
    ensures var end := Final(d, ReplaceSpec(d, src, target, f));
            && target !in end && !TargetComplete(end, target, d[target], d[src])
            && Holds(end, BackupOf(target), d[target])
  {
    hide RenameOrCopySpec, BackupOf;
    BackupIsElsewhere(target);
    var aside := Rename(d, target, BackupOf(target), f.backup).0;
    FailedInstallLeaves(aside, src, target, f);
    ReplaceOutcome(d, src, target, f);
  }

  // A first install has nothing to restore: success leaves the new binary, and
  // failure leaves nothing, unless even removing the partial copy failed.
  lemma FreshInstallOutcome(d: Files, src: Path, target: Path, f: Faults)
    requires src in d && target !in d && src != target
    ensures var r := ReplaceSpec(d, src, target, f);
            var end := Final(d, r);
            && (r.ok ==> target in end && IsNew(end[target], d[src]))
            && (r.ok && f.dropSource ==> src !in end)
            && (!r.ok && f.dropPartial ==> target !in end)
            && SameExcept(end, d, {src, target})
  {
    MoveTouchesTwoPaths(d, src, target, f);
  }

  // ---- A second attempt -------------------------------------------------------------------

  // Some complete binary, old or new, is at the target or the backup.
  predicate Survives(d: Files, target: Path, good: set<File>)
  {
    (target in d && d[target] in good) || (BackupOf(target) in d && d[BackupOf(target)] in good)
  }

  // What a caller could check before trying again.
  predicate RetrySafe(d: Files, target: Path, good: set<File>)
  {
    if target in d then d[target] in good else BackupOf(target) in d && d[BackupOf(target)] in good
  }

  ghost predicate KnowsNew(d: Files, src: Path, good: set<File>)
    requires src in d
  {
    d[src] in good && d[src].(mode := Perm(d[src].mode)) in good
  }

  lemma RetryKeepsABinary(d: Files, src: Path, target: Path, good: set<File>, f: Faults, k: nat)
    requires src in d && src != target && src != BackupOf(target) && KnowsNew(d, src, good)
    requires RetrySafe(d, target, good)
    requires k < |Instants(d, ReplaceSpec(d, src, target, f))|
    ensures Survives(Instants(d, ReplaceSpec(d, src, target, f))[k], target, good)
  {
    hide RenameOrCopySpec, BackupOf;
    BackupIsElsewhere(target);
    if target in d {
      hide ReplaceSpec;
      EveryInstantSafe(d, src, target, f, k);
    } else {
      MoveTouchesTwoPaths(d, src, target, f);
    }
  }

  // With luck, the second attempt moves whatever is at the target onto the
  // backup before it installs anything.
  const LUCKY := Faults(Works, Works, CopyWorks, m => m, Works, true, true, true)

  lemma FirstStepMovesAside(d: Files, src: Path, target: Path)
    requires target in d
    ensures Instants(d, ReplaceSpec(d, src, target, LUCKY))[1] == (d - {target})[BackupOf(target) := d[target]]
  {
  }

  // A new attempt keeps a complete binary at every instant, whatever fails,
  // exactly when what it finds at the target is complete, or nothing is there
  // and the backup is complete. A partial file at the target is backed up over
  // the good backup.
  lemma RetrySafeIff(d: Files, src: Path, target: Path, good: set<File>)
    requires src in d && src != target && src != BackupOf(target) && KnowsNew(d, src, good)
    ensures RetrySafe(d, target, good) <==>
            forall f: Faults, k: nat | k < |Instants(d, ReplaceSpec(d, src, target, f))| ::
              Survives(Instants(d, ReplaceSpec(d, src, target, f))[k], target, good)
  {
    if RetrySafe(d, target, good) {
      forall f: Faults, k: nat | k < |Instants(d, ReplaceSpec(d, src, target, f))|
        ensures Survives(Instants(d, ReplaceSpec(d, src, target, f))[k], target, good)
      {
        RetryKeepsABinary(d, src, target, good, f, k);
      }
    } else {
      var s := Instants(d, ReplaceSpec(d, src, target, LUCKY));
      BackupIsElsewhere(target);
      if target in d {
        FirstStepMovesAside(d, src, target);
        assert !Survives(s[1], target, good);
      } else {
        assert !Survives(s[0], target, good);
      }
    }
  }

  // A crash in the middle of a cross-device copy leaves such a partial file: the
  // old binary survives that instant at the backup, but not a second attempt.
  lemma CrashMidCopyIsNotRetrySafe(d: Files, src: Path, target: Path, f: Faults, good: set<File>)
    requires src in d && target in d && src != target && src != BackupOf(target)
    requires f.backup.Works? && f.install.CrossDevice? && f.copy.CopyWorks?
    requires File([], f.umask(Perm(d[src].mode))) !in good
    ensures |Instants(d, ReplaceSpec(d, src, target, f))| > 2
    ensures var crashed := Instants(d, ReplaceSpec(d, src, target, f))[2];
            Holds(crashed, BackupOf(target), d[target]) && !RetrySafe(crashed, target, good)
  {
    BackupIsElsewhere(target);
    var aside := Rename(d, target, BackupOf(target), f.backup).0;
    var made := f.umask(Perm(d[src].mode));
    assert FillSpec(aside, target, d[src].content, Perm(d[src].mode), made, f).steps[0] == aside[target := File([], made)];
  }
}
