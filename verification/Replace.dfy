// Replacing the installed binary: back up, move or copy across devices, restore,
// clean up. Every filesystem operation may fail and the process may die between
// any two of them.
// Source: cmd/pokkum/upgrade.go, replaceBinary, renameOrCopyFile, copyFileContents.

module Replacement {
  import opened Text

  type Path = string
  type Bytes = seq<nat>

  datatype File = File(content: Bytes, mode: nat)
  type Files = map<Path, File>

  // os.FileMode.Perm: the nine permission bits.
  function Perm(mode: nat): nat
  {
    mode % 512
  }

  const BACKUP_SUFFIX := ".pokkum-upgrade-old"

  function BackupOf(target: Path): Path
  {
    target + BACKUP_SUFFIX
  }

  // How a rename of an existing file ends; a missing source always reads as
  // "does not exist".
  datatype RenameFault = Works | CrossDevice | Refused
  datatype Renamed = Moved | NoSource | Failed(fault: RenameFault)

  // Where a copy fails, if it does: a write may stop after any number of bytes.
  datatype CopyFault =
    | CopyWorks | StatFails | OpenFails | CreateFails | WriteFails(written: nat) | ChmodFails | SyncFails | CloseFails

  // One attempt's share of bad luck. umask is what the system takes off the mode
  // of a file it creates; the last three say whether a removal works.
  datatype Faults = Faults(
    backup: RenameFault, install: RenameFault, copy: CopyFault, umask: nat -> nat, restore: RenameFault,
    dropSource: bool, dropPartial: bool, dropBackup: bool)

  // What an operation does: the states it takes the disk through, one for each
  // filesystem step, and whether it succeeds.
  datatype Run = Run(steps: seq<Files>, ok: bool)

  // Where the disk ends up.
  function Final(d: Files, r: Run): Files
  {
    if r.steps == [] then d else r.steps[|r.steps| - 1]
  }

  function Rename(d: Files, from: Path, to: Path, fault: RenameFault): (r: (Files, Renamed))
    ensures !r.1.Moved? ==> r.0 == d
  {
    if from !in d then (d, NoSource)
    else if fault != Works then (d, Failed(fault))
    else ((d - {from})[to := d[from]], Moved)
  }

  function Remove(d: Files, p: Path, works: bool): Files
  {
    if works then d - {p} else d
  }

  // The file as it grows: one state for each byte written, from the k-th on.
  function Growing(d: Files, dst: Path, content: Bytes, mode: nat, k: nat, n: nat): (r: seq<Files>)
    requires k <= n <= |content|
    ensures |r| == n - k
    ensures forall j | 0 <= j < |r| :: r[j] == d[dst := File(content[..k + j + 1], mode)]
    decreases n - k
  {
    if k == n then [] else [d[dst := File(content[..k + 1], mode)]] + Growing(d, dst, content, mode, k + 1, n)
  }

  function Written(content: Bytes, fault: CopyFault): (n: nat)
    ensures n <= |content|
  {
    if fault.WriteFails? && fault.written < |content| then fault.written else |content|
  }

  // The copy once dst has been created, with mode made.
  function FillSpec(d: Files, dst: Path, content: Bytes, mode: nat, made: nat, f: Faults): Run
  {
    var n := Written(content, f.copy);
    var grown := [d[dst := File([], made)]] + Growing(d, dst, content, made, 0, n);
    var partial, full := d[dst := File(content[..n], made)], d[dst := File(content, mode)];
    if f.copy.WriteFails? || f.copy.ChmodFails? then Run(grown + [Remove(partial, dst, f.dropPartial)], false)
    else if f.copy.SyncFails? || f.copy.CloseFails? then Run(grown + [full, Remove(full, dst, f.dropPartial)], false)
    else Run(grown + [full], true)
  }

  function CopySpec(d: Files, src: Path, dst: Path, f: Faults): Run
  {
    if src !in d || f.copy.StatFails? || f.copy.OpenFails? || dst in d || f.copy.CreateFails? then Run([], false)
    else FillSpec(d, dst, d[src].content, Perm(d[src].mode), f.umask(Perm(d[src].mode)), f)
  }

  function RenameOrCopySpec(d: Files, src: Path, dst: Path, f: Faults): Run
  {
    var (moved, how) := Rename(d, src, dst, f.install);
    if how.Moved? then Run([moved], true)
    else if how != Failed(CrossDevice) then Run([], false)
    else
      var copied := CopySpec(d, src, dst, f);
      if copied.ok then Run(copied.steps + [Remove(Final(d, copied), src, f.dropSource)], true) else copied
  }

  function ReplaceSpec(d: Files, src: Path, target: Path, f: Faults): Run
  {
    var (aside, how) := Rename(d, target, BackupOf(target), f.backup);
    if how.Failed? then Run([], false)
    else if how.NoSource? then RenameOrCopySpec(d, src, target, f)
    else
      var swapped := RenameOrCopySpec(aside, src, target, f);
      var last := Final(aside, swapped);
      if swapped.ok then Run([aside] + swapped.steps + [Remove(last, BackupOf(target), f.dropBackup)], true)
      else
        var (back, restored) := Rename(last, BackupOf(target), target, f.restore);
        Run([aside] + swapped.steps + (if restored.Moved? then [back] else []), false)
  }

  // ---- The disk, changed in place --------------------------------------------------------

  class Disk {
    var files: Files
    ghost var trail: seq<Files>

    ghost predicate Valid()
      reads this
    {
      |trail| > 0 && trail[|trail| - 1] == files
    }

    constructor (d: Files)
      ensures Valid() && files == d && trail == [d]
    {
      files := d;
      trail := [d];
    }

    method RenameFile(from: Path, to: Path, fault: RenameFault) returns (how: Renamed)
      requires Valid()
      modifies this
      ensures Valid()
      ensures (files, how) == Rename(old(files), from, to, fault)
      ensures trail == if how.Moved? then old(trail) + [files] else old(trail)
    {
      if from !in files {
        return NoSource;
      }
      if fault != Works {
        return Failed(fault);
      }
      files := (files - {from})[to := files[from]];
      trail := trail + [files];
      how := Moved;
    }

    method RemoveFile(p: Path, works: bool)
      requires Valid()
      modifies this
      ensures Valid() && files == Remove(old(files), p, works)
      ensures trail == old(trail) + [files]
    {
      if works {
        files := files - {p};
      }
      trail := trail + [files];
    }

    method Write(dst: Path, content: Bytes, mode: nat)
      requires Valid()
      modifies this
      ensures Valid() && files == old(files)[dst := File(content, mode)]
      ensures trail == old(trail) + [files]
    {
      files := files[dst := File(content, mode)];
      trail := trail + [files];
    }

    // io.Copy: n bytes of content, one at a time.
    method WriteBytes(dst: Path, content: Bytes, mode: nat, n: nat)
      requires Valid() && n <= |content|
      requires dst in files && files[dst] == File([], mode)
      modifies this
      ensures Valid() && files == old(files)[dst := File(content[..n], mode)]
      ensures trail == old(trail) + Growing(old(files), dst, content, mode, 0, n)
    {
      ghost var d, t := files, trail;
      assert content[..0] == [];
      assert d == d[dst := File(content[..0], mode)];
      for k := 0 to n
        invariant Valid() && files == d[dst := File(content[..k], mode)]
        invariant t + Growing(d, dst, content, mode, 0, n) == trail + Growing(d, dst, content, mode, k, n)
      {
        Write(dst, content[..k + 1], mode);
        assert files == d[dst := File(content[..k + 1], mode)];
        assert Growing(d, dst, content, mode, k, n) == [files] + Growing(d, dst, content, mode, k + 1, n);
      }
    }

    method FillFile(dst: Path, content: Bytes, mode: nat, made: nat, f: Faults) returns (ok: bool)
      requires Valid()
      modifies this
      ensures Valid() && Did(old(files), old(trail), FillSpec(old(files), dst, content, mode, made, f), ok)
    {
      hide Growing;
      var n := Written(content, f.copy);
      ghost var d, t := files, trail;
      Write(dst, [], made);
      WriteBytes(dst, content, made, n);
      SameGrowth(d, File([], made), dst, content, made, n);
      ghost var grown := [d[dst := File([], made)]] + Growing(d, dst, content, made, 0, n);
      assert trail == t + grown;
      assert files == d[dst := File(content[..n], made)];
      if f.copy.WriteFails? || f.copy.ChmodFails? {
        RemoveFile(dst, f.dropPartial);
        assert trail == t + (grown + [files]);
        return false;
      }
      Write(dst, content, mode);
      assert files == d[dst := File(content, mode)];
      if f.copy.SyncFails? || f.copy.CloseFails? {
        ghost var full := files;
        RemoveFile(dst, f.dropPartial);
        assert trail == t + (grown + [full, files]);
        return false;
      }
      assert trail == t + (grown + [files]);
      ok := true;
    }

    method CopyFileContents(src: Path, dst: Path, f: Faults) returns (ok: bool)
      requires Valid()
      modifies this
      ensures Valid() && Did(old(files), old(trail), CopySpec(old(files), src, dst, f), ok)
    {
      if src !in files || f.copy.StatFails? || f.copy.OpenFails? {
        return false;
      }
      if dst in files || f.copy.CreateFails? {
        return false;
      }
      var mode := Perm(files[src].mode);
      ok := FillFile(dst, files[src].content, mode, f.umask(mode), f);
    }

    // The disk went through exactly the run's states, from d on.
    ghost predicate Did(d: Files, before: seq<Files>, r: Run, ok: bool)
      reads this
    {
      ok == r.ok && files == Final(d, r) && trail == before + r.steps
    }

    method RenameOrCopyFile(src: Path, dst: Path, f: Faults) returns (ok: bool)
      requires Valid()
      modifies this
      ensures Valid() && Did(old(files), old(trail), RenameOrCopySpec(old(files), src, dst, f), ok)
    {
      var how := RenameFile(src, dst, f.install);
      if how.Moved? {
        return true;
      }
      if how != Failed(CrossDevice) {
        return false;
      }
      ok := CopyFileContents(src, dst, f);
      if ok {
        RemoveFile(src, f.dropSource);
      }
    }

    method ReplaceBinary(src: Path, target: Path, f: Faults) returns (ok: bool)
      requires Valid()
      modifies this
      ensures Valid() && Did(old(files), old(trail), ReplaceSpec(old(files), src, target, f), ok)
    {
      hide RenameOrCopySpec, BackupOf, Rename, Remove;
      var backup := BackupOf(target);
      ghost var before := trail;
      var how := RenameFile(target, backup, f.backup);
      if how.Failed? {
        return false;
      }
      var targetExisted := how.Moved?;
      ghost var aside := files;
      ok := RenameOrCopyFile(src, target, f);
      ghost var steps := RenameOrCopySpec(aside, src, target, f).steps;
      if !ok {
        if targetExisted {
          assert trail == before + ([aside] + steps);
          var restored := RenameFile(backup, target, f.restore);
          assert restored.Moved? ==> trail == before + ([aside] + steps + [files]);
        }
        return false;
      }
      if targetExisted {
        RemoveFile(backup, f.dropBackup);
        assert trail == before + ([aside] + steps + [files]);
      }
    }
  }

  // Writing over an existing file goes through the states of writing a new one.
  lemma SameGrowth(d: Files, f: File, dst: Path, content: Bytes, mode: nat, n: nat)
    requires n <= |content|
    ensures Growing(d[dst := f], dst, content, mode, 0, n) == Growing(d, dst, content, mode, 0, n)
  {
    var a, b := Growing(d[dst := f], dst, content, mode, 0, n), Growing(d, dst, content, mode, 0, n);
    forall j | 0 <= j < n
      ensures a[j] == b[j]
    {
      assert d[dst := f][dst := File(content[..j + 1], mode)] == d[dst := File(content[..j + 1], mode)];
    }
  }
}
