/**
 * Applying a refactoring plan to the working tree: every affected path is
 * snapshotted first, the operations run in order, and the first failure
 * rolls the snapshots back in reverse order. `Backups` is the snapshot list
 * as the program takes it, which misses the destination of a rename;
 * `CoveringBackups` adds it, and `ApplyRefactorPlanCovering` is the engine
 * with that correction. The diff module's `apply_diff_to_file` is not part
 * of this model: its text transformation is passed in as `applyDiff`, and
 * the file read and write around it are ordinary calls on the disk.
 */
module RefactorApply {
  import opened Results
  import opened FileSystem
  import opened Refactor

  /** New content of a file from its old content and a parsed diff, or an error. */
  type DiffApplier = (string, UnifiedDiff) -> Result<string, string>

  type Tree = map<string, string>

  datatype BackupEntry = BackupEntry(path: string, original: Option<string>)

  const RolledBackPrefix := "Refactoring failed, rolled back: "

  // ---- what the operations do when no call fails ----

  /** One operation on the tree; None where it cannot succeed at all. */
  function Applied(files: Tree, op: FileOperation, applyDiff: DiffApplier): Option<Tree>
  {
    match op
    case Create(p, content) => Some(files[p := content])
    case Modify(p, diff) =>
      if p in files && applyDiff(files[p], diff).Ok? then Some(files[p := applyDiff(files[p], diff).value]) else None
    case Delete(p) => Some(files - {p})
    case Rename(from, to) => if from in files then Some((files - {from})[to := files[from]]) else None
  }

  /** The operations one after the other; None as soon as one cannot succeed. */
  function AppliedAll(files: Tree, ops: seq<FileOperation>, applyDiff: DiffApplier): Option<Tree>
  {
    if ops == [] then Some(files)
    else match AppliedAll(files, ops[..|ops| - 1], applyDiff)
      case None => None
      case Some(f) => Applied(f, ops[|ops| - 1], applyDiff)
  }

  // ---- the backups, as the source takes them ----

  function SnapshotOf(files: Tree, p: string): Option<string>
  {
    if p in files then Some(files[p]) else None
  }

  /** The entries one operation contributes: its target, or an existing delete target or rename source. */
  function EntriesFor(files: Tree, op: FileOperation): seq<BackupEntry>
  {
    match op
    case Create(p, _) => [BackupEntry(p, SnapshotOf(files, p))]
    case Modify(p, _) => [BackupEntry(p, SnapshotOf(files, p))]
    case Delete(p) => if p in files then [BackupEntry(p, Some(files[p]))] else []
    case Rename(from, _) => if from in files then [BackupEntry(from, Some(files[from]))] else []
  }

  function Backups(files: Tree, ops: seq<FileOperation>): seq<BackupEntry>
  {
    if ops == [] then [] else Backups(files, ops[..|ops| - 1]) + EntriesFor(files, ops[|ops| - 1])
  }

  /** The backup phase can read what it must: every Modify target exists. */
  predicate BackupReadable(files: Tree, ops: seq<FileOperation>)
  {
    forall i :: 0 <= i < |ops| ==> ops[i].Modify? ==> ops[i].path in files
  }

  // ---- rollback ----

  /** Restoring one entry: its snapshot is written back, or the file is removed. */
  function RestoreOne(files: Tree, b: BackupEntry): Tree
  {
    match b.original
    case Some(content) => files[b.path := content]
    case None => files - {b.path}
  }

  /** The rollback with no failing call: every entry restored, last entry first. */
  function Restore(files: Tree, backups: seq<BackupEntry>): Tree
    decreases |backups|
  {
    if backups == [] then files
    else Restore(RestoreOne(files, backups[|backups| - 1]), backups[..|backups| - 1])
  }

  /**
   * The rollback as it runs: entries last to first, the call for each numbered
   * from `tick` upwards. A failing call is skipped and the loop goes on; a
   * failing write may have truncated its file first.
   */
  function RollbackRun(files: Tree, backups: seq<BackupEntry>, tick: nat, faults: set<nat>, torn: map<nat, nat>): Tree
    decreases |backups|
  {
    if backups == [] then files
    else
      var b := backups[|backups| - 1];
      var next := if tick !in faults then RestoreOne(files, b)
                  else if b.original.Some? then AfterFailedWrite(files, b.path, b.original.value, tick, torn)
                  else files;
      RollbackRun(next, backups[..|backups| - 1], tick + 1, faults, torn)
  }

  /** Without failing calls the rollback that runs is the full restore. */
  lemma {:induction false} FaultFreeRollback(files: Tree, backups: seq<BackupEntry>, tick: nat, faults: set<nat>, torn: map<nat, nat>)
    requires NoFaultIn(faults, tick, tick + |backups|)
    ensures RollbackRun(files, backups, tick, faults, torn) == Restore(files, backups)
    decreases |backups|
  {
    if backups != [] {
      FaultFreeRollback(RestoreOne(files, backups[|backups| - 1]), backups[..|backups| - 1], tick + 1, faults, torn);
    }
  }

  /**
   * What a failed operation leaves behind: the tree as it was, or, when its
   * write failed, its path holding a prefix of the content being written.
   */
  predicate FailedLeaves(before: Tree, after: Tree, op: FileOperation, applyDiff: DiffApplier)
  {
    || after == before
    || (op.Create? && PartialWrite(before, after, op.path, op.content))
    || (op.Modify? && op.path in before && applyDiff(before[op.path], op.diff).Ok?
        && PartialWrite(before, after, op.path, applyDiff(before[op.path], op.diff).value))
  }

  // ---- the imperative engine ----

  /** The backups of one operation: its target, or an existing delete target or rename source. */
  method BackupOne(disk: Disk, op: FileOperation) returns (r: Result<seq<BackupEntry>, string>)
    modifies disk`tick
    ensures disk.tick >= old(disk.tick)
    ensures r.Ok? ==> BackupReadable(disk.files, [op]) && r.value == EntriesFor(disk.files, op)
    ensures BackupReadable(disk.files, [op]) && NoFaultIn(disk.faults, old(disk.tick), disk.tick) ==> r.Ok?
  {
    match op
    case Create(p, _) =>
      if disk.Exists(p) {
        var read := disk.Read(p);
        if read.Err? {
          return Err(Describe(read.error));
        }
        r := Ok([BackupEntry(p, Some(read.value))]);
      } else {
        r := Ok([BackupEntry(p, None)]);
      }
    case Modify(p, _) =>
      ghost var t := disk.tick;
      var read := disk.Read(p);
      if read.Err? {
        assert !(BackupReadable(disk.files, [op]) && NoFaultIn(disk.faults, old(disk.tick), disk.tick)) by {
          assert t in disk.faults || [op][0].path !in disk.files;
        }
        return Err("Failed to read " + p + " for backup: " + Describe(read.error));
      }
      r := Ok([BackupEntry(p, Some(read.value))]);
    case Delete(p) =>
      r := Ok([]);
      if disk.Exists(p) {
        var read := disk.Read(p);
        if read.Err? {
          return Err("Failed to read " + p + " for backup: " + Describe(read.error));
        }
        r := Ok([BackupEntry(p, Some(read.value))]);
      }
    case Rename(from, _) =>
      r := Ok([]);
      if disk.Exists(from) {
        var read := disk.Read(from);
        if read.Err? {
          return Err("Failed to read " + from + " for backup: " + Describe(read.error));
        }
        r := Ok([BackupEntry(from, Some(read.value))]);
      }
  }

  /** The backup loop of `apply_refactor_plan`. */
  method CollectBackups(disk: Disk, ops: seq<FileOperation>) returns (r: Result<seq<BackupEntry>, string>)
    modifies disk`tick
    ensures disk.tick >= old(disk.tick)
    ensures r.Ok? ==> BackupReadable(disk.files, ops) && r.value == Backups(disk.files, ops)
    ensures BackupReadable(disk.files, ops) && NoFaultIn(disk.faults, old(disk.tick), disk.tick) ==> r.Ok?
  {
    var backups: seq<BackupEntry> := [];
    for i := 0 to |ops|
      invariant disk.tick >= old(disk.tick)
      invariant BackupReadable(disk.files, ops[..i]) && backups == Backups(disk.files, ops[..i])
    {
      assert ops[..i + 1][..i] == ops[..i];
      var entries := BackupOne(disk, ops[i]);
      if entries.Err? {
        assert !(BackupReadable(disk.files, ops) && NoFaultIn(disk.faults, old(disk.tick), disk.tick)) by {
          assert !BackupReadable(disk.files, [ops[i]]) ==> !BackupReadable(disk.files, ops) by {
            assert [ops[i]][0] == ops[i];
          }
        }
        return Err(entries.error);
      }
      assert BackupReadable(disk.files, ops[..i + 1]) by {
        assert [ops[i]][0] == ops[i];
      }
      backups := backups + entries.value;
    }
    assert ops[..|ops|] == ops;
    r := Ok(backups);
  }

  /** The diff module's `apply_diff_to_file`: read, transform, write back. */
  method ApplyDiffToFile(disk: Disk, path: string, diff: UnifiedDiff, applyDiff: DiffApplier) returns (r: Result<(), string>)
    modifies disk
    ensures disk.tick >= old(disk.tick)
    ensures r.Ok? ==> Applied(old(disk.files), Modify(path, diff), applyDiff) == Some(disk.files)
    ensures r.Err? ==> FailedLeaves(old(disk.files), disk.files, Modify(path, diff), applyDiff)
    ensures r.Err? && NoFaultIn(disk.faults, old(disk.tick), disk.tick) ==>
      disk.files == old(disk.files) && Applied(old(disk.files), Modify(path, diff), applyDiff).None?
  {
    var read := disk.Read(path);
    if read.Err? {
      return Err(Describe(read.error));
    }
    var updated := applyDiff(read.value, diff);
    if updated.Err? {
      return Err(updated.error);
    }
    ghost var t := disk.tick;
    var written := disk.Write(path, updated.value);
    if written.Err? {
      assert !NoFaultIn(disk.faults, old(disk.tick), disk.tick) by { assert t in disk.faults; }
      return Err(Describe(written.error));
    }
    r := Ok(());
  }

  /**
   * `apply_operations`: in list order, stopping at the first failure; `done`
   * operations completed before it.
   */
  method ApplyOperations(disk: Disk, ops: seq<FileOperation>, applyDiff: DiffApplier) returns (r: Result<(), string>, ghost done: nat)
    modifies disk
    ensures disk.tick >= old(disk.tick)
    ensures done <= |ops| && (r.Ok? <==> done == |ops|)
    ensures AppliedAll(old(disk.files), ops[..done], applyDiff).Some?
    ensures r.Ok? ==> AppliedAll(old(disk.files), ops, applyDiff) == Some(disk.files)
    ensures r.Err? ==> FailedLeaves(AppliedAll(old(disk.files), ops[..done], applyDiff).value, disk.files, ops[done], applyDiff)
    ensures r.Err? && NoFaultIn(disk.faults, old(disk.tick), disk.tick) ==>
      Some(disk.files) == AppliedAll(old(disk.files), ops[..done], applyDiff) && Applied(disk.files, ops[done], applyDiff).None?
  {
    var k := 0;
    while k < |ops|
      invariant k <= |ops|
      invariant disk.tick >= old(disk.tick)
      invariant AppliedAll(old(disk.files), ops[..k], applyDiff) == Some(disk.files)
    {
      assert ops[..k + 1][..k] == ops[..k];
      ghost var before := disk.files;
      ghost var t := disk.tick;
      match ops[k] {
      case Create(p, content) =>
        var dirs := disk.CreateParentDirs(p);
        if dirs.Err? {
          assert !NoFaultIn(disk.faults, old(disk.tick), disk.tick) by { assert t in disk.faults; }
          return Err("Failed to create directory for " + p + ": " + Describe(dirs.error)), k;
        }
        ghost var t2 := disk.tick;
        var written := disk.Write(p, content);
        if written.Err? {
          assert !NoFaultIn(disk.faults, old(disk.tick), disk.tick) by { assert t2 in disk.faults; }
          return Err("Failed to create " + p + ": " + Describe(written.error)), k;
        }
      case Modify(p, diff) =>
        var applied := ApplyDiffToFile(disk, p, diff, applyDiff);
        if applied.Err? {
          assert !NoFaultIn(disk.faults, t, disk.tick) ==> !NoFaultIn(disk.faults, old(disk.tick), disk.tick);
          return Err(applied.error), k;
        }
      case Delete(p) =>
        if disk.Exists(p) {
          var removed := disk.Remove(p);
          if removed.Err? {
            assert !NoFaultIn(disk.faults, old(disk.tick), disk.tick) by { assert t in disk.faults; }
            return Err("Failed to delete " + p + ": " + Describe(removed.error)), k;
          }
        } else {
          assert before - {p} == before;
        }
      case Rename(from, to) =>
        var dirs := disk.CreateParentDirs(to);
        if dirs.Err? {
          assert !NoFaultIn(disk.faults, old(disk.tick), disk.tick) by { assert t in disk.faults; }
          return Err("Failed to create directory for " + to + ": " + Describe(dirs.error)), k;
        }
        ghost var t2 := disk.tick;
        var renamed := disk.Rename(from, to);
        if renamed.Err? {
          assert t2 in disk.faults || from !in disk.files;
          assert t2 in disk.faults ==> !NoFaultIn(disk.faults, old(disk.tick), disk.tick);
          return Err("Failed to rename " + from + " to " + to + ": " + Describe(renamed.error)), k;
        }
      }
      k := k + 1;
    }
    r, done := Ok(()), k;
    assert ops[..done] == ops;
  }

  /** `rollback`: every entry, last first, each attempt's failure ignored. */
  method Rollback(disk: Disk, backups: seq<BackupEntry>)
    modifies disk
    ensures disk.tick == old(disk.tick) + |backups|
    ensures disk.files == RollbackRun(old(disk.files), backups, old(disk.tick), disk.faults, disk.torn)
  {
    var i := |backups|;
    assert backups[..i] == backups;
    while i > 0
      invariant 0 <= i <= |backups|
      invariant disk.tick == old(disk.tick) + (|backups| - i)
      invariant RollbackRun(disk.files, backups[..i], disk.tick, disk.faults, disk.torn)
             == RollbackRun(old(disk.files), backups, old(disk.tick), disk.faults, disk.torn)
    {
      var b := backups[i - 1];
      assert backups[..i][..i - 1] == backups[..i - 1];
      ghost var before := disk.files;
      ghost var t := disk.tick;
      match b.original {
      case Some(content) =>
        var _ := disk.Write(b.path, content);
      case None =>
        var removed := disk.Remove(b.path);
        assert removed.Err? && t !in disk.faults ==> RestoreOne(before, b) == before;
      }
      i := i - 1;
    }
    assert backups[..0] == [];
  }

  /**
   * The second half of `apply_refactor_plan`, for the backups already taken:
   * the operations, then on failure the rollback and the error. `failedAt`
   * is the tree the failure left behind.
   */
  method ApplyWithRollback(disk: Disk, ops: seq<FileOperation>, backups: seq<BackupEntry>, applyDiff: DiffApplier)
    returns (r: Result<(), string>, ghost done: nat, ghost failedAt: Tree, ghost rollbackTick: nat)
    modifies disk
    ensures r.Ok? ==> AppliedAll(old(disk.files), ops, applyDiff) == Some(disk.files)
    ensures r.Err? ==>
      && done < |ops|
      && AppliedAll(old(disk.files), ops[..done], applyDiff).Some?
      && FailedLeaves(AppliedAll(old(disk.files), ops[..done], applyDiff).value, failedAt, ops[done], applyDiff)
      && disk.files == RollbackRun(failedAt, backups, rollbackTick, disk.faults, disk.torn)
      && old(disk.tick) <= rollbackTick
      && disk.tick == rollbackTick + |backups|
      && RolledBackPrefix <= r.error
    ensures r.Err? && NoFaultIn(disk.faults, old(disk.tick), rollbackTick) ==>
      Some(failedAt) == AppliedAll(old(disk.files), ops[..done], applyDiff) && AppliedAll(old(disk.files), ops, applyDiff).None?
  {
    ghost var files0 := disk.files;
    failedAt, rollbackTick := disk.files, 0;
    var result;
    result, done := ApplyOperations(disk, ops, applyDiff);
    if result.Err? {
      rollbackTick := disk.tick;
      failedAt := disk.files;
      Rollback(disk, backups);
      if NoFaultIn(disk.faults, old(disk.tick), rollbackTick) {
        assert ops[..done + 1][..done] == ops[..done];
        AppliedAllStops(files0, ops, done + 1, applyDiff);
      }
      return Err(RolledBackPrefix + result.error), done, failedAt, rollbackTick;
    }
    r := Ok(());
  }

  /**
   * `apply_refactor_plan`: backups, then the operations, then on failure the
   * rollback. When the rollback's own calls do not fail, every path that is
   * not the destination of a rename is as it was before the plan, even where
   * a write of the plan tore its file; a rename's destination may be left
   * behind (`RenameTargetSurvivesRollback`).
   */
  method ApplyRefactorPlan(disk: Disk, plan: RefactorPlan, applyDiff: DiffApplier)
    returns (r: Result<(), string>, ghost backedUp: bool, ghost done: nat, ghost failedAt: Tree, ghost rollbackTick: nat)
    modifies disk
    ensures !backedUp ==> r.Err? && disk.files == old(disk.files)
    ensures backedUp ==> BackupReadable(old(disk.files), plan.operations)
    ensures BackupReadable(old(disk.files), plan.operations) && NoFaultIn(disk.faults, old(disk.tick), disk.tick) ==> backedUp
    ensures r.Ok? ==> backedUp && AppliedAll(old(disk.files), plan.operations, applyDiff) == Some(disk.files)
    ensures backedUp && r.Err? ==>
      && done < |plan.operations|
      && AppliedAll(old(disk.files), plan.operations[..done], applyDiff).Some?
      && FailedLeaves(AppliedAll(old(disk.files), plan.operations[..done], applyDiff).value, failedAt, plan.operations[done], applyDiff)
      && disk.files == RollbackRun(failedAt, Backups(old(disk.files), plan.operations), rollbackTick, disk.faults, disk.torn)
      && old(disk.tick) <= rollbackTick
      && disk.tick == rollbackTick + |Backups(old(disk.files), plan.operations)|
    ensures backedUp && r.Err? ==> RolledBackPrefix <= r.error
    ensures backedUp && r.Err? && NoFaultIn(disk.faults, old(disk.tick), disk.tick) ==>
      AppliedAll(old(disk.files), plan.operations, applyDiff).None?
    ensures backedUp && r.Err? && NoFaultIn(disk.faults, rollbackTick, disk.tick) ==>
      forall p :: p !in RenameTargets(plan.operations) ==> SnapshotOf(disk.files, p) == SnapshotOf(old(disk.files), p)
  {
    ghost var files0 := disk.files;
    done, failedAt, rollbackTick := 0, disk.files, 0;
    var backups := CollectBackups(disk, plan.operations);
    if backups.Err? {
      backedUp := false;
      return Err(backups.error), backedUp, done, failedAt, rollbackTick;
    }
    backedUp := true;
    r, done, failedAt, rollbackTick := ApplyWithRollback(disk, plan.operations, backups.value, applyDiff);
    if r.Err? && NoFaultIn(disk.faults, rollbackTick, disk.tick) {
      FaultFreeRollback(failedAt, backups.value, rollbackTick, disk.faults, disk.torn);
      RollbackRestoresAllButRenameTargets(files0, plan.operations, done, applyDiff, failedAt);
    }
  }

  lemma {:induction false} AppliedAllStops(files: Tree, ops: seq<FileOperation>, k: nat, applyDiff: DiffApplier)
    requires k <= |ops| && AppliedAll(files, ops[..k], applyDiff).None?
    ensures AppliedAll(files, ops, applyDiff).None?
    decreases |ops| - k
  {
    if k < |ops| {
      assert ops[..k + 1][..k] == ops[..k];
      AppliedAllStops(files, ops, k + 1, applyDiff);
    } else {
      assert ops[..k] == ops;
    }
  }

  // ---- what a rollback restores ----

  function PathsOf(backups: seq<BackupEntry>): set<string>
  {
    set i | 0 <= i < |backups| :: backups[i].path
  }

  function RenameTargets(ops: seq<FileOperation>): set<string>
  {
    set i | 0 <= i < |ops| && ops[i].Rename? :: ops[i].to
  }

  /** Every entry holds what its path had in `files`. */
  predicate SnapshotsOf(backups: seq<BackupEntry>, files: Tree)
  {
    forall i :: 0 <= i < |backups| ==> backups[i].original == SnapshotOf(files, backups[i].path)
  }

  lemma {:induction false} BackupsAreSnapshots(files: Tree, ops: seq<FileOperation>)
    ensures SnapshotsOf(Backups(files, ops), files)
  {
    if ops != [] {
      BackupsAreSnapshots(files, ops[..|ops| - 1]);
    }
  }

  /** Each backup entry is about the path of one of the operations. */
  lemma {:induction false} BackupsFollowPaths(files: Tree, ops: seq<FileOperation>)
    ensures forall i :: 0 <= i < |Backups(files, ops)| ==>
      exists j :: 0 <= j < |ops| && Backups(files, ops)[i].path == Path(ops[j])
  {
    if ops != [] {
      var init := ops[..|ops| - 1];
      BackupsFollowPaths(files, init);
      assert Backups(files, ops) == Backups(files, init) + EntriesFor(files, ops[|ops| - 1]);
      forall i | 0 <= i < |Backups(files, ops)|
        ensures exists j :: 0 <= j < |ops| && Backups(files, ops)[i].path == Path(ops[j])
      {
        if i < |Backups(files, init)| {
          var j :| 0 <= j < |init| && Backups(files, init)[i].path == Path(init[j]);
          assert ops[j] == init[j];
          assert Backups(files, ops)[i] == Backups(files, init)[i];
          assert Backups(files, ops)[i].path == Path(ops[j]);
        } else {
          EntryPaths(files, ops[|ops| - 1]);
          assert Backups(files, ops)[i] == EntriesFor(files, ops[|ops| - 1])[i - |Backups(files, init)|];
          assert Backups(files, ops)[i].path == Path(ops[|ops| - 1]);
        }
      }
    } else {
      assert Backups(files, ops) == [];
    }
  }

  /** Restoring entries that are snapshots of `files0` gives back `files0` on their paths and touches nothing else. */
  lemma {:induction false} RestoreFromSnapshots(f: Tree, backups: seq<BackupEntry>, files0: Tree)
    requires SnapshotsOf(backups, files0)
    ensures forall p :: p in PathsOf(backups) ==> SnapshotOf(Restore(f, backups), p) == SnapshotOf(files0, p)
    ensures forall p :: p !in PathsOf(backups) ==> SnapshotOf(Restore(f, backups), p) == SnapshotOf(f, p)
    decreases |backups|
  {
    if backups != [] {
      var last := backups[|backups| - 1];
      var init := backups[..|backups| - 1];
      assert SnapshotsOf(init, files0);
      RestoreFromSnapshots(RestoreOne(f, last), init, files0);
      assert PathsOf(backups) == PathsOf(init) + {last.path};
    }
  }

  lemma {:induction false} BackupsGrow(files: Tree, ops: seq<FileOperation>, k: nat)
    requires k <= |ops|
    ensures PathsOf(Backups(files, ops[..k])) <= PathsOf(Backups(files, ops))
    ensures RenameTargets(ops[..k]) <= RenameTargets(ops)
    decreases |ops|
  {
    if k == |ops| {
      assert ops[..k] == ops;
    } else {
      var init := ops[..|ops| - 1];
      assert init[..k] == ops[..k];
      BackupsGrow(files, init, k);
      assert Backups(files, ops) == Backups(files, init) + EntriesFor(files, ops[|ops| - 1]);
      PathsOfAppend(Backups(files, init), EntriesFor(files, ops[|ops| - 1]));
      RenameTargetsSnoc(ops);
    }
  }

  /** The entries of one operation are all about its path; name them as a set. */
  lemma EntryPaths(files: Tree, op: FileOperation)
    ensures forall e :: e in EntriesFor(files, op) ==> e.path == Path(op)
    ensures PathsOf(EntriesFor(files, op))
      == if op.Create? || op.Modify? || Path(op) in files then {Path(op)} else {}
  {
    var es := EntriesFor(files, op);
    assert |es| <= 1;
    if |es| == 1 {
      assert es[0].path == Path(op);
    }
  }

  lemma RenameTargetsSnoc(ops: seq<FileOperation>)
    requires ops != []
    ensures var op := ops[|ops| - 1];
      RenameTargets(ops) == RenameTargets(ops[..|ops| - 1]) + (if op.Rename? then {op.to} else {})
  {
    var init := ops[..|ops| - 1];
    var op := ops[|ops| - 1];
    forall p ensures p in RenameTargets(ops) <==> p in RenameTargets(init) || (op.Rename? && p == op.to) {
      if p in RenameTargets(ops) {
        var i :| 0 <= i < |ops| && ops[i].Rename? && ops[i].to == p;
        if i < |init| { assert init[i] == ops[i]; }
      }
      if p in RenameTargets(init) {
        var i :| 0 <= i < |init| && init[i].Rename? && init[i].to == p;
        assert ops[i] == init[i];
      }
      if op.Rename? && p == op.to {
        assert ops[|ops| - 1].to == p;
      }
    }
  }

  /** Applying operations changes only backed-up paths and rename destinations. */
  lemma {:induction false} AppliedTouches(files0: Tree, ops: seq<FileOperation>, applyDiff: DiffApplier)
    requires AppliedAll(files0, ops, applyDiff).Some?
    ensures forall p :: p !in PathsOf(Backups(files0, ops)) && p !in RenameTargets(ops) ==>
      SnapshotOf(AppliedAll(files0, ops, applyDiff).value, p) == SnapshotOf(files0, p)
  {
    if ops != [] {
      var init := ops[..|ops| - 1];
      var op := ops[|ops| - 1];
      AppliedTouches(files0, init, applyDiff);
      var f := AppliedAll(files0, init, applyDiff).value;
      var g := AppliedAll(files0, ops, applyDiff).value;
      assert Applied(f, op, applyDiff) == Some(g);
      var bs := Backups(files0, ops);
      assert bs == Backups(files0, init) + EntriesFor(files0, op);
      PathsOfAppend(Backups(files0, init), EntriesFor(files0, op));
      EntryPaths(files0, op);
      RenameTargetsSnoc(ops);
    }
  }

  /** What a failed operation leaves differs from the tree before it only on backed-up paths. */
  lemma FailedLeavesBackedUp(files0: Tree, ops: seq<FileOperation>, done: nat, applyDiff: DiffApplier, failedAt: Tree)
    requires done < |ops| && AppliedAll(files0, ops[..done], applyDiff).Some?
    requires FailedLeaves(AppliedAll(files0, ops[..done], applyDiff).value, failedAt, ops[done], applyDiff)
    ensures forall p :: p !in PathsOf(Backups(files0, ops)) ==>
      SnapshotOf(failedAt, p) == SnapshotOf(AppliedAll(files0, ops[..done], applyDiff).value, p)
  {
    var f := AppliedAll(files0, ops[..done], applyDiff).value;
    var op := ops[done];
    if failedAt != f {
      assert op.Create? || op.Modify?;
      assert failedAt == f[op.path := failedAt[op.path]];
      var upto := ops[..done + 1];
      assert upto[..|upto| - 1] == ops[..done] && upto[|upto| - 1] == op;
      assert Backups(files0, upto) == Backups(files0, ops[..done]) + EntriesFor(files0, op);
      PathsOfAppend(Backups(files0, ops[..done]), EntriesFor(files0, op));
      EntryPaths(files0, op);
      BackupsGrow(files0, ops, done + 1);
      assert op.path in PathsOf(Backups(files0, ops));
    }
  }

  /**
   * After a failure at operation `done`, the rollback without failing calls
   * restores every path that is not the destination of a rename in the plan,
   * whatever a failing write of that operation left in its file.
   */
  lemma RollbackRestoresAllButRenameTargets(files0: Tree, ops: seq<FileOperation>, done: nat, applyDiff: DiffApplier,
                                            failedAt: Tree)
    requires done < |ops| && AppliedAll(files0, ops[..done], applyDiff).Some?
    requires FailedLeaves(AppliedAll(files0, ops[..done], applyDiff).value, failedAt, ops[done], applyDiff)
    ensures var after := Restore(failedAt, Backups(files0, ops));
      forall p :: p !in RenameTargets(ops) ==> SnapshotOf(after, p) == SnapshotOf(files0, p)
  {
    var bs := Backups(files0, ops);
    BackupsAreSnapshots(files0, ops);
    RestoreFromSnapshots(failedAt, bs, files0);
    FailedLeavesBackedUp(files0, ops, done, applyDiff, failedAt);
    AppliedTouches(files0, ops[..done], applyDiff);
    BackupsGrow(files0, ops, done);
  }

  /**
   * As written, a rename destination is not restored: renaming `a` to `b`
   * and then failing on `a` leaves `b` behind.
   */
  lemma RenameTargetSurvivesRollback(applyDiff: DiffApplier)
    ensures var files0 := map["a" := "x"];
      var ops := [Rename("a", "b"), Modify("a", UnifiedDiff([]))];
      && AppliedAll(files0, ops[..1], applyDiff) == Some(map["b" := "x"])
      && Applied(map["b" := "x"], ops[1], applyDiff).None?
      && Restore(map["b" := "x"], Backups(files0, ops)) == map["a" := "x", "b" := "x"]
      && Restore(map["b" := "x"], Backups(files0, ops)) != files0
  {
    var files0 := map["a" := "x"];
    var ops := [Rename("a", "b"), Modify("a", UnifiedDiff([]))];
    assert ops[..1] == [Rename("a", "b")] && ops[..1][..0] == [];
    assert (files0 - {"a"})["b" := "x"] == map["b" := "x"];
    assert Backups(files0, ops) == [BackupEntry("a", Some("x")), BackupEntry("a", Some("x"))] by {
      assert ops[..|ops| - 1] == ops[..1];
    }
    var e := BackupEntry("a", Some("x"));
    assert [e, e][..1] == [e];
    var after := Restore(map["b" := "x"], [e, e]);
    assert after == Restore(map["b" := "x"]["a" := "x"], [e]);
    assert after == map["b" := "x"]["a" := "x"]["a" := "x"];
    assert after == map["a" := "x", "b" := "x"];
    assert "b" in after && "b" !in files0;
  }

  // ---- corrected backups: the destination of a rename is snapshotted too ----

  function CoveringEntriesFor(files: Tree, op: FileOperation): seq<BackupEntry>
  {
    match op
    case Rename(_, to) => EntriesFor(files, op) + [BackupEntry(to, SnapshotOf(files, to))]
    case _ => EntriesFor(files, op)
  }

  function CoveringBackups(files: Tree, ops: seq<FileOperation>): seq<BackupEntry>
  {
    if ops == [] then [] else CoveringBackups(files, ops[..|ops| - 1]) + CoveringEntriesFor(files, ops[|ops| - 1])
  }

  lemma {:induction false} CoveringBackupsCover(files: Tree, ops: seq<FileOperation>)
    ensures SnapshotsOf(CoveringBackups(files, ops), files)
    ensures PathsOf(CoveringBackups(files, ops)) == PathsOf(Backups(files, ops)) + RenameTargets(ops)
  {
    if ops != [] {
      var init := ops[..|ops| - 1];
      var op := ops[|ops| - 1];
      CoveringBackupsCover(files, init);
      var cb0, extra := CoveringBackups(files, init), CoveringEntriesFor(files, op);
      assert CoveringBackups(files, ops) == cb0 + extra;
      assert Backups(files, ops) == Backups(files, init) + EntriesFor(files, op);
      CoveringEntriesFacts(files, op);
      SnapshotsAppend(cb0, extra, files);
      PathsOfAppend(cb0, extra);
      PathsOfAppend(Backups(files, init), EntriesFor(files, op));
      RenameTargetsSnoc(ops);
    }
  }

  /** The entries of one operation, with a rename's destination added, are snapshots. */
  lemma CoveringEntriesFacts(files: Tree, op: FileOperation)
    ensures SnapshotsOf(CoveringEntriesFor(files, op), files)
    ensures PathsOf(CoveringEntriesFor(files, op)) == PathsOf(EntriesFor(files, op)) + (if op.Rename? then {op.to} else {})
  {
    if op.Rename? {
      var extra := [BackupEntry(op.to, SnapshotOf(files, op.to))];
      assert CoveringEntriesFor(files, op) == EntriesFor(files, op) + extra;
      PathsOfAppend(EntriesFor(files, op), extra);
      assert PathsOf(extra) == {op.to} by { assert extra[0].path == op.to; }
    }
  }

  lemma SnapshotsAppend(a: seq<BackupEntry>, b: seq<BackupEntry>, files: Tree)
    requires SnapshotsOf(a, files) && SnapshotsOf(b, files)
    ensures SnapshotsOf(a + b, files)
  {
    forall i | 0 <= i < |a + b| ensures (a + b)[i].original == SnapshotOf(files, (a + b)[i].path) {
      if i >= |a| { assert (a + b)[i] == b[i - |a|]; }
    }
  }

  lemma PathsOfAppend(a: seq<BackupEntry>, b: seq<BackupEntry>)
    ensures PathsOf(a + b) == PathsOf(a) + PathsOf(b)
  {
    forall p | p in PathsOf(a + b) ensures p in PathsOf(a) + PathsOf(b) {
      var i :| 0 <= i < |a + b| && (a + b)[i].path == p;
      if i >= |a| { assert b[i - |a|].path == p; }
    }
    forall p | p in PathsOf(b) ensures p in PathsOf(a + b) {
      var i :| 0 <= i < |b| && b[i].path == p;
      assert (a + b)[|a| + i].path == p;
    }
    forall p | p in PathsOf(a) ensures p in PathsOf(a + b) {
      var i :| 0 <= i < |a| && a[i].path == p;
      assert (a + b)[i].path == p;
    }
  }

  lemma SnapshotExtensionality(a: Tree, b: Tree)
    requires forall p :: SnapshotOf(a, p) == SnapshotOf(b, p)
    ensures a == b
  {
    assert forall p :: p in a <==> SnapshotOf(a, p).Some?;
    assert forall p :: p in a ==> a[p] == SnapshotOf(b, p).value;
  }

  /**
   * With the destinations of renames snapshotted as well, the rollback
   * without failing calls restores the tree exactly, whatever a failing
   * write of the failed operation left in its file.
   */
  lemma CoveringRollbackIsExact(files0: Tree, ops: seq<FileOperation>, done: nat, applyDiff: DiffApplier, failedAt: Tree)
    requires done < |ops| && AppliedAll(files0, ops[..done], applyDiff).Some?
    requires FailedLeaves(AppliedAll(files0, ops[..done], applyDiff).value, failedAt, ops[done], applyDiff)
    ensures Restore(failedAt, CoveringBackups(files0, ops)) == files0
  {
    var cb := CoveringBackups(files0, ops);
    CoveringBackupsCover(files0, ops);
    CoveringBackupsCover(files0, ops[..done]);
    RestoreFromSnapshots(failedAt, cb, files0);
    FailedLeavesBackedUp(files0, ops, done, applyDiff, failedAt);
    AppliedTouches(files0, ops[..done], applyDiff);
    BackupsGrow(files0, ops, done);
    var after := Restore(failedAt, cb);
    forall p ensures SnapshotOf(after, p) == SnapshotOf(files0, p) {
      if p !in PathsOf(cb) {
        assert p !in PathsOf(Backups(files0, ops[..done])) && p !in RenameTargets(ops[..done]);
      }
    }
    SnapshotExtensionality(after, files0);
  }

  // ---- the engine with the corrected backups ----

  /** `BackupOne`, and then a snapshot of a rename's destination as it was. */
  method BackupOneCovering(disk: Disk, op: FileOperation) returns (r: Result<seq<BackupEntry>, string>)
    modifies disk`tick
    ensures disk.tick >= old(disk.tick)
    ensures r.Ok? ==> BackupReadable(disk.files, [op]) && r.value == CoveringEntriesFor(disk.files, op)
    ensures BackupReadable(disk.files, [op]) && NoFaultIn(disk.faults, old(disk.tick), disk.tick) ==> r.Ok?
  {
    ghost var t0 := disk.tick;
    r := BackupOne(disk, op);
    if r.Err? || !op.Rename? {
      return;
    }
    var entries := r.value;
    if disk.Exists(op.to) {
      ghost var t := disk.tick;
      var read := disk.Read(op.to);
      if read.Err? {
        assert !NoFaultIn(disk.faults, t0, disk.tick) by { assert t in disk.faults; }
        return Err("Failed to read " + op.to + " for backup: " + Describe(read.error));
      }
      r := Ok(entries + [BackupEntry(op.to, Some(read.value))]);
    } else {
      r := Ok(entries + [BackupEntry(op.to, None)]);
    }
  }

  /** The backup loop over `BackupOneCovering`. */
  method CollectCoveringBackups(disk: Disk, ops: seq<FileOperation>) returns (r: Result<seq<BackupEntry>, string>)
    modifies disk`tick
    ensures disk.tick >= old(disk.tick)
    ensures r.Ok? ==> BackupReadable(disk.files, ops) && r.value == CoveringBackups(disk.files, ops)
    ensures BackupReadable(disk.files, ops) && NoFaultIn(disk.faults, old(disk.tick), disk.tick) ==> r.Ok?
  {
    var backups: seq<BackupEntry> := [];
    for i := 0 to |ops|
      invariant disk.tick >= old(disk.tick)
      invariant BackupReadable(disk.files, ops[..i]) && backups == CoveringBackups(disk.files, ops[..i])
    {
      assert ops[..i + 1][..i] == ops[..i];
      var entries := BackupOneCovering(disk, ops[i]);
      if entries.Err? {
        assert !(BackupReadable(disk.files, ops) && NoFaultIn(disk.faults, old(disk.tick), disk.tick)) by {
          assert !BackupReadable(disk.files, [ops[i]]) ==> !BackupReadable(disk.files, ops) by {
            assert [ops[i]][0] == ops[i];
          }
        }
        return Err(entries.error);
      }
      assert BackupReadable(disk.files, ops[..i + 1]) by {
        assert [ops[i]][0] == ops[i];
      }
      backups := backups + entries.value;
    }
    assert ops[..|ops|] == ops;
    r := Ok(backups);
  }

  /**
   * `apply_refactor_plan` with the corrected backups: when the rollback's own
   * calls do not fail, a failed plan leaves the tree exactly as it was.
   */
  method ApplyRefactorPlanCovering(disk: Disk, plan: RefactorPlan, applyDiff: DiffApplier)
    returns (r: Result<(), string>, ghost backedUp: bool, ghost done: nat, ghost failedAt: Tree, ghost rollbackTick: nat)
    modifies disk
    ensures !backedUp ==> r.Err? && disk.files == old(disk.files)
    ensures backedUp ==> BackupReadable(old(disk.files), plan.operations)
    ensures BackupReadable(old(disk.files), plan.operations) && NoFaultIn(disk.faults, old(disk.tick), disk.tick) ==> backedUp
    ensures r.Ok? ==> backedUp && AppliedAll(old(disk.files), plan.operations, applyDiff) == Some(disk.files)
    ensures backedUp && r.Err? ==>
      && done < |plan.operations|
      && AppliedAll(old(disk.files), plan.operations[..done], applyDiff).Some?
      && FailedLeaves(AppliedAll(old(disk.files), plan.operations[..done], applyDiff).value, failedAt, plan.operations[done], applyDiff)
      && disk.files == RollbackRun(failedAt, CoveringBackups(old(disk.files), plan.operations), rollbackTick, disk.faults, disk.torn)
      && old(disk.tick) <= rollbackTick
      && disk.tick == rollbackTick + |CoveringBackups(old(disk.files), plan.operations)|
    ensures backedUp && r.Err? ==> RolledBackPrefix <= r.error
    ensures backedUp && r.Err? && NoFaultIn(disk.faults, old(disk.tick), disk.tick) ==>
      AppliedAll(old(disk.files), plan.operations, applyDiff).None?
    ensures backedUp && r.Err? && NoFaultIn(disk.faults, rollbackTick, disk.tick) ==> disk.files == old(disk.files)
  {
    ghost var files0 := disk.files;
    done, failedAt, rollbackTick := 0, disk.files, 0;
    var backups := CollectCoveringBackups(disk, plan.operations);
    if backups.Err? {
      backedUp := false;
      return Err(backups.error), backedUp, done, failedAt, rollbackTick;
    }
    backedUp := true;
    r, done, failedAt, rollbackTick := ApplyWithRollback(disk, plan.operations, backups.value, applyDiff);
    if r.Err? && NoFaultIn(disk.faults, rollbackTick, disk.tick) {
      FaultFreeRollback(failedAt, backups.value, rollbackTick, disk.faults, disk.torn);
      CoveringRollbackIsExact(files0, plan.operations, done, applyDiff, failedAt);
    }
  }
}
