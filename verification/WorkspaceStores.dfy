/**
  workspace/workspace.go's MemoryStore and workspace/osstore.go's patch and restore routes.

  MemoryStore keeps Go maps, which are shared objects: a checkpoint survives later writes only
  because it holds a copy. The directory of OSStore is an abstract file map whose reads, writes
  and deletes succeed.
 */
module WorkspaceStores {
  import opened Wrappers
  import opened Text
  import opened Workspace
  import opened UnifiedPatch
  import opened UnifiedParse

  // ----- The store as a value -----

  /** fmt.Sprintf("checkpoint-%d", n) */
  function CheckpointName(n: nat): string {
    "checkpoint-" + PrintNat(n)
  }

  lemma {:induction false} CheckpointNameInjective(m: nat, n: nat)
    requires CheckpointName(m) == CheckpointName(n)
    ensures m == n
  {
    assert CheckpointName(m)[|"checkpoint-"|..] == PrintNat(m);
    assert CheckpointName(n)[|"checkpoint-"|..] == PrintNat(n);
  }

  lemma {:induction false} NameIsTrimmed(n: nat)
    ensures CheckpointName(n) != "" && TrimSpace(CheckpointName(n)) == CheckpointName(n)
  {
    var name := CheckpointName(n);
    assert !IsSpace(PrintNat(n)[|PrintNat(n)| - 1]) by {
      assert PrintNat(n)[|PrintNat(n)| - 1] in PrintNat(n);
    }
    assert name[0] == 'c' && !IsSpace(name[0]);
    assert name[|name| - 1] == PrintNat(n)[|PrintNat(n)| - 1];
  }

  lemma {:induction false} NamesAreVisible(s: Store)
    requires WellFormed(s)
    ensures "" !in s.snapshots
  {
    forall id | id in s.order
      ensures id != ""
    {
      var k :| 0 <= k < |s.order| && s.order[k] == id;
      NameIsTrimmed(k);
    }
  }

  lemma {:induction false} TakenNames(names: set<string>, a: nat, b: nat)
    requires a <= b && forall k :: a <= k < b ==> CheckpointName(k) in names
    ensures b - a <= |names|
    decreases b
  {
    if a < b {
      var last := CheckpointName(b - 1);
      forall k | a <= k < b - 1
        ensures CheckpointName(k) in names - {last}
      {
        if CheckpointName(k) == last { CheckpointNameInjective(k, b - 1); }
      }
      TakenNames(names - {last}, a, b - 1);
    }
  }

  datatype Store = Store(files: Files, snapshots: map<string, Files>, order: seq<string>)

  /** The n-th checkpoint taken is named after n. */
  ghost predicate WellFormed(s: Store) {
    && |s.order| >= 1
    && (forall k :: 0 <= k < |s.order| ==> s.order[k] == CheckpointName(k))
    && (forall id :: id in s.snapshots <==> id in s.order)
  }

  datatype Command =
    | Write(path: string, content: string)
    | Delete(path: string)
    | Patch(ops: seq<Operation>, dryRun: bool)
    | TakeCheckpoint
    | Restore(id: string)

  /** What a command leaves; a refused command leaves the store as it was. */
  function Exec(s: Store, cmd: Command, clean: Cleaner): Store {
    match cmd
    case Write(path, content) =>
      if IsInvalidPath(clean(path), clean) then s else s.(files := s.files[clean(path) := content])
    case Delete(path) => if IsInvalidPath(clean(path), clean) then s else s.(files := s.files - {clean(path)})
    case Patch(ops, dryRun) =>
      (match ApplyOps(s.files, Cleaned(ops, clean), clean)
       case Err(_) => s
       case Ok(p) => if dryRun || ops == [] then s else s.(files := p.files))
    case TakeCheckpoint =>
      var id := CheckpointName(|s.order|);
      s.(snapshots := s.snapshots[id := s.files], order := s.order + [id])
    case Restore(id) => if TrimSpace(id) in s.snapshots then s.(files := s.snapshots[TrimSpace(id)]) else s
  }

  function Run(s: Store, cmds: seq<Command>, clean: Cleaner): Store
    decreases |cmds|
  {
    if cmds == [] then s else Run(Exec(s, cmds[0], clean), cmds[1..], clean)
  }

  // ----- What every run keeps -----

  lemma {:induction false} NextNameFresh(s: Store)
    requires WellFormed(s)
    ensures CheckpointName(|s.order|) !in s.snapshots
  {
    var id := CheckpointName(|s.order|);
    if id in s.order {
      var k :| 0 <= k < |s.order| && s.order[k] == id;
      CheckpointNameInjective(k, |s.order|);
    }
  }

  lemma {:induction false} ExecKeeps(s: Store, cmd: Command, clean: Cleaner)
    requires WellFormed(s)
    ensures var s' := Exec(s, cmd, clean);
            && WellFormed(s') && s.order <= s'.order
            && forall id :: id in s.snapshots ==> id in s'.snapshots && s'.snapshots[id] == s.snapshots[id]
  {
    hide ApplyOps, CheckpointName, TrimSpace, Cleaned, IsInvalidPath;
    if cmd.TakeCheckpoint? {
      NextNameFresh(s);
    }
  }

  /** Checkpoints keep their names and their contents over every run. */
  lemma {:induction false} RunKeepsSnapshots(s: Store, cmds: seq<Command>, clean: Cleaner)
    requires WellFormed(s)
    ensures var s' := Run(s, cmds, clean);
            && WellFormed(s') && s.order <= s'.order
            && forall id :: id in s.snapshots ==> id in s'.snapshots && s'.snapshots[id] == s.snapshots[id]
    decreases |cmds|
  {
    hide Exec;
    if cmds != [] {
      ExecKeeps(s, cmds[0], clean);
      RunKeepsSnapshots(Exec(s, cmds[0], clean), cmds[1..], clean);
    }
  }

  /** Restoring a checkpoint gives the files it was taken from, whatever happened in between. */
  lemma {:induction false} RestoreAfterAnyRun(s: Store, cmds: seq<Command>, clean: Cleaner)
    requires WellFormed(s)
    ensures var id := CheckpointName(|s.order|);
            && id !in s.snapshots
            && Exec(Run(Exec(s, TakeCheckpoint, clean), cmds, clean), Restore(id), clean).files == s.files
  {
    hide Run, Exec, WellFormed, CheckpointName, TrimSpace;
    var id := CheckpointName(|s.order|);
    NextNameFresh(s);
    NameIsTrimmed(|s.order|);
    ExecKeeps(s, TakeCheckpoint, clean);
    CheckpointTaken(s, clean);
    RunKeepsSnapshots(Exec(s, TakeCheckpoint, clean), cmds, clean);
    Restored(Run(Exec(s, TakeCheckpoint, clean), cmds, clean), id, clean);
  }

  lemma {:induction false} CheckpointTaken(s: Store, clean: Cleaner)
    ensures var id, s' := CheckpointName(|s.order|), Exec(s, TakeCheckpoint, clean);
            id in s'.snapshots && s'.snapshots[id] == s.files
  {
    hide CheckpointName;
  }

  lemma {:induction false} Restored(s: Store, id: string, clean: Cleaner)
    requires TrimSpace(id) == id && id in s.snapshots
    ensures Exec(s, Restore(id), clean).files == s.snapshots[id]
  {
    hide TrimSpace;
  }

  /** The command does not name the path. */
  predicate Avoids(cmd: Command, path: string, clean: Cleaner) {
    match cmd
    case Write(p, _) => clean(p) != path
    case Delete(p) => clean(p) != path
    case Patch(ops, dryRun) => dryRun || !Touches(Cleaned(ops, clean), path)
    case TakeCheckpoint => true
    case Restore(_) => false
  }

  predicate AllAvoid(cmds: seq<Command>, path: string, clean: Cleaner) {
    forall i :: 0 <= i < |cmds| ==> Avoids(cmds[i], path, clean)
  }

  lemma {:induction false} AvoidStep(s: Store, cmd: Command, path: string, clean: Cleaner)
    requires Avoids(cmd, path, clean)
    ensures SameAt(s.files, Exec(s, cmd, clean).files, path)
  {
    hide ApplyOps, Cleaned, IsInvalidPath, CheckpointName, TrimSpace, Touches;
    if cmd.Patch? && !cmd.dryRun && ApplyOps(s.files, Cleaned(cmd.ops, clean), clean).Ok? {
      LastOperationWins(s.files, Cleaned(cmd.ops, clean), path, clean);
    }
  }

  lemma {:induction false} AvoidRun(s: Store, cmds: seq<Command>, path: string, clean: Cleaner)
    requires AllAvoid(cmds, path, clean)
    ensures SameAt(s.files, Run(s, cmds, clean).files, path)
    decreases |cmds|
  {
    hide Exec, Avoids;
    if cmds != [] {
      AvoidStep(s, cmds[0], path, clean);
      AvoidRun(Exec(s, cmds[0], clean), cmds[1..], path, clean);
      SameAtOn(s.files, Exec(s, cmds[0], clean).files, Run(s, cmds, clean).files, path);
    }
  }

  /** A file inside the workspace holds what was written last, and is gone once deleted, until a command names it again. */
  lemma {:induction false} WrittenStays(s: Store, path: string, content: string, more: seq<Command>, clean: Cleaner)
    requires AllAvoid(more, clean(path), clean)
    ensures var written, deleted := Run(s, [Write(path, content)] + more, clean), Run(s, [Delete(path)] + more, clean);
            if LeavesWorkspace(clean(clean(path))) then
              SameAt(s.files, written.files, clean(path)) && SameAt(s.files, deleted.files, clean(path))
            else
              clean(path) in written.files && written.files[clean(path)] == content && clean(path) !in deleted.files
  {
    hide LeavesWorkspace, AllAvoid, TrimSpace, CheckpointName, ApplyOps, Cleaned;
    assert ([Write(path, content)] + more)[1..] == more && ([Delete(path)] + more)[1..] == more;
    var written, deleted := Exec(s, Write(path, content), clean), Exec(s, Delete(path), clean);
    AvoidRun(written, more, clean(path), clean);
    AvoidRun(deleted, more, clean(path), clean);
  }

  // ----- MemoryStore -----

  datatype StoreError = StorePatchError(PatchError) | FileNotFound | BadPath | CheckpointNotFound

  class MemoryStore {
    var files: FileMap
    var checkpoints: map<string, FileMap>
    var order: seq<string>
    var next: nat

    /** The store's value; no checkpoint shares its map with the working files. */
    ghost function Value(): Store
      reads this, files, checkpoints.Values
    {
      Store(files.entries, map id | id in checkpoints :: checkpoints[id].entries, order)
    }

    ghost predicate Valid()
      reads this, files, checkpoints.Values
    {
      && files !in checkpoints.Values
      && next == |order|
      && WellFormed(Value())
    }

    /** NewMemoryStore */
    constructor (seed: Files)
      ensures Valid() && fresh(files) && fresh(checkpoints.Values)
      ensures Value() == Store(seed, map[CheckpointName(0) := seed], [CheckpointName(0)])
    {
      files := new FileMap(seed);
      var copy := new FileMap(seed);
      checkpoints := map[CheckpointName(0) := copy];
      order := [CheckpointName(0)];
      next := 1;
    }

    method WriteFile(path: string, content: string, clean: Cleaner) returns (ok: bool)
      requires Valid()
      modifies files
      ensures Valid() && Value() == Exec(old(Value()), Write(path, content), clean)
      ensures ok <==> !IsInvalidPath(clean(path), clean)
    {
      var name := clean(path);
      if IsInvalidPath(name, clean) {
        return false;
      }
      files.entries := files.entries[name := content];
      return true;
    }

    method DeleteFile(path: string, clean: Cleaner) returns (r: Result<(), StoreError>)
      requires Valid()
      modifies files
      ensures Valid() && Value() == Exec(old(Value()), Delete(path), clean)
      ensures r.Ok? <==> !IsInvalidPath(clean(path), clean) && clean(path) in old(files.entries)
    {
      var name := clean(path);
      if IsInvalidPath(name, clean) {
        return Err(BadPath);
      }
      if name !in files.entries {
        assert files.entries - {name} == files.entries;
        return Err(FileNotFound);
      }
      files.entries := files.entries - {name};
      return Ok(());
    }

    method ApplyPatch(ops: seq<Operation>, dryRun: bool, clean: Cleaner) returns (r: Result<seq<Change>, StoreError>)
      requires Valid()
      modifies files
      ensures Valid() && Value() == Exec(old(Value()), Patch(ops, dryRun), clean)
      ensures r.Ok? <==> ops != [] && ApplyOps(old(files.entries), Cleaned(ops, clean), clean).Ok?
      ensures r.Ok? ==> r.value == ApplyOps(old(files.entries), Cleaned(ops, clean), clean).value.changes
    {
      hide ApplyOps, Cleaned, CheckpointName, AllHonoured, RefusedAt, Replay;
      if |ops| == 0 {
        return Err(StorePatchError(NoOperations));
      }
      var applied := ApplyPatchToFiles(files, ops, dryRun, clean);
      if applied.Err? {
        return Err(StorePatchError(applied.error));
      }
      return Ok(applied.value);
    }

    /** nextIDLocked: the first unused name from next on */
    method NextID() returns (id: string)
      modifies this`next
      ensures next > old(next) && id == CheckpointName(next - 1) && id !in checkpoints
      ensures forall k :: old(next) <= k < next - 1 ==> CheckpointName(k) in checkpoints
    {
      while true
        invariant old(next) <= next
        invariant forall k :: old(next) <= k < next ==> CheckpointName(k) in checkpoints
        decreases |checkpoints.Keys| + old(next) - next
      {
        id := CheckpointName(next);
        next := next + 1;
        if id !in checkpoints {
          return;
        }
        TakenNames(checkpoints.Keys, old(next), next);
      }
    }

    method Checkpoint(clean: Cleaner) returns (id: string)
      requires Valid()
      modifies this
      ensures Valid() && files == old(files) && fresh(checkpoints.Values - old(checkpoints.Values))
      ensures id !in old(checkpoints) && id in checkpoints
      ensures Value() == Exec(old(Value()), TakeCheckpoint, clean)
    {
      hide CheckpointName, WellFormed;
      ghost var before := Value();
      ExecKeeps(before, TakeCheckpoint, clean);
      NextNameFresh(before);
      id := NextID();
      assert next == old(next) + 1 && Value() == before;
      var copy := new FileMap(files.entries);
      AddCheckpoint(id, copy);
    }

    /** s.checkpoints[cp.ID] = snapshot{...} and the append to s.order */
    method AddCheckpoint(id: string, copy: FileMap)
      requires files !in checkpoints.Values && copy != files && id !in checkpoints
      modifies this`checkpoints, this`order
      ensures checkpoints == old(checkpoints)[id := copy] && order == old(order) + [id]
      ensures files !in checkpoints.Values && checkpoints.Values <= old(checkpoints.Values) + {copy}
      ensures Value() == Store(files.entries, old(Value()).snapshots[id := copy.entries], old(order) + [id])
    {
      checkpoints := checkpoints[id := copy];
      order := order + [id];
      assert checkpoints.Values <= old(checkpoints.Values) + {copy};
    }

    method RestoreCheckpoint(name: string, clean: Cleaner) returns (r: Result<(), StoreError>)
      requires Valid()
      modifies this
      ensures Valid() && checkpoints == old(checkpoints)
      ensures Value() == Exec(old(Value()), Restore(name), clean)
      ensures r.Ok? <==> TrimSpace(name) in old(checkpoints)
      ensures r.Ok? ==> fresh(files)
    {
      hide TrimSpace, CheckpointName;
      var id := TrimSpace(name);
      if id == "" {
        NamesAreVisible(Value());
        return Err(CheckpointNotFound);
      }
      if id !in checkpoints {
        return Err(CheckpointNotFound);
      }
      var copy := new FileMap(checkpoints[id].entries);
      assert copy !in checkpoints.Values;
      files := copy;
      return Ok(());
    }

    method Diff(baseID: string) returns (r: Result<seq<Change>, StoreError>)
      requires Valid()
      ensures var id := if TrimSpace(baseID) == "" then CheckpointName(0) else baseID;
              && (r.Ok? <==> id in checkpoints)
              && (r.Ok? ==> && IsDiff(checkpoints[id].entries, files.entries, r.value)
                            && Replay(r.value, checkpoints[id].entries) == files.entries)
    {
      var id := if TrimSpace(baseID) == "" then CheckpointName(0) else baseID;
      if id !in checkpoints {
        return Err(CheckpointNotFound);
      }
      var changes := DiffFiles(checkpoints[id].entries, files.entries);
      DiffReplays(checkpoints[id].entries, files.entries, changes);
      return Ok(changes);
    }
  }

  // ----- OSStore -----

  class OSStore {
    var disk: Files

    constructor (disk: Files)
      ensures this.disk == disk
    {
      this.disk := disk;
    }

    /** restoreFilesLocked: delete every file, then write the new ones in name order */
    method RestoreFiles(files: Files)
      modifies this
      ensures disk == files
    {
      var current := SortedNames(disk.Keys);
      for i := 0 to |current|
        invariant forall x :: x in disk ==> x in current[i..]
      {
        assert current[i..] == [current[i]] + current[i + 1..];
        disk := disk - {current[i]};
      }
      assert disk.Keys == {};
      var names := SortedNames(files.Keys);
      for i := 0 to |names|
        invariant forall x :: x in disk <==> x in names[..i]
        invariant forall x :: x in disk ==> disk[x] == files[x]
      {
        assert names[..i + 1] == names[..i] + [names[i]];
        assert names[i] in names;
        disk := disk[names[i] := files[names[i]]];
      }
      assert names[..|names|] == names;
      assert disk.Keys == files.Keys;
    }

    /** currentAfter */
    method CurrentAfter(changes: seq<Change>, current: Files) returns (next: Files)
      ensures next == Replay(changes, current)
    {
      next := current;
      for i := 0 to |changes|
        invariant next == Replay(changes[..i], current)
      {
        assert changes[..i + 1][..i] == changes[..i];
        if changes[i].kind.Deleted? {
          next := next - {changes[i].path};
          continue;
        }
        next := next[changes[i].path := changes[i].after];
      }
      assert changes[..|changes|] == changes;
    }

    /** applyPatchLocked: dry run on a copy, replay of the change log, rewrite of the directory */
    method ApplyPatch(ops: seq<Operation>, dryRun: bool, clean: Cleaner) returns (r: Result<seq<Change>, StoreError>)
      modifies this
      ensures r.Ok? <==> ops != [] && ApplyOps(old(disk), Cleaned(ops, clean), clean).Ok?
      ensures r.Ok? ==> r.value == ApplyOps(old(disk), Cleaned(ops, clean), clean).value.changes
      ensures disk == Exec(Store(old(disk), map[], []), Patch(ops, dryRun), clean).files
    {
      hide ApplyOps, Replay;
      if |ops| == 0 {
        return Err(StorePatchError(NoOperations));
      }
      var current := new FileMap(disk);
      var result := ApplyPatchToFiles(current, ops, true, clean);
      if result.Err? {
        return Err(StorePatchError(result.error));
      }
      if dryRun {
        return Ok(result.value);
      }
      PatchIsReplayed(disk, Cleaned(ops, clean), clean);
      var next := CurrentAfter(result.value, current.entries);
      RestoreFiles(next);
      return Ok(result.value);
    }
  }

  // ----- Unified diffs as guarded operations -----

  /** unifiedPatchPath */
  function PatchPath(p: FilePatch): string {
    if p.newPath != "" && p.newPath != DEV_NULL then p.newPath else p.oldPath
  }

  /** The operation unifiedDiffOperations derives from one file patch. */
  function OperationOf(p: FilePatch, files: Files, clean: Cleaner): Option<Operation> {
    var path := PatchPath(p);
    if IsInvalidPath(path, clean) then None
    else if (p.oldPath == DEV_NULL) == (path in files) then None
    else
      match PatchText(Lookup(files, path), path in files, p)
      case None => None
      case Some(after) =>
        Some(Operation(path,
                       if p.oldPath == DEV_NULL then None else Some(Lookup(files, path)),
                       if p.newPath == DEV_NULL then None else Some(after)))
  }

  function OperationsOf(patches: seq<FilePatch>, files: Files, clean: Cleaner): Option<seq<Operation>> {
    if patches == [] then Some([])
    else
      match (OperationsOf(patches[..|patches| - 1], files, clean), OperationOf(patches[|patches| - 1], files, clean))
      case (Some(ops), Some(op)) => Some(ops + [op])
      case _ => None
  }

  datatype DiffError =
    | Unparsed(ParseError) | NoFilePatches | BadDiffPath | AddedFileExists | PatchedFileMissing | Inapplicable(ApplyError)

  /** Why one file patch gives no operation. */
  ghost predicate PatchRefused(p: FilePatch, files: Files, clean: Cleaner, e: DiffError) {
    var path := PatchPath(p);
    if IsInvalidPath(path, clean) then e == BadDiffPath
    else if p.oldPath == DEV_NULL && path in files then e == AddedFileExists
    else if p.oldPath != DEV_NULL && path !in files then e == PatchedFileMissing
    else PatchText(Lookup(files, path), path in files, p).None? && e.Inapplicable?
  }

  /** The error is about the first file patch that gives no operation. */
  ghost predicate DiffRefused(patches: seq<FilePatch>, files: Files, clean: Cleaner, e: DiffError) {
    exists i :: && 0 <= i < |patches| && OperationsOf(patches[..i], files, clean).Some?
                && PatchRefused(patches[i], files, clean, e)
  }

  /** The operations of a parsed diff, or the error it is refused with. */
  ghost predicate OutcomeOf(
      parsed: Result<seq<FilePatch>, ParseError>, files: Files, clean: Cleaner, r: Result<seq<Operation>, DiffError>)
  {
    match parsed
    case Err(e) => r == Err(Unparsed(e))
    case Ok(patches) =>
      if patches == [] then r == Err(NoFilePatches)
      else if OperationsOf(patches, files, clean).Some? then r == Ok(OperationsOf(patches, files, clean).value)
      else r.Err? && DiffRefused(patches, files, clean, r.error)
  }

  /** unifiedDiffOperations */
  method UnifiedDiffOperations(diff: string, files: Files, clean: Cleaner) returns (r: Result<seq<Operation>, DiffError>)
    ensures OutcomeOf(ParseDiff(diff, clean), files, clean, r)
  {
    hide ParseDiff, OperationsOf, PatchRefused;
    var parsed := ParseUnifiedDiff(diff, clean);
    if parsed.Err? {
      return Err(Unparsed(parsed.error));
    }
    if |parsed.value| == 0 {
      return Err(NoFilePatches);
    }
    r := OperationsFrom(parsed.value, files, clean);
  }

  /** The loop over the file patches. */
  method OperationsFrom(patches: seq<FilePatch>, files: Files, clean: Cleaner) returns (r: Result<seq<Operation>, DiffError>)
    ensures if OperationsOf(patches, files, clean).Some? then r == Ok(OperationsOf(patches, files, clean).value)
            else r.Err? && DiffRefused(patches, files, clean, r.error)
  {
    hide OperationsOf, PatchText, DiffRefused, IsInvalidPath;
    var ops := [];
    NoOperationsYet(files, clean);
    for i := 0 to |patches|
      invariant OperationsOf(patches[..i], files, clean) == Some(ops)
    {
      var patch := patches[i];
      OneOperationMore(patches, files, i, clean);
      MissingOperation(patches, files, i, clean);
      var path := PatchPath(patch);
      if IsInvalidPath(path, clean) {
        Refuse(patches, files, clean, i, BadDiffPath);
        return Err(BadDiffPath);
      }
      var found := path in files;
      var before := if found then files[path] else "";
      if patch.oldPath == DEV_NULL {
        if found {
          Refuse(patches, files, clean, i, AddedFileExists);
          return Err(AddedFileExists);
        }
      } else if !found {
        Refuse(patches, files, clean, i, PatchedFileMissing);
        return Err(PatchedFileMissing);
      }
      var after := ApplyUnifiedFilePatch(before, found, patch);
      if after.Err? {
        Refuse(patches, files, clean, i, Inapplicable(after.error));
        return Err(Inapplicable(after.error));
      }
      var op := Operation(path,
                          if patch.oldPath != DEV_NULL then Some(before) else None,
                          if patch.newPath != DEV_NULL then Some(after.value) else None);
      ops := ops + [op];
    }
    assert patches[..|patches|] == patches;
    return Ok(ops);
  }

  lemma {:induction false} NoOperationsYet(files: Files, clean: Cleaner)
    ensures OperationsOf([], files, clean) == Some([])
  {
  }

  lemma {:induction false} OneOperationMore(patches: seq<FilePatch>, files: Files, i: nat, clean: Cleaner)
    requires i < |patches|
    ensures OperationsOf(patches[..i], files, clean).Some? && OperationOf(patches[i], files, clean).Some? ==>
              OperationsOf(patches[..i + 1], files, clean) ==
              Some(OperationsOf(patches[..i], files, clean).value + [OperationOf(patches[i], files, clean).value])
  {
    hide OperationOf;
    assert patches[..i + 1][..i] == patches[..i];
  }

  lemma {:induction false} Refuse(patches: seq<FilePatch>, files: Files, clean: Cleaner, i: nat, e: DiffError)
    requires i < |patches| && OperationsOf(patches[..i], files, clean).Some? && PatchRefused(patches[i], files, clean, e)
    ensures DiffRefused(patches, files, clean, e)
  {
    hide OperationsOf, PatchRefused;
  }

  lemma {:induction false} MissingOperation(patches: seq<FilePatch>, files: Files, k: nat, clean: Cleaner)
    requires k < |patches|
    ensures OperationOf(patches[k], files, clean).None? ==> OperationsOf(patches, files, clean).None?
    decreases |patches|
  {
    hide OperationOf;
    if k < |patches| - 1 {
      MissingOperation(patches[..|patches| - 1], files, k, clean);
    }
  }

  /** A patch from nothing to nothing asks to delete /dev/null, which is cleaned to a path in the workspace. */
  predicate NullPatch(p: FilePatch) {
    p.oldPath == DEV_NULL && p.newPath == DEV_NULL
  }

  const CLEANED_NULL := "dev/null"

  /** What cleaning does to /dev/null. */
  predicate CleansNull(clean: Cleaner) {
    clean(DEV_NULL) == CLEANED_NULL && clean(CLEANED_NULL) == CLEANED_NULL
  }

  /** The path of a patch is clean already, unless it is /dev/null. */
  predicate Canonical(p: FilePatch, clean: Cleaner) {
    PatchPath(p) == DEV_NULL || clean(PatchPath(p)) == PatchPath(p)
  }

  function CleanedOp(op: Operation, clean: Cleaner): Operation {
    op.(path := clean(op.path))
  }

  lemma {:induction false} NullIsInside()
    ensures !LeavesWorkspace(CLEANED_NULL) && CLEANED_NULL != DEV_NULL
  {
    assert CLEANED_NULL[0] == 'd' && DEV_NULL[0] == '/';
  }

  lemma {:induction false} OperationAdmissible(p: FilePatch, files: Files, clean: Cleaner)
    requires OperationOf(p, files, clean).Some? && Canonical(p, clean) && CleansNull(clean)
    ensures var op := OperationOf(p, files, clean).value;
            && op.path == PatchPath(p)
            && (Admissible(files, CleanedOp(op, clean), clean) <==> (NullPatch(p) ==> CLEANED_NULL in files))
  {
    NullIsInside();
    hide PatchText, LeavesWorkspace, CLEANED_NULL;
  }

  lemma {:induction false} OperationsAt(patches: seq<FilePatch>, files: Files, clean: Cleaner)
    requires OperationsOf(patches, files, clean).Some?
    ensures var ops := OperationsOf(patches, files, clean).value;
            && |ops| == |patches|
            && forall i :: 0 <= i < |patches| ==> OperationOf(patches[i], files, clean) == Some(ops[i])
    decreases |patches|
  {
    hide OperationOf;
    if patches != [] {
      OperationsAt(patches[..|patches| - 1], files, clean);
    }
  }

  /**
    Operations derived from file patches over distinct clean paths pass all checks, unless some patch has
    /dev/null on both sides and the workspace holds no dev/null; and then every patched path gets its own
    patch and no other path changes.
   */
  lemma {:induction false} UnifiedOperationsPass(patches: seq<FilePatch>, files: Files, clean: Cleaner)
    requires OperationsOf(patches, files, clean).Some? && CleansNull(clean)
    requires forall i :: 0 <= i < |patches| ==> Canonical(patches[i], clean)
    requires forall i, j :: 0 <= i < j < |patches| ==> clean(PatchPath(patches[i])) != clean(PatchPath(patches[j]))
    ensures var ops := Cleaned(OperationsOf(patches, files, clean).value, clean);
            var applied := ApplyOps(files, ops, clean);
            && (applied.Ok? <==> forall i :: 0 <= i < |patches| ==> NullPatch(patches[i]) ==> CLEANED_NULL in files)
            && (applied.Ok? ==> AllCarried(files, ops, applied.value.files))
  {
    hide OperationOf, OperationsOf, ApplyOps, Admissible, NullPatch, PatchPath, AllCarried, Canonical, CleansNull, CLEANED_NULL;
    var raw := OperationsOf(patches, files, clean).value;
    var ops := Cleaned(raw, clean);
    OperationsAt(patches, files, clean);
    forall i | 0 <= i < |patches|
      ensures ops[i].path == clean(PatchPath(patches[i]))
      ensures Admissible(files, ops[i], clean) <==> (NullPatch(patches[i]) ==> CLEANED_NULL in files)
    {
      OperationAdmissible(patches[i], files, clean);
    }
    IndependentOps(files, ops, clean);
  }

  /** The file holds what the patch makes of its text. */
  predicate Holds(path: string, p: FilePatch, before: Files, after: Files, clean: Cleaner) {
    clean(path) in after && PatchText(Lookup(before, path), path in before, p) == Some(after[clean(path)])
  }

  /** The old file of a deletion is gone; the new file of any other patch holds what the patch makes of it. */
  predicate Landed(p: FilePatch, before: Files, after: Files, clean: Cleaner) {
    if p.newPath == DEV_NULL then clean(p.oldPath) !in after
    else Holds(if p.newPath == "" then p.oldPath else p.newPath, p, before, after, clean)
  }

  lemma {:induction false} CarriedLands(p: FilePatch, files: Files, after: Files, clean: Cleaner)
    requires OperationOf(p, files, clean).Some? && Carried(after, CleanedOp(OperationOf(p, files, clean).value, clean))
    ensures Landed(p, files, after, clean)
  {
    hide PatchText, IsInvalidPath;
  }

  /** After a unified diff over distinct clean paths is applied, every file holds the text its own patch gives. */
  lemma {:induction false} UnifiedDiffLands(patches: seq<FilePatch>, files: Files, clean: Cleaner)
    requires OperationsOf(patches, files, clean).Some? && CleansNull(clean)
    requires forall i :: 0 <= i < |patches| ==> Canonical(patches[i], clean)
    requires forall i, j :: 0 <= i < j < |patches| ==> clean(PatchPath(patches[i])) != clean(PatchPath(patches[j]))
    ensures var applied := ApplyOps(files, Cleaned(OperationsOf(patches, files, clean).value, clean), clean);
            applied.Ok? ==>
              && (forall i :: 0 <= i < |patches| ==> Landed(patches[i], files, applied.value.files, clean))
              && forall path :: (forall i :: 0 <= i < |patches| ==> clean(PatchPath(patches[i])) != path) ==>
                   SameAt(files, applied.value.files, path)
  {
    hide OperationOf, OperationsOf, ApplyOps, NullPatch, PatchPath, Canonical, CleansNull, CLEANED_NULL, Landed, Carried, SameAt;
    var raw := OperationsOf(patches, files, clean).value;
    var ops := Cleaned(raw, clean);
    UnifiedOperationsPass(patches, files, clean);
    OperationsAt(patches, files, clean);
    forall i | 0 <= i < |patches|
      ensures raw[i].path == PatchPath(patches[i]) && ops[i] == CleanedOp(raw[i], clean)
    {
      OperationPath(patches[i], files, clean);
    }
    if ApplyOps(files, ops, clean).Ok? {
      var after := ApplyOps(files, ops, clean).value.files;
      forall i | 0 <= i < |patches|
        ensures Landed(patches[i], files, after, clean)
      {
        assert Carried(after, ops[i]);
        CarriedLands(patches[i], files, after, clean);
      }
    }
  }

  lemma {:induction false} OperationPath(p: FilePatch, files: Files, clean: Cleaner)
    requires OperationOf(p, files, clean).Some?
    ensures OperationOf(p, files, clean).value.path == PatchPath(p)
  {
    hide PatchText, IsInvalidPath, PatchPath;
  }

  // ----- A patch with /dev/null on both sides -----

  function EmptyHunk(): Hunk { Hunk(0, 0, 0, 0, []) }

  lemma {:induction false} NullPatchPrints(p: FilePatch, clean: Cleaner)
    requires p == FilePatch(DEV_NULL, DEV_NULL, [EmptyHunk()])
    ensures ParseDiff(PrintDiff([p]), clean) == Ok([p])
  {
    assert OldSide([]) == [] && NewSide([]) == [] && p.hunks == [EmptyHunk()];
    assert PrintableHunk(EmptyHunk());
    assert !HasPrefix(DEV_NULL, "b/") by { assert DEV_NULL[0] == '/'; }
    assert PrintablePatch(p, clean);
    hide ParseDiff, PrintDiff, PrintablePatch;
    ParseOfPrint([p], clean);
  }

  lemma {:induction false} NullPatchText(p: FilePatch)
    requires p == FilePatch(DEV_NULL, DEV_NULL, [EmptyHunk()])
    ensures PatchText("", false, p) == Some("")
  {
    assert OldSide([]) == [] && NewSide([]) == [] && p.hunks[1..] == [];
    assert SplitContent("") == Content([], false);
    var none: seq<string> := [];
    assert none[0..] == none && none[0..0] == none;
    assert ApplyFrom(none, p.hunks[1..], 0) == Some(none);
    assert none[0..0] + NewSide([]) + none == none && OldSide(p.hunks[0].lines) <= none[0..];
    assert ApplyFrom(none, p.hunks, 0) == Some(none);
  }

  /** Such a patch parses and gives an operation; it fails unless the workspace holds dev/null, which it then deletes. */
  lemma {:induction false} NullPatchDeletes(p: FilePatch, files: Files, clean: Cleaner)
    requires p == FilePatch(DEV_NULL, DEV_NULL, [EmptyHunk()]) && CleansNull(clean) && DEV_NULL !in files
    ensures ParseDiff(PrintDiff([p]), clean) == Ok([p])
    ensures OperationsOf([p], files, clean) == Some([Operation(DEV_NULL, None, None)])
    ensures var applied := ApplyOps(files, Cleaned([Operation(DEV_NULL, None, None)], clean), clean);
            && (applied.Ok? <==> CLEANED_NULL in files)
            && (applied.Ok? ==> applied.value.files == files - {CLEANED_NULL})
            && (applied.Err? ==> applied.error == DeleteMissingFile)
  {
    NullPatchPrints(p, clean);
    NullPatchText(p);
    NullIsInside();
    hide ParseDiff, PrintDiff, PatchText, LeavesWorkspace;
    var op := Operation(DEV_NULL, None, None);
    assert OperationOf(p, files, clean) == Some(op);
    NoOperationsYet(files, clean);
    OneOperationMore([p], files, 0, clean);
    assert [p][..0] == [] && [p][..0 + 1] == [p] && [] + [op] == [op];
    var ops := Cleaned([op], clean);
    assert ops[..0] == [] && ops[0] == Operation(CLEANED_NULL, None, None);
    assert ApplyOps(files, [], clean) == Ok(Patched(files, []));
  }
}
